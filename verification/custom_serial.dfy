/** The newer serialisers (`Serial<T>`): a list is read element by element from a
  * sequence node and written as a bracketed sequence; an owning pointer is
  * allocated before reading and skipped when null; a reflectable value reads
  * each field by its name and is written as one map; an ArUco board is a map of
  * its ids and its corner lists. Element readers and writers are parameters: a
  * reader takes the node and the element's current value, a writer gives the
  * element's tokens. */
module CustomSerial {
  import opened Wrappers
  import opened SerialTree
  import Text

  /** `std::vector::resize` on values: the prefix is kept and new slots are value-initialised. */
  function Resized<T>(list: seq<T>, n: nat, zero: T): (r: seq<T>)
    ensures |r| == n
    ensures forall i :: 0 <= i < n && i < |list| ==> r[i] == list[i]
    ensures forall i :: |list| <= i < n ==> r[i] == zero
  {
    if n <= |list| then list[..n] else list + seq(n - |list|, _ => zero)
  }

  /** The message `Parse` throws when a fixed-size list does not match. */
  function SizeError(readSize: nat, size: nat): string
  {
    "parsed sized " + Text.NatToString(readSize) + " != " + " storage size " + Text.NatToString(size)
  }

  /** What parsing the elements `elems` into `list` leaves behind, or what it throws. */
  function ParsedList<A, T>(list: seq<T>, resizable: bool, zero: T, elems: seq<Node<A>>, read: (Node<A>, T) -> T): (r: Result<seq<T>>)
    ensures elems == [] ==> r == Ok(list)
    ensures elems != [] && !resizable && |list| != |elems| ==> r == Err(SizeError(|elems|, |list|))
    ensures elems != [] && (resizable || |list| == |elems|) ==>
      r.Ok? && |r.value| == |elems|
      && forall i :: 0 <= i < |elems| ==> r.value[i] == read(elems[i], if i < |list| then list[i] else zero)
  {
    if elems == [] then Ok(list)
    else
      var base := if resizable then Resized(list, |elems|, zero) else list;
      if |base| != |elems| then Err(SizeError(|elems|, |list|))
      else Ok(seq(|elems|, i requires 0 <= i < |elems| => read(elems[i], base[i])))
  }

  /** A list held by reference; `resizable` is false for a `std::array`. */
  class ListRef<T> {
    var elems: seq<T>
    const resizable: bool
    /** The value-initialised element. */
    const zero: T

    constructor (elems: seq<T>, resizable: bool, zero: T)
      ensures this.elems == elems && this.resizable == resizable && this.zero == zero
    {
      this.elems := elems;
      this.resizable := resizable;
      this.zero := zero;
    }

    /** `Serial<T>::Parse` for a list: an empty sequence changes nothing, a
      * resizable list takes the sequence's length, a fixed-size list of another
      * length throws before anything is assigned, and the elements are read pairwise. */
    method Parse<A>(node: Node<A>, read: (Node<A>, T) -> T) returns (r: Result<()>)
      modifies this
      ensures ParsedList(old(elems), resizable, zero, Elements(node), read).Ok? ==>
        r.Ok? && elems == ParsedList(old(elems), resizable, zero, Elements(node), read).value
      ensures ParsedList(old(elems), resizable, zero, Elements(node), read).Err? ==>
        r == Err(ParsedList(old(elems), resizable, zero, Elements(node), read).msg) && elems == old(elems)
    {
      var range := Elements(node);
      var readSize := |range|;
      if readSize == 0 {
        return Ok(());
      }
      ghost var start := elems;
      if resizable {
        elems := Resized(elems, readSize, zero);
      }
      if |elems| != readSize {
        return Err(SizeError(readSize, |elems|));
      }
      ghost var base := elems;
      var i := 0;
      while i < |elems|
        invariant 0 <= i <= |elems| == readSize == |base|
        invariant forall j :: 0 <= j < i ==> elems[j] == read(range[j], base[j])
        invariant forall j :: i <= j < |elems| ==> elems[j] == base[j]
      {
        elems := elems[i := read(range[i], elems[i])];
        i := i + 1;
      }
      assert forall j :: 0 <= j < |base| ==> base[j] == if j < |start| then start[j] else zero;
      r := Ok(());
    }
  }

  /** Each element's written tokens. */
  function Pieces<A, T>(list: seq<T>, fmt: T -> seq<Token<A>>): (ps: seq<seq<Token<A>>>)
    ensures |ps| == |list| && forall i :: 0 <= i < |list| ==> ps[i] == fmt(list[i])
  {
    seq(|list|, i requires 0 <= i < |list| => fmt(list[i]))
  }

  /** Each element's node. */
  function Nodes<A, T>(list: seq<T>, enc: T -> Node<A>): (ns: seq<Node<A>>)
    ensures |ns| == |list| && forall i :: 0 <= i < |list| ==> ns[i] == enc(list[i])
  {
    seq(|list|, i requires 0 <= i < |list| => enc(list[i]))
  }

  /** The tokens `Format` writes for a list: a compact sequence for integral elements. */
  function ListTokens<A, T>(list: seq<T>, integral: bool, fmt: T -> seq<Token<A>>): seq<Token<A>>
  {
    [BeginSeq(integral)] + Concat(Pieces(list, fmt)) + [EndSeq]
  }

  /** `Serial<T>::Format` for a list: open, write every element in order, close. */
  method FormatList<A, T>(w: Writer<A>, list: seq<T>, integral: bool, fmt: T -> seq<Token<A>>)
    modifies w
    ensures w.out == old(w.out) + ListTokens(list, integral, fmt)
  {
    w.Emit([BeginSeq(integral)]);
    ghost var head := w.out;
    for i := 0 to |list|
      invariant w.out == head + Concat(Pieces(list[..i], fmt))
    {
      ConcatSnoc(Pieces(list[..i], fmt), fmt(list[i]));
      assert Pieces(list[..i + 1], fmt) == Pieces(list[..i], fmt) + [fmt(list[i])];
      w.Emit(fmt(list[i]));
    }
    assert list[..|list|] == list;
    w.Emit([EndSeq]);
  }

  /** A written list reads back as itself, whatever it is read into, unless it is
    * empty: an empty list leaves the target unchanged. Its elements must round-trip. */
  lemma ListRoundTrip<A(!new), T>(target: seq<T>, resizable: bool, zero: T, list: seq<T>, integral: bool,
                                  fmt: T -> seq<Token<A>>, enc: T -> Node<A>, read: (Node<A>, T) -> T)
    requires forall x :: Encodes(fmt(x), enc(x))
    requires forall x, y :: read(enc(x), y) == x
    requires resizable || |target| == |list|
    ensures DecodeNode(ListTokens(list, integral, fmt)).Some?
    ensures var node := DecodeNode(ListTokens(list, integral, fmt)).value.0;
      ParsedList(target, resizable, zero, Elements(node), read) == Ok(if list == [] then target else list)
  {
    var pieces := Pieces(list, fmt);
    var nodes := Nodes(list, enc);
    SeqEncodes(integral, pieces, nodes);
    assert ListTokens(list, integral, fmt) + [] == ListTokens(list, integral, fmt);
    assert DecodeNode(ListTokens(list, integral, fmt)) == Some((Items(nodes), []));
    if list != [] {
      var r := ParsedList(target, resizable, zero, nodes, read);
      forall i | 0 <= i < |list|
        ensures r.value[i] == list[i]
      {
        assert nodes[i] == enc(list[i]);
      }
      assert r.value == list;
    }
  }

  /** `Serial<std::unique_ptr<T>>::Parse`: a null pointer gets a new element first. */
  function ParsePtr<A, T>(node: Node<A>, p: Option<T>, zero: T, read: (Node<A>, T) -> T): (r: Option<T>)
    ensures r.Some?
    ensures p.None? ==> r.value == read(node, zero)
    ensures p.Some? ==> r.value == read(node, p.value)
  {
    Some(read(node, if p.Some? then p.value else zero))
  }

  /** `Serial<std::unique_ptr<T>>::Format`: a null pointer writes nothing. */
  function FormatPtr<A, T>(p: Option<T>, fmt: T -> seq<Token<A>>): (ts: seq<Token<A>>)
    ensures p.None? ==> ts == []
    ensures p.Some? ==> ts == fmt(p.value)
  {
    if p.Some? then fmt(p.value) else []
  }

  /** A written pointer reads back as the same element, whatever pointer it is read into. */
  lemma PtrRoundTrip<A(!new), T>(x: T, q: Option<T>, zero: T, fmt: T -> seq<Token<A>>, enc: T -> Node<A>, read: (Node<A>, T) -> T)
    requires Encodes(fmt(x), enc(x))
    requires forall y :: read(enc(x), y) == x
    ensures DecodeNode(FormatPtr(Some(x), fmt)) == Some((enc(x), []))
    ensures ParsePtr(enc(x), q, zero, read) == Some(x)
  {
    assert fmt(x) + [] == fmt(x);
  }

  /** A reflectable value: its fields' names, in declaration order, with their values. */
  type Record<T> = seq<(string, T)>

  /** `ReadKey`: a field whose name is missing, or names an empty node, keeps its value. */
  function ReadKey<A, T>(node: Node<A>, key: string, value: T, read: (Node<A>, T) -> T): (r: T)
    ensures Child(node, key).Empty? ==> r == value
    ensures !Child(node, key).Empty? ==> r == read(Child(node, key), value)
  {
    var elem := Child(node, key);
    if elem.Empty? then value else read(elem, value)
  }

  /** `Serial<Reflectable>::Parse`: every field is read by its own name. */
  function ParseRecord<A, T>(node: Node<A>, rec: Record<T>, read: (Node<A>, T) -> T): (r: Record<T>)
    ensures |r| == |rec|
    ensures forall i :: 0 <= i < |rec| ==> r[i] == (rec[i].0, ReadKey(node, rec[i].0, rec[i].1, read))
  {
    seq(|rec|, i requires 0 <= i < |rec| => (rec[i].0, ReadKey(node, rec[i].0, rec[i].1, read)))
  }

  /** `Serial<Reflectable>::Format`: one map holding every field under its name. */
  function RecordTokens<A, T>(rec: Record<T>, fmt: T -> seq<Token<A>>): seq<Token<A>>
  {
    [BeginMap(false)] + Concat(seq(|rec|, i requires 0 <= i < |rec| => EntryTokens(rec[i].0, fmt(rec[i].1)))) + [EndMap]
  }

  /** The map node a written record denotes. */
  function RecordNode<A, T>(rec: Record<T>, enc: T -> Node<A>): Node<A>
  {
    Fields(seq(|rec|, i requires 0 <= i < |rec| => (rec[i].0, enc(rec[i].1))))
  }

  /** Field names of a reflectable type are distinct. */
  predicate DistinctNames<T>(rec: Record<T>)
  {
    forall j, k :: 0 <= j < k < |rec| ==> rec[j].0 != rec[k].0
  }

  /** A written record decodes as the map of its fields' encodings. */
  lemma RecordDecodes<A(!new), T>(rec: Record<T>, fmt: T -> seq<Token<A>>, enc: T -> Node<A>)
    requires forall x :: Encodes(fmt(x), enc(x))
    ensures DecodeNode(RecordTokens(rec, fmt)) == Some((RecordNode(rec, enc), []))
  {
    var names := seq(|rec|, i requires 0 <= i < |rec| => rec[i].0);
    var pieces := seq(|rec|, i requires 0 <= i < |rec| => fmt(rec[i].1));
    var nodes := seq(|rec|, i requires 0 <= i < |rec| => enc(rec[i].1));
    MapEncodes(false, names, pieces, nodes);
    assert Entries(names, pieces) == seq(|rec|, i requires 0 <= i < |rec| => EntryTokens(rec[i].0, fmt(rec[i].1)));
    assert Named(names, nodes) == seq(|rec|, i requires 0 <= i < |rec| => (rec[i].0, enc(rec[i].1)));
    assert RecordTokens(rec, fmt) + [] == RecordTokens(rec, fmt);
  }

  /** Reading the map of a record's encodings into any value of the same type gives the record. */
  lemma RecordParses<A, T>(rec: Record<T>, other: Record<T>, enc: T -> Node<A>, read: (Node<A>, T) -> T)
    requires DistinctNames(rec)
    requires |other| == |rec| && forall i :: 0 <= i < |rec| ==> other[i].0 == rec[i].0
    requires forall x, y :: read(enc(x), y) == x
    requires forall x :: !enc(x).Empty?
    ensures ParseRecord(RecordNode(rec, enc), other, read) == rec
  {
    var node := RecordNode(rec, enc);
    var r := ParseRecord(node, other, read);
    forall i | 0 <= i < |rec|
      ensures r[i] == rec[i]
    {
      FirstNamedDistinct(node.fields, i);
      assert Child(node, rec[i].0) == enc(rec[i].1);
    }
  }

  /** A written record reads back as itself into any value of the same type. */
  lemma RecordRoundTrip<A(!new), T>(rec: Record<T>, other: Record<T>, fmt: T -> seq<Token<A>>, enc: T -> Node<A>, read: (Node<A>, T) -> T)
    requires DistinctNames(rec)
    requires |other| == |rec| && forall i :: 0 <= i < |rec| ==> other[i].0 == rec[i].0
    requires forall x :: Encodes(fmt(x), enc(x))
    requires forall x, y :: read(enc(x), y) == x
    ensures DecodeNode(RecordTokens(rec, fmt)).Some?
    ensures ParseRecord(DecodeNode(RecordTokens(rec, fmt)).value.0, other, read) == rec
  {
    RecordDecodes(rec, fmt, enc);
    forall x
      ensures !enc(x).Empty?
    {
      assert DecodeNode(fmt(x) + []) == Some((enc(x), []));
    }
    RecordParses(rec, other, enc, read);
  }

  /** An ArUco board: marker ids and each marker's corner list. */
  datatype Board<I, C> = Board(ids: seq<I>, corners: seq<C>)

  /** `Serial<cv::Ptr<cv::aruco::Board>>::Parse`: a null board is created, then the
    * two lists are read by key (both are vectors, so neither can throw). */
  function ParseBoard<A, I, C>(node: Node<A>, b: Option<Board<I, C>>, zeroId: I, zeroCorner: C,
                               readId: (Node<A>, I) -> I, readCorner: (Node<A>, C) -> C): (r: Board<I, C>)
    ensures var base := if b.Some? then b.value else Board([], []);
      (Child(node, "ids").Empty? ==> r.ids == base.ids)
      && (Child(node, "corners").Empty? ==> r.corners == base.corners)
      && (!Child(node, "ids").Empty? ==> r.ids == ParsedList(base.ids, true, zeroId, Elements(Child(node, "ids")), readId).value)
      && (!Child(node, "corners").Empty? ==>
            r.corners == ParsedList(base.corners, true, zeroCorner, Elements(Child(node, "corners")), readCorner).value)
  {
    var base := if b.Some? then b.value else Board([], []);
    var ids := Child(node, "ids");
    var corners := Child(node, "corners");
    Board(if ids.Empty? then base.ids else ParsedList(base.ids, true, zeroId, Elements(ids), readId).value,
          if corners.Empty? then base.corners else ParsedList(base.corners, true, zeroCorner, Elements(corners), readCorner).value)
  }

  /** Writing a board: ids as a compact list of integers and the corner lists,
    * inside one map. `Serial<cv::Ptr<cv::aruco::Board>>::Format` writes the corner
    * lists expanded (`cornersFlow` false); the older writer compacts them. */
  function BoardTokens<A, I, C>(b: Board<I, C>, cornersFlow: bool, fmtId: I -> seq<Token<A>>, fmtCorner: C -> seq<Token<A>>): seq<Token<A>>
  {
    [BeginMap(false)] + EntryTokens("ids", ListTokens(b.ids, true, fmtId))
    + EntryTokens("corners", ListTokens(b.corners, cornersFlow, fmtCorner)) + [EndMap]
  }

  /** The map node a written board denotes. */
  function BoardNode<A, I, C>(b: Board<I, C>, encId: I -> Node<A>, encCorner: C -> Node<A>): Node<A>
  {
    Fields([("ids", Items(Nodes(b.ids, encId))), ("corners", Items(Nodes(b.corners, encCorner)))])
  }

  /** A written board decodes as the map of its two lists. */
  lemma BoardDecodes<A(!new), I, C>(b: Board<I, C>, cornersFlow: bool, fmtId: I -> seq<Token<A>>, encId: I -> Node<A>,
                                    fmtCorner: C -> seq<Token<A>>, encCorner: C -> Node<A>)
    requires forall x :: Encodes(fmtId(x), encId(x))
    requires forall x :: Encodes(fmtCorner(x), encCorner(x))
    ensures DecodeNode(BoardTokens(b, cornersFlow, fmtId, fmtCorner)) == Some((BoardNode(b, encId, encCorner), []))
  {
    var idNodes := Nodes(b.ids, encId);
    var cornerNodes := Nodes(b.corners, encCorner);
    SeqEncodes(true, Pieces(b.ids, fmtId), idNodes);
    SeqEncodes(cornersFlow, Pieces(b.corners, fmtCorner), cornerNodes);
    var names := ["ids", "corners"];
    var pieces := [ListTokens(b.ids, true, fmtId), ListTokens(b.corners, cornersFlow, fmtCorner)];
    var nodes := [Items(idNodes), Items(cornerNodes)];
    assert Encodes(pieces[0], nodes[0]);
    assert Encodes(pieces[1], nodes[1]);
    MapEncodes(false, names, pieces, nodes);
    var entries := Entries(names, pieces);
    assert entries[1..][1..] == [];
    assert Concat(entries) == EntryTokens("ids", pieces[0]) + (EntryTokens("corners", pieces[1]) + []);
    assert Named(names, nodes) == BoardNode(b, encId, encCorner).fields;
    assert DecodeNode([BeginMap(false)] + Concat(entries) + [EndMap] + []) == Some((BoardNode(b, encId, encCorner), []));
    assert BoardTokens(b, cornersFlow, fmtId, fmtCorner) == [BeginMap(false)] + Concat(entries) + [EndMap] + [];
  }

  /** The two entries of a board's map are found by their names. */
  lemma BoardChildren<A, I, C>(b: Board<I, C>, encId: I -> Node<A>, encCorner: C -> Node<A>)
    ensures Child(BoardNode(b, encId, encCorner), "ids") == Items(Nodes(b.ids, encId))
    ensures Child(BoardNode(b, encId, encCorner), "corners") == Items(Nodes(b.corners, encCorner))
  {
    var fs := BoardNode(b, encId, encCorner).fields;
    assert fs[1..][0].0 == "corners";
    assert "ids" != "corners";
    assert FirstNamed(fs, "corners") == FirstNamed(fs[1..], "corners");
  }

  /** A written board with markers reads back as itself, into a null board or any other. */
  lemma BoardRoundTrip<A(!new), I, C>(b: Board<I, C>, cornersFlow: bool, target: Option<Board<I, C>>, zeroId: I, zeroCorner: C,
                                      fmtId: I -> seq<Token<A>>, encId: I -> Node<A>, readId: (Node<A>, I) -> I,
                                      fmtCorner: C -> seq<Token<A>>, encCorner: C -> Node<A>, readCorner: (Node<A>, C) -> C)
    requires b.ids != [] && b.corners != []
    requires forall x :: Encodes(fmtId(x), encId(x))
    requires forall x, y :: readId(encId(x), y) == x
    requires forall x :: Encodes(fmtCorner(x), encCorner(x))
    requires forall x, y :: readCorner(encCorner(x), y) == x
    ensures DecodeNode(BoardTokens(b, cornersFlow, fmtId, fmtCorner)).Some?
    ensures ParseBoard(DecodeNode(BoardTokens(b, cornersFlow, fmtId, fmtCorner)).value.0, target, zeroId, zeroCorner, readId, readCorner) == b
  {
    BoardDecodes(b, cornersFlow, fmtId, encId, fmtCorner, encCorner);
    BoardParses(b, target, zeroId, zeroCorner, encId, readId, encCorner, readCorner);
  }

  /** Reading the map of a board's two lists gives the board back. */
  lemma BoardParses<A, I, C>(b: Board<I, C>, target: Option<Board<I, C>>, zeroId: I, zeroCorner: C,
                             encId: I -> Node<A>, readId: (Node<A>, I) -> I, encCorner: C -> Node<A>, readCorner: (Node<A>, C) -> C)
    requires b.ids != [] && b.corners != []
    requires forall x, y :: readId(encId(x), y) == x
    requires forall x, y :: readCorner(encCorner(x), y) == x
    ensures ParseBoard(BoardNode(b, encId, encCorner), target, zeroId, zeroCorner, readId, readCorner) == b
  {
    BoardChildren(b, encId, encCorner);
    var base := if target.Some? then target.value else Board([], []);
    ListParses(base.ids, zeroId, b.ids, encId, readId);
    ListParses(base.corners, zeroCorner, b.corners, encCorner, readCorner);
  }

  /** A resizable list reads the nodes of a non-empty list back as that list. */
  lemma ListParses<A, T>(target: seq<T>, zero: T, list: seq<T>, enc: T -> Node<A>, read: (Node<A>, T) -> T)
    requires list != []
    requires forall x, y :: read(enc(x), y) == x
    ensures ParsedList(target, true, zero, Elements(Items(Nodes(list, enc))), read) == Ok(list)
  {
    var r := ParsedList(target, true, zero, Nodes(list, enc), read);
    forall i | 0 <= i < |list|
      ensures r.value[i] == list[i]
    {
    }
    assert r.value == list;
  }
}
