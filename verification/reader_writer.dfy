/** The older serialisers (`serial::Read` / `serial::Write`): the overload chosen for
  * a type, the iterable reader that resizes and fills a list, and reflectable
  * values whose members may be comments (written, never read) or deprecated keys
  * (read into another member, never written). Owning pointers and boards behave
  * as in the newer serialisers, except that a board's corner lists are compacted. */
module ReaderWriter {
  import opened Wrappers
  import opened SerialTree
  import CS = CustomSerial

  /** What a type offers the dispatcher. */
  datatype Traits = Traits(hasReadSelf: bool, hasWriteSelf: bool, reflectable: bool, iterable: bool, storable: bool)

  /** The branch `Read` or `Write` takes. */
  datatype Route = OwnMethod | Reflect | Iterate | Stream

  /** `Read` exists for a type that offers at least one of these. */
  predicate Readable(t: Traits)
  {
    t.storable || t.reflectable || t.hasReadSelf || t.iterable
  }

  predicate Writable(t: Traits)
  {
    t.storable || t.reflectable || t.hasWriteSelf || t.iterable
  }

  /** `Read`: `ReadSelf` first, then the reflectable reader, then the iterable reader,
    * then stream extraction. */
  function ReadRoute(t: Traits): (r: Route)
    requires Readable(t)
    ensures r == OwnMethod <==> t.hasReadSelf
    ensures r == Reflect <==> !t.hasReadSelf && t.reflectable
    ensures r == Iterate <==> !t.hasReadSelf && !t.reflectable && t.iterable
    ensures r == Stream <==> !t.hasReadSelf && !t.reflectable && !t.iterable
    ensures r == Stream ==> t.storable
  {
    if t.hasReadSelf then OwnMethod
    else if t.reflectable then Reflect
    else if t.iterable then Iterate
    else Stream
  }

  /** `Write`: the same order, with `WriteSelf`. */
  function WriteRoute(t: Traits): (r: Route)
    requires Writable(t)
    ensures r == OwnMethod <==> t.hasWriteSelf
    ensures r == Reflect <==> !t.hasWriteSelf && t.reflectable
    ensures r == Iterate <==> !t.hasWriteSelf && !t.reflectable && t.iterable
    ensures r == Stream <==> !t.hasWriteSelf && !t.reflectable && !t.iterable
    ensures r == Stream ==> t.storable
  {
    if t.hasWriteSelf then OwnMethod
    else if t.reflectable then Reflect
    else if t.iterable then Iterate
    else Stream
  }

  /** A type with its own reader and writer is never read one way and written another. */
  lemma OwnMethodsPaired(t: Traits)
    requires Readable(t) && Writable(t)
    requires t.hasReadSelf == t.hasWriteSelf
    ensures ReadRoute(t) == WriteRoute(t)
  {
  }

  /** What `ReadIterable` leaves in the list: nothing changes for an empty node; a
    * resizable list first takes the node's length; then every slot reads the
    * element at its position. */
  function ReadIterableSpec<A, T>(list: seq<T>, resizable: bool, zero: T, elems: seq<Node<A>>, read: (Node<A>, T) -> T): (r: seq<T>)
    requires resizable || elems == [] || |list| <= |elems|
    ensures elems == [] ==> r == list
    ensures elems != [] && resizable ==> |r| == |elems|
    ensures !resizable ==> |r| == |list|
    ensures elems != [] ==> forall i :: 0 <= i < |r| ==> r[i] == read(elems[i], if i < |list| then list[i] else zero)
  {
    if elems == [] then list
    else
      var base := if resizable then CS.Resized(list, |elems|, zero) else list;
      seq(|base|, i requires 0 <= i < |base| => read(elems[i], base[i]))
  }

  /** `ReadIterable`. A fixed-size list longer than the node would be read past the
    * node's end, so the node must be at least as long. */
  method ReadIterable<A, T>(list: CS.ListRef<T>, node: Node<A>, read: (Node<A>, T) -> T)
    requires list.resizable || Elements(node) == [] || |list.elems| <= |Elements(node)|
    modifies list
    ensures list.elems == ReadIterableSpec(old(list.elems), list.resizable, list.zero, Elements(node), read)
  {
    var it := Elements(node);
    var readSize := |it|;
    if readSize == 0 {
      return;
    }
    if list.resizable {
      list.elems := CS.Resized(list.elems, readSize, list.zero);
    }
    ghost var base := list.elems;
    var i := 0;
    while i < |list.elems|
      invariant |list.elems| == |base| <= readSize
      invariant 0 <= i <= |list.elems|
      invariant forall j :: 0 <= j < i ==> list.elems[j] == read(it[j], base[j])
      invariant forall j :: i <= j < |list.elems| ==> list.elems[j] == base[j]
    {
      list.elems := list.elems[i := read(it[i], list.elems[i])];
      i := i + 1;
    }
  }

  /** Where the newer list parser succeeds the older reader leaves the same list;
    * a fixed-size list shorter than the node, which the newer parser rejects, is
    * filled from the node's first elements. */
  lemma IterableAgreesWithParse<A, T>(list: seq<T>, resizable: bool, zero: T, elems: seq<Node<A>>, read: (Node<A>, T) -> T)
    requires resizable || elems == [] || |list| <= |elems|
    ensures CS.ParsedList(list, resizable, zero, elems, read).Ok? ==>
      CS.ParsedList(list, resizable, zero, elems, read).value == ReadIterableSpec(list, resizable, zero, elems, read)
    ensures CS.ParsedList(list, resizable, zero, elems, read).Err? <==> (elems != [] && !resizable && |list| < |elems|)
    ensures elems != [] && !resizable ==> ReadIterableSpec(list, resizable, zero, elems, read) == ReadIterableSpec(list, resizable, zero, elems[..|list|], read)
  {
    var p := CS.ParsedList(list, resizable, zero, elems, read);
    var r := ReadIterableSpec(list, resizable, zero, elems, read);
    if p.Ok? && elems != [] {
      assert |p.value| == |r|;
      forall i | 0 <= i < |r|
        ensures p.value[i] == r[i]
      {
      }
    }
    if elems != [] && !resizable {
      if list == [] {
        assert r == [];
      } else {
        var short := ReadIterableSpec(list, resizable, zero, elems[..|list|], read);
        forall i | 0 <= i < |r|
          ensures r[i] == short[i]
        {
          assert elems[..|list|][i] == elems[i];
        }
      }
    }
  }

  /** `WriteIterable`: a list of lists or of integers is compacted (`[:`). */
  method WriteIterable<A, T>(w: Writer<A>, list: seq<T>, elemIterable: bool, integral: bool, fmt: T -> seq<Token<A>>)
    modifies w
    ensures w.out == old(w.out) + CS.ListTokens(list, elemIterable || integral, fmt)
  {
    CS.FormatList(w, list, elemIterable || integral, fmt);
  }

  /** A member of a reflectable type: a value, a comment, or a deprecated key whose
    * value belongs to the member at index `target`. */
  datatype Member<T> = Live(name: string, value: T) | Remark(text: string) | Deprecated(name: string, target: nat)

  /** Every deprecated key refers to a value member. */
  predicate WellFormed<T>(ms: seq<Member<T>>)
  {
    forall i :: 0 <= i < |ms| && ms[i].Deprecated? ==> ms[i].target < |ms| && ms[ms[i].target].Live?
  }

  /** Names of value members and deprecated keys are all distinct. */
  predicate DistinctNames<T>(ms: seq<Member<T>>)
  {
    forall j, k :: 0 <= j < k < |ms| && !ms[j].Remark? && !ms[k].Remark? ==> ms[j].name != ms[k].name
  }

  /** The tokens one member writes: a keyed value, a comment, or nothing. */
  function MemberTokens<A, T>(m: Member<T>, fmt: T -> seq<Token<A>>): (ts: seq<Token<A>>)
    ensures m.Deprecated? <==> ts == []
  {
    match m
    case Live(name, v) => EntryTokens(name, fmt(v))
    case Remark(text) => [Note(text)]
    case Deprecated(_, _) => []
  }

  function MemberPieces<A, T>(ms: seq<Member<T>>, fmt: T -> seq<Token<A>>): (ps: seq<seq<Token<A>>>)
    ensures |ps| == |ms| && forall i :: 0 <= i < |ms| ==> ps[i] == MemberTokens(ms[i], fmt)
  {
    seq(|ms|, i requires 0 <= i < |ms| => MemberTokens(ms[i], fmt))
  }

  /** Writing a reflectable value: a flow map (`{:`) when it has at most four members. */
  function RecordTokens<A, T>(ms: seq<Member<T>>, fmt: T -> seq<Token<A>>): seq<Token<A>>
  {
    [BeginMap(|ms| <= 4)] + Concat(MemberPieces(ms, fmt)) + [EndMap]
  }

  /** The map node a written record denotes: its value members, in order. */
  function LiveNamed<A, T>(ms: seq<Member<T>>, enc: T -> Node<A>): seq<(string, Node<A>)>
  {
    if ms == [] then []
    else (if ms[0].Live? then [(ms[0].name, enc(ms[0].value))] else []) + LiveNamed(ms[1..], enc)
  }

  /** Reading member `i`: a value member reads its own key; a deprecated key read by
    * its own name overwrites its target member; a comment reads nothing. */
  function ReadMember<A, T>(node: Node<A>, ms: seq<Member<T>>, i: nat, read: (Node<A>, T) -> T): (r: seq<Member<T>>)
    requires WellFormed(ms) && i < |ms|
    ensures |r| == |ms| && WellFormed(r)
    ensures forall j :: 0 <= j < |ms| ==> r[j].Live? == ms[j].Live? && (r[j].Live? ==> r[j].name == ms[j].name)
    ensures forall j :: 0 <= j < |ms| && !ms[j].Live? ==> r[j] == ms[j]
    ensures ms[i].Live? ==> r == ms[i := Live(ms[i].name, CS.ReadKey(node, ms[i].name, ms[i].value, read))]
    ensures ms[i].Remark? ==> r == ms
    ensures ms[i].Deprecated? ==> var t := ms[i].target;
      r == ms[t := ms[t].(value := CS.ReadKey(node, ms[i].name, ms[t].value, read))]
  {
    match ms[i]
    case Live(n, v) => ms[i := Live(n, CS.ReadKey(node, n, v, read))]
    case Remark(_) => ms
    case Deprecated(n, t) => ms[t := ms[t].(value := CS.ReadKey(node, n, ms[t].value, read))]
  }

  /** Reading a reflectable value: every member from `i` on, in declaration order. */
  function ReadMembers<A, T>(node: Node<A>, ms: seq<Member<T>>, i: nat, read: (Node<A>, T) -> T): (r: seq<Member<T>>)
    requires WellFormed(ms)
    ensures |r| == |ms| && WellFormed(r)
    ensures forall j :: 0 <= j < |ms| ==> r[j].Live? == ms[j].Live? && (r[j].Live? ==> r[j].name == ms[j].name)
    ensures forall j :: 0 <= j < |ms| && !ms[j].Live? ==> r[j] == ms[j]
    decreases |ms| - i
  {
    if i >= |ms| then ms else ReadMembers(node, ReadMember(node, ms, i, read), i + 1, read)
  }

  /** The members of a record decode one after another: comments are skipped and
    * deprecated keys are absent. */
  lemma {:induction false} DecodeMembers<A(!new), T>(ms: seq<Member<T>>, fmt: T -> seq<Token<A>>, enc: T -> Node<A>,
                                                     acc: seq<(string, Node<A>)>, rest: seq<Token<A>>)
    requires forall x :: Encodes(fmt(x), enc(x))
    ensures DecodeFields(Concat(MemberPieces(ms, fmt)) + [EndMap] + rest, acc) == Some((Fields(acc + LiveNamed(ms, enc)), rest))
    decreases |ms|
  {
    if ms == [] {
      assert Concat(MemberPieces(ms, fmt)) + [EndMap] + rest == [EndMap] + rest;
      assert acc + LiveNamed(ms, enc) == acc;
    } else {
      var tail := Concat(MemberPieces(ms[1..], fmt)) + [EndMap] + rest;
      assert MemberPieces(ms, fmt)[1..] == MemberPieces(ms[1..], fmt);
      var ts := Concat(MemberPieces(ms, fmt)) + [EndMap] + rest;
      assert ts == MemberTokens(ms[0], fmt) + tail;
      match ms[0]
      case Live(n, v) =>
        assert ts[1..] == fmt(v) + tail;
        assert DecodeNode(fmt(v) + tail) == Some((enc(v), tail));
        DecodeMembers(ms[1..], fmt, enc, acc + [(n, enc(v))], rest);
        assert acc + [(n, enc(v))] + LiveNamed(ms[1..], enc) == acc + LiveNamed(ms, enc);
      case Remark(text) =>
        assert ts[1..] == tail;
        DecodeMembers(ms[1..], fmt, enc, acc, rest);
        assert LiveNamed(ms, enc) == LiveNamed(ms[1..], enc);
      case Deprecated(_, _) =>
        assert ts == tail;
        DecodeMembers(ms[1..], fmt, enc, acc, rest);
        assert LiveNamed(ms, enc) == LiveNamed(ms[1..], enc);
    }
  }

  /** Looking a name up in a written record: a value member's own encoding, and
    * nothing for a name no value member carries. */
  lemma {:induction false} LookupLive<A, T>(ms: seq<Member<T>>, enc: T -> Node<A>, key: string)
    requires DistinctNames(ms)
    ensures (forall j :: 0 <= j < |ms| && ms[j].Live? ==> ms[j].name != key) ==> FirstNamed(LiveNamed(ms, enc), key).Empty?
    ensures forall j :: 0 <= j < |ms| && ms[j].Live? && ms[j].name == key ==> FirstNamed(LiveNamed(ms, enc), key) == enc(ms[j].value)
    decreases |ms|
  {
    if ms != [] {
      assert DistinctNames(ms[1..]) by {
        forall j, k | 0 <= j < k < |ms[1..]| && !ms[1..][j].Remark? && !ms[1..][k].Remark?
          ensures ms[1..][j].name != ms[1..][k].name
        {
          assert ms[1..][j] == ms[j + 1] && ms[1..][k] == ms[k + 1];
        }
      }
      LookupLive(ms[1..], enc, key);
      forall j | 1 <= j < |ms|
        ensures ms[j] == ms[1..][j - 1]
      {
      }
      if ms[0].Live? {
        assert LiveNamed(ms, enc) == [(ms[0].name, enc(ms[0].value))] + LiveNamed(ms[1..], enc);
      } else {
        assert LiveNamed(ms, enc) == LiveNamed(ms[1..], enc);
      }
    }
  }

  /** `cur` has the members of `ms`, with possibly other values. */
  ghost predicate SameLayout<T>(cur: seq<Member<T>>, ms: seq<Member<T>>)
  {
    |cur| == |ms|
    && (forall j :: 0 <= j < |ms| && !ms[j].Live? ==> cur[j] == ms[j])
    && (forall j :: 0 <= j < |ms| && ms[j].Live? ==> cur[j].Live? && cur[j].name == ms[j].name)
  }

  /** Reading member `i` of what was written restores it and changes no other member. */
  lemma ReadMemberRestores<A, T>(node: Node<A>, ms: seq<Member<T>>, cur: seq<Member<T>>, i: nat,
                                 enc: T -> Node<A>, read: (Node<A>, T) -> T)
    requires WellFormed(ms) && DistinctNames(ms) && WellFormed(cur)
    requires node == Fields(LiveNamed(ms, enc))
    requires forall x, y :: read(enc(x), y) == x
    requires forall x :: !enc(x).Empty?
    requires SameLayout(cur, ms) && i < |ms|
    ensures var next := ReadMember(node, cur, i, read);
      next[i] == ms[i] && (forall j :: 0 <= j < |ms| && j != i ==> next[j] == cur[j]) && SameLayout(next, ms)
  {
    var next := ReadMember(node, cur, i, read);
    if ms[i].Live? {
      LookupLive(ms, enc, ms[i].name);
      assert Child(node, ms[i].name) == enc(ms[i].value);
    } else if ms[i].Deprecated? {
      LookupLive(ms, enc, ms[i].name);
      assert Child(node, ms[i].name).Empty?;
      assert next == cur;
    }
  }

  /** Reading what was written restores every value member; from index `i` on,
    * the members still to be read only need the layout of the written ones. */
  lemma {:induction false} ReadMembersRestores<A, T>(node: Node<A>, ms: seq<Member<T>>, cur: seq<Member<T>>, i: nat,
                                                     enc: T -> Node<A>, read: (Node<A>, T) -> T)
    requires WellFormed(ms) && DistinctNames(ms) && WellFormed(cur)
    requires node == Fields(LiveNamed(ms, enc))
    requires forall x, y :: read(enc(x), y) == x
    requires forall x :: !enc(x).Empty?
    requires SameLayout(cur, ms)
    requires forall j :: 0 <= j < i && j < |ms| ==> cur[j] == ms[j]
    ensures ReadMembers(node, cur, i, read) == ms
    decreases |ms| - i
  {
    if i >= |ms| {
      assert |cur| == |ms|;
      assert cur == ms;
    } else {
      var next := ReadMember(node, cur, i, read);
      ReadMemberRestores(node, ms, cur, i, enc, read);
      assert forall j :: 0 <= j < i + 1 && j < |ms| ==> next[j] == ms[j];
      ReadMembersRestores(node, ms, next, i + 1, enc, read);
    }
  }

  /** A written reflectable value decodes as the map of its value members. */
  lemma RecordDecodes<A(!new), T>(ms: seq<Member<T>>, fmt: T -> seq<Token<A>>, enc: T -> Node<A>)
    requires forall x :: Encodes(fmt(x), enc(x))
    ensures DecodeNode(RecordTokens(ms, fmt)) == Some((Fields(LiveNamed(ms, enc)), []))
  {
    DecodeMembers(ms, fmt, enc, [], []);
    var ts := RecordTokens(ms, fmt);
    assert ts[1..] == Concat(MemberPieces(ms, fmt)) + [EndMap] + [];
    assert [] + LiveNamed(ms, enc) == LiveNamed(ms, enc);
  }

  /** A written reflectable value reads back as itself into any value of the same
    * type: comments are not read, and a deprecated key, never written, does not
    * overwrite its target. */
  lemma RecordRoundTrip<A(!new), T>(ms: seq<Member<T>>, cur: seq<Member<T>>, fmt: T -> seq<Token<A>>, enc: T -> Node<A>, read: (Node<A>, T) -> T)
    requires WellFormed(ms) && DistinctNames(ms) && WellFormed(cur)
    requires SameLayout(cur, ms)
    requires forall x :: Encodes(fmt(x), enc(x))
    requires forall x, y :: read(enc(x), y) == x
    ensures DecodeNode(RecordTokens(ms, fmt)) == Some((Fields(LiveNamed(ms, enc)), []))
    ensures ReadMembers(Fields(LiveNamed(ms, enc)), cur, 0, read) == ms
  {
    RecordDecodes(ms, fmt, enc);
    forall x
      ensures !enc(x).Empty?
    {
      assert DecodeNode(fmt(x) + []) == Some((enc(x), []));
    }
    ReadMembersRestores(Fields(LiveNamed(ms, enc)), ms, cur, 0, enc, read);
  }

  /** A file that still holds a deprecated key: its value lands in the target member. */
  lemma DeprecatedKeyCopied<A, T>(name: string, newName: string, v: T, old_: T, node: Node<A>, read: (Node<A>, T) -> T)
    requires name != newName
    requires Child(node, newName).Empty? && !Child(node, name).Empty?
    ensures ReadMembers(node, [Live(newName, old_), Deprecated(name, 0)], 0, read)
         == [Live(newName, read(Child(node, name), old_)), Deprecated(name, 0)]
  {
    var ms: seq<Member<T>> := [Live(newName, old_), Deprecated(name, 0)];
    assert ReadMember(node, ms, 0, read) == ms;
    var done := ReadMember(node, ms, 1, read);
    assert ReadMembers(node, ms, 1, read) == ReadMembers(node, done, 2, read) == done;
  }
}
