/** The document tree both serialisers read from and the token stream both write
  * to. A node is what `cv::FileNode` denotes: nothing (an empty node), a scalar,
  * a sequence of nodes or a map of named nodes kept in storage order. A writer
  * emits tokens; `DecodeNode` is the storage's own reading of a token stream
  * back into a node, so write-then-read round trips can be stated. */
module SerialTree {
  import opened Wrappers

  datatype Node<A> = Empty | Leaf(a: A) | Items(items: seq<Node<A>>) | Fields(fields: seq<(string, Node<A>)>)

  /** `node[key]`: the first entry of that name in a map node, otherwise an empty node. */
  function Child<A>(n: Node<A>, key: string): (c: Node<A>)
    ensures n.Fields? && (exists i :: 0 <= i < |n.fields| && n.fields[i].0 == key) ==> !c.Empty? || exists i :: 0 <= i < |n.fields| && n.fields[i] == (key, c)
    ensures !n.Fields? ==> c.Empty?
    ensures n.Fields? && (forall i :: 0 <= i < |n.fields| ==> n.fields[i].0 != key) ==> c.Empty?
  {
    if !n.Fields? then Empty else FirstNamed(n.fields, key)
  }

  function FirstNamed<A>(fs: seq<(string, Node<A>)>, key: string): (c: Node<A>)
    ensures (forall i :: 0 <= i < |fs| ==> fs[i].0 != key) ==> c.Empty?
    ensures (exists i :: 0 <= i < |fs| && fs[i].0 == key) ==> exists i :: 0 <= i < |fs| && fs[i] == (key, c)
  {
    if fs == [] then Empty
    else if fs[0].0 == key then fs[0].1
    else FirstNamed(fs[1..], key)
  }

  /** `node.begin()` .. `end()`: the children of a sequence or map node, the node
    * itself for a scalar, nothing for an empty node. */
  function Elements<A>(n: Node<A>): (es: seq<Node<A>>)
    ensures n.Empty? <==> (es == [] && !n.Items? && !n.Fields?)
    ensures n.Items? ==> es == n.items
    ensures n.Leaf? ==> es == [n]
  {
    match n
    case Empty => []
    case Leaf(_) => [n]
    case Items(items) => items
    case Fields(fs) => seq(|fs|, i requires 0 <= i < |fs| => fs[i].1)
  }

  /** What a writer emits. A flow (compact) collection is opened with `[:` or `{:`. */
  datatype Token<A> = BeginSeq(flow: bool) | EndSeq | BeginMap(flow: bool) | EndMap | Key(name: string) | Put(a: A) | Note(text: string)

  /** The tokens of all the pieces, in order. */
  function Concat<A>(pieces: seq<seq<Token<A>>>): (ts: seq<Token<A>>)
    ensures pieces == [] ==> ts == []
  {
    if pieces == [] then [] else pieces[0] + Concat(pieces[1..])
  }

  /** Appending one more piece appends its tokens. */
  lemma {:induction false} ConcatSnoc<A>(pieces: seq<seq<Token<A>>>, p: seq<Token<A>>)
    ensures Concat(pieces + [p]) == Concat(pieces) + p
    decreases |pieces|
  {
    if pieces == [] {
      assert pieces + [p] == [p];
    } else {
      assert (pieces + [p])[1..] == pieces[1..] + [p];
      ConcatSnoc(pieces[1..], p);
    }
  }

  /** The storage's reader: one node from the front of the stream, with the rest. */
  function DecodeNode<A>(ts: seq<Token<A>>): (r: Option<(Node<A>, seq<Token<A>>)>)
    ensures r.Some? ==> |r.value.1| < |ts| && !r.value.0.Empty?
    decreases |ts|, 0
  {
    if ts == [] then None
    else match ts[0]
      case Put(a) => Some((Leaf(a), ts[1..]))
      case BeginSeq(_) => DecodeItems(ts[1..], [])
      case BeginMap(_) => DecodeFields(ts[1..], [])
      case _ => None
  }

  /** The items of a sequence up to its closing token. */
  function DecodeItems<A>(ts: seq<Token<A>>, acc: seq<Node<A>>): (r: Option<(Node<A>, seq<Token<A>>)>)
    ensures r.Some? ==> |r.value.1| < |ts| && r.value.0.Items?
    decreases |ts|, 1
  {
    if ts == [] then None
    else if ts[0] == EndSeq then Some((Items(acc), ts[1..]))
    else match DecodeNode(ts)
      case None => None
      case Some((n, rest)) => DecodeItems(rest, acc + [n])
  }

  /** The named entries of a map up to its closing token; comments are skipped. */
  function DecodeFields<A>(ts: seq<Token<A>>, acc: seq<(string, Node<A>)>): (r: Option<(Node<A>, seq<Token<A>>)>)
    ensures r.Some? ==> |r.value.1| < |ts| && r.value.0.Fields?
    decreases |ts|, 1
  {
    if ts == [] then None
    else if ts[0] == EndMap then Some((Fields(acc), ts[1..]))
    else if ts[0].Note? then DecodeFields(ts[1..], acc)
    else if ts[0].Key? then
      match DecodeNode(ts[1..])
      case None => None
      case Some((n, rest)) => DecodeFields(rest, acc + [(ts[0].name, n)])
    else None
  }

  /** `ts` is a complete written form of `n`, whatever follows it. */
  ghost predicate Encodes<A(!new)>(ts: seq<Token<A>>, n: Node<A>)
  {
    forall rest :: DecodeNode(ts + rest) == Some((n, rest))
  }

  /** A writer: the tokens emitted so far. */
  class Writer<A> {
    var out: seq<Token<A>>

    constructor ()
      ensures out == []
    {
      out := [];
    }

    method Emit(ts: seq<Token<A>>)
      modifies this
      ensures out == old(out) + ts
    {
      out := out + ts;
    }
  }

  /** The items of a sequence decode one after another up to the closing token. */
  lemma {:induction false} DecodeItemsOf<A(!new)>(pieces: seq<seq<Token<A>>>, nodes: seq<Node<A>>, acc: seq<Node<A>>, rest: seq<Token<A>>)
    requires |pieces| == |nodes|
    requires forall i :: 0 <= i < |pieces| ==> Encodes(pieces[i], nodes[i])
    ensures DecodeItems(Concat(pieces) + [EndSeq] + rest, acc) == Some((Items(acc + nodes), rest))
    decreases |pieces|
  {
    if pieces == [] {
      assert Concat(pieces) + [EndSeq] + rest == [EndSeq] + rest;
      assert acc + nodes == acc;
    } else {
      var ts := Concat(pieces) + [EndSeq] + rest;
      var tail := Concat(pieces[1..]) + [EndSeq] + rest;
      assert ts == pieces[0] + tail;
      assert DecodeNode(pieces[0] + tail) == Some((nodes[0], tail));
      DecodeItemsOf(pieces[1..], nodes[1..], acc + [nodes[0]], rest);
      assert acc + [nodes[0]] + nodes[1..] == acc + nodes;
      if ts[0] == EndSeq {
        assert false;
      }
    }
  }

  /** Wrapping encoded items in sequence brackets encodes the sequence node. */
  lemma SeqEncodes<A(!new)>(flow: bool, pieces: seq<seq<Token<A>>>, nodes: seq<Node<A>>)
    requires |pieces| == |nodes|
    requires forall i :: 0 <= i < |pieces| ==> Encodes(pieces[i], nodes[i])
    ensures Encodes([BeginSeq(flow)] + Concat(pieces) + [EndSeq], Items(nodes))
  {
    forall rest
      ensures DecodeNode([BeginSeq(flow)] + Concat(pieces) + [EndSeq] + rest) == Some((Items(nodes), rest))
    {
      var ts := [BeginSeq(flow)] + Concat(pieces) + [EndSeq] + rest;
      assert ts[1..] == Concat(pieces) + [EndSeq] + rest;
      DecodeItemsOf(pieces, nodes, [], rest);
      assert [] + nodes == nodes;
    }
  }

  /** A scalar is written as one token. */
  lemma PutEncodes<A(!new)>(a: A)
    ensures Encodes([Put(a)], Leaf(a))
  {
    forall rest
      ensures DecodeNode([Put(a)] + rest) == Some((Leaf(a), rest))
    {
      assert ([Put(a)] + rest)[1..] == rest;
    }
  }

  /** The tokens of one named entry of a map. */
  function EntryTokens<A>(name: string, ts: seq<Token<A>>): seq<Token<A>>
  {
    [Key(name)] + ts
  }

  /** The tokens of each named entry. */
  function Entries<A>(names: seq<string>, pieces: seq<seq<Token<A>>>): (es: seq<seq<Token<A>>>)
    requires |names| == |pieces|
    ensures |es| == |names| && forall i :: 0 <= i < |names| ==> es[i] == EntryTokens(names[i], pieces[i])
  {
    seq(|names|, i requires 0 <= i < |names| => EntryTokens(names[i], pieces[i]))
  }

  /** Names paired with their nodes. */
  function Named<A>(names: seq<string>, nodes: seq<Node<A>>): (fs: seq<(string, Node<A>)>)
    requires |names| == |nodes|
    ensures |fs| == |names| && forall i :: 0 <= i < |names| ==> fs[i] == (names[i], nodes[i])
  {
    seq(|names|, i requires 0 <= i < |names| => (names[i], nodes[i]))
  }

  /** The entries of a map decode one after another up to the closing token. */
  lemma {:induction false} DecodeFieldsOf<A(!new)>(names: seq<string>, pieces: seq<seq<Token<A>>>, nodes: seq<Node<A>>,
                                                   acc: seq<(string, Node<A>)>, rest: seq<Token<A>>)
    requires |names| == |pieces| == |nodes|
    requires forall i :: 0 <= i < |pieces| ==> Encodes(pieces[i], nodes[i])
    ensures DecodeFields(Concat(Entries(names, pieces)) + [EndMap] + rest, acc)
         == Some((Fields(acc + Named(names, nodes)), rest))
    decreases |names|
  {
    var entries := Entries(names, pieces);
    var named := Named(names, nodes);
    if names == [] {
      assert Concat(entries) + [EndMap] + rest == [EndMap] + rest;
      assert acc + named == acc;
    } else {
      var ts := Concat(entries) + [EndMap] + rest;
      var tail := Concat(entries[1..]) + [EndMap] + rest;
      assert ts == [Key(names[0])] + (pieces[0] + tail);
      assert ts[1..] == pieces[0] + tail;
      assert DecodeNode(pieces[0] + tail) == Some((nodes[0], tail));
      DecodeFieldsOf(names[1..], pieces[1..], nodes[1..], acc + [(names[0], nodes[0])], rest);
      assert entries[1..] == Entries(names[1..], pieces[1..]);
      assert named[1..] == Named(names[1..], nodes[1..]);
      assert acc + [(names[0], nodes[0])] + named[1..] == acc + named;
    }
  }

  /** Wrapping encoded entries in map brackets encodes the map node. */
  lemma MapEncodes<A(!new)>(flow: bool, names: seq<string>, pieces: seq<seq<Token<A>>>, nodes: seq<Node<A>>)
    requires |names| == |pieces| == |nodes|
    requires forall i :: 0 <= i < |pieces| ==> Encodes(pieces[i], nodes[i])
    ensures Encodes([BeginMap(flow)] + Concat(Entries(names, pieces)) + [EndMap],
                    Fields(Named(names, nodes)))
  {
    var body := Concat(Entries(names, pieces));
    forall rest
      ensures DecodeNode([BeginMap(flow)] + body + [EndMap] + rest) == Some((Fields(Named(names, nodes)), rest))
    {
      var ts := [BeginMap(flow)] + body + [EndMap] + rest;
      assert ts[1..] == body + [EndMap] + rest;
      DecodeFieldsOf(names, pieces, nodes, [], rest);
      assert [] + Named(names, nodes) == Named(names, nodes);
    }
  }

  /** With distinct names, looking a name up finds the entry that carries it. */
  lemma {:induction false} FirstNamedDistinct<A>(fs: seq<(string, Node<A>)>, i: nat)
    requires i < |fs|
    requires forall j, k :: 0 <= j < k < |fs| ==> fs[j].0 != fs[k].0
    ensures FirstNamed(fs, fs[i].0) == fs[i].1
    decreases i
  {
    if i > 0 {
      assert fs[0].0 != fs[i].0;
      assert fs[1..][i - 1] == fs[i];
      FirstNamedDistinct(fs[1..], i - 1);
    }
  }
}
