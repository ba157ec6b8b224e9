/** The older parameter tree. A parameter is a leaf (value, default, optional
  * validator) or a nested node of named children. The children of a node are kept
  * in their iteration order as a list of (name, parameter) pairs; a file node is
  * empty, a scalar or a map written as a list of (key, node) entries. All leaves
  * of one tree share the value type `T`. */
module LegacyParameters {
  import opened Wrappers

  datatype Param<!T> =
    | Leaf(value: T, defaultValue: T, validate: Option<T -> T>)
    | Node(children: seq<(string, Param<T>)>)

  datatype FileNode<T> = Empty | Scalar(v: T) | MapNode(entries: seq<(string, FileNode<T>)>)

  function Names<P>(entries: seq<(string, P)>): (r: seq<string>)
    ensures |r| == |entries| && forall i :: 0 <= i < |entries| ==> r[i] == entries[i].0
  {
    seq(|entries|, i requires 0 <= i < |entries| => entries[i].0)
  }

  predicate Distinct(names: seq<string>)
  {
    forall i, j :: 0 <= i < j < |names| ==> names[i] != names[j]
  }

  /** The first entry under `key`, if any. */
  function Lookup<P>(entries: seq<(string, P)>, key: string): (r: Option<P>)
    ensures r.None? <==> key !in Names(entries)
    ensures r.Some? ==> exists i :: 0 <= i < |entries| && entries[i] == (key, r.value)
  {
    if entries == [] then None
    else if entries[0].0 == key then Some(entries[0].1)
    else Lookup(entries[1..], key)
  }

  /** With distinct keys, looking up the key of an entry finds that entry. */
  lemma {:induction false} LookupDistinct<P>(entries: seq<(string, P)>, i: nat)
    requires Distinct(Names(entries)) && i < |entries|
    ensures Lookup(entries, entries[i].0) == Some(entries[i].1)
  {
    if i > 0 {
      assert entries[0].0 != entries[i].0 by {
        assert Names(entries)[0] != Names(entries)[i];
      }
      var tail := entries[1..];
      assert Distinct(Names(tail)) by {
        forall a, b | 0 <= a < b < |tail|
          ensures Names(tail)[a] != Names(tail)[b]
        {
          assert Names(entries)[a + 1] != Names(entries)[b + 1];
        }
      }
      LookupDistinct(tail, i - 1);
    }
  }

  /** `fn[name]`: the sub-node of a map, or an empty node. */
  function Child<T>(fn: FileNode<T>, name: string): (r: FileNode<T>)
    ensures fn.MapNode? && name in Names(fn.entries) ==> r == Lookup(fn.entries, name).value
    ensures !fn.MapNode? || name !in Names(fn.entries) ==> r == Empty
  {
    match fn
    case MapNode(es) => (match Lookup(es, name) case Some(n) => n case None => Empty)
    case _ => Empty
  }

  /** `Parameter<T>::Deserialize`: a present node is read and validated when there is
    * a validator; an absent node always resets the value to the default. A map
    * node is present too: `fromMap` is what OpenCV's `>>` converts it to, which
    * depends on `T`. A nested node deserialises every child from the sub-node of
    * the child's name. */
  function Deserialize<T>(p: Param<T>, fn: FileNode<T>, fromMap: T): (r: Param<T>)
    ensures p.Leaf? ==> r.Leaf? && r.defaultValue == p.defaultValue && r.validate == p.validate
    ensures p.Leaf? && fn.Empty? ==> r.value == p.defaultValue
    ensures p.Leaf? && fn.Scalar? && p.validate.None? ==> r.value == fn.v
    ensures p.Leaf? && fn.Scalar? && p.validate.Some? ==> r.value == p.validate.value(fn.v)
    ensures p.Leaf? && fn.MapNode? && p.validate.None? ==> r.value == fromMap
    ensures p.Leaf? && fn.MapNode? && p.validate.Some? ==> r.value == p.validate.value(fromMap)
    ensures p.Node? ==> r.Node? && Names(r.children) == Names(p.children)
    ensures p.Node? ==> forall i :: 0 <= i < |p.children| ==>
      r.children[i].1 == Deserialize(p.children[i].1, Child(fn, p.children[i].0), fromMap)
  {
    match p
    case Leaf(v, d, validate) =>
      (match fn
       case Empty => Leaf(d, d, validate)
       case Scalar(x) => Leaf(if validate.Some? then validate.value(x) else x, d, validate)
       case MapNode(_) => Leaf(if validate.Some? then validate.value(fromMap) else fromMap, d, validate))
    case Node(ch) =>
      Node(seq(|ch|, i requires 0 <= i < |ch| => (ch[i].0, Deserialize(ch[i].1, Child(fn, ch[i].0), fromMap))))
  }

  /** Reading a tree from an empty node resets every leaf to its default. */
  ghost predicate AllDefaults<T>(p: Param<T>)
  {
    match p
    case Leaf(v, d, _) => v == d
    case Node(ch) => forall i :: 0 <= i < |ch| ==> AllDefaults(ch[i].1)
  }

  lemma {:induction false} EmptyResetsAll<T>(p: Param<T>, fromMap: T)
    ensures AllDefaults(Deserialize(p, Empty, fromMap))
  {
    match p
    case Leaf(_, _, _) =>
    case Node(ch) =>
      var r := Deserialize(p, Empty, fromMap);
      forall i | 0 <= i < |ch|
        ensures AllDefaults(r.children[i].1)
      {
        assert Child<T>(Empty, ch[i].0) == Empty;
        EmptyResetsAll(ch[i].1, fromMap);
      }
  }

  /** A tree whose names are distinct at every level and whose leaves satisfy their
    * validators. */
  ghost predicate WellFormed<T>(p: Param<T>)
  {
    match p
    case Leaf(v, _, validate) => validate.None? || validate.value(v) == v
    case Node(ch) =>
      Distinct(Names(ch)) && (forall i :: 0 <= i < |ch| ==> ch[i].0 != "")
      && forall i :: 0 <= i < |ch| ==> WellFormed(ch[i].1)
  }

  /** The file a tree is meant to produce: a scalar per leaf and a map per node. */
  function Tree<T>(p: Param<T>): (fn: FileNode<T>)
    ensures p.Leaf? ==> fn == Scalar(p.value)
    ensures p.Node? ==> fn.MapNode? && Names(fn.entries) == Names(p.children)
  {
    match p
    case Leaf(v, _, _) => Scalar(v)
    case Node(ch) => MapNode(seq(|ch|, i requires 0 <= i < |ch| => (ch[i].0, Tree(ch[i].1))))
  }

  /** Corrected `Parameter<ParamNode>::Serialize`, as the comment above it intends: a named
    * nested node opens a map under its name. */
  function SerializeCorrected<T>(p: Param<T>, name: string): (entries: seq<(string, FileNode<T>)>)
    ensures name != "" ==> entries == [(name, Tree(p))]
  {
    match p
    case Leaf(v, _, _) => [(name, Scalar(v))]
    case Node(ch) =>
      if name != "" then [(name, Tree(p))] else Tree(p).entries
  }

  /** Reading back what was written gives a well-formed tree back. */
  lemma {:induction false} RoundTrip<T>(p: Param<T>, fromMap: T)
    requires WellFormed(p)
    ensures Deserialize(p, Tree(p), fromMap) == p
  {
    match p
    case Leaf(_, _, _) =>
    case Node(ch) =>
      var fn := Tree(p);
      var r := Deserialize(p, fn, fromMap);
      forall i | 0 <= i < |ch|
        ensures r.children[i] == ch[i]
      {
        LookupDistinct(fn.entries, i);
        assert Child(fn, ch[i].0) == Tree(ch[i].1);
        RoundTrip(ch[i].1, fromMap);
      }
  }

  function Flatten<E>(s: seq<seq<E>>): (r: seq<E>)
    ensures s == [] ==> r == []
    ensures |s| == 1 ==> r == s[0]
  {
    if s == [] then [] else s[0] + Flatten(s[1..])
  }

  /** `Parameter<ParamNode>::Serialize` as written: the map is opened only when the
    * name is empty, so a named nested node writes its children into the enclosing
    * map. */
  function Serialize<T>(p: Param<T>, name: string): (entries: seq<(string, FileNode<T>)>)
    ensures p.Leaf? ==> entries == [(name, Scalar(p.value))]
  {
    match p
    case Leaf(v, _, _) => [(name, Scalar(v))]
    case Node(ch) =>
      var inner := Flatten(seq(|ch|, i requires 0 <= i < |ch| => Serialize(ch[i].1, ch[i].0)));
      if name == "" then [(name, MapNode(inner))] else inner
  }

  /** A storage holding a node `n` with one leaf `a` = 5 (default 0): as written,
    * the file holds `a` at the top level and no `n`, so reading it back resets the
    * leaf to 0. */
  lemma NestedRoundTripFailsAsWritten(fromMap: int)
    ensures var leaf := Leaf(5, 0, None);
            var storage := Node([("n", Node([("a", leaf)]))]);
            var file := MapNode(Serialize(storage.children[0].1, "n"));
            file == MapNode([("a", Scalar(5))])
            && Deserialize(storage, file, fromMap) == Node([("n", Node([("a", Leaf(0, 0, None))]))])
            && Deserialize(storage, file, fromMap) != storage
  {
    var leaf := Leaf(5, 0, None);
    var inner: seq<(string, Param<int>)> := [("a", leaf)];
    var storage := Node([("n", Node(inner))]);
    var written := Serialize(storage.children[0].1, "n");
    assert written == Flatten([[("a", Scalar(5))]]);
    var file := MapNode(written);
    assert Child(file, "n") == Empty;
    assert Child<int>(Empty, "a") == Empty;
    var nested := Deserialize(Node(inner), Empty, fromMap);
    assert nested.children == [("a", Leaf(0, 0, None))];
    var d := Deserialize(storage, file, fromMap);
    assert d.children == [("n", nested)];
  }

  /** The same storage written by `SerializeCorrected` comes back unchanged. */
  lemma NestedRoundTripCorrected(fromMap: int)
    ensures var storage := Node([("n", Node([("a", Leaf(5, 0, None))]))]);
            Deserialize(storage, MapNode(SerializeCorrected(storage.children[0].1, "n")), fromMap) == storage
  {
    var storage := Node([("n", Node([("a", Leaf(5, 0, None))]))]);
    assert Names(storage.children) == ["n"];
    assert Names(storage.children[0].1.children) == ["a"];
    RoundTrip(storage, fromMap);
  }

  /** `ParamNode::Add`: `insert` into the map leaves an existing entry in place. */
  function Inserted<T>(params: seq<(string, Param<T>)>, name: string, p: Param<T>): (r: seq<(string, Param<T>)>)
    ensures name in Names(params) ==> r == params
    ensures name !in Names(params) ==> r == params + [(name, p)]
    ensures Distinct(Names(params)) ==> Distinct(Names(r))
  {
    if name in Names(params) then params else params + [(name, p)]
  }

  /** Adding under a used name keeps the first parameter: lookups do not change. */
  lemma AddKeepsFirst<T>(params: seq<(string, Param<T>)>, name: string, p: Param<T>, q: Param<T>)
    ensures Lookup(Inserted(Inserted(params, name, p), name, q), name) == Lookup(Inserted(params, name, p), name)
    ensures name !in Names(params) ==> Lookup(Inserted(params, name, p), name) == Some(p)
  {
    if name !in Names(params) {
      LookupAppend(params, name, p);
    }
  }

  lemma {:induction false} LookupAppend<P>(entries: seq<(string, P)>, key: string, p: P)
    requires key !in Names(entries)
    ensures Lookup(entries + [(key, p)], key) == Some(p)
  {
    if entries != [] {
      assert (entries + [(key, p)])[1..] == entries[1..] + [(key, p)];
      assert Names(entries)[0] == entries[0].0;
      assert key !in Names(entries[1..]) by {
        forall k | 0 <= k < |entries[1..]|
          ensures Names(entries[1..])[k] != key
        {
          assert Names(entries)[k + 1] == entries[k + 1].0;
        }
      }
      LookupAppend(entries[1..], key, p);
    }
  }

  /** `ParamNode`. */
  class ParamNode<T> {
    var params: seq<(string, Param<T>)>

    predicate Valid()
      reads this
    {
      Distinct(Names(params))
    }

    constructor ()
      ensures Valid() && params == []
    {
      params := [];
    }

    /** `Add(name, default_value, validate)`: a leaf starting at its default. */
    method Add(name: string, d: T, validate: Option<T -> T>)
      requires Valid()
      modifies this
      ensures Valid()
      ensures params == Inserted(old(params), name, Leaf(d, d, validate))
    {
      params := Inserted(params, name, Leaf(d, d, validate));
    }

    /** `Ref`/`Get`: `None` where `params.at(name)` throws. */
    function Get(name: string): (r: Option<Param<T>>)
      reads this
      ensures r.None? <==> name !in Names(params)
      ensures r.Some? ==> exists i :: 0 <= i < |params| && params[i] == (name, r.value)
    {
      Lookup(params, name)
    }

    /** `Validate<T>(name)`: calls the validator without a null check, so the leaf
      * must exist and have one. */
    method ValidateLeaf(name: string, i: nat)
      requires i < |params| && params[i].0 == name
      requires params[i].1.Leaf? && params[i].1.validate.Some?
      modifies this
      ensures params == old(params)[i := (name, old(params)[i].1.(value := old(params)[i].1.validate.value(old(params)[i].1.value)))]
    {
      var p := params[i].1;
      params := params[i := (name, p.(value := p.validate.value(p.value)))];
    }

    /** Deserialising the node: every child from the sub-node of its own name;
      * `fromMap` as in `Deserialize`. */
    method Read(fn: FileNode<T>, fromMap: T)
      modifies this
      ensures params == Deserialize(Node(old(params)), fn, fromMap).children
    {
      ghost var start := params;
      for i := 0 to |params|
        invariant |params| == |start|
        invariant forall j :: 0 <= j < i ==> params[j] == (start[j].0, Deserialize(start[j].1, Child(fn, start[j].0), fromMap))
        invariant forall j :: i <= j < |params| ==> params[j] == start[j]
      {
        params := params[i := (params[i].0, Deserialize(params[i].1, Child(fn, params[i].0), fromMap))];
      }
    }
  }
}
