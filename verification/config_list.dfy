/** `cfg::List<T>`: a vector of owned, individually referenced elements. Resizing
  * keeps the elements below the new size and gives every empty slot a
  * default-constructed element. An owning pointer is an `Option<T>` (`None` is
  * null); the default-constructed `T` is a parameter. */
module ConfigList {
  import opened Wrappers

  /** `std::vector::resize`: truncate, or extend with null pointers. */
  function Resized<T>(list: seq<Option<T>>, n: nat): (r: seq<Option<T>>)
    ensures |r| == n
    ensures forall i :: 0 <= i < n && i < |list| ==> r[i] == list[i]
    ensures forall i :: |list| <= i < n ==> r[i].None?
  {
    if n <= |list| then list[..n] else list + seq(n - |list|, _ => None)
  }

  /** Every slot holds an element. */
  predicate AllSet<T>(list: seq<Option<T>>)
  {
    forall i :: 0 <= i < |list| ==> list[i].Some?
  }

  class List<T> {
    var list: seq<Option<T>>
    /** The value `new T()` constructs. */
    const init: T

    predicate Valid()
      reads this
    {
      AllSet(list)
    }

    /** `List(count)`: `count` default elements. */
    constructor (count: nat, init: T)
      ensures Valid() && Size() == count
      ensures forall i :: 0 <= i < count ==> list[i] == Some(init)
    {
      this.init := init;
      list := [];
      new;
      Resize(count);
    }

    /** `Resize(newSize)`: the first min(old, new) elements are kept and every other
      * slot gets a fresh default element. */
    method Resize(newSize: nat)
      modifies this
      ensures Valid() && |list| == newSize
      ensures forall i :: 0 <= i < newSize && i < |old(list)| && old(list)[i].Some? ==> list[i] == old(list)[i]
      ensures forall i :: 0 <= i < newSize && (i >= |old(list)| || old(list)[i].None?) ==> list[i] == Some(init)
    {
      list := Resized(list, newSize);
      ghost var resized := list;
      for i := 0 to |list|
        invariant |list| == newSize
        invariant forall j :: 0 <= j < i ==> list[j] == (if resized[j].Some? then resized[j] else Some(init))
        invariant forall j :: i <= j < |list| ==> list[j] == resized[j]
      {
        if list[i].None? {
          list := list[i := Some(init)];
        }
      }
    }

    /** `Size()`. */
    function Size(): (n: nat)
      reads this
      ensures n == |list|
    {
      |list|
    }

    /** `operator[](idx)`: the element stored at `idx`. */
    function At(idx: int): (e: T)
      requires Valid() && 0 <= idx < Size()
      reads this
      ensures Some(e) == list[idx]
    {
      list[idx].value
    }
  }

  /** Shrinking and growing back keeps the surviving elements and refills the rest. */
  method ShrinkThenGrow<T>(l: List<T>, small: nat, big: nat)
    requires l.Valid() && small <= big
    modifies l
    ensures l.Valid() && l.Size() == big
    ensures forall i :: 0 <= i < small && i < |old(l.list)| ==> l.list[i] == old(l.list)[i]
    ensures forall i :: small <= i < big ==> l.list[i] == Some(l.init)
  {
    l.Resize(small);
    l.Resize(big);
  }
}
