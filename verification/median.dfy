/** The smoothing idiom shared by the legacy tracker loop and the marker
  * helpers: copy the values, `std::sort` them and take the element at index
  * `size / 2`, which is the upper of the two middle values when the count is
  * even. The sort is given by an insertion sort and proved sorted and a
  * permutation; any sort with those two properties has the same result. */
module Median {
  predicate Sorted(s: seq<real>)
  {
    forall i, j :: 0 <= i < j < |s| ==> s[i] <= s[j]
  }

  /** `x` inserted before the first element not smaller than it. */
  function Insert(x: real, s: seq<real>): seq<real>
  {
    if |s| == 0 then [x]
    else if x <= s[0] then [x] + s
    else [s[0]] + Insert(x, s[1..])
  }

  /** Every element of `s` is at least `b`. */
  predicate AtLeast(b: real, s: seq<real>)
  {
    forall k :: 0 <= k < |s| ==> b <= s[k]
  }

  /** A bound of every element of `s` and of `x` bounds every element of a
    * permutation of `s` with `x` added. */
  lemma AtLeastPerm(b: real, t: seq<real>, s: seq<real>, x: real)
    requires multiset(t) == multiset(s) + multiset{x} && AtLeast(b, s) && b <= x
    ensures AtLeast(b, t)
  {
    forall k | 0 <= k < |t|
      ensures b <= t[k]
    {
      assert t[k] in multiset(t);
      if t[k] != x {
        var j :| 0 <= j < |s| && s[j] == t[k];
      }
    }
  }

  /** A lower bound of a sorted sequence can go in front of it. */
  lemma ConsSorted(b: real, t: seq<real>)
    requires Sorted(t) && AtLeast(b, t)
    ensures Sorted([b] + t)
  {
  }

  /** Insertion keeps a sequence sorted and adds exactly `x`. */
  lemma {:induction false} InsertSorted(x: real, s: seq<real>)
    requires Sorted(s)
    ensures Sorted(Insert(x, s)) && multiset(Insert(x, s)) == multiset(s) + multiset{x}
    ensures |Insert(x, s)| == |s| + 1
  {
    if |s| == 0 {
    } else if x <= s[0] {
      ConsSorted(x, s);
    } else {
      InsertSorted(x, s[1..]);
      assert s == [s[0]] + s[1..];
      AtLeastPerm(s[0], Insert(x, s[1..]), s[1..], x);
      ConsSorted(s[0], Insert(x, s[1..]));
    }
  }

  /** `std::sort`: the values in ascending order. */
  function Sort(s: seq<real>): seq<real>
  {
    if |s| == 0 then []
    else Insert(s[|s| - 1], Sort(s[..|s| - 1]))
  }

  /** The sort's result is sorted and a permutation of its input. */
  lemma {:induction false} SortSorted(s: seq<real>)
    ensures Sorted(Sort(s)) && multiset(Sort(s)) == multiset(s) && |Sort(s)| == |s|
  {
    if |s| > 0 {
      SortSorted(s[..|s| - 1]);
      InsertSorted(s[|s| - 1], Sort(s[..|s| - 1]));
      assert s == s[..|s| - 1] + [s[|s| - 1]];
    }
  }

  /** The element at index `size / 2` of the sorted values. */
  function UpperMedian(s: seq<real>): real
    requires |s| > 0
  {
    SortSorted(s);
    Sort(s)[|s| / 2]
  }

  /** Index `size / 2` of a sorted permutation of `s` holds one of the values
    * of `s`, with everything before it no larger and everything after it no
    * smaller. */
  lemma SortedRank(s: seq<real>, t: seq<real>)
    requires |s| > 0 && Sorted(t) && multiset(t) == multiset(s) && |t| == |s|
    ensures t[|s| / 2] in multiset(s)
    ensures forall k :: 0 <= k <= |s| / 2 ==> t[k] <= t[|s| / 2]
    ensures forall k :: |s| / 2 <= k < |s| ==> t[|s| / 2] <= t[k]
  {
    assert t[|s| / 2] in multiset(t);
  }

  /** The median is one of the values, and it splits the sorted values at
    * `size / 2`. */
  lemma UpperMedianRank(s: seq<real>)
    requires |s| > 0
    ensures |Sort(s)| == |s|
    ensures UpperMedian(s) in multiset(s)
    ensures forall k :: 0 <= k <= |s| / 2 ==> Sort(s)[k] <= UpperMedian(s)
    ensures forall k :: |s| / 2 <= k < |s| ==> UpperMedian(s) <= Sort(s)[k]
  {
    SortSorted(s);
    SortedRank(s, Sort(s));
  }

  /** The median lies between the smallest and the largest value. */
  lemma UpperMedianBetween(s: seq<real>, lo: real, hi: real)
    requires |s| > 0
    requires forall k :: 0 <= k < |s| ==> lo <= s[k] <= hi
    ensures lo <= UpperMedian(s) <= hi
  {
    UpperMedianRank(s);
    var k :| 0 <= k < |s| && s[k] == UpperMedian(s);
  }

  /** The first element of a sorted sequence is the least of its values, so
    * two sorted sequences with the same values start alike. */
  lemma SortedHeads(a: seq<real>, b: seq<real>)
    requires |a| > 0 && |b| > 0 && Sorted(a) && Sorted(b) && multiset(a) == multiset(b)
    ensures a[0] == b[0]
  {
    assert a[0] in multiset(a) && b[0] in multiset(b);
    var i :| 0 <= i < |b| && b[i] == a[0];
    var j :| 0 <= j < |a| && a[j] == b[0];
    assert a[0] <= a[j] && b[0] <= b[i];
  }

  /** Removing the first element removes it from the multiset. */
  lemma TailMultiset(a: seq<real>)
    requires |a| > 0
    ensures multiset(a[1..]) == multiset(a) - multiset{a[0]}
  {
    assert a == [a[0]] + a[1..];
  }

  /** Sorting has one possible result: two sorted sequences with the same
    * elements are equal. */
  lemma {:induction false} SortedUnique(a: seq<real>, b: seq<real>)
    requires Sorted(a) && Sorted(b) && multiset(a) == multiset(b)
    ensures a == b
  {
    assert |b| == |multiset(b)| == |multiset(a)| == |a|;
    if |a| > 0 {
      SortedHeads(a, b);
      TailMultiset(a);
      TailMultiset(b);
      SortedUnique(a[1..], b[1..]);
      assert a == [a[0]] + a[1..] && b == [b[0]] + b[1..];
    }
  }

  /** The median does not depend on the order of the values. */
  lemma UpperMedianOrderFree(s: seq<real>, t: seq<real>)
    requires |s| > 0 && multiset(s) == multiset(t)
    ensures |t| == |s| && UpperMedian(s) == UpperMedian(t)
  {
    assert |t| == |multiset(t)| == |multiset(s)| == |s|;
    SortSorted(s);
    SortSorted(t);
    SortedUnique(Sort(s), Sort(t));
  }

  /** A window of one repeated value has that value as its median. */
  lemma UpperMedianConstant(s: seq<real>, v: real)
    requires |s| > 0 && forall k :: 0 <= k < |s| ==> s[k] == v
    ensures UpperMedian(s) == v
  {
    UpperMedianBetween(s, v, v);
  }
}
