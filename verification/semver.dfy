/** Version numbers "major.minor.patch" as the tracker and its driver exchange them:
  * a forgiving parser, a lexicographic comparison, the six comparison operators
  * derived from it, printing, and the project's compatibility rule (numbering as in
  * Semantic Versioning 2.0.0, section 2; major version 0 unstable as in section 4). */
module SemVer {
  import opened Text

  datatype Version = Version(major: int, minor: int, patch: int)
  {
    /** Component `idx` (0 major, 1 minor, 2 patch), like `ver[verIdx]`. */
    function Get(idx: nat): int
      requires idx <= 2
    {
      if idx == 0 then major else if idx == 1 then minor else patch
    }

    /** This version with component `idx` replaced. */
    function With(idx: nat, x: int): (v: Version)
      requires idx <= 2
      ensures v.Get(idx) == x
      ensures forall j :: 0 <= j <= 2 && j != idx ==> v.Get(j) == Get(j)
    {
      if idx == 0 then this.(major := x) else if idx == 1 then this.(minor := x) else this.(patch := x)
    }
  }

  const Zero := Version(0, 0, 0)

  /** What the parse loop returns from the remaining text `s`, given the components
    * read so far and the index of the component being read. */
  function Scan(s: string, v: Version, idx: nat): Version
    requires idx <= 2
    decreases |s|
  {
    if s == [] then v
    else if IsDigit(s[0]) then Scan(s[1..], v.With(idx, v.Get(idx) * 10 + DigitValue(s[0])), idx)
    else if s[0] == '.' then
      if idx == 2 || |s| == 1 then v else Scan(s[1..], v, idx + 1)
    else v
  }

  /** `SemVer::Parse`: reads "major[.minor[.patch]]", components that are never
    * reached stay 0, and parsing stops silently at anything unexpected. */
  method Parse(str: string) returns (r: Version)
    ensures r == Scan(str, Zero, 0)
    ensures str == [] ==> r == Zero
  {
    var ver := new int[3];
    ver[0], ver[1], ver[2] := 0, 0, 0;
    var verIdx: nat := 0;
    var i := 0;
    while i < |str|
      invariant 0 <= i <= |str| && verIdx <= 2
      invariant Scan(str[i..], Version(ver[0], ver[1], ver[2]), verIdx) == Scan(str, Zero, 0)
    {
      var c := str[i];
      assert str[i..][1..] == str[i + 1..];
      if IsDigit(c) {
        var digit := DigitValue(c);
        ver[verIdx] := ver[verIdx] * 10 + digit;
      } else if c == '.' {
        if verIdx == 2 { break; }
        if i == |str| - 1 { break; }
        verIdx := verIdx + 1;
      } else {
        break;
      }
      i := i + 1;
    }
    r := Version(ver[0], ver[1], ver[2]);
  }

  /** A run of digits accumulates, left to right, into the current component. */
  lemma {:induction false} ScanDigits(ds: string, rest: string, v: Version, idx: nat)
    requires idx <= 2 && AllDigits(ds)
    ensures Scan(ds + rest, v, idx) == Scan(rest, v.With(idx, Accumulate(v.Get(idx), ds)), idx)
    decreases |ds|
  {
    if ds == [] {
      assert ds + rest == rest;
      assert v.With(idx, v.Get(idx)) == v;
    } else {
      var v' := v.With(idx, v.Get(idx) * 10 + DigitValue(ds[0]));
      assert (ds + rest)[1..] == ds[1..] + rest;
      ScanDigits(ds[1..], rest, v', idx);
      assert v'.With(idx, Accumulate(v'.Get(idx), ds[1..])) == v.With(idx, Accumulate(v.Get(idx), ds));
    }
  }

  /** A character other than a digit or '.' ends parsing: nothing after it matters. */
  lemma {:induction false} ScanIgnoresAfterStop(p: string, c: char, rest: string, v: Version, idx: nat)
    requires idx <= 2 && !IsDigit(c) && c != '.'
    ensures Scan(p + [c] + rest, v, idx) == Scan(p + [c], v, idx)
    decreases |p|
  {
    if p != [] {
      assert (p + [c] + rest)[1..] == p[1..] + [c] + rest;
      assert (p + [c])[1..] == p[1..] + [c];
      if IsDigit(p[0]) {
        ScanIgnoresAfterStop(p[1..], c, rest, v.With(idx, v.Get(idx) * 10 + DigitValue(p[0])), idx);
      } else if p[0] == '.' && idx < 2 {
        ScanIgnoresAfterStop(p[1..], c, rest, v, idx + 1);
      }
    }
  }

  /** A bare number is the major version: "1" reads as 1.0.0. */
  lemma MajorOnly(n: nat)
    ensures Scan(NatToString(n), Zero, 0) == Version(n, 0, 0)
  {
    var s := NatToString(n);
    ScanDigits(s, [], Zero, 0);
    assert s + [] == s;
    AccumulateIsDecimal(s);
    NatToStringValue(n);
  }

  /** A trailing '.' does not start a new component: "1." reads as 1.0.0. */
  lemma TrailingDot(n: nat)
    ensures Scan(NatToString(n) + ".", Zero, 0) == Version(n, 0, 0)
  {
    var s := NatToString(n);
    ScanDigits(s, ".", Zero, 0);
    AccumulateIsDecimal(s);
    NatToStringValue(n);
  }

  /** `SemVer::ToString`: "major.minor.patch". */
  function ToString(v: Version): (s: string)
    ensures |s| >= 5
  {
    IntToString(v.major) + "." + IntToString(v.minor) + "." + IntToString(v.patch)
  }

  /** A run of digits followed by '.' and more text fills component `idx` and moves on. */
  lemma ScanComponent(ds: string, rest: string, v: Version, idx: nat)
    requires idx < 2 && AllDigits(ds) && rest != []
    ensures Scan(ds + ("." + rest), v, idx) == Scan(rest, v.With(idx, Accumulate(v.Get(idx), ds)), idx + 1)
  {
    ScanDigits(ds, "." + rest, v, idx);
    assert ("." + rest)[1..] == rest;
  }

  /** Printing and then parsing a version with non-negative components gives it back. */
  lemma RoundTrip(v: Version)
    requires v.major >= 0 && v.minor >= 0 && v.patch >= 0
    ensures Scan(ToString(v), Zero, 0) == v
  {
    var a, b, c := NatToString(v.major), NatToString(v.minor), NatToString(v.patch);
    assert ToString(v) == a + ("." + (b + ("." + c)));
    AccumulateIsDecimal(a); NatToStringValue(v.major);
    AccumulateIsDecimal(b); NatToStringValue(v.minor);
    AccumulateIsDecimal(c); NatToStringValue(v.patch);
    ScanComponent(a, b + ("." + c), Zero, 0);
    var v1 := Version(v.major, 0, 0);
    ScanComponent(b, c, v1, 1);
    var v2 := Version(v.major, v.minor, 0);
    ScanDigits(c, [], v2, 2);
    assert c + [] == c;
  }

  /** Reference order: lexicographic on (major, minor, patch). */
  predicate LexLess(a: Version, b: Version)
  {
    a.major < b.major
    || (a.major == b.major && (a.minor < b.minor || (a.minor == b.minor && a.patch < b.patch)))
  }

  /** `SemVer::Compare`: negative, zero or positive as `a` is below, equal to or above `b`. */
  function Compare(a: Version, b: Version): (r: int)
    ensures r == 0 <==> a == b
    ensures r < 0 <==> LexLess(a, b)
    ensures r > 0 <==> LexLess(b, a)
  {
    if a.major != b.major then a.major - b.major
    else if a.minor != b.minor then a.minor - b.minor
    else if a.patch != b.patch then a.patch - b.patch
    else 0
  }

  predicate Eq(a: Version, b: Version) { Compare(a, b) == 0 }
  predicate Ne(a: Version, b: Version) { Compare(a, b) != 0 }
  predicate Gt(a: Version, b: Version) { Compare(a, b) > 0 }
  predicate Ge(a: Version, b: Version) { Compare(a, b) >= 0 }
  predicate Lt(a: Version, b: Version) { Compare(a, b) < 0 }
  predicate Le(a: Version, b: Version) { Compare(a, b) <= 0 }

  /** The operators derived from `Compare` form a consistent total order. */
  lemma TotalOrder(a: Version, b: Version, c: Version)
    ensures Eq(a, b) <==> a == b
    ensures Ne(a, b) <==> !Eq(a, b)
    ensures Lt(a, b) <==> Gt(b, a)
    ensures Le(a, b) <==> (Lt(a, b) || Eq(a, b))
    ensures Ge(a, b) <==> Le(b, a)
    ensures (Lt(a, b) && !Eq(a, b) && !Gt(a, b)) || (!Lt(a, b) && Eq(a, b) && !Gt(a, b)) || (!Lt(a, b) && !Eq(a, b) && Gt(a, b))
    ensures Lt(a, b) && Lt(b, c) ==> Lt(a, c)
    ensures Le(a, b) && Le(b, a) ==> a == b
  {
  }

  /** `SemVer::Compatible`: zero versions are never compatible; otherwise the majors
    * must agree, and when both are 0 the minors must agree too. */
  function Compatible(a: Version, b: Version): (r: bool)
    ensures r ==> a != Zero && b != Zero
    ensures r ==> a.major == b.major && (a.major == 0 ==> a.minor == b.minor)
    ensures a != Zero && b != Zero && a.major == b.major && (a.major == 0 ==> a.minor == b.minor) ==> r
  {
    if Eq(a, Zero) || Eq(b, Zero) then false
    else if a.major == 0 && b.major == 0 then a.minor == b.minor
    else a.major == b.major
  }

  /** Compatibility is symmetric, and reflexive on every non-zero version. */
  lemma CompatibleSymmetric(a: Version, b: Version)
    ensures Compatible(a, b) == Compatible(b, a)
    ensures a != Zero ==> Compatible(a, a)
  {
  }
}
