/** C++ integer arithmetic that differs from Dafny's: `/` and `%` truncate toward
  * zero, and a floating-point value converted to an integer drops its fraction. */
module CInt {
  /** `a / b` on C++ integers. */
  function TruncDiv(a: int, b: int): (q: int)
    requires b != 0
    ensures a >= 0 && b > 0 ==> q == a / b
    ensures a < 0 && b > 0 ==> q == -((-a) / b)
    ensures q * b + TruncRem(a, b) == a
    ensures (q * b <= a && a >= 0 && b > 0) || a < 0 || b < 0
  {
    if (a >= 0) == (b > 0) then (if a >= 0 then a / b else (-a) / (-b))
    else if a >= 0 then -(a / (-b))
    else -((-a) / b)
  }

  /** `a % b` on C++ integers: the remainder takes the sign of `a`. */
  function TruncRem(a: int, b: int): (r: int)
    requires b != 0
    ensures a >= 0 ==> 0 <= r < (if b > 0 then b else -b)
    ensures a < 0 ==> -(if b > 0 then b else -b) < r <= 0
  {
    var m := if b > 0 then b else -b;
    if a >= 0 then a % m else -((-a) % m)
  }

  /** Multiplying and then dividing by the same non-zero number gives the number back. */
  lemma TruncDivExact(v: int, k: int)
    requires k != 0
    ensures TruncDiv(v * k, k) == v
  {
    var a, m := if v >= 0 then v else -v, if k > 0 then k else -k;
    MulDiv(a, m);
    assert a * m == if v * k >= 0 then v * k else -(v * k);
  }

  lemma MulDiv(a: nat, m: nat)
    requires m > 0
    ensures (a * m) / m == a
  {
    var q, r := (a * m) / m, (a * m) % m;
    assert 0 <= r < m;
    assert (a - q) * m == r by { Distrib(a, q, m); }
    if q < a { MulAtLeast(a - q, m); }
    if q > a { MulAtLeast(q - a, m); Distrib(q, a, m); }
  }

  lemma Distrib(x: int, y: int, m: int)
    ensures (x - y) * m == x * m - y * m
  {
  }

  lemma {:induction false} MulAtLeast(c: nat, m: nat)
    requires c >= 1
    ensures c * m >= m
  {
    if c > 1 {
      MulAtLeast(c - 1, m);
      assert c * m == (c - 1) * m + m;
    }
  }

  /** `static_cast<int>(x)` of a floating-point value: the fraction is dropped. */
  function RealToInt(x: real): (i: int)
    ensures x >= 0.0 ==> i as real <= x < i as real + 1.0
    ensures x < 0.0 ==> i as real - 1.0 < x <= i as real
  {
    if x >= 0.0 then x.Floor else -((-x).Floor)
  }
}
