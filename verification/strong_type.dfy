/** Strong typedefs: `StrongType` wraps a value so that it only converts explicitly,
  * and `StrongRatioType` is a number with a compile-time unit ratio (like
  * `std::chrono::duration`), converted between ratios by `RatioConvert`. Ratios are
  * positive and in lowest terms, as `std::ratio` keeps them; representations are
  * either integral (unbounded here) or floating point (real here). */
module StrongType {
  import CInt

  /** `StrongType<T, Tag>`: construction from, and explicit conversion back to, `T`. */
  datatype Strong<T> = Strong(value: T)

  function Wrap<T>(x: T): (s: Strong<T>)
    ensures Unwrap(s) == x
  {
    Strong(x)
  }

  function Unwrap<T>(s: Strong<T>): T
  {
    s.value
  }

  /** Greatest common divisor of two positive numbers (subtractive Euclid). */
  function Gcd(a: nat, b: nat): (g: nat)
    requires a > 0 && b > 0
    ensures 0 < g <= a && g <= b
    decreases a + b
  {
    if a == b then a else if a > b then Gcd(a - b, b) else Gcd(a, b - a)
  }

  /** `d` divides `a`, witnessed by the quotient. */
  predicate Divides(d: nat, a: int)
    requires d > 0
  {
    (a / d) * d == a
  }

  lemma {:induction false} GcdDivides(a: nat, b: nat)
    requires a > 0 && b > 0
    ensures Divides(Gcd(a, b), a) && Divides(Gcd(a, b), b)
    decreases a + b
  {
    var g := Gcd(a, b);
    if a == b {
      CInt.MulDiv(1, a);
    } else if a > b {
      GcdDivides(a - b, b);
      DividesSum(g, a - b, b);
      assert a - b + b == a;
    } else {
      GcdDivides(a, b - a);
      DividesSum(g, a, b - a);
      assert a + (b - a) == b;
    }
  }

  lemma DividesSum(d: nat, x: nat, y: nat)
    requires d > 0 && Divides(d, x) && Divides(d, y)
    ensures Divides(d, x + y)
  {
    var p, q := x / d, y / d;
    assert (p + q) * d == x + y;
    CInt.MulDiv(p + q, d);
  }

  lemma {:induction false} GcdSymmetric(a: nat, b: nat)
    requires a > 0 && b > 0
    ensures Gcd(a, b) == Gcd(b, a)
    decreases a + b
  {
    if a > b {
      GcdSymmetric(a - b, b);
    } else if a < b {
      GcdSymmetric(a, b - a);
    }
  }

  /** `std::ratio<num, den>`, positive and in lowest terms. */
  datatype Ratio = Ratio(num: nat, den: nat)

  predicate ValidRatio(q: Ratio)
  {
    q.num > 0 && q.den > 0 && Gcd(q.num, q.den) == 1
  }

  /** The ratio `x/y` in lowest terms. */
  function Reduce(x: nat, y: nat): (q: Ratio)
    requires x > 0 && y > 0
    ensures q.num > 0 && q.den > 0
    ensures (q.num as real) / (q.den as real) == (x as real) / (y as real)
  {
    var g := Gcd(x, y);
    GcdDivides(x, y);
    var q := Ratio(x / g, y / g);
    assert q.num * g == x && q.den * g == y;
    RealFraction(q.num, q.den, g);
    q
  }

  lemma RealFraction(n: nat, d: nat, g: nat)
    requires n > 0 && d > 0 && g > 0
    ensures (n as real) / (d as real) == ((n * g) as real) / ((d * g) as real)
  {
    assert (n * g) as real == (n as real) * (g as real);
    assert (d * g) as real == (d as real) * (g as real);
  }

  /** `std::ratio_divide<A, B>`. */
  function RatioDivide(a: Ratio, b: Ratio): (q: Ratio)
    requires a.num > 0 && a.den > 0 && b.num > 0 && b.den > 0
    ensures q.num > 0 && q.den > 0
    ensures (q.num as real) / (q.den as real) == ((a.num * b.den) as real) / ((a.den * b.num) as real)
  {
    Reduce(a.num * b.den, a.den * b.num)
  }

  /** Reversing a division swaps numerator and denominator. */
  lemma RatioDivideSwap(a: Ratio, b: Ratio)
    requires a.num > 0 && a.den > 0 && b.num > 0 && b.den > 0
    ensures RatioDivide(b, a) == Ratio(RatioDivide(a, b).den, RatioDivide(a, b).num)
  {
    var x, y := a.num * b.den, a.den * b.num;
    assert b.num * a.den == y && b.den * a.num == x;
    GcdSymmetric(x, y);
  }

  /** The representation of a value: an integral type or a floating-point type. */
  datatype Rep = Integral | Floating

  /** A number of one of the two kinds. */
  datatype Num = I(i: int) | R(r: real)
  {
    function RepOf(): Rep { if I? then Integral else Floating }
  }

  /** `std::common_type_t` of two representations: floating point wins. */
  function Common(a: Rep, b: Rep): Rep
  {
    if a == Floating || b == Floating then Floating else Integral
  }

  /** `static_cast<To>(x)`: an integer becomes a real exactly, a real is truncated. */
  function Cast(x: Num, to: Rep): (y: Num)
    ensures y.RepOf() == to
    ensures x.RepOf() == to ==> y == x
    ensures x.I? && to == Floating ==> y.r == x.i as real
  {
    match (x, to)
    case (I(i), Floating) => R(i as real)
    case (R(r), Integral) => I(CInt.RealToInt(r))
    case _ => x
  }

  function Mul(x: Num, y: Num): (z: Num)
    requires x.RepOf() == y.RepOf()
    ensures z.RepOf() == x.RepOf()
  {
    if x.I? then I(x.i * y.i) else R(x.r * y.r)
  }

  /** C++ division: truncating for integers. */
  function Div(x: Num, y: Num): (z: Num)
    requires x.RepOf() == y.RepOf()
    requires (y.I? ==> y.i != 0) && (y.R? ==> y.r != 0.0)
    ensures z.RepOf() == x.RepOf()
  {
    if x.I? then I(CInt.TruncDiv(x.i, y.i)) else R(x.r / y.r)
  }

  function Add(x: Num, y: Num): (z: Num)
    requires x.RepOf() == y.RepOf()
    ensures z.RepOf() == x.RepOf()
  {
    if x.I? then I(x.i + y.i) else R(x.r + y.r)
  }

  function Sub(x: Num, y: Num): (z: Num)
    requires x.RepOf() == y.RepOf()
    ensures z.RepOf() == x.RepOf()
  {
    if x.I? then I(x.i - y.i) else R(x.r - y.r)
  }

  /** `detail::RatioConvert<Rep, Ratio, ToRep, ToRatio>`: converts `value`, counted in
    * units of `from`, to units of `to` in representation `toRep`. The quotient ratio
    * decides the arithmetic: none when it is 1, a multiplication when it is whole, a
    * division when it is a unit fraction, otherwise multiply first, then divide,
    * all in the common representation. */
  function RatioConvert(value: Num, from: Ratio, toRep: Rep, to: Ratio): (r: Num)
    requires ValidRatio(from) && ValidRatio(to)
    ensures r.RepOf() == toRep
  {
    var c := RatioDivide(from, to);
    var cRep := Common(value.RepOf(), toRep);
    var v := Cast(value, cRep);
    if c.den == 1 then
      if c.num == 1 then Cast(value, toRep)
      else Cast(Mul(v, Cast(I(c.num), cRep)), toRep)
    else
      if c.num == 1 then Cast(Div(v, Cast(I(c.den), cRep)), toRep)
      else Cast(Div(Mul(v, Cast(I(c.num), cRep)), Cast(I(c.den), cRep)), toRep)
  }

  /** Converting to the same ratio and representation changes nothing. */
  lemma ConvertSameRatio(value: Num, q: Ratio)
    requires ValidRatio(q)
    ensures RatioConvert(value, q, value.RepOf(), q) == value
  {
    RatioDivideSelf(q);
  }

  /** A ratio divided by itself is one. */
  lemma RatioDivideSelf(q: Ratio)
    requires ValidRatio(q)
    ensures RatioDivide(q, q) == Ratio(1, 1)
  {
    var x := q.num * q.den;
    assert q.den * q.num == x;
    assert Gcd(x, x) == x;
    assert x / x == 1;
  }

  /** Between integral representations: a whole quotient ratio multiplies, a unit
    * fraction divides with truncation, anything else multiplies before dividing. */
  lemma ConvertIntegral(v: int, from: Ratio, to: Ratio)
    requires ValidRatio(from) && ValidRatio(to)
    ensures var c := RatioDivide(from, to);
            RatioConvert(I(v), from, Integral, to)
            == I(if c.den == 1 then v * c.num else CInt.TruncDiv(v * c.num, c.den))
  {
    var c := RatioDivide(from, to);
    if c.den != 1 && c.num == 1 {
      assert v * c.num == v;
    }
  }

  /** Floating-point conversion is exact over the reals: whichever branch computes
    * it, the value is scaled by the quotient of the two ratios. */
  lemma ConvertFloating(x: real, from: Ratio, to: Ratio)
    requires ValidRatio(from) && ValidRatio(to)
    ensures var c := RatioDivide(from, to);
            RatioConvert(R(x), from, Floating, to).r == x * ((c.num as real) / (c.den as real))
  {
    var c := RatioDivide(from, to);
    var cn, cd := c.num as real, c.den as real;
    if c.den == 1 {
      DivOne(cn);
    } else if c.num == 1 {
      DivAsScale(x, cd);
    } else {
      MulDivAsScale(x, cn, cd);
    }
  }

  lemma DivOne(n: real)
    ensures n / 1.0 == n
  {
  }

  lemma DivAsScale(x: real, d: real)
    requires d != 0.0
    ensures x / d == x * (1.0 / d)
  {
  }

  lemma MulDivAsScale(x: real, n: real, d: real)
    requires d != 0.0
    ensures x * n / d == x * (n / d)
  {
  }

  /** Converting an integral count to a finer unit and back gives the count back
    * (for example seconds to milliseconds and back). */
  lemma ConvertRoundTrip(v: int, coarse: Ratio, fine: Ratio)
    requires ValidRatio(coarse) && ValidRatio(fine)
    requires RatioDivide(coarse, fine).den == 1
    ensures RatioConvert(RatioConvert(I(v), coarse, Integral, fine), fine, Integral, coarse) == I(v)
  {
    var k := RatioDivide(coarse, fine).num;
    RatioDivideSwap(coarse, fine);
    ConvertIntegral(v, coarse, fine);
    ConvertIntegral(v * k, fine, coarse);
    if k != 1 {
      CInt.TruncDivExact(v, k);
    }
  }

  /** `StrongRatioType<Rep, Ratio, Tag>`: a value counted in units of `ratio`. */
  class StrongRatio {
    const ratio: Ratio
    var value: Num

    predicate Valid()
      reads this
    {
      ValidRatio(ratio)
    }

    /** The raw-value constructor. */
    constructor (q: Ratio, raw: Num)
      requires ValidRatio(q)
      ensures Valid() && ratio == q && value == raw
    {
      ratio := q;
      value := raw;
    }

    /** The converting constructor: the other value in this ratio and representation. */
    constructor Convert(q: Ratio, rep: Rep, other: StrongRatio)
      requires ValidRatio(q) && other.Valid()
      ensures Valid() && ratio == q
      ensures value == RatioConvert(other.value, other.ratio, rep, q)
    {
      ratio := q;
      value := RatioConvert(other.value, other.ratio, rep, q);
    }

    /** The right operand of every compound operator, in this ratio and representation. */
    function Operand(rhs: StrongRatio): (n: Num)
      requires Valid() && rhs.Valid()
      reads this, rhs
      ensures n.RepOf() == value.RepOf()
    {
      RatioConvert(rhs.value, rhs.ratio, value.RepOf(), ratio)
    }

    /** `operator+=`: adds the right operand converted into this unit. */
    method AddAssign(rhs: StrongRatio)
      requires Valid() && rhs.Valid()
      modifies this
      ensures Valid() && value == Add(old(value), old(Operand(rhs)))
    {
      value := Add(value, Operand(rhs));
    }

    /** `operator-=`. */
    method SubAssign(rhs: StrongRatio)
      requires Valid() && rhs.Valid()
      modifies this
      ensures Valid() && value == Sub(old(value), old(Operand(rhs)))
    {
      value := Sub(value, Operand(rhs));
    }

    /** `operator*=`. */
    method MulAssign(rhs: StrongRatio)
      requires Valid() && rhs.Valid()
      modifies this
      ensures Valid() && value == Mul(old(value), old(Operand(rhs)))
    {
      value := Mul(value, Operand(rhs));
    }

    /** `operator/=`: dividing by a converted zero is undefined in C++ and excluded here. */
    method DivAssign(rhs: StrongRatio)
      requires Valid() && rhs.Valid()
      requires var d := Operand(rhs); (d.I? ==> d.i != 0) && (d.R? ==> d.r != 0.0)
      modifies this
      ensures Valid() && value == Div(old(value), old(Operand(rhs)))
    {
      value := Div(value, Operand(rhs));
    }
  }

  /** `operator+` copies the left operand and adds in place: the result keeps the
    * left operand's ratio and representation, and the right operand is unchanged. */
  method Plus(lhs: StrongRatio, rhs: StrongRatio) returns (r: StrongRatio)
    requires lhs.Valid() && rhs.Valid()
    ensures fresh(r) && r.Valid() && r.ratio == lhs.ratio
    ensures r.value.RepOf() == lhs.value.RepOf()
    ensures r.value == Add(lhs.value, lhs.Operand(rhs))
  {
    r := new StrongRatio(lhs.ratio, lhs.value);
    r.AddAssign(rhs);
  }

  /** `operator-`, like `operator+` with `-=`. */
  method Minus(lhs: StrongRatio, rhs: StrongRatio) returns (r: StrongRatio)
    requires lhs.Valid() && rhs.Valid()
    ensures fresh(r) && r.Valid() && r.ratio == lhs.ratio
    ensures r.value == Sub(lhs.value, lhs.Operand(rhs))
  {
    r := new StrongRatio(lhs.ratio, lhs.value);
    r.SubAssign(rhs);
  }

  /** `operator*`, like `operator+` with `*=`. */
  method Times(lhs: StrongRatio, rhs: StrongRatio) returns (r: StrongRatio)
    requires lhs.Valid() && rhs.Valid()
    ensures fresh(r) && r.Valid() && r.ratio == lhs.ratio
    ensures r.value == Mul(lhs.value, lhs.Operand(rhs))
  {
    r := new StrongRatio(lhs.ratio, lhs.value);
    r.MulAssign(rhs);
  }

  /** `operator/`, like `operator+` with `/=`. */
  method Over(lhs: StrongRatio, rhs: StrongRatio) returns (r: StrongRatio)
    requires lhs.Valid() && rhs.Valid()
    requires var d := lhs.Operand(rhs); (d.I? ==> d.i != 0) && (d.R? ==> d.r != 0.0)
    ensures fresh(r) && r.Valid() && r.ratio == lhs.ratio
    ensures r.value == Div(lhs.value, lhs.Operand(rhs))
  {
    r := new StrongRatio(lhs.ratio, lhs.value);
    r.DivAssign(rhs);
  }
}
