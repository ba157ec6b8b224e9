/** `RotationMatrixToQuat` of the legacy `Helpers.h`: the four candidate
  * components are computed from the diagonal, the largest one is kept
  * positive, the other three take their signs from the off-diagonal
  * differences and sums, and the result is normalized.
  *
  * `std::sqrt` is a parameter. `std::copysign(1.0, d)` is `-1` exactly when
  * `d` is negative. */
module LegacyHelpers {
  import opened Helpers
  import opened Playspace
  import opened Quaternions

  /** The four candidates `q0..q3` before the root, as the components
    * `w, x, y, z`. Whatever the matrix, they add up to one. */
  function Candidates(m: Mat3): (c: Quat)
    ensures c.w + c.x + c.y + c.z == 1.0
  {
    Quat((m.r0.x + m.r1.y + m.r2.z + 1.0) / 4.0,
         (m.r0.x - m.r1.y - m.r2.z + 1.0) / 4.0,
         (-m.r0.x + m.r1.y - m.r2.z + 1.0) / 4.0,
         (-m.r0.x - m.r1.y + m.r2.z + 1.0) / 4.0)
  }

  function Max0(a: real): real
  {
    if a < 0.0 then 0.0 else a
  }

  /** `std::sqrt(std::max(qk, 0.0))` for each candidate. */
  function Roots(m: Mat3, sqrt: real -> real): Quat
  {
    var c := Candidates(m);
    Quat(sqrt(Max0(c.w)), sqrt(Max0(c.x)), sqrt(Max0(c.y)), sqrt(Max0(c.z)))
  }

  lemma Root(sqrt: real -> real, a: real)
    requires IsSqrt(sqrt) && a >= 0.0
    ensures sqrt(a) >= 0.0 && sqrt(a) * sqrt(a) == a
  {
  }

  /** Each component of `q` is the non-negative root of the same component
    * of `c`, clamped at zero. */
  predicate RootsOf(q: Quat, c: Quat)
  {
    RootOf(q.w, c.w) && RootOf(q.x, c.x) && RootOf(q.y, c.y) && RootOf(q.z, c.z)
  }

  /** `r` is the non-negative root of `a` clamped at zero. */
  predicate RootOf(r: real, a: real)
  {
    r >= 0.0 && r * r == Max0(a)
  }

  /** The roots are non-negative and square to the clamped candidates. */
  lemma RootsSquares(m: Mat3, sqrt: real -> real)
    requires IsSqrt(sqrt)
    ensures RootsOf(Roots(m, sqrt), Candidates(m))
  {
    var c := Candidates(m);
    RootOfClamped(sqrt, c.w);
    RootOfClamped(sqrt, c.x);
    RootOfClamped(sqrt, c.y);
    RootOfClamped(sqrt, c.z);
  }

  lemma RootOfClamped(sqrt: real -> real, a: real)
    requires IsSqrt(sqrt)
    ensures RootOf(sqrt(Max0(a)), a)
  {
    Root(sqrt, Max0(a));
  }

  /** `a *= std::copysign(1.0, d)`: the sign factor is `-1` exactly when `d`
    * is negative, so the product is `a` or its negation. */
  function WithSign(a: real, d: real): (r: real)
    ensures r == a || r == -a
    ensures a > 0.0 ==> (r < 0.0 <==> d < 0.0)
  {
    if d < 0.0 then -a else a
  }

  /** The branch the if-chain takes: the first component that is at least as
    * large as the other three (0 for `q0` through 3 for `q3`). */
  function Branch(q: Quat): (b: int)
    ensures 0 <= b < 4
    ensures b == 0 <==> q.w >= q.x && q.w >= q.y && q.w >= q.z
    ensures b == 1 ==> q.x >= q.w && q.x >= q.y && q.x >= q.z
    ensures b == 2 ==> q.y >= q.w && q.y >= q.x && q.y >= q.z
    ensures b == 3 ==> q.z >= q.w && q.z >= q.x && q.z >= q.y
  {
    if q.w >= q.x && q.w >= q.y && q.w >= q.z then 0
    else if q.x >= q.w && q.x >= q.y && q.x >= q.z then 1
    else if q.y >= q.w && q.y >= q.x && q.y >= q.z then 2
    else if q.z >= q.w && q.z >= q.x && q.z >= q.y then 3
    else assert false; 0
  }

  /** One of the four candidates is always at least as large as the others,
    * so the fatal branch after the four tests is never taken. */
  lemma SomeCandidateLargest(q: Quat)
    ensures (q.w >= q.x && q.w >= q.y && q.w >= q.z) || (q.x >= q.w && q.x >= q.y && q.x >= q.z)
         || (q.y >= q.w && q.y >= q.x && q.y >= q.z) || (q.z >= q.w && q.z >= q.x && q.z >= q.y)
  {
  }

  /** The if-chain: the largest root is kept, the others are multiplied by
    * the sign of a difference or sum of two off-diagonal entries. */
  function SignRoots(q: Quat, m: Mat3): Quat
  {
    match Branch(q)
    case 0 => Quat(q.w, WithSign(q.x, m.r2.y - m.r1.z), WithSign(q.y, m.r0.z - m.r2.x), WithSign(q.z, m.r1.x - m.r0.y))
    case 1 => Quat(WithSign(q.w, m.r2.y - m.r1.z), q.x, WithSign(q.y, m.r1.x + m.r0.y), WithSign(q.z, m.r0.z + m.r2.x))
    case 2 => Quat(WithSign(q.w, m.r0.z - m.r2.x), WithSign(q.x, m.r1.x + m.r0.y), q.y, WithSign(q.z, m.r2.y + m.r1.z))
    case 3 => Quat(WithSign(q.w, m.r1.x - m.r0.y), WithSign(q.x, m.r2.x + m.r0.z), WithSign(q.y, m.r2.y + m.r1.z), q.z)
  }

  /** Each component of `s` is the same component of `q` or its negation. */
  predicate SameUpToSigns(s: Quat, q: Quat)
  {
    (s.w == q.w || s.w == -q.w) && (s.x == q.x || s.x == -q.x) && (s.y == q.y || s.y == -q.y)
    && (s.z == q.z || s.z == -q.z)
  }

  /** The signs change no magnitude. */
  lemma SignRootsMagnitudes(q: Quat, m: Mat3)
    ensures SameUpToSigns(SignRoots(q, m), q)
  {
  }

  lemma SignedSquare(a: real, b: real)
    requires b == a || b == -a
    ensures b * b == a * a
  {
  }

  /** Sign changes keep the norm. */
  lemma NormUpToSigns(s: Quat, q: Quat)
    requires SameUpToSigns(s, q)
    ensures Norm(s) == Norm(q)
  {
    SignedSquare(q.w, s.w);
    SignedSquare(q.x, s.x);
    SignedSquare(q.y, s.y);
    SignedSquare(q.z, s.z);
  }

  /** The largest root is kept as it is, and each other component is negative
    * only when its matrix difference or sum is. */
  lemma SignRootsSigns(q: Quat, m: Mat3)
    requires q.w >= 0.0 && q.x >= 0.0 && q.y >= 0.0 && q.z >= 0.0
    ensures var s := SignRoots(q, m);
            match Branch(q)
            case 0 => s.w == q.w && (s.x < 0.0 ==> m.r2.y - m.r1.z < 0.0) && (s.y < 0.0 ==> m.r0.z - m.r2.x < 0.0)
                      && (s.z < 0.0 ==> m.r1.x - m.r0.y < 0.0)
            case 1 => s.x == q.x && (s.w < 0.0 ==> m.r2.y - m.r1.z < 0.0) && (s.y < 0.0 ==> m.r1.x + m.r0.y < 0.0)
                      && (s.z < 0.0 ==> m.r0.z + m.r2.x < 0.0)
            case 2 => s.y == q.y && (s.w < 0.0 ==> m.r0.z - m.r2.x < 0.0) && (s.x < 0.0 ==> m.r1.x + m.r0.y < 0.0)
                      && (s.z < 0.0 ==> m.r2.y + m.r1.z < 0.0)
            case 3 => s.z == q.z && (s.w < 0.0 ==> m.r1.x - m.r0.y < 0.0) && (s.x < 0.0 ==> m.r2.x + m.r0.z < 0.0)
                      && (s.y < 0.0 ==> m.r2.y + m.r1.z < 0.0)
  {
  }

  /** The signed components before `normalize()`. */
  function Signed(m: Mat3, sqrt: real -> real): Quat
  {
    SignRoots(Roots(m, sqrt), m)
  }

  lemma Max0Sum(c: Quat)
    requires c.w + c.x + c.y + c.z == 1.0
    ensures Max0(c.w) + Max0(c.x) + Max0(c.y) + Max0(c.z) >= 1.0
    ensures c.w >= 0.0 && c.x >= 0.0 && c.y >= 0.0 && c.z >= 0.0 ==> Max0(c.w) + Max0(c.x) + Max0(c.y) + Max0(c.z) == 1.0
  {
  }

  lemma NormOfRoots(q: Quat, c: Quat)
    requires RootsOf(q, c)
    requires c.w + c.x + c.y + c.z == 1.0
    ensures Norm(q) >= 1.0
    ensures c.w >= 0.0 && c.x >= 0.0 && c.y >= 0.0 && c.z >= 0.0 ==> Norm(q) == 1.0
  {
    Max0Sum(c);
  }

  /** Before `normalize()` the norm is the sum of the clamped candidates,
    * which is at least one, so the normalization never divides by zero; for
    * a matrix whose candidates are all non-negative (a rotation matrix) it
    * is exactly one. */
  lemma SignedNorm(m: Mat3, sqrt: real -> real)
    requires IsSqrt(sqrt)
    ensures Norm(Signed(m, sqrt)) >= 1.0
    ensures var c := Candidates(m);
            c.w >= 0.0 && c.x >= 0.0 && c.y >= 0.0 && c.z >= 0.0 ==> Norm(Signed(m, sqrt)) == 1.0
  {
    var q, c := Roots(m, sqrt), Candidates(m);
    RootsSquares(m, sqrt);
    SignRootsMagnitudes(q, m);
    NormUpToSigns(Signed(m, sqrt), q);
    NormOfRoots(q, c);
  }

  /** The largest candidate keeps its positive root, and each other component
    * is negative only when its matrix difference or sum is. */
  lemma SignedSigns(m: Mat3, sqrt: real -> real)
    requires IsSqrt(sqrt)
    ensures var q, s := Roots(m, sqrt), Signed(m, sqrt);
            match Branch(q)
            case 0 => s.w == q.w && q.w >= 0.0 && (s.x < 0.0 ==> m.r2.y - m.r1.z < 0.0)
                      && (s.y < 0.0 ==> m.r0.z - m.r2.x < 0.0) && (s.z < 0.0 ==> m.r1.x - m.r0.y < 0.0)
            case 1 => s.x == q.x && q.x >= 0.0 && (s.w < 0.0 ==> m.r2.y - m.r1.z < 0.0)
                      && (s.y < 0.0 ==> m.r1.x + m.r0.y < 0.0) && (s.z < 0.0 ==> m.r0.z + m.r2.x < 0.0)
            case 2 => s.y == q.y && q.y >= 0.0 && (s.w < 0.0 ==> m.r0.z - m.r2.x < 0.0)
                      && (s.x < 0.0 ==> m.r1.x + m.r0.y < 0.0) && (s.z < 0.0 ==> m.r2.y + m.r1.z < 0.0)
            case 3 => s.z == q.z && q.z >= 0.0 && (s.w < 0.0 ==> m.r1.x - m.r0.y < 0.0)
                      && (s.x < 0.0 ==> m.r2.x + m.r0.z < 0.0) && (s.y < 0.0 ==> m.r2.y + m.r1.z < 0.0)
  {
    RootsSquares(m, sqrt);
    SignRootsSigns(Roots(m, sqrt), m);
  }

  /** `normalize()`: the quaternion divided by its length. */
  function Normalize(q: Quat, sqrt: real -> real): (r: Quat)
    requires IsSqrt(sqrt) && Norm(q) > 0.0
    ensures Norm(r) == 1.0
  {
    var n := sqrt(Norm(q));
    NormalizeUnit(q, n);
    ScaleQ(q, 1.0 / n)
  }

  lemma NormalizeUnit(q: Quat, n: real)
    requires n > 0.0 && n * n == Norm(q)
    ensures Norm(ScaleQ(q, 1.0 / n)) == 1.0
  {
    var k := 1.0 / n;
    assert k * n == 1.0;
    var r := ScaleQ(q, k);
    assert Norm(r) == Norm(q) * (k * k);
    assert (n * n) * (k * k) == (n * k) * (n * k);
  }

  /** `RotationMatrixToQuat`: defined for every matrix, and a unit
    * quaternion. */
  function RotationMatrixToQuat(m: Mat3, sqrt: real -> real): (r: Quat)
    requires IsSqrt(sqrt)
    ensures Norm(r) == 1.0
  {
    SignedNorm(m, sqrt);
    Normalize(Signed(m, sqrt), sqrt)
  }

  lemma SqrtOne(sqrt: real -> real)
    requires IsSqrt(sqrt)
    ensures sqrt(1.0) == 1.0
  {
    var s := sqrt(1.0);
    Root(sqrt, 1.0);
    assert s <= 1.0 ==> s * s <= s;
    assert s >= 1.0 ==> s * s >= s;
  }

  /** The identity matrix gives the identity quaternion. */
  lemma IdentityMatrixQuat(sqrt: real -> real)
    requires IsSqrt(sqrt)
    ensures RotationMatrixToQuat(Identity3, sqrt) == Identity
  {
    SqrtOne(sqrt);
    var c := Candidates(Identity3);
    assert c == Quat(1.0, 0.0, 0.0, 0.0);
    assert Max0(c.w) == 1.0 && Max0(c.x) == 0.0;
    assert Roots(Identity3, sqrt) == Quat(1.0, 0.0, 0.0, 0.0);
    assert Signed(Identity3, sqrt) == Quat(1.0, 0.0, 0.0, 0.0);
  }
}
