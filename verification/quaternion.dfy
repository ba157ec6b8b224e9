/** The quaternion template of the legacy tracker, over the reals: component-wise
  * sum and difference, the Hamilton product, conjugate, norm (the sum of
  * squares), inverse, and the rotation of a 3-vector by `q (0, v) q^-1`. The
  * values of the pure operators are the datatype `Quat`; the compound
  * assignments that overwrite the four fields are methods of the class
  * `Quaternion`. The same algebra serves for `cv::Quat` elsewhere in the model. */
module Quaternions {
  import opened Helpers

  /** `[w, (x, y, z)]`. */
  datatype Quat = Quat(w: real, x: real, y: real, z: real)

  const ZeroQuat := Quat(0.0, 0.0, 0.0, 0.0)
  const Identity := Quat(1.0, 0.0, 0.0, 0.0)

  /** `operator +`: component-wise. */
  function Plus(p: Quat, q: Quat): (r: Quat)
    ensures r.w == p.w + q.w && r.x == p.x + q.x && r.y == p.y + q.y && r.z == p.z + q.z
  {
    Quat(p.w + q.w, p.x + q.x, p.y + q.y, p.z + q.z)
  }

  /** `operator -`: component-wise. */
  function Minus(p: Quat, q: Quat): (r: Quat)
    ensures r.w == p.w - q.w && r.x == p.x - q.x && r.y == p.y - q.y && r.z == p.z - q.z
  {
    Quat(p.w - q.w, p.x - q.x, p.y - q.y, p.z - q.z)
  }

  /** The four components of the Hamilton product `p q`. */
  function HamW(pw: real, px: real, py: real, pz: real, qw: real, qx: real, qy: real, qz: real): real
  {
    pw * qw - px * qx - py * qy - pz * qz
  }

  function HamX(pw: real, px: real, py: real, pz: real, qw: real, qx: real, qy: real, qz: real): real
  {
    pw * qx + px * qw + py * qz - pz * qy
  }

  function HamY(pw: real, px: real, py: real, pz: real, qw: real, qx: real, qy: real, qz: real): real
  {
    pw * qy + py * qw + pz * qx - px * qz
  }

  function HamZ(pw: real, px: real, py: real, pz: real, qw: real, qx: real, qy: real, qz: real): real
  {
    pw * qz + pz * qw + px * qy - py * qx
  }

  /** `operator *`: the Hamilton product `p q`. */
  function Mul(p: Quat, q: Quat): Quat
  {
    Quat(HamW(p.w, p.x, p.y, p.z, q.w, q.x, q.y, q.z), HamX(p.w, p.x, p.y, p.z, q.w, q.x, q.y, q.z),
         HamY(p.w, p.x, p.y, p.z, q.w, q.x, q.y, q.z), HamZ(p.w, p.x, p.y, p.z, q.w, q.x, q.y, q.z))
  }

  /** `scale(s)`: every component times `s`. */
  function ScaleQ(q: Quat, s: real): (r: Quat)
    ensures r.w == q.w * s && r.x == q.x * s && r.y == q.y * s && r.z == q.z * s
  {
    Quat(q.w * s, q.x * s, q.y * s, q.z * s)
  }

  /** `conjugate()`: the vector part negated. */
  function Conjugate(q: Quat): (r: Quat)
    ensures r.w == q.w && r.x == -q.x && r.y == -q.y && r.z == -q.z
  {
    Quat(q.w, -q.x, -q.y, -q.z)
  }

  /** `norm()`: the sum of the squares of the four components. */
  function Norm(q: Quat): real
  {
    q.w * q.w + q.x * q.x + q.y * q.y + q.z * q.z
  }

  /** `inverse()`: the conjugate scaled by `1 / norm()`. Division by a zero norm
    * is outside the domain. */
  function Inverse(q: Quat): Quat
    requires Norm(q) != 0.0
  {
    ScaleQ(Conjugate(q), 1.0 / Norm(q))
  }

  /** `operator /`: `p q^-1`. */
  function Div(p: Quat, q: Quat): (r: Quat)
    requires Norm(q) != 0.0
  {
    Mul(p, Inverse(q))
  }

  /** `operator ==`: all four components equal. */
  function Equal(p: Quat, q: Quat): (r: bool)
    ensures r <==> p == q
  {
    p.w == q.w && p.x == q.x && p.y == q.y && p.z == q.z
  }

  /** `operator !=`: some component differs. */
  function NotEqual(p: Quat, q: Quat): (r: bool)
    ensures r <==> !Equal(p, q)
  {
    p.w != q.w || p.x != q.x || p.y != q.y || p.z != q.z
  }

  /** The pure quaternion `(0, v)`. */
  function Pure(v: Vec3): Quat
  {
    Quat(0.0, v.x, v.y, v.z)
  }

  function VectorPart(q: Quat): Vec3
  {
    Vec3(q.x, q.y, q.z)
  }

  /** `QuatRotation(v)` and `RotateVecByQuat`: the vector part of `q (0, v) q^-1`. */
  function Rotate(q: Quat, v: Vec3): Vec3
    requires Norm(q) != 0.0
  {
    VectorPart(Mul(Mul(q, Pure(v)), Inverse(q)))
  }

  // ---------------------------------------------------------------------------
  // Algebra
  // ---------------------------------------------------------------------------

  /** Subtracting what was added gives the quaternion back. */
  lemma PlusMinus(q: Quat, r: Quat)
    ensures Minus(Plus(q, r), r) == q
  {
  }

  /** Conjugating twice is the identity. */
  lemma ConjugateInvolution(q: Quat)
    ensures Conjugate(Conjugate(q)) == q
  {
  }

  /** The sum of four squares is never negative. */
  lemma SumOfSquares(w: real, x: real, y: real, z: real)
    ensures w * w + x * x + y * y + z * z >= 0.0
  {
    Square(w);
    Square(x);
    Square(y);
    Square(z);
  }

  lemma Square(a: real)
    ensures a * a >= 0.0
  {
    if a < 0.0 {
      assert a * a == (-a) * (-a);
    }
  }

  /** `q conj(q)` and `conj(q) q`, multiplied out. */
  lemma ConjugateScalars(w: real, x: real, y: real, z: real)
    ensures w * w - x * -x - y * -y - z * -z == w * w + x * x + y * y + z * z
    ensures w * -x + x * w + y * -z - z * -y == 0.0
    ensures w * -y + y * w + z * -x - x * -z == 0.0
    ensures w * -z + z * w + x * -y - y * -x == 0.0
    ensures w * w - -x * x - -y * y - -z * z == w * w + x * x + y * y + z * z
    ensures w * x + -x * w + -y * z - -z * y == 0.0
    ensures w * y + -y * w + -z * x - -x * z == 0.0
    ensures w * z + -z * w + -x * y - -y * x == 0.0
  {
  }

  /** The norm is never negative and is the scalar part of `q conj(q)`, whose
    * vector part vanishes. */
  lemma NormProduct(q: Quat)
    ensures Norm(q) >= 0.0
    ensures Mul(q, Conjugate(q)) == Quat(Norm(q), 0.0, 0.0, 0.0)
    ensures Mul(Conjugate(q), q) == Quat(Norm(q), 0.0, 0.0, 0.0)
  {
    SumOfSquares(q.w, q.x, q.y, q.z);
    ConjugateScalars(q.w, q.x, q.y, q.z);
  }

  /** The components of `q q^-1` and `q^-1 q`. */
  lemma InverseComponents(q: Quat, i: Quat)
    requires Norm(q) != 0.0 && i == Inverse(q)
    ensures HamW(q.w, q.x, q.y, q.z, i.w, i.x, i.y, i.z) == 1.0
    ensures HamX(q.w, q.x, q.y, q.z, i.w, i.x, i.y, i.z) == 0.0
    ensures HamY(q.w, q.x, q.y, q.z, i.w, i.x, i.y, i.z) == 0.0
    ensures HamZ(q.w, q.x, q.y, q.z, i.w, i.x, i.y, i.z) == 0.0
    ensures HamW(i.w, i.x, i.y, i.z, q.w, q.x, q.y, q.z) == 1.0
    ensures HamX(i.w, i.x, i.y, i.z, q.w, q.x, q.y, q.z) == 0.0
    ensures HamY(i.w, i.x, i.y, i.z, q.w, q.x, q.y, q.z) == 0.0
    ensures HamZ(i.w, i.x, i.y, i.z, q.w, q.x, q.y, q.z) == 0.0
  {
    var s := 1.0 / Norm(q);
    assert Norm(q) * s == 1.0;
  }

  /** A quaternion times its inverse, on either side, is the identity. */
  lemma MulInverse(q: Quat)
    requires Norm(q) != 0.0
    ensures Mul(q, Inverse(q)) == Identity
    ensures Mul(Inverse(q), q) == Identity
  {
    InverseComponents(q, Inverse(q));
  }

  /** Associativity multiplied out: `(a b) c` and `a (b c)` agree in every
    * component. */
  lemma HamiltonAssociative(aw: real, ax: real, ay: real, az: real, bw: real, bx: real, by_: real, bz: real,
                            cw: real, cx: real, cy: real, cz: real)
    ensures (aw * bw - ax * bx - ay * by_ - az * bz) * cw - (aw * bx + ax * bw + ay * bz - az * by_) * cx
          - (aw * by_ + ay * bw + az * bx - ax * bz) * cy - (aw * bz + az * bw + ax * by_ - ay * bx) * cz
         == aw * (bw * cw - bx * cx - by_ * cy - bz * cz) - ax * (bw * cx + bx * cw + by_ * cz - bz * cy)
          - ay * (bw * cy + by_ * cw + bz * cx - bx * cz) - az * (bw * cz + bz * cw + bx * cy - by_ * cx)
    ensures (aw * bw - ax * bx - ay * by_ - az * bz) * cx + (aw * bx + ax * bw + ay * bz - az * by_) * cw
          + (aw * by_ + ay * bw + az * bx - ax * bz) * cz - (aw * bz + az * bw + ax * by_ - ay * bx) * cy
         == aw * (bw * cx + bx * cw + by_ * cz - bz * cy) + ax * (bw * cw - bx * cx - by_ * cy - bz * cz)
          + ay * (bw * cz + bz * cw + bx * cy - by_ * cx) - az * (bw * cy + by_ * cw + bz * cx - bx * cz)
    ensures (aw * bw - ax * bx - ay * by_ - az * bz) * cy + (aw * by_ + ay * bw + az * bx - ax * bz) * cw
          + (aw * bz + az * bw + ax * by_ - ay * bx) * cx - (aw * bx + ax * bw + ay * bz - az * by_) * cz
         == aw * (bw * cy + by_ * cw + bz * cx - bx * cz) + ay * (bw * cw - bx * cx - by_ * cy - bz * cz)
          + az * (bw * cx + bx * cw + by_ * cz - bz * cy) - ax * (bw * cz + bz * cw + bx * cy - by_ * cx)
    ensures (aw * bw - ax * bx - ay * by_ - az * bz) * cz + (aw * bz + az * bw + ax * by_ - ay * bx) * cw
          + (aw * bx + ax * bw + ay * bz - az * by_) * cy - (aw * by_ + ay * bw + az * bx - ax * bz) * cx
         == aw * (bw * cz + bz * cw + bx * cy - by_ * cx) + az * (bw * cw - bx * cx - by_ * cy - bz * cz)
          + ax * (bw * cy + by_ * cw + bz * cx - bx * cz) - ay * (bw * cx + bx * cw + by_ * cz - bz * cy)
  {
  }

  /** Associativity of the Hamilton product, one component at a time. */
  lemma AssociativeW(a: Quat, b: Quat, c: Quat)
    ensures HamW(
      HamW(a.w, a.x, a.y, a.z, b.w, b.x, b.y, b.z), HamX(a.w, a.x, a.y, a.z, b.w, b.x, b.y, b.z),
      HamY(a.w, a.x, a.y, a.z, b.w, b.x, b.y, b.z), HamZ(a.w, a.x, a.y, a.z, b.w, b.x, b.y, b.z), c.w, c.x, c.y, c.z)
      == HamW(a.w, a.x, a.y, a.z,
      HamW(b.w, b.x, b.y, b.z, c.w, c.x, c.y, c.z), HamX(b.w, b.x, b.y, b.z, c.w, c.x, c.y, c.z),
      HamY(b.w, b.x, b.y, b.z, c.w, c.x, c.y, c.z), HamZ(b.w, b.x, b.y, b.z, c.w, c.x, c.y, c.z))
  {
    HamiltonAssociative(a.w, a.x, a.y, a.z, b.w, b.x, b.y, b.z, c.w, c.x, c.y, c.z);
  }

  lemma AssociativeX(a: Quat, b: Quat, c: Quat)
    ensures HamX(
      HamW(a.w, a.x, a.y, a.z, b.w, b.x, b.y, b.z), HamX(a.w, a.x, a.y, a.z, b.w, b.x, b.y, b.z),
      HamY(a.w, a.x, a.y, a.z, b.w, b.x, b.y, b.z), HamZ(a.w, a.x, a.y, a.z, b.w, b.x, b.y, b.z), c.w, c.x, c.y, c.z)
      == HamX(a.w, a.x, a.y, a.z,
      HamW(b.w, b.x, b.y, b.z, c.w, c.x, c.y, c.z), HamX(b.w, b.x, b.y, b.z, c.w, c.x, c.y, c.z),
      HamY(b.w, b.x, b.y, b.z, c.w, c.x, c.y, c.z), HamZ(b.w, b.x, b.y, b.z, c.w, c.x, c.y, c.z))
  {
    HamiltonAssociative(a.w, a.x, a.y, a.z, b.w, b.x, b.y, b.z, c.w, c.x, c.y, c.z);
  }

  lemma AssociativeY(a: Quat, b: Quat, c: Quat)
    ensures HamY(
      HamW(a.w, a.x, a.y, a.z, b.w, b.x, b.y, b.z), HamX(a.w, a.x, a.y, a.z, b.w, b.x, b.y, b.z),
      HamY(a.w, a.x, a.y, a.z, b.w, b.x, b.y, b.z), HamZ(a.w, a.x, a.y, a.z, b.w, b.x, b.y, b.z), c.w, c.x, c.y, c.z)
      == HamY(a.w, a.x, a.y, a.z,
      HamW(b.w, b.x, b.y, b.z, c.w, c.x, c.y, c.z), HamX(b.w, b.x, b.y, b.z, c.w, c.x, c.y, c.z),
      HamY(b.w, b.x, b.y, b.z, c.w, c.x, c.y, c.z), HamZ(b.w, b.x, b.y, b.z, c.w, c.x, c.y, c.z))
  {
    HamiltonAssociative(a.w, a.x, a.y, a.z, b.w, b.x, b.y, b.z, c.w, c.x, c.y, c.z);
  }

  lemma AssociativeZ(a: Quat, b: Quat, c: Quat)
    ensures HamZ(
      HamW(a.w, a.x, a.y, a.z, b.w, b.x, b.y, b.z), HamX(a.w, a.x, a.y, a.z, b.w, b.x, b.y, b.z),
      HamY(a.w, a.x, a.y, a.z, b.w, b.x, b.y, b.z), HamZ(a.w, a.x, a.y, a.z, b.w, b.x, b.y, b.z), c.w, c.x, c.y, c.z)
      == HamZ(a.w, a.x, a.y, a.z,
      HamW(b.w, b.x, b.y, b.z, c.w, c.x, c.y, c.z), HamX(b.w, b.x, b.y, b.z, c.w, c.x, c.y, c.z),
      HamY(b.w, b.x, b.y, b.z, c.w, c.x, c.y, c.z), HamZ(b.w, b.x, b.y, b.z, c.w, c.x, c.y, c.z))
  {
    HamiltonAssociative(a.w, a.x, a.y, a.z, b.w, b.x, b.y, b.z, c.w, c.x, c.y, c.z);
  }

  /** The Hamilton product is associative. */
  lemma MulAssoc(a: Quat, b: Quat, c: Quat)
    ensures Mul(Mul(a, b), c) == Mul(a, Mul(b, c))
  {
    AssociativeW(a, b, c);
    AssociativeX(a, b, c);
    AssociativeY(a, b, c);
    AssociativeZ(a, b, c);
  }

  lemma MulIdentity(q: Quat)
    ensures Mul(Identity, q) == q && Mul(q, Identity) == q
  {
  }

  /** The identity quaternion rotates nothing. */
  lemma RotateIdentity(v: Vec3)
    ensures Norm(Identity) == 1.0
    ensures Rotate(Identity, v) == v
  {
    assert Norm(Identity) == 1.0;
    var i := Inverse(Identity);
    assert i == Identity by {
      assert i == ScaleQ(Conjugate(Identity), 1.0);
    }
    var p := Pure(v);
    MulIdentity(p);
    assert Mul(Identity, p) == p;
    assert Mul(p, Identity) == p;
  }

  /** Dividing by `q` undoes multiplying by `q`. */
  lemma DivMul(p: Quat, q: Quat)
    requires Norm(q) != 0.0
    ensures Div(Mul(p, q), q) == p
  {
    MulAssoc(p, q, Inverse(q));
    MulInverse(q);
    MulIdentity(p);
  }

  /** The inverse has the reciprocal norm, and inverting twice is the identity. */
  lemma InverseInverse(q: Quat)
    requires Norm(q) != 0.0
    ensures Norm(Inverse(q)) == 1.0 / Norm(q)
    ensures Inverse(Inverse(q)) == q
  {
    var n := Norm(q);
    var s := 1.0 / n;
    var i := Inverse(q);
    assert Norm(i) == (q.w * q.w + q.x * q.x + q.y * q.y + q.z * q.z) * (s * s);
    assert Norm(i) == s;
    assert 1.0 / s == n;
    assert i.w * n == q.w && i.x * n == -q.x && i.y * n == -q.y && i.z * n == -q.z;
  }

  /** Conjugation by `q` keeps a pure quaternion pure: the scalar part of
    * `(q (0, v)) q^-1` vanishes. */
  lemma ConjugationPure(q: Quat, v: Vec3, m: Quat, i: Quat)
    requires Norm(q) != 0.0 && m == Mul(q, Pure(v)) && i == Inverse(q)
    ensures HamW(m.w, m.x, m.y, m.z, i.w, i.x, i.y, i.z) == 0.0
  {
  }

  /** Rotating by `q^-1` undoes the rotation by `q`. */
  lemma RotateBack(q: Quat, v: Vec3)
    requires Norm(q) != 0.0
    ensures Norm(Inverse(q)) != 0.0
    ensures Rotate(Inverse(q), Rotate(q, v)) == v
  {
    InverseInverse(q);
    var i := Inverse(q);
    var m := Mul(Mul(q, Pure(v)), i);
    ConjugationPure(q, v, Mul(q, Pure(v)), i);
    assert Pure(Rotate(q, v)) == m;
    // i (q v i) q = (i q) v (i q) = v
    MulAssoc(q, Pure(v), i);
    MulAssoc(i, q, Mul(Pure(v), i));
    MulAssoc(Mul(i, m), q, Identity);
    MulInverse(q);
    MulIdentity(Mul(Pure(v), i));
    MulAssoc(Pure(v), i, q);
    MulIdentity(Pure(v));
    calc {
      Mul(Mul(i, m), q);
      { MulAssoc(i, q, Mul(Pure(v), i)); }
      Mul(Mul(Identity, Mul(Pure(v), i)), q);
      Mul(Mul(Pure(v), i), q);
      Mul(Pure(v), Mul(i, q));
      Pure(v);
    }
  }

  /** For a unit quaternion the inverse is the conjugate, which is a unit
    * quaternion too and has `q` as its inverse. */
  lemma UnitInverse(q: Quat)
    requires Norm(q) == 1.0
    ensures Inverse(q) == Conjugate(q)
    ensures Norm(Conjugate(q)) == 1.0 && Inverse(Conjugate(q)) == q
  {
    var c := Conjugate(q);
    assert Norm(c) == Norm(q);
    assert ScaleQ(c, 1.0 / 1.0) == c;
    assert ScaleQ(Conjugate(c), 1.0 / 1.0) == q;
  }

  /** Rotating by a unit quaternion and by its conjugate undo each other, in
    * either order. */
  lemma RotateUnitBack(q: Quat, v: Vec3)
    requires Norm(q) == 1.0
    ensures Rotate(Conjugate(q), Rotate(q, v)) == v
    ensures Rotate(q, Rotate(Conjugate(q), v)) == v
  {
    UnitInverse(q);
    RotateBack(q, v);
    RotateBack(Conjugate(q), v);
  }

  // ---------------------------------------------------------------------------
  // The object with its compound assignments
  // ---------------------------------------------------------------------------

  class Quaternion {
    var w: real
    var x: real
    var y: real
    var z: real

    function Value(): Quat
      reads this
    {
      Quat(w, x, y, z)
    }

    /** The default constructor: all parts zero. */
    constructor ()
      ensures Value() == ZeroQuat
    {
      w, x, y, z := 0.0, 0.0, 0.0, 0.0;
    }

    /** `Quaternion(wi, xi, yi, zi)`. */
    constructor Of(q: Quat)
      ensures Value() == q
    {
      w, x, y, z := q.w, q.x, q.y, q.z;
    }

    /** `operator =`: copies the four parts. */
    method Assign(q: Quat)
      modifies this
      ensures Value() == q
    {
      w, x, y, z := q.w, q.x, q.y, q.z;
    }

    /** `operator +=`. */
    method AddAssign(q: Quat)
      modifies this
      ensures Value() == Plus(old(Value()), q)
    {
      w := w + q.w;
      x := x + q.x;
      y := y + q.y;
      z := z + q.z;
    }

    /** `operator -=`. */
    method SubAssign(q: Quat)
      modifies this
      ensures Value() == Minus(old(Value()), q)
    {
      w := w - q.w;
      x := x - q.x;
      y := y - q.y;
      z := z - q.z;
    }

    /** `operator *=`: all four products are taken from the old parts before
      * any is stored, so the result is exactly `operator *`. */
    method MulAssign(q: Quat)
      modifies this
      ensures Value() == Mul(old(Value()), q)
    {
      var wv := w * q.w - x * q.x - y * q.y - z * q.z;
      var xv := w * q.x + x * q.w + y * q.z - z * q.y;
      var yv := w * q.y + y * q.w + z * q.x - x * q.z;
      var zv := w * q.z + z * q.w + x * q.y - y * q.x;
      w := wv;
      x := xv;
      y := yv;
      z := zv;
    }

    /** `operator /=`: times the inverse. */
    method DivAssign(q: Quat)
      requires Norm(q) != 0.0
      modifies this
      ensures Value() == Div(old(Value()), q)
    {
      Assign(Mul(Value(), Inverse(q)));
    }

    /** `QuatRotation(v)`: `v` becomes the vector part of `q (0, v) q^-1`. */
    method QuatRotation(v: array<real>)
      requires v.Length == 3 && Norm(Value()) != 0.0
      modifies v
      ensures var r := Rotate(Value(), Vec3(old(v[0]), old(v[1]), old(v[2])));
        v[..] == [r.x, r.y, r.z]
    {
      var qm := Mul(Mul(Value(), Pure(Vec3(v[0], v[1], v[2]))), Inverse(Value()));
      v[0] := qm.x;
      v[1] := qm.y;
      v[2] := qm.z;
    }
  }

  /** `q *= r` followed by `q /= r` gives `q` back. */
  method MulThenDiv(q: Quaternion, r: Quat)
    requires Norm(r) != 0.0
    modifies q
    ensures q.Value() == old(q.Value())
  {
    q.MulAssign(r);
    q.DivAssign(r);
    DivMul(old(q.Value()), r);
  }
}
