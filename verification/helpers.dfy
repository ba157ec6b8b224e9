/** Small geometry helpers over real numbers: the degree/radian constants, vector
  * lengths and distances, the angles of a position seen from an origin, and the
  * change of handedness to and from the OpenVR coordinate system (negating the x
  * and z axes). `atan2` and `sqrt` are parameters; `sqrt` is required to give the
  * non-negative root. */
module Helpers {
  /** `PI` as the double literal of the source. */
  const PI: real := 3.14159265358979323846
  const RAD_2_DEG: real := 180.0 / PI
  const DEG_2_RAD: real := PI / 180.0

  /** Converting to radians and back is the identity. */
  lemma DegRadInverse()
    ensures RAD_2_DEG * DEG_2_RAD == 1.0
  {
  }

  /** `cv::Vec3d`. */
  datatype Vec3 = Vec3(x: real, y: real, z: real)

  function Add(a: Vec3, b: Vec3): Vec3 { Vec3(a.x + b.x, a.y + b.y, a.z + b.z) }
  function Sub(a: Vec3, b: Vec3): Vec3 { Vec3(a.x - b.x, a.y - b.y, a.z - b.z) }
  function Scale(a: Vec3, k: real): Vec3 { Vec3(a.x * k, a.y * k, a.z * k) }
  const Zero: Vec3 := Vec3(0.0, 0.0, 0.0)

  /** `std::sqrt` over the reals: the non-negative root of a non-negative number. */
  ghost predicate IsSqrt(sqrt: real -> real)
  {
    sqrt(0.0) == 0.0 && forall x :: x >= 0.0 ==> sqrt(x) >= 0.0 && sqrt(x) * sqrt(x) == x
  }

  /** `Length(a)` of one number: its absolute value. */
  function Length1(a: real): (r: real)
    ensures r >= 0.0 && (r == a || r == -a)
  {
    if a < 0.0 then -a else a
  }

  function SumSq(a: real, b: real, c: real): real
  {
    a * a + b * b + c * c
  }

  lemma SumSqNonNegative(a: real, b: real, c: real)
    ensures SumSq(a, b, c) >= 0.0
  {
  }

  lemma SumSqNegated(a: real, b: real, c: real)
    ensures SumSq(-a, -b, -c) == SumSq(a, b, c)
  {
  }

  /** `Length(a, b, c)`: the Euclidean norm. */
  function Length3(sqrt: real -> real, a: real, b: real, c: real): (r: real)
    requires IsSqrt(sqrt)
    ensures r >= 0.0 && r * r == SumSq(a, b, c)
  {
    SumSqNonNegative(a, b, c);
    sqrt(SumSq(a, b, c))
  }

  /** `Length(Vec3)`. */
  function Length(sqrt: real -> real, v: Vec3): (r: real)
    requires IsSqrt(sqrt)
    ensures r >= 0.0
    ensures v == Zero ==> r == 0.0
  {
    Length3(sqrt, v.x, v.y, v.z)
  }

  /** `Distance(a, b)` of two vectors: the length of the difference. */
  function Distance(sqrt: real -> real, a: Vec3, b: Vec3): (r: real)
    requires IsSqrt(sqrt)
    ensures r >= 0.0
    ensures a == b ==> r == 0.0
  {
    Length(sqrt, Sub(b, a))
  }

  /** Distances are symmetric. */
  lemma DistanceSymmetric(sqrt: real -> real, a: Vec3, b: Vec3)
    requires IsSqrt(sqrt)
    ensures Distance(sqrt, a, b) == Distance(sqrt, b, a)
  {
    var d := Sub(b, a);
    assert Sub(a, b) == Vec3(-d.x, -d.y, -d.z);
    SumSqNegated(d.x, d.y, d.z);
  }

  /** The (pitch, yaw) of an offset from the origin: yaw about y from the z axis,
    * pitch from the xz plane. */
  function AnglesOf(sqrt: real -> real, atan2: (real, real) -> real, p: Vec3): (r: (real, real))
    ensures r.1 == atan2(p.x, p.z)
  {
    (atan2(p.y, sqrt(p.x * p.x + p.z * p.z)), atan2(p.x, p.z))
  }

  /** `EulerAnglesFromPos(pos, origin)`: the angles of the position seen from the origin. */
  function EulerAnglesFromPos(sqrt: real -> real, atan2: (real, real) -> real, pos: Vec3, origin: Vec3): (r: (real, real))
  {
    AnglesOf(sqrt, atan2, Sub(pos, origin))
  }

  /** The angles depend only on the offset `pos - origin`. */
  lemma EulerAnglesOffsetOnly(sqrt: real -> real, atan2: (real, real) -> real, pos: Vec3, origin: Vec3, shift: Vec3)
    ensures EulerAnglesFromPos(sqrt, atan2, pos, origin) == EulerAnglesFromPos(sqrt, atan2, Sub(pos, origin), Zero)
    ensures EulerAnglesFromPos(sqrt, atan2, Add(pos, shift), Add(origin, shift)) == EulerAnglesFromPos(sqrt, atan2, pos, origin)
  {
    assert Sub(Sub(pos, origin), Zero) == Sub(pos, origin);
    assert Sub(Add(pos, shift), Add(origin, shift)) == Sub(pos, origin);
  }

  /** The vector `CoordTransformOVR`: component 0 negated and, when there are at least
    * three components, component 2 as well. */
  function FlipOVR(v: seq<real>): (r: seq<real>)
    requires |v| >= 1
    ensures |r| == |v|
    ensures r[0] == -v[0]
    ensures |v| >= 3 ==> r[2] == -v[2]
    ensures forall i :: 0 <= i < |v| && i != 0 && i != 2 ==> r[i] == v[i]
  {
    var w := v[0 := -v[0]];
    if |v| >= 3 then w[2 := -w[2]] else w
  }

  /** Transforming twice is the identity. */
  lemma FlipOVRInvolution(v: seq<real>)
    requires |v| >= 1
    ensures FlipOVR(FlipOVR(v)) == v
  {
  }

  /** `CoordTransformOVR(cv::Vec<T, N>&)`, in place. */
  method CoordTransformOVR(vec: array<real>)
    requires vec.Length >= 1
    modifies vec
    ensures vec[..] == FlipOVR(old(vec[..]))
  {
    vec[0] := -vec[0];
    if vec.Length >= 3 {
      vec[2] := -vec[2];
    }
  }

  /** `cv::Quat<T>`: scalar part `w`, vector part (`x`, `y`, `z`). */
  class CvQuat {
    var w: real
    var x: real
    var y: real
    var z: real

    constructor (w: real, x: real, y: real, z: real)
      ensures this.w == w && this.x == x && this.y == y && this.z == z
    {
      this.w, this.x, this.y, this.z := w, x, y, z;
    }

    /** `CoordTransformOVR(cv::Quat<T>&)`: x and z negated, w and y kept. */
    method CoordTransformOVR()
      modifies this
      ensures w == old(w) && y == old(y)
      ensures x == -old(x) && z == -old(z)
    {
      x := -x;
      z := -z;
    }
  }

  /** Applying the quaternion transform twice restores the quaternion. */
  method QuatTransformTwice(q: CvQuat)
    modifies q
    ensures q.w == old(q.w) && q.x == old(q.x) && q.y == old(q.y) && q.z == old(q.z)
  {
    q.CoordTransformOVR();
    q.CoordTransformOVR();
  }
}
