/** The marker helpers of `Helpers.cpp` used by the tracker calibration: a
  * marker's model corners moved into the space of the tracker's board, the
  * corner-by-corner median of several observations of one marker, and the
  * quaternion of a Rodrigues rotation vector.
  *
  * `cv::Rodrigues` (rotation vector to matrix), `sqrt`, `sin` and `cos` are
  * parameters. */
module MarkerHelpers {
  import opened Helpers
  import opened Playspace
  import opened Quaternions
  import Median

  // ---------------------------------------------------------------------------
  // transformMarkerSpace
  // ---------------------------------------------------------------------------

  /** A rotation matrix: orthonormal columns and rows, as `cv::Rodrigues`
    * produces. */
  predicate Rotation(m: Mat3)
  {
    Orthonormal(m) && Orthonormal(Transpose(m))
  }

  lemma ApplyScale(m: Mat3, v: Vec3, k: real)
    ensures Apply(m, Scale(v, k)) == Scale(Apply(m, v), k)
  {
    assert Dot(m.r0, Scale(v, k)) == Dot(m.r0, v) * k;
    assert Dot(m.r1, Scale(v, k)) == Dot(m.r1, v) * k;
    assert Dot(m.r2, Scale(v, k)) == Dot(m.r2, v) * k;
  }

  /** A rigid transform undoes its inverse. */
  lemma MapInv(a: Affine, p: Vec3)
    requires Rotation(a.rotation)
    ensures Map(a, Map(Inv(a), p)) == p
  {
    var r := a.rotation;
    var t := Transpose(r);
    var tt := Apply(t, a.translation);
    TransposeInvolution(r);
    TransposeUndoes(t, p);
    TransposeUndoes(t, a.translation);
    ApplyScale(r, tt, -1.0);
    ApplyAdd(r, Apply(t, p), Scale(tt, -1.0));
    assert Apply(r, Apply(t, p)) == p;
    assert Apply(r, tt) == a.translation;
    assert Add(Add(p, Scale(a.translation, -1.0)), a.translation) == p;
  }

  /** The pose a rotation vector and a translation stand for. */
  function PoseOf(rodrigues: Vec3 -> Mat3, rvec: Vec3, tvec: Vec3): Affine
  {
    Affine(rodrigues(rvec), tvec)
  }

  /** `transformMarkerSpace`: each model corner is placed by the marker's
    * pose, then brought into the board's space by the inverse of the board's
    * pose. The board's matrix comes from `cv::Rodrigues`, so it is a rotation
    * and its inverse is the transpose. */
  method TransformMarkerSpace(modelMarker: seq<Vec3>, boardRvec: Vec3, boardTvec: Vec3, rvec: Vec3, tvec: Vec3,
                              rodrigues: Vec3 -> Mat3)
    returns (out: seq<Vec3>)
    requires Rotation(rodrigues(boardRvec))
    ensures |out| == |modelMarker|
    ensures forall y :: 0 <= y < |modelMarker| ==>
              out[y] == Map(Inv(PoseOf(rodrigues, boardRvec, boardTvec)), Map(PoseOf(rodrigues, rvec, tvec), modelMarker[y]))
  {
    var board := PoseOf(rodrigues, boardRvec, boardTvec);
    var marker := PoseOf(rodrigues, rvec, tvec);
    out := [];
    for y := 0 to |modelMarker|
      invariant |out| == y
      invariant forall k :: 0 <= k < y ==> out[k] == Map(Inv(board), Map(marker, modelMarker[k]))
    {
      var rpos := Map(marker, modelMarker[y]);
      rpos := Map(Inv(board), rpos);
      out := out + [rpos];
    }
  }

  /** Placed back by the board's pose, each transformed corner is where the
    * camera saw it: the marker's pose applied to the model corner. */
  lemma TransformMarkerSpaceRoundTrip(board: Affine, marker: Affine, corner: Vec3)
    requires Rotation(board.rotation)
    ensures Map(board, Map(Inv(board), Map(marker, corner))) == Map(marker, corner)
  {
    MapInv(board, Map(marker, corner));
  }

  // ---------------------------------------------------------------------------
  // getMedianMarker
  // ---------------------------------------------------------------------------

  datatype Axis = X | Y | Z

  function Coord(p: Vec3, axis: Axis): real
  {
    match axis
    case X => p.x
    case Y => p.y
    case Z => p.z
  }

  /** Every marker has a corner `j`. */
  predicate HasCorner(markers: seq<seq<Vec3>>, j: int)
  {
    0 <= j && forall i :: 0 <= i < |markers| ==> j < |markers[i]|
  }

  /** One coordinate of corner `j` across the markers, in their order. */
  function Column(markers: seq<seq<Vec3>>, j: int, axis: Axis): (r: seq<real>)
    requires HasCorner(markers, j)
    ensures |r| == |markers|
    ensures forall i :: 0 <= i < |markers| ==> r[i] == Coord(markers[i][j], axis)
  {
    if |markers| == 0 then []
    else Column(markers[..|markers| - 1], j, axis) + [Coord(markers[|markers| - 1][j], axis)]
  }

  /** The median corner `j`: each coordinate's upper median on its own. */
  function MedianCorner(markers: seq<seq<Vec3>>, j: int): Vec3
    requires |markers| > 0 && HasCorner(markers, j)
  {
    Vec3(Median.UpperMedian(Column(markers, j, X)), Median.UpperMedian(Column(markers, j, Y)),
         Median.UpperMedian(Column(markers, j, Z)))
  }

  /** The three coordinate lists of corner `j`, gathered marker by marker. */
  method Gather(markerList: seq<seq<Vec3>>, j: int) returns (pointsx: seq<real>, pointsy: seq<real>, pointsz: seq<real>)
    requires HasCorner(markerList, j)
    ensures pointsx == Column(markerList, j, X) && pointsy == Column(markerList, j, Y) && pointsz == Column(markerList, j, Z)
  {
    pointsx, pointsy, pointsz := [], [], [];
    for i := 0 to |markerList|
      invariant |pointsx| == |pointsy| == |pointsz| == i
      invariant forall k :: 0 <= k < i ==>
                  pointsx[k] == markerList[k][j].x && pointsy[k] == markerList[k][j].y && pointsz[k] == markerList[k][j].z
    {
      pointsx := pointsx + [markerList[i][j].x];
      pointsy := pointsy + [markerList[i][j].y];
      pointsz := pointsz + [markerList[i][j].z];
    }
  }

  /** `getMedianMarker`: one point per corner of the first marker, each
    * coordinate the element `n / 2` of the sorted coordinates of that corner
    * over the `n` markers. The list must not be empty, and no marker may have
    * fewer corners than the first. */
  method GetMedianMarker(markerList: seq<seq<Vec3>>) returns (median: seq<Vec3>)
    requires |markerList| > 0
    requires forall i :: 0 <= i < |markerList| ==> |markerList[0]| <= |markerList[i]|
    ensures |median| == |markerList[0]|
    ensures forall j :: 0 <= j < |median| ==> HasCorner(markerList, j) && median[j] == MedianCorner(markerList, j)
  {
    median := [];
    for j := 0 to |markerList[0]|
      invariant |median| == j
      invariant forall k :: 0 <= k < j ==> HasCorner(markerList, k) && median[k] == MedianCorner(markerList, k)
    {
      assert HasCorner(markerList, j);
      var m := MedianPoint(markerList, j);
      median := median + [m];
    }
  }

  /** One pass of `getMedianMarker`'s loop: corner `j`'s coordinates are
    * gathered, sorted, and the element `n / 2` of each is taken. */
  method MedianPoint(markerList: seq<seq<Vec3>>, j: int) returns (m: Vec3)
    requires |markerList| > 0 && HasCorner(markerList, j)
    ensures m == MedianCorner(markerList, j)
  {
    var pointsx, pointsy, pointsz := Gather(markerList, j);
    var sx := Median.Sort(pointsx);
    var sy := Median.Sort(pointsy);
    var sz := Median.Sort(pointsz);
    Median.SortSorted(pointsx);
    Median.SortSorted(pointsy);
    Median.SortSorted(pointsz);
    m := Vec3(sx[|sx| / 2], sy[|sy| / 2], sz[|sz| / 2]);
  }

  /** The median corner lies in every box that holds all the observations of
    * that corner. */
  lemma MedianCornerInBox(markers: seq<seq<Vec3>>, j: int, lo: Vec3, hi: Vec3)
    requires |markers| > 0 && HasCorner(markers, j)
    requires forall i :: 0 <= i < |markers| ==>
               (0 <= j < |markers[i]| && lo.x <= markers[i][j].x <= hi.x && lo.y <= markers[i][j].y <= hi.y
                && lo.z <= markers[i][j].z <= hi.z)
    ensures var m := MedianCorner(markers, j);
            lo.x <= m.x <= hi.x && lo.y <= m.y <= hi.y && lo.z <= m.z <= hi.z
  {
    Median.UpperMedianBetween(Column(markers, j, X), lo.x, hi.x);
    Median.UpperMedianBetween(Column(markers, j, Y), lo.y, hi.y);
    Median.UpperMedianBetween(Column(markers, j, Z), lo.z, hi.z);
  }

  /** Observations that all agree give that corner back. */
  lemma MedianCornerAgreement(markers: seq<seq<Vec3>>, j: int, p: Vec3)
    requires |markers| > 0 && HasCorner(markers, j)
    requires forall i :: 0 <= i < |markers| ==> 0 <= j < |markers[i]| && markers[i][j] == p
    ensures MedianCorner(markers, j) == p
  {
    MedianCornerInBox(markers, j, p, p);
  }

  // ---------------------------------------------------------------------------
  // rodr2quat
  // ---------------------------------------------------------------------------

  /** The quaternion of a rotation by angle `theta` about `v / theta`, given
    * the sine `s` and cosine `c` of half the angle. */
  function AxisAngle(v: Vec3, theta: real, s: real, c: real): Quat
    requires theta != 0.0
  {
    var axis := Vec3(v.x / theta, v.y / theta, v.z / theta);
    Quat(c, axis.x * s, axis.y * s, axis.z * s)
  }

  /** `rodr2quat`: the axis is the vector divided by its length θ, and the
    * quaternion is `(cos(θ/2), axis · sin(θ/2))`. The division needs a
    * non-zero length, that is a non-zero vector. */
  function Rodr2Quat(v: Vec3, sqrt: real -> real, sin: real -> real, cos: real -> real): (q: Quat)
    requires IsSqrt(sqrt) && Length(sqrt, v) != 0.0
  {
    var theta := Length(sqrt, v);
    AxisAngle(v, theta, sin(theta / 2.0), cos(theta / 2.0))
  }

  /** Division is multiplication by the reciprocal. */
  lemma Reciprocal(x: real, t: real)
    requires t != 0.0
    ensures x / t == x * (1.0 / t) && (1.0 / t) * t == 1.0
  {
  }

  /** Divided by its length, a non-zero vector has length one. */
  lemma UnitAxis(x: real, y: real, z: real, theta: real)
    requires theta != 0.0 && theta * theta == x * x + y * y + z * z
    ensures (x / theta) * (x / theta) + (y / theta) * (y / theta) + (z / theta) * (z / theta) == 1.0
  {
    var inv := 1.0 / theta;
    Reciprocal(x, theta);
    Reciprocal(y, theta);
    Reciprocal(z, theta);
    assert (x * inv) * (x * inv) + (y * inv) * (y * inv) + (z * inv) * (z * inv)
        == (x * x + y * y + z * z) * (inv * inv);
    assert (theta * theta) * (inv * inv) == (theta * inv) * (theta * inv);
  }

  /** With the length for `theta` and `s² + c² = 1`, the quaternion has norm
    * one. */
  lemma AxisAngleUnit(v: Vec3, theta: real, s: real, c: real)
    requires theta != 0.0 && theta * theta == SumSq(v.x, v.y, v.z) && s * s + c * c == 1.0
    ensures Norm(AxisAngle(v, theta, s, c)) == 1.0
  {
    UnitAxis(v.x, v.y, v.z, theta);
    var a, b, d := v.x / theta, v.y / theta, v.z / theta;
    assert (a * s) * (a * s) + (b * s) * (b * s) + (d * s) * (d * s) == (a * a + b * b + d * d) * (s * s);
  }

  /** The vector part is a multiple of `v`. */
  lemma AxisAngleAlong(v: Vec3, theta: real, s: real, c: real)
    requires theta != 0.0
    ensures var q := AxisAngle(v, theta, s, c);
            q.x * v.y == q.y * v.x && q.y * v.z == q.z * v.y && q.x * v.z == q.z * v.x
  {
    SameDirection(v.x, v.y, theta, s);
    SameDirection(v.y, v.z, theta, s);
    SameDirection(v.x, v.z, theta, s);
  }

  lemma SameDirection(a: real, b: real, t: real, s: real)
    requires t != 0.0
    ensures (a / t * s) * b == (b / t * s) * a
  {
    Reciprocal(a, t);
    Reciprocal(b, t);
    var k := 1.0 / t * s;
    assert a / t * s == a * k && b / t * s == b * k;
  }

  /** When `sin` and `cos` agree on `sin² + cos² = 1` at half the angle, the
    * quaternion is a unit quaternion. */
  lemma Rodr2QuatUnit(v: Vec3, sqrt: real -> real, sin: real -> real, cos: real -> real)
    requires IsSqrt(sqrt) && Length(sqrt, v) != 0.0
    requires var h := Length(sqrt, v) / 2.0; sin(h) * sin(h) + cos(h) * cos(h) == 1.0
    ensures Norm(Rodr2Quat(v, sqrt, sin, cos)) == 1.0
  {
    var theta := Length3(sqrt, v.x, v.y, v.z);
    assert theta == Length(sqrt, v);
    AxisAngleUnit(v, theta, sin(theta / 2.0), cos(theta / 2.0));
  }

  /** The vector part points along the rotation vector. */
  lemma Rodr2QuatAxis(v: Vec3, sqrt: real -> real, sin: real -> real, cos: real -> real)
    requires IsSqrt(sqrt) && Length(sqrt, v) != 0.0
    ensures var q := Rodr2Quat(v, sqrt, sin, cos);
            q.x * v.y == q.y * v.x && q.y * v.z == q.z * v.y && q.x * v.z == q.z * v.x
  {
    var theta := Length(sqrt, v);
    var q := AxisAngle(v, theta, sin(theta / 2.0), cos(theta / 2.0));
    assert Rodr2Quat(v, sqrt, sin, cos) == q;
    AxisAngleAlong(v, theta, sin(theta / 2.0), cos(theta / 2.0));
  }
}
