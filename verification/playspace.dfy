/** The playspace calibration as a precomputed rigid transform: a rotation
  * matrix with a translation (the camera's place in the playspace), the same
  * rotation as a quaternion, and both inverses. */
module Playspace {
  import opened Helpers
  import opened Quaternions
  import ManualCalib

  /** `Pose`: a position and a rotation quaternion. */
  datatype Pose = Pose(position: Vec3, rotation: Quat)

  /** A 3x3 matrix, by rows. */
  datatype Mat3 = Mat3(r0: Vec3, r1: Vec3, r2: Vec3)

  const Identity3: Mat3 := Mat3(Vec3(1.0, 0.0, 0.0), Vec3(0.0, 1.0, 0.0), Vec3(0.0, 0.0, 1.0))

  function Dot(a: Vec3, b: Vec3): real
  {
    a.x * b.x + a.y * b.y + a.z * b.z
  }

  /** Matrix times column vector. */
  function Apply(m: Mat3, v: Vec3): Vec3
  {
    Vec3(Dot(m.r0, v), Dot(m.r1, v), Dot(m.r2, v))
  }

  function Transpose(m: Mat3): Mat3
  {
    Mat3(Vec3(m.r0.x, m.r1.x, m.r2.x), Vec3(m.r0.y, m.r1.y, m.r2.y), Vec3(m.r0.z, m.r1.z, m.r2.z))
  }

  /** `R^T R = I`: the columns are unit length and pairwise orthogonal, as for
    * every rotation matrix. */
  predicate Orthonormal(m: Mat3)
  {
    var c := Transpose(m);
    Dot(c.r0, c.r0) == 1.0 && Dot(c.r1, c.r1) == 1.0 && Dot(c.r2, c.r2) == 1.0
    && Dot(c.r0, c.r1) == 0.0 && Dot(c.r0, c.r2) == 0.0 && Dot(c.r1, c.r2) == 0.0
  }

  /** `cv::Affine3d`: rotation then translation. */
  datatype Affine = Affine(rotation: Mat3, translation: Vec3)

  const IdentityAffine: Affine := Affine(Identity3, Zero)

  /** `affine * point`. */
  function Map(a: Affine, p: Vec3): Vec3
  {
    Add(Apply(a.rotation, p), a.translation)
  }

  /** `Affine3d::inv()` of a rigid transform: `(R^T, -R^T t)`. */
  function Inv(a: Affine): Affine
  {
    var t := Transpose(a.rotation);
    Affine(t, Scale(Apply(t, a.translation), -1.0))
  }

  /** `CoordTransformOVR` of a position: x and z negated. */
  function FlipVec(v: Vec3): (r: Vec3)
    ensures [r.x, r.y, r.z] == FlipOVR([v.x, v.y, v.z])
  {
    Vec3(-v.x, v.y, -v.z)
  }

  /** `CoordTransformOVR` of a rotation: x and z negated. */
  function FlipQuat(q: Quat): Quat
  {
    Quat(q.w, -q.x, q.y, -q.z)
  }

  /** Both parts of a pose into (or out of) the OpenVR frame. */
  function FlipPose(p: Pose): Pose
  {
    Pose(FlipVec(p.position), FlipQuat(p.rotation))
  }

  lemma FlipPoseInvolution(p: Pose)
    ensures FlipPose(FlipPose(p)) == p
  {
  }

  // ---------------------------------------------------------------------------
  // The linear algebra the round trip needs
  // ---------------------------------------------------------------------------

  lemma TransposeInvolution(m: Mat3)
    ensures Transpose(Transpose(m)) == m
  {
  }

  /** One coordinate of `R^T (R p)` multiplied out: the row `s` of `R^T`
    * against `R p` weighs the coordinates of `p` by `s` against the columns. */
  lemma TransposeApplyScalars(s0: real, s1: real, s2: real, a0: real, a1: real, a2: real, b0: real, b1: real, b2: real,
                              c0: real, c1: real, c2: real, px: real, py: real, pz: real)
    ensures s0 * (a0 * px + a1 * py + a2 * pz) + s1 * (b0 * px + b1 * py + b2 * pz) + s2 * (c0 * px + c1 * py + c2 * pz)
         == (s0 * a0 + s1 * b0 + s2 * c0) * px + (s0 * a1 + s1 * b1 + s2 * c1) * py + (s0 * a2 + s1 * b2 + s2 * c2) * pz
  {
  }

  /** The same over vectors, when the products of `s` with the columns are known. */
  lemma TransposeApplyRow(m: Mat3, p: Vec3, s: Vec3, u: real, v: real, w: real)
    requires Dot(s, Vec3(m.r0.x, m.r1.x, m.r2.x)) == u
    requires Dot(s, Vec3(m.r0.y, m.r1.y, m.r2.y)) == v
    requires Dot(s, Vec3(m.r0.z, m.r1.z, m.r2.z)) == w
    ensures Dot(s, Apply(m, p)) == u * p.x + v * p.y + w * p.z
  {
    TransposeApplyScalars(s.x, s.y, s.z, m.r0.x, m.r0.y, m.r0.z, m.r1.x, m.r1.y, m.r1.z, m.r2.x, m.r2.y, m.r2.z,
                          p.x, p.y, p.z);
  }

  /** For an orthonormal `R`, `R^T` undoes `R`. */
  lemma TransposeUndoes(m: Mat3, p: Vec3)
    requires Orthonormal(m)
    ensures Apply(Transpose(m), Apply(m, p)) == p
  {
    var c := Transpose(m);
    assert Dot(c.r1, c.r0) == 0.0 && Dot(c.r2, c.r0) == 0.0 && Dot(c.r2, c.r1) == 0.0;
    TransposeApplyRow(m, p, c.r0, 1.0, 0.0, 0.0);
    TransposeApplyRow(m, p, c.r1, 0.0, 1.0, 0.0);
    TransposeApplyRow(m, p, c.r2, 0.0, 0.0, 1.0);
  }

  /** Matrices distribute over sums. */
  lemma ApplyAdd(m: Mat3, u: Vec3, v: Vec3)
    ensures Apply(m, Add(u, v)) == Add(Apply(m, u), Apply(m, v))
  {
  }

  /** The inverse of a rigid transform undoes it. */
  lemma InvMap(a: Affine, p: Vec3)
    requires Orthonormal(a.rotation)
    ensures Map(Inv(a), Map(a, p)) == p
  {
    var t := Transpose(a.rotation);
    var rp := Apply(a.rotation, p);
    ApplyAdd(t, rp, a.translation);
    TransposeUndoes(a.rotation, p);
    var tt := Apply(t, a.translation);
    assert Add(Add(p, tt), Scale(tt, -1.0)) == p;
  }

  /** Multiplying by `q^-1` undoes multiplying by `q` on the left. */
  lemma InverseMulLeft(q: Quat, r: Quat)
    requires Norm(q) != 0.0
    ensures Mul(Inverse(q), Mul(q, r)) == r
  {
    MulAssoc(Inverse(q), q, r);
    MulInverse(q);
    MulIdentity(r);
  }

  // ---------------------------------------------------------------------------
  // The calibration object
  // ---------------------------------------------------------------------------

  /** `PlayspaceCalib`. */
  class PlayspaceCalib {
    var transform: Affine
    var rotation: Quat
    var invTransform: Affine
    var invRotation: Quat
    var scale: real

    /** What `Set` establishes: a rigid transform with its inverse, and a
      * rotation with its inverse. */
    predicate Valid()
      reads this
    {
      Orthonormal(transform.rotation) && invTransform == Inv(transform)
      && Norm(rotation) == 1.0 && invRotation == Inverse(rotation)
    }

    /** Identity transforms, zero quaternions (the default `cv::Quatd`) and a
      * zero scale until the first `Set`. */
    constructor ()
      ensures transform == IdentityAffine && invTransform == IdentityAffine
      ensures rotation == ZeroQuat && invRotation == ZeroQuat && scale == 0.0
    {
      transform := IdentityAffine;
      rotation := ZeroQuat;
      invTransform := IdentityAffine;
      invRotation := ZeroQuat;
      scale := 0.0;
    }

    /** `Set(posOffset, angleOffset, scale)`. The rotation matrix of the Euler
      * angles and the normalised quaternion of a matrix are the library's:
      * `rotMat` and `quatOf`; the first is a rotation and the second has unit
      * norm. */
    method Set(posOffset: Vec3, angleOffset: Vec3, scale: real, rotMat: Vec3 -> Mat3, quatOf: Mat3 -> Quat)
      requires Orthonormal(rotMat(angleOffset)) && Norm(quatOf(rotMat(angleOffset))) == 1.0
      modifies this
      ensures Valid()
      ensures transform == Affine(rotMat(angleOffset), posOffset)
      ensures rotation == quatOf(rotMat(angleOffset))
      ensures this.scale == scale
    {
      var m := rotMat(angleOffset);
      transform := Affine(m, posOffset);
      rotation := quatOf(m);
      invTransform := Inv(transform);
      invRotation := Inverse(rotation);
      this.scale := scale;
    }

    /** `Set(const ManualCalib::Real&)`. */
    method SetCalib(calib: ManualCalib.RealCalib, rotMat: Vec3 -> Mat3, quatOf: Mat3 -> Quat)
      requires Orthonormal(rotMat(calib.angleOffset)) && Norm(quatOf(rotMat(calib.angleOffset))) == 1.0
      modifies this
      ensures Valid()
      ensures transform == Affine(rotMat(calib.angleOffset), calib.posOffset)
      ensures rotation == quatOf(rotMat(calib.angleOffset))
      ensures scale == calib.scale
    {
      Set(calib.posOffset, calib.angleOffset, calib.scale, rotMat, quatOf);
    }

    /** `Transform(const Pose&)`. */
    function Transform(pose: Pose): Pose
      reads this
    {
      Pose(Map(transform, pose.position), Mul(rotation, pose.rotation))
    }

    /** `InvTransform(const Pose&)`. */
    function InvTransform(pose: Pose): Pose
      reads this
    {
      Pose(Map(invTransform, pose.position), Mul(invRotation, pose.rotation))
    }

    /** `Transform(const cv::Point3d&)`. */
    function TransformPoint(p: Vec3): (r: Vec3)
      reads this
      ensures r == Transform(Pose(p, Identity)).position
    {
      Map(transform, p)
    }

    /** `TransformToOVR`: into the OpenVR frame, then transformed. */
    function TransformToOVR(pose: Pose): Pose
      reads this
    {
      Transform(FlipPose(pose))
    }

    /** `InvTransformFromOVR`: transformed back, then out of the OpenVR frame. */
    function InvTransformFromOVR(pose: Pose): Pose
      reads this
    {
      FlipPose(InvTransform(pose))
    }

    /** `GetStationPose`: the translation and the rotation. */
    function GetStationPose(): (r: Pose)
      reads this
      ensures r.position == TransformPoint(Zero)
      ensures r.rotation == Transform(Pose(Zero, Identity)).rotation
    {
      MulIdentity(rotation);
      Pose(transform.translation, rotation)
    }

    function GetStationPoseOVR(): (r: Pose)
      reads this
      ensures FlipPose(r) == GetStationPose()
    {
      FlipPoseInvolution(GetStationPose());
      FlipPose(GetStationPose())
    }

    function GetScale(): real
      reads this
    {
      scale
    }
  }

  /** Once set, the inverse transform undoes the transform. */
  lemma InvTransformTransform(c: PlayspaceCalib, pose: Pose)
    requires c.Valid()
    ensures c.InvTransform(c.Transform(pose)) == pose
  {
    InvMap(c.transform, pose.position);
    InverseMulLeft(c.rotation, pose.rotation);
  }

  /** ... and so does the pair through the OpenVR frame. */
  lemma InvTransformFromOVRRoundTrip(c: PlayspaceCalib, pose: Pose)
    requires c.Valid()
    ensures c.InvTransformFromOVR(c.TransformToOVR(pose)) == pose
  {
    InvTransformTransform(c, FlipPose(pose));
    FlipPoseInvolution(pose);
  }
}
