/** The manual playspace calibration as the user edits it: a position offset in
  * centimetres, (pitch, yaw, roll) in degrees and a scale in percent kept in
  * [80, 120]; and its "real" form in metres, radians and a multiplier. */
module ManualCalib {
  import opened Helpers
  import V = Validated

  /** Metres to centimetres. */
  const M_2_CM: real := 100.0
  const SCALE_MIN: real := 80.0
  const SCALE_MAX: real := 120.0

  /** The three stored fields. */
  datatype Stored = Stored(posOffset: Vec3, angleOffset: Vec3, scale: real)

  /** `ManualCalib::Real`: metres, radians, multiplier. */
  datatype RealCalib = RealCalib(posOffset: Vec3, angleOffset: Vec3, scale: real)

  /** The validator of `scale`. */
  function ScaleRule(v: real): (r: real)
    ensures SCALE_MIN <= r <= SCALE_MAX
  {
    V.Clamp(SCALE_MIN, SCALE_MAX, v)
  }

  predicate ValidStored(s: Stored)
  {
    SCALE_MIN <= s.scale <= SCALE_MAX
  }

  /** `GetAsReal`: centimetres to metres, degrees to radians, percent to multiplier. */
  function AsReal(s: Stored): (r: RealCalib)
    ensures r.posOffset == Vec3(s.posOffset.x / M_2_CM, s.posOffset.y / M_2_CM, s.posOffset.z / M_2_CM)
    ensures r.angleOffset == Scale(s.angleOffset, DEG_2_RAD)
    ensures ValidStored(s) ==> 0.8 <= r.scale <= 1.2
  {
    RealCalib(Vec3(s.posOffset.x / M_2_CM, s.posOffset.y / M_2_CM, s.posOffset.z / M_2_CM),
              Scale(s.angleOffset, DEG_2_RAD),
              s.scale / 100.0)
  }

  /** `SetFromReal`: the inverse conversions; the scale goes through its validator. */
  function FromReal(r: RealCalib): (s: Stored)
    ensures ValidStored(s)
    ensures s.posOffset == Scale(r.posOffset, M_2_CM)
    ensures s.angleOffset == Scale(r.angleOffset, RAD_2_DEG)
    ensures 0.8 <= r.scale <= 1.2 ==> s.scale == r.scale * 100.0
  {
    Stored(Scale(r.posOffset, M_2_CM), Scale(r.angleOffset, RAD_2_DEG), ScaleRule(r.scale * 100.0))
  }

  /** Storing the real form of a valid calibration gives the calibration back. */
  lemma FromRealAsReal(s: Stored)
    requires ValidStored(s)
    ensures FromReal(AsReal(s)) == s
  {
    DegRadInverse();
    var a := s.angleOffset;
    assert a.x * DEG_2_RAD * RAD_2_DEG == a.x;
    assert a.y * DEG_2_RAD * RAD_2_DEG == a.y;
    assert a.z * DEG_2_RAD * RAD_2_DEG == a.z;
  }

  /** Converting a stored real form back to real gives it back, when its scale is in
    * the allowed range. */
  lemma AsRealFromReal(r: RealCalib)
    requires 0.8 <= r.scale <= 1.2
    ensures AsReal(FromReal(r)) == r
  {
    DegRadInverse();
    var a := r.angleOffset;
    assert a.x * RAD_2_DEG * DEG_2_RAD == a.x;
    assert a.y * RAD_2_DEG * DEG_2_RAD == a.y;
    assert a.z * RAD_2_DEG * DEG_2_RAD == a.z;
  }

  /** `cfg::ManualCalib`. */
  class ManualCalib {
    var posOffset: Vec3
    var angleOffset: Vec3
    var scale: real

    predicate Valid()
      reads this
    {
      ValidStored(Fields())
    }

    function Fields(): Stored
      reads this
    {
      Stored(posOffset, angleOffset, scale)
    }

    /** Offsets start at zero and the scale at 100 %. */
    constructor ()
      ensures Valid()
      ensures Fields() == Stored(Zero, Zero, 100.0)
    {
      posOffset, angleOffset, scale := Zero, Zero, 100.0;
    }

    function GetAsReal(): (r: RealCalib)
      reads this
      ensures r == AsReal(Fields())
    {
      AsReal(Fields())
    }

    method SetFromReal(r: RealCalib)
      modifies this
      ensures Valid()
      ensures Fields() == FromReal(r)
    {
      posOffset := Scale(r.posOffset, M_2_CM);
      angleOffset := Scale(r.angleOffset, RAD_2_DEG);
      scale := ScaleRule(r.scale * 100.0);
    }

    /** Assigning the scale field: stored, then clamped to [80, 120]. */
    method AssignScale(v: real)
      modifies this
      ensures scale == ScaleRule(v)
      ensures posOffset == old(posOffset) && angleOffset == old(angleOffset)
    {
      scale := ScaleRule(v);
    }
  }

  /** Writing back the real form leaves a valid calibration unchanged. */
  method SetFromOwnReal(c: ManualCalib)
    requires c.Valid()
    modifies c
    ensures c.Fields() == old(c.Fields())
  {
    var r := c.GetAsReal();
    FromRealAsReal(c.Fields());
    c.SetFromReal(r);
  }
}
