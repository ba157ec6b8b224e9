/** Manual playspace calibration driven by the VR controller: one button grabs
  * the camera by position, the other by angle and scale, while active the
  * calibration follows the controller; and the multi-camera refinement that
  * nudges the calibration toward the driver's view of a tracker. */
module PlayspaceCalibrator {
  import opened Wrappers
  import opened Helpers
  import opened Quaternions
  import opened Playspace
  import MC = ManualCalib
  import V = Validated
  import SteadyTimer
  import TrackerUnit

  /** `tracker::ButtonAction`. */
  datatype ButtonAction = NoButton | GrabCamera | GrabTrackers

  /** Without input for this long, manual calibration is hidden. */
  const TIMEOUT: int := 60 * SteadyTimer.SECOND
  /** Presses closer together than this are ignored. */
  const DEBOUNCE: int := 200 * (SteadyTimer.SECOND / 1000)

  /** The camera pitch stays between 91 and 269 degrees, so it never looks
    * upside down. */
  const PITCH_MIN: real := 91.0 * DEG_2_RAD
  const PITCH_MAX: real := 269.0 * DEG_2_RAD

  /** Largest position step of one refinement. */
  const MAX_STEP: real := 0.1

  /** The numeric library: `std::sqrt`, `std::atan2`, the rotation matrix of
    * Euler angles, and the normalised quaternion of a rotation matrix. */
  datatype Maths = Maths(sqrt: real -> real, atan2: (real, real) -> real, rotMat: Vec3 -> Mat3, quatOf: Mat3 -> Quat)

  ghost predicate ValidMaths(m: Maths)
  {
    IsSqrt(m.sqrt) && forall a :: Orthonormal(m.rotMat(a)) && Norm(m.quatOf(m.rotMat(a))) == 1.0
  }

  // ---------------------------------------------------------------------------
  // The calibration arithmetic of one update
  // ---------------------------------------------------------------------------

  /** Position grab: the camera's offset from the controller, in the
    * controller's own frame. */
  function PosGrab(ctrl: Pose, calib: MC.RealCalib): Vec3
    requires Norm(ctrl.rotation) == 1.0
  {
    UnitInverse(ctrl.rotation);
    Rotate(Conjugate(ctrl.rotation), Sub(ctrl.position, calib.posOffset))
  }

  /** Angle grab: the controller's (pitch, yaw) seen from the camera, less the
    * camera's, and its distance in calibration units. */
  function AngleGrab(maths: Maths, ctrl: Pose, calib: MC.RealCalib): Vec3
    requires IsSqrt(maths.sqrt) && calib.scale != 0.0
  {
    var angle := EulerAnglesFromPos(maths.sqrt, maths.atan2, ctrl.position, calib.posOffset);
    Vec3(angle.0 - calib.angleOffset.x, angle.1 - calib.angleOffset.y,
         Distance(maths.sqrt, ctrl.position, calib.posOffset) / calib.scale)
  }

  /** The scale that makes the grabbed distance match; a zero reference distance
    * keeps the old scale. */
  function ScaleFor(distance: real, reference: real, current: real): (r: real)
    ensures reference != 0.0 ==> r * reference == distance
  {
    if reference == 0.0 then current else distance / reference
  }

  /** While position calibration is active: the camera is placed at the grabbed
    * offset from the controller; with the height locked, y stays. */
  function FollowPos(calib: MC.RealCalib, offset: Vec3, ctrl: Pose, lockHeight: bool): (r: MC.RealCalib)
    requires Norm(ctrl.rotation) == 1.0
    ensures r.angleOffset == calib.angleOffset && r.scale == calib.scale
    ensures lockHeight ==> r.posOffset.y == calib.posOffset.y
  {
    var t := Rotate(ctrl.rotation, offset);
    var p := ctrl.position;
    calib.(posOffset := Vec3(p.x - t.x, if lockHeight then calib.posOffset.y else p.y - t.y, p.z - t.z))
  }

  /** While angle calibration is active: yaw follows the controller; unless the
    * height is locked, so do pitch and scale. */
  function FollowAngle(maths: Maths, calib: MC.RealCalib, offset: Vec3, ctrl: Pose, lockHeight: bool): (r: MC.RealCalib)
    requires IsSqrt(maths.sqrt)
    ensures r.posOffset == calib.posOffset && r.angleOffset.z == calib.angleOffset.z
    ensures lockHeight ==> r.angleOffset.x == calib.angleOffset.x && r.scale == calib.scale
  {
    var angle := EulerAnglesFromPos(maths.sqrt, maths.atan2, ctrl.position, calib.posOffset);
    var distance := Distance(maths.sqrt, ctrl.position, calib.posOffset);
    var a := calib.angleOffset;
    if lockHeight then
      calib.(angleOffset := Vec3(a.x, angle.1 - offset.y, a.z))
    else
      calib.(angleOffset := Vec3(angle.0 - offset.x, angle.1 - offset.y, a.z),
             scale := ScaleFor(distance, offset.z, calib.scale))
  }

  /** `std::clamp` of the pitch. */
  function ClampPitch(calib: MC.RealCalib): (r: MC.RealCalib)
    ensures PITCH_MIN <= r.angleOffset.x <= PITCH_MAX
    ensures r.posOffset == calib.posOffset && r.scale == calib.scale
    ensures r.angleOffset.y == calib.angleOffset.y && r.angleOffset.z == calib.angleOffset.z
    ensures PITCH_MIN <= calib.angleOffset.x <= PITCH_MAX ==> r == calib
  {
    calib.(angleOffset := calib.angleOffset.(x := V.Clamp(PITCH_MIN, PITCH_MAX, calib.angleOffset.x)))
  }

  /** The calibration an enabled update computes from the one shown. */
  function Adjusted(maths: Maths, calib: MC.RealCalib, posActive: bool, angleActive: bool,
                    posOffset: Vec3, angleOffset: Vec3, ctrl: Pose, lockHeight: bool): MC.RealCalib
    requires IsSqrt(maths.sqrt) && Norm(ctrl.rotation) == 1.0
  {
    var c1 := if posActive then FollowPos(calib, posOffset, ctrl, lockHeight) else calib;
    var c2 := if angleActive then FollowAngle(maths, c1, angleOffset, ctrl, lockHeight) else c1;
    ClampPitch(c2)
  }

  // ---------------------------------------------------------------------------
  // What the update promises
  // ---------------------------------------------------------------------------

  /** The pitch of an adjusted calibration is always in range. */
  lemma AdjustedPitchInRange(maths: Maths, calib: MC.RealCalib, posActive: bool, angleActive: bool,
                             posOffset: Vec3, angleOffset: Vec3, ctrl: Pose, lockHeight: bool)
    requires IsSqrt(maths.sqrt) && Norm(ctrl.rotation) == 1.0
    ensures var r := Adjusted(maths, calib, posActive, angleActive, posOffset, angleOffset, ctrl, lockHeight);
      PITCH_MIN <= r.angleOffset.x <= PITCH_MAX
  {
  }

  /** With the height locked, the height, the scale and (up to the clamp) the
    * pitch stay as they were. */
  lemma LockHeightKeeps(maths: Maths, calib: MC.RealCalib, posActive: bool, angleActive: bool,
                        posOffset: Vec3, angleOffset: Vec3, ctrl: Pose)
    requires IsSqrt(maths.sqrt) && Norm(ctrl.rotation) == 1.0
    ensures var r := Adjusted(maths, calib, posActive, angleActive, posOffset, angleOffset, ctrl, true);
      r.posOffset.y == calib.posOffset.y && r.scale == calib.scale
      && r.angleOffset.x == ClampPitch(calib).angleOffset.x
  {
  }

  /** With neither grab active, only the clamp applies. */
  lemma InactiveOnlyClamps(maths: Maths, calib: MC.RealCalib, posOffset: Vec3, angleOffset: Vec3, ctrl: Pose, lockHeight: bool)
    requires IsSqrt(maths.sqrt) && Norm(ctrl.rotation) == 1.0
    ensures Adjusted(maths, calib, false, false, posOffset, angleOffset, ctrl, lockHeight) == ClampPitch(calib)
  {
  }

  /** Grabbing the position does not move the camera: following the controller
    * from where it was grabbed puts the camera back where it was. */
  lemma PosGrabKeepsCamera(calib: MC.RealCalib, ctrl: Pose, lockHeight: bool)
    requires Norm(ctrl.rotation) == 1.0
    ensures FollowPos(calib, PosGrab(ctrl, calib), ctrl, lockHeight).posOffset == calib.posOffset
  {
    RotateUnitBack(ctrl.rotation, Sub(ctrl.position, calib.posOffset));
  }

  /** Grabbing the angle does not turn or rescale the camera either, unless the
    * controller is at the camera. */
  lemma AngleGrabKeepsCamera(maths: Maths, calib: MC.RealCalib, ctrl: Pose, lockHeight: bool)
    requires IsSqrt(maths.sqrt) && calib.scale != 0.0
    requires Distance(maths.sqrt, ctrl.position, calib.posOffset) != 0.0
    ensures FollowAngle(maths, calib, AngleGrab(maths, ctrl, calib), ctrl, lockHeight) == calib
  {
    var d := Distance(maths.sqrt, ctrl.position, calib.posOffset);
    assert d / (d / calib.scale) == calib.scale;
  }

  // ---------------------------------------------------------------------------
  // The calibrator
  // ---------------------------------------------------------------------------

  /** `PlayspaceCalibrator`. */
  class Calibrator {
    var posActive: bool
    var angleActive: bool
    /** Offset of the camera from the controller, set when position is grabbed. */
    var posOffset: Vec3
    /** (pitch, yaw) in radians, then distance, set when angle is grabbed. */
    var angleOffset: Vec3
    var timer: SteadyTimer.Timer

    constructor (now: int)
      ensures !posActive && !angleActive && posOffset == Zero && angleOffset == Zero
      ensures fresh(timer) && timer.start == now
    {
      posActive := false;
      angleActive := false;
      posOffset := Zero;
      angleOffset := Zero;
      timer := new SteadyTimer.Timer(now);
    }

    /** The button logic of `Update`: a press after the debounce toggles its
      * grab, and a grab that starts records its offset from the calibration
      * shown. */
    method Press(button: ButtonAction, elapsed: int, ctrl: Pose, calib: MC.RealCalib, maths: Maths)
      requires IsSqrt(maths.sqrt) && Norm(ctrl.rotation) == 1.0 && calib.scale != 0.0
      modifies this
      ensures timer == old(timer)
      ensures posActive == (if button == GrabCamera && elapsed > DEBOUNCE then !old(posActive) else old(posActive))
      ensures angleActive == (if button == GrabTrackers && elapsed > DEBOUNCE then !old(angleActive) else old(angleActive))
      ensures posOffset == (if posActive && !old(posActive) then PosGrab(ctrl, calib) else old(posOffset))
      ensures angleOffset == (if angleActive && !old(angleActive) then AngleGrab(maths, ctrl, calib) else old(angleOffset))
    {
      if button == GrabCamera {
        if elapsed > DEBOUNCE {
          if !posActive {
            posActive := true;
            posOffset := PosGrab(ctrl, calib);
          } else {
            posActive := false;
          }
        }
      } else if button == GrabTrackers {
        if elapsed > DEBOUNCE {
          if !angleActive {
            angleActive := true;
            angleOffset := AngleGrab(maths, ctrl, calib);
          } else {
            angleActive := false;
          }
        }
      }
    }

    /** The follow logic of `Update`: the active grabs move the calibration
      * with the controller, and the pitch is clamped. The position offset is
      * turned into the room and back, which leaves it as it was. */
    method Follow(calib: MC.RealCalib, ctrl: Pose, lockHeightCalib: bool, maths: Maths) returns (r: MC.RealCalib)
      requires IsSqrt(maths.sqrt) && Norm(ctrl.rotation) == 1.0
      modifies this
      ensures r == Adjusted(maths, calib, posActive, angleActive, posOffset, angleOffset, ctrl, lockHeightCalib)
      ensures posActive == old(posActive) && angleActive == old(angleActive)
      ensures posOffset == old(posOffset) && angleOffset == old(angleOffset) && timer == old(timer)
    {
      r := calib;
      if posActive {
        var grabbed := posOffset;
        posOffset := Rotate(ctrl.rotation, posOffset);
        var p := ctrl.position;
        r := r.(posOffset := Vec3(p.x - posOffset.x, if lockHeightCalib then r.posOffset.y else p.y - posOffset.y,
                                  p.z - posOffset.z));
        UnitInverse(ctrl.rotation);
        posOffset := Rotate(Conjugate(ctrl.rotation), posOffset);
        RotateUnitBack(ctrl.rotation, grabbed);
      }
      if angleActive {
        r := FollowAngle(maths, r, angleOffset, ctrl, lockHeightCalib);
      }
      r := ClampPitch(r);
    }

    /** `Update`. The controller's button and pose, the clock and the numeric
      * library are inputs; `gui` is the stored manual calibration the GUI shows.
      * `hideManual` reports that the GUI was asked to hide manual calibration and
      * `station` is the pose sent to the driver. */
    method Update(button: ButtonAction, ctrl: Pose, gui: MC.ManualCalib, playspace: PlayspaceCalib,
                  lockHeightCalib: bool, enabled: bool, now: int, maths: Maths)
      returns (hideManual: bool, station: Option<Pose>)
      requires gui.Valid() && ValidMaths(maths) && Norm(ctrl.rotation) == 1.0
      modifies this, timer, gui, playspace
      ensures timer == old(timer) && gui.Valid()
      // Disabled: only the timer restarts.
      ensures !enabled ==> timer.start == now && !hideManual && station == None
      ensures !enabled ==> posActive == old(posActive) && angleActive == old(angleActive)
      ensures !enabled ==> posOffset == old(posOffset) && angleOffset == old(angleOffset)
      ensures !enabled ==> unchanged(gui) && unchanged(playspace)
      // Enabled: a minute without a press hides manual calibration.
      ensures enabled ==> (hideManual <==> old(timer.Get(now)) > TIMEOUT)
      // Every press restarts the timer; only a press after the debounce toggles.
      ensures enabled ==> timer.start == (if button == NoButton then old(timer.start) else now)
      ensures enabled ==> posActive == (if button == GrabCamera && old(timer.Get(now)) > DEBOUNCE
                                        then !old(posActive) else old(posActive))
      ensures enabled ==> angleActive == (if button == GrabTrackers && old(timer.Get(now)) > DEBOUNCE
                                          then !old(angleActive) else old(angleActive))
      // Offsets are grabbed when a grab starts, and kept otherwise.
      ensures enabled ==> posOffset == (if posActive && !old(posActive)
                                        then PosGrab(ctrl, old(gui.GetAsReal())) else old(posOffset))
      ensures enabled ==> angleOffset == (if angleActive && !old(angleActive)
                                          then AngleGrab(maths, ctrl, old(gui.GetAsReal())) else old(angleOffset))
      // The adjusted calibration is stored while a grab is active.
      ensures enabled ==>
        gui.Fields() == (if posActive || angleActive
                         then MC.FromReal(Adjusted(maths, old(gui.GetAsReal()), posActive, angleActive, posOffset, angleOffset,
                                                   ctrl, lockHeightCalib))
                         else old(gui.Fields()))
      // The playspace follows what is stored, and the station pose is sent.
      ensures enabled ==> playspace.Valid() && playspace.scale == gui.GetAsReal().scale
      ensures enabled ==> playspace.transform == Affine(maths.rotMat(gui.GetAsReal().angleOffset), gui.GetAsReal().posOffset)
      ensures enabled ==> station == Some(playspace.GetStationPoseOVR())
    {
      if !enabled {
        var _ := timer.Restart(now);
        return false, None;
      }
      var calib := gui.GetAsReal();
      var elapsed := timer.Get(now);
      hideManual := elapsed > TIMEOUT;
      Press(button, elapsed, ctrl, calib, maths);
      if button == GrabCamera || button == GrabTrackers {
        var _ := timer.Restart(now);
      }
      calib := Follow(calib, ctrl, lockHeightCalib, maths);

      if angleActive || posActive {
        gui.SetFromReal(calib);
      }
      var shown := gui.GetAsReal();
      playspace.SetCalib(shown, maths.rotMat, maths.quatOf);
      station := Some(playspace.GetStationPoseOVR());
    }
  }

  // ---------------------------------------------------------------------------
  // Multi-camera refinement
  // ---------------------------------------------------------------------------

  function Abs(d: real): (r: real)
    ensures r >= 0.0 && (r == d || r == -d)
  {
    if d < 0.0 then -d else d
  }

  /** The y and z steps: a step larger than `MAX_STEP` in either direction
    * becomes `MAX_STEP` in that direction. */
  function LimitStep(d: real): (r: real)
    ensures Abs(r) <= MAX_STEP && Abs(r) <= Abs(d)
    ensures (r < 0.0 ==> d < 0.0) && (r > 0.0 ==> d > 0.0)
    ensures Abs(d) <= MAX_STEP ==> r == d
  {
    if Abs(d) > MAX_STEP then MAX_STEP * (d / Abs(d)) else d
  }

  /** The x step as the source writes it: the limit test uses 0.01, so any
    * step larger than that becomes a full `MAX_STEP`, and a smaller one is
    * kept. */
  function LimitStepX(d: real): (r: real)
    ensures Abs(r) <= MAX_STEP
    ensures (r < 0.0 ==> d < 0.0) && (r > 0.0 ==> d > 0.0)
    ensures Abs(d) <= 0.01 ==> r == d
    ensures Abs(d) > 0.01 ==> Abs(r) == MAX_STEP
  {
    if Abs(d) > 0.01 then
      UnitSign(d);
      MAX_STEP * (d / Abs(d))
    else d
  }

  /** A non-zero number over its magnitude is its sign. */
  lemma UnitSign(d: real)
    requires d != 0.0
    ensures d / Abs(d) == if d > 0.0 then 1.0 else -1.0
  {
    if d > 0.0 {
      assert d / d == 1.0;
    } else {
      assert d / (-d) * (-d) == d;
    }
  }

  /** A 5 cm error, which the y and z coordinates would correct by 5 mm, moves
    * x by the full 10 cm: twice the step the error asks for. */
  lemma LimitStepXOvershoots()
    ensures LimitStepX(0.05) == 0.1 && LimitStep(0.05) == 0.05
    ensures LimitStepX(0.05) > Abs(0.05)
  {
  }

  /** The new scale: the driver's distance from the camera over the estimate's;
    * an estimate at the camera leaves the scale as it is. */
  function RefinedScale(scale: real, length: real, driverLength: real): (r: real)
    ensures length == driverLength ==> r == scale
  {
    if length == 0.0 then scale else scale - (1.0 - driverLength / length) * 0.1
  }

  /** The position step: a tenth of the error between the estimate and the
    * driver in the OpenVR frame (y the other way round), each coordinate
    * limited, x with its own threshold. */
  function PositionStep(p: Vec3, q: Vec3): (r: Vec3)
    ensures Abs(r.x) <= MAX_STEP && Abs(r.y) <= MAX_STEP && Abs(r.z) <= MAX_STEP
    ensures Abs(r.y) <= Abs(p.y - q.y) * 0.1 && Abs(r.z) <= Abs(p.z - q.z) * 0.1
    ensures p == q ==> r == Zero
  {
    Vec3(LimitStepX((p.x - q.x) * 0.1), LimitStep(-(p.y - q.y) * 0.1), LimitStep((p.z - q.z) * 0.1))
  }

  /** The position step evidently meant: every coordinate limited alike, so
    * no coordinate moves further than a tenth of its error. */
  function PositionStepCorrected(p: Vec3, q: Vec3): (r: Vec3)
    ensures Abs(r.x) <= MAX_STEP && Abs(r.y) <= MAX_STEP && Abs(r.z) <= MAX_STEP
    ensures Abs(r.x) <= Abs(p.x - q.x) * 0.1 && Abs(r.y) <= Abs(p.y - q.y) * 0.1
    ensures Abs(r.z) <= Abs(p.z - q.z) * 0.1
    ensures p == q ==> r == Zero
  {
    Vec3(LimitStep((p.x - q.x) * 0.1), LimitStep(-(p.y - q.y) * 0.1), LimitStep((p.z - q.z) * 0.1))
  }

  /** The written step and the corrected one differ only in x, and only for
    * an x step between 0.01 and `MAX_STEP`. */
  lemma PositionStepDiffersInX(p: Vec3, q: Vec3)
    ensures PositionStep(p, q).y == PositionStepCorrected(p, q).y
    ensures PositionStep(p, q).z == PositionStepCorrected(p, q).z
    ensures (PositionStep(p, q).x != PositionStepCorrected(p, q).x)
              == (0.01 < Abs((p.x - q.x) * 0.1) < MAX_STEP)
  {
  }

  /** The angle step: a tenth of the (pitch, yaw) error; roll is not refined. */
  function AngleStep(angles: (real, real), driverAngles: (real, real)): (r: Vec3)
    ensures r.z == 0.0
    ensures angles.0 == driverAngles.0 && angles.1 == driverAngles.1 ==> r == Zero
  {
    Scale(Vec3(angles.0 - driverAngles.0, angles.1 - driverAngles.1, 0.0), 0.1)
  }

  /** The calibration after one refinement step, from the tracker's estimated
    * position and the driver's, both in camera space. */
  function Refined(maths: Maths, calib: MC.RealCalib, transform: Affine, pos: Vec3, driverPos: Vec3): (r: MC.RealCalib)
    requires IsSqrt(maths.sqrt)
    ensures Abs(r.posOffset.x - calib.posOffset.x) <= MAX_STEP
    ensures Abs(r.posOffset.y - calib.posOffset.y) <= MAX_STEP
    ensures Abs(r.posOffset.z - calib.posOffset.z) <= MAX_STEP
    ensures r.angleOffset.z == calib.angleOffset.z
  {
    var step := PositionStep(FlipVec(Map(transform, pos)), FlipVec(Map(transform, driverPos)));
    var angles := AngleStep(EulerAnglesFromPos(maths.sqrt, maths.atan2, pos, Zero),
                            EulerAnglesFromPos(maths.sqrt, maths.atan2, driverPos, Zero));
    Nudge(calib, step, angles, RefinedScale(calib.scale, Length(maths.sqrt, pos), Length(maths.sqrt, driverPos)))
  }

  /** The calibration moved by the given steps, with the given scale. */
  function Nudge(calib: MC.RealCalib, step: Vec3, angles: Vec3, scale: real): (r: MC.RealCalib)
    ensures r.posOffset.x - calib.posOffset.x == step.x
    ensures r.posOffset.y - calib.posOffset.y == step.y
    ensures r.posOffset.z - calib.posOffset.z == step.z
    ensures r.angleOffset.z == calib.angleOffset.z + angles.z
  {
    MC.RealCalib(Add(calib.posOffset, step), Add(calib.angleOffset, angles), scale)
  }

  /** Zero steps and the same scale leave the calibration as it is. */
  lemma NudgeNothing(calib: MC.RealCalib)
    ensures Nudge(calib, Zero, Zero, calib.scale) == calib
  {
  }

  /** Equal estimates give zero steps and keep the scale. */
  lemma NudgeAtAgreement(calib: MC.RealCalib, p: Vec3, angles: (real, real), length: real)
    ensures Nudge(calib, PositionStep(p, p), AngleStep(angles, angles), RefinedScale(calib.scale, length, length)) == calib
  {
    NudgeNothing(calib);
  }

  /** When the estimate agrees with the driver, refinement changes nothing. */
  lemma RefinedAtAgreement(maths: Maths, calib: MC.RealCalib, transform: Affine, pos: Vec3)
    requires IsSqrt(maths.sqrt)
    ensures Refined(maths, calib, transform, pos, pos) == calib
  {
    var p := FlipVec(Map(transform, pos));
    var e := EulerAnglesFromPos(maths.sqrt, maths.atan2, pos, Zero);
    var l := Length(maths.sqrt, pos);
    NudgeAtAgreement(calib, p, e, l);
  }

  /** `UpdateMulticam`: refines the stored calibration from one tracker unit
    * and sets the playspace from the refined (unclamped) calibration. */
  method UpdateMulticam(gui: MC.ManualCalib, playspace: PlayspaceCalib, unit: TrackerUnit.TrackerUnit, maths: Maths)
    requires gui.Valid() && ValidMaths(maths)
    modifies gui, playspace
    ensures gui.Valid()
    ensures var r := Refined(maths, old(gui.GetAsReal()), old(playspace.transform), unit.pose.tvec, unit.driverPose.tvec);
      gui.Fields() == MC.FromReal(r)
      && playspace.Valid() && playspace.transform == Affine(maths.rotMat(r.angleOffset), r.posOffset) && playspace.scale == r.scale
  {
    var calib := gui.GetAsReal();
    calib := Refined(maths, calib, playspace.transform, unit.pose.tvec, unit.driverPose.tvec);
    gui.SetFromReal(calib);
    playspace.SetCalib(calib, maths.rotMat, maths.quatOf);
  }
}
