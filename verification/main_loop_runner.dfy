/** One frame of the tracking loop (`MainLoopRunner::Update`): the search
  * window bookkeeping, the mask around each unit's predicted position, and for
  * each detected unit the depth blending, the rejection rules and either a
  * multicam refinement or a pose for the driver.
  *
  * Image work (grayscale conversion, drawing, the masked copy, the detector
  * itself) is outside the model: the masks are returned as shapes, and the
  * detector's estimates, the driver's poses and the camera projection are
  * parameters. */
module MainLoop {
  import opened Wrappers
  import opened Helpers
  import opened Quaternions
  import opened Playspace
  import PC = PlayspaceCalibrator
  import MC = ManualCalib
  import V = Validated
  import CInt
  import TU = TrackerUnit

  /** A unit lost for more frames than this switches the circular search
    * window off for one frame. */
  const FRAMES_TO_CHECK_ALL: int := 20

  datatype Point2 = Point2(x: real, y: real)

  /** The frame size, the focal lengths of the camera matrix, and
    * `cv::projectPoints` with the camera's matrix and distortion. */
  datatype Camera = Camera(cols: int, rows: int, fx: real, fy: real, project: Vec3 -> Point2)

  /** A real image and a calibrated camera. */
  predicate ValidCamera(cam: Camera)
  {
    cam.cols > 0 && cam.rows > 0 && cam.fx > 0.0 && cam.fy > 0.0
  }

  /** The conversions between a quaternion and a Rodrigues vector. */
  datatype Rotations = Rotations(toRotVec: Quat -> Vec3, fromRotVec: Vec3 -> Quat)

  /** `VRDriver::GetTracker`: the driver's pose of a tracker and whether it is valid. */
  datatype DriverSample = DriverSample(pose: Pose, isValid: bool)

  /** `EstimatePoseTracker`: the board pose in the playspace's scale, and the
    * number of markers it was estimated from. */
  datatype Estimate = Estimate(pose: TU.RodrPose, numEstimated: int)

  /** `VRDriver::UpdateTracker`: the tracker index, the pose sent, the time
    * offset of the frame (negative seconds) and the smoothing factor. */
  datatype Sent = Sent(index: int, pose: Pose, timeOffset: real, smoothing: real)

  /** Where the detector may look: a disc, or a full-height strip between two
    * columns. */
  datatype MaskShape = Circle(center: Point2, radius: int) | Strip(left: int, right: int)

  /** The settings detection reads: `depthSmoothing` from the user config, the
    * tracker controls' manual-recalibration and multicam switches, and the
    * user config's `smoothingFactor`, sent with every pose. */
  datatype DetectConfig = DetectConfig(depthSmoothing: real, manualRecalibrate: bool, multicamAutocalib: bool,
                                       smoothingFactor: real)

  /** The unit's state the loop changes. */
  datatype UnitState = UnitState(isFound: bool, isDriverFound: bool, pose: TU.RodrPose, driverPose: TU.RodrPose)

  function StateOf(u: TU.TrackerUnit): UnitState
    reads u
  {
    UnitState(u.isFound, u.isDriverFound, u.pose, u.driverPose)
  }

  function States(units: seq<TU.TrackerUnit>): (r: seq<UnitState>)
    reads set u | u in units
    ensures |r| == |units| && forall k :: 0 <= k < |units| ==> r[k] == StateOf(units[k])
  {
    if units == [] then [] else States(units[..|units| - 1]) + [StateOf(units[|units| - 1])]
  }

  /** Units a step leaves alone keep their states. */
  twostate lemma StatesKept(units: seq<TU.TrackerUnit>)
    requires forall k :: 0 <= k < |units| ==> unchanged(units[k])
    ensures States(units) == old(States(units))
  {
  }

  /** ... and a step that changes only the unit at `at.1` of `at.0` changes
    * only that unit's state. */
  twostate lemma StatesUpdated(at: (seq<TU.TrackerUnit>, int))
    requires 0 <= at.1 < |at.0| && forall k :: 0 <= k < |at.0| && k != at.1 ==> unchanged(at.0[k])
    ensures States(at.0) == old(States(at.0))[at.1 := StateOf(at.0[at.1])]
  {
  }

  predicate Distinct(units: seq<TU.TrackerUnit>)
  {
    forall i, j :: 0 <= i < j < |units| ==> units[i] != units[j]
  }

  // ---------------------------------------------------------------------------
  // The search window
  // ---------------------------------------------------------------------------

  /** The frame counter and whether the search window is circular this frame. */
  datatype Window = Window(counter: int, circular: bool)

  /** Some unit was not seen in the last frame. */
  predicate AnyLost(units: seq<TU.TrackerUnit>)
    reads set u | u in units
  {
    exists k :: 0 <= k < |units| && !units[k].isFound
  }

  /** One frame of the counter: it counts frames with a lost unit; past
    * `FRAMES_TO_CHECK_ALL` the window is not circular for this frame, and
    * whenever the window is not circular the counter starts again. */
  function WindowStep(counter: int, anyLost: bool, circularConfig: bool): (r: Window)
    ensures 0 <= counter <= FRAMES_TO_CHECK_ALL ==> 0 <= r.counter <= FRAMES_TO_CHECK_ALL
    ensures r.circular ==> circularConfig
    ensures !r.circular ==> r.counter == 0
    ensures !anyLost ==> r == (if circularConfig then Window(counter, true) else Window(0, false))
  {
    var bumped := if anyLost then counter + 1 else counter;
    var circular := circularConfig && !(anyLost && bumped > FRAMES_TO_CHECK_ALL);
    Window(if circular then bumped else 0, circular)
  }

  /** The window after `n` frames in a row with a lost unit, the circular
    * window configured. */
  function LostFrames(counter: int, n: nat): Window
  {
    if n == 0 then Window(counter, true)
    else WindowStep(LostFrames(counter, n - 1).counter, true, true)
  }

  /** From a counter of `c`, the first `20 - c` frames with a lost unit keep
    * the circular window and count up to 20... */
  lemma {:induction false} LostFramesCount(c: int, n: nat)
    requires 0 <= c && c + n <= FRAMES_TO_CHECK_ALL
    ensures LostFrames(c, n) == Window(c + n, true)
  {
    if n > 0 {
      LostFramesCount(c, n - 1);
    }
  }

  /** ... and the next one searches the whole height and restarts the count:
    * a unit lost for good gets a full search every 21 frames. */
  lemma LostUnitGetsFullSearch(c: int)
    requires 0 <= c <= FRAMES_TO_CHECK_ALL
    ensures LostFrames(c, FRAMES_TO_CHECK_ALL - c + 1) == Window(0, false)
    ensures LostFrames(0, FRAMES_TO_CHECK_ALL + 1) == Window(0, false)
  {
    LostFramesCount(c, FRAMES_TO_CHECK_ALL - c);
    LostFramesCount(0, FRAMES_TO_CHECK_ALL);
  }

  // ---------------------------------------------------------------------------
  // The masks
  // ---------------------------------------------------------------------------

  /** The playspace's inverse transform and rotation: from the room back to
    * the camera. */
  datatype ToCamera = ToCamera(transform: Affine, rotation: Quat)

  function InverseOf(playspace: PlayspaceCalib): ToCamera
    reads playspace
  {
    ToCamera(playspace.invTransform, playspace.invRotation)
  }

  /** The driver's pose in camera space, when it is valid. */
  function DriverInCamera(inv: ToCamera, sample: DriverSample): Pose
  {
    if sample.isValid then FlipPose(Pose(Map(inv.transform, sample.pose.position), Mul(inv.rotation, sample.pose.rotation)))
    else sample.pose
  }

  /** A pose the loop sent to the driver comes back to the camera pose it was
    * sent from. */
  lemma DriverInCameraRoundTrip(playspace: PlayspaceCalib, pose: Pose)
    requires playspace.Valid()
    ensures DriverInCamera(InverseOf(playspace), DriverSample(playspace.TransformToOVR(pose), true)) == pose
  {
    InvTransformFromOVRRoundTrip(playspace, pose);
  }

  /** Where to search for a unit: where the driver puts it if the camera lost
    * it, where the camera last saw it otherwise; a unit neither seen nor
    * tracked by the driver gets the default point (0, 0). */
  function MaskCenter(isValid: bool, wasVisible: bool, driverCenter: Point2, previousCenter: Point2): (r: Point2)
    ensures isValid && !wasVisible ==> r == driverCenter
    ensures wasVisible ==> r == previousCenter
    ensures !isValid && !wasVisible ==> r == Point2(0.0, 0.0)
  {
    if isValid then (if !wasVisible then driverCenter else previousCenter)
    else if wasVisible then previousCenter
    else Point2(0.0, 0.0)
  }

  /** `Point2d::inside(Rect2d(0, 0, cols, rows))`. */
  predicate Inside(p: Point2, cam: Camera)
  {
    0.0 <= p.x < cam.cols as real && 0.0 <= p.y < cam.rows as real
  }

  /** The mask centre of a unit in state `s` for the driver's sample. */
  function CenterOf(s: UnitState, sample: DriverSample, inv: ToCamera, cam: Camera): Point2
  {
    MaskCenter(sample.isValid, s.isFound, cam.project(DriverInCamera(inv, sample).position), cam.project(s.pose.tvec))
  }

  /** A unit's state after its mask is placed. */
  function Masked(s: UnitState, sample: DriverSample, inv: ToCamera, cam: Camera, rot: Rotations): UnitState
  {
    var pose := DriverInCamera(inv, sample);
    var inside := Inside(CenterOf(s, sample, inv, cam), cam);
    UnitState((sample.isValid || s.isFound) && inside, sample.isValid, s.pose,
              if sample.isValid then TU.RodrPose(rot.toRotVec(pose.rotation), pose.position) else s.driverPose)
  }

  /** Placing the mask records whether the driver saw the unit and its pose in
    * camera space; a unit whose mask centre is outside the image is not
    * visible, and a unit the driver saw with its centre inside is. */
  lemma MaskRules(s: UnitState, sample: DriverSample, inv: ToCamera, cam: Camera, rot: Rotations)
    ensures var r := Masked(s, sample, inv, cam, rot);
      && r.isDriverFound == sample.isValid && r.pose == s.pose
      && (r.isFound ==> Inside(CenterOf(s, sample, inv, cam), cam))
      && (r.isFound ==> sample.isValid || s.isFound)
      && (Inside(CenterOf(s, sample, inv, cam), cam) && sample.isValid ==> r.isFound)
      && (!sample.isValid ==> r.driverPose == s.driverPose && r.isFound == (s.isFound && Inside(CenterOf(s, sample, inv, cam), cam)))
      && (sample.isValid ==> r.driverPose.tvec == DriverInCamera(inv, sample).position)
  {
  }

  /** `static_cast<int>(rows * searchWindow)`. */
  function SearchRadius(rows: int, searchWindow: real): int
  {
    CInt.RealToInt(rows as real * searchWindow)
  }

  /** The mask around a centre inside the image: a disc, or a strip reaching
    * `radius` either side of the centre's column. */
  function ShapeAt(center: Point2, circular: bool, radius: int): (r: MaskShape)
    requires center.x >= 0.0
    ensures circular ==> r == Circle(center, radius)
    ensures !circular ==> (r.Strip? && r.right - r.left == 2 * radius
                           && (r.left + radius) as real <= center.x < (r.left + radius + 1) as real)
  {
    if circular then Circle(center, radius)
    else
      var x := CInt.RealToInt(center.x);
      Strip(x - radius, x + radius)
  }

  /** The masks of the first `|samples|` units, in order: one for each unit
    * whose centre is inside the image. */
  function Shapes(states: seq<UnitState>, samples: seq<DriverSample>, inv: ToCamera, cam: Camera,
                  circular: bool, radius: int): (r: seq<MaskShape>)
    requires |samples| <= |states|
  {
    if samples == [] then []
    else
      var n := |samples| - 1;
      var c := CenterOf(states[n], samples[n], inv, cam);
      var rest := Shapes(states, samples[..n], inv, cam, circular, radius);
      rest + (if Inside(c, cam) then [ShapeAt(c, circular, radius)] else [])
  }

  /** At most one mask per unit, and none exactly when no unit's centre is
    * inside the image: the detector then searches the whole frame. */
  lemma {:induction false} ShapesEmpty(states: seq<UnitState>, samples: seq<DriverSample>, inv: ToCamera, cam: Camera,
                                       circular: bool, radius: int)
    requires |samples| <= |states|
    ensures |Shapes(states, samples, inv, cam, circular, radius)| <= |samples|
    ensures Shapes(states, samples, inv, cam, circular, radius) == []
            <==> forall k :: 0 <= k < |samples| ==> !Inside(CenterOf(states[k], samples[k], inv, cam), cam)
  {
    if samples != [] {
      var n := |samples| - 1;
      ShapesEmpty(states, samples[..n], inv, cam, circular, radius);
      assert forall k :: 0 <= k < n ==> samples[..n][k] == samples[k];
    }
  }

  /** Every unit's state after the first loop: the first `|samples|` masked,
    * the rest as they were. */
  function MaskedAll(states: seq<UnitState>, samples: seq<DriverSample>, inv: ToCamera, cam: Camera,
                     rot: Rotations): (r: seq<UnitState>)
    requires |samples| <= |states|
    ensures |r| == |states|
    ensures forall k :: 0 <= k < |samples| ==> r[k] == Masked(states[k], samples[k], inv, cam, rot)
    ensures forall k :: |samples| <= k < |states| ==> r[k] == states[k]
  {
    seq(|states|, k requires 0 <= k < |states| =>
      if k < |samples| then Masked(states[k], samples[k], inv, cam, rot) else states[k])
  }

  lemma ShapesSnoc(states: seq<UnitState>, samples: seq<DriverSample>, i: int, inv: ToCamera, cam: Camera,
                   circular: bool, radius: int)
    requires 0 <= i < |samples| <= |states|
    ensures var c := CenterOf(states[i], samples[i], inv, cam);
      Shapes(states, samples[..i + 1], inv, cam, circular, radius)
      == Shapes(states, samples[..i], inv, cam, circular, radius) + (if Inside(c, cam) then [ShapeAt(c, circular, radius)] else [])
  {
    assert samples[..i + 1][..i] == samples[..i];
  }

  /** The first loop over the units: each unit's mask from its driver sample. */
  method MaskUnit(unit: TU.TrackerUnit, sample: DriverSample, playspace: PlayspaceCalib, cam: Camera, rot: Rotations,
                  circular: bool, radius: int) returns (shape: Option<MaskShape>)
    modifies unit
    ensures StateOf(unit) == Masked(old(StateOf(unit)), sample, InverseOf(playspace), cam, rot)
    ensures var c := CenterOf(old(StateOf(unit)), sample, InverseOf(playspace), cam);
      shape == (if Inside(c, cam) then Some(ShapeAt(c, circular, radius)) else None)
    ensures unit.ids == old(unit.ids) && unit.markers == old(unit.markers) && unit.role == old(unit.role)
  {
    var pose := DriverInCamera(InverseOf(playspace), sample);
    var driverCenter := cam.project(pose.position);
    var previousCenter := cam.project(unit.pose.tvec);
    unit.SetWasVisibleToDriverLastFrame(sample.isValid);
    var maskCenter := Point2(0.0, 0.0);
    if sample.isValid {
      if !unit.isFound {
        maskCenter := driverCenter;
      } else {
        maskCenter := previousCenter;
      }
      unit.SetWasVisibleLastFrame(true);
      unit.SetPoseFromDriver(TU.RodrPose(rot.toRotVec(pose.rotation), pose.position));
    } else {
      if unit.isFound {
        maskCenter := previousCenter;
      }
    }
    if Inside(maskCenter, cam) {
      shape := Some(ShapeAt(maskCenter, circular, radius));
    } else {
      unit.SetWasVisibleLastFrame(false);
      shape := None;
    }
  }

  /** The first loop: the first `|samples|` units get their masks. */
  method MaskUnits(units: seq<TU.TrackerUnit>, samples: seq<DriverSample>, playspace: PlayspaceCalib, cam: Camera,
                   rot: Rotations, circular: bool, radius: int) returns (shapes: seq<MaskShape>)
    requires |samples| <= |units| && Distinct(units)
    modifies set u | u in units
    ensures States(units) == MaskedAll(old(States(units)), samples, InverseOf(playspace), cam, rot)
    ensures shapes == Shapes(old(States(units)), samples, InverseOf(playspace), cam, circular, radius)
  {
    ghost var before := States(units);
    ghost var inv := InverseOf(playspace);
    ghost var after := MaskedAll(before, samples, inv, cam, rot);
    shapes := [];
    var i := 0;
    while i < |samples|
      invariant 0 <= i <= |samples|
      invariant forall k :: 0 <= k < i ==> StateOf(units[k]) == after[k]
      invariant forall k :: i <= k < |units| ==> StateOf(units[k]) == before[k]
      invariant shapes == Shapes(before, samples[..i], inv, cam, circular, radius)
    {
      var shape := MaskUnit(units[i], samples[i], playspace, cam, rot, circular, radius);
      ShapesSnoc(before, samples, i, inv, cam, circular, radius);
      if shape.Some? {
        shapes := shapes + [shape.value];
      }
      i := i + 1;
    }
    assert samples[..i] == samples;
    assert States(units) == after;
  }

  // ---------------------------------------------------------------------------
  // Depth blending and the rejection rules
  // ---------------------------------------------------------------------------

  /** The weight of the estimated depth: the depth error over `depthSmoothing`,
    * plus a tenth, clamped to [0, 1]. */
  function BlendWeight(distPredict: real, distDriver: real, smoothing: real): (w: real)
    requires smoothing > 0.0
    ensures 0.1 <= w <= 1.0
    ensures PC.Abs(distPredict - distDriver) >= 0.9 * smoothing ==> w == 1.0
  {
    V.Clamp(0.0, 1.0, PC.Abs(distPredict - distDriver) / smoothing + 0.1)
  }

  /** `dist * distPredict + (1 - dist) * distDriver`. */
  function BlendedDistance(distPredict: real, distDriver: real, w: real): real
  {
    w * distPredict + (1.0 - w) * distDriver
  }

  lemma MulBetween(w: real, e: real)
    requires 0.0 <= w <= 1.0 && e >= 0.0
    ensures 0.0 <= w * e <= e
  {
    assert (1.0 - w) * e >= 0.0;
  }

  /** The blended depth lies between the estimate's and the driver's, and is
    * the estimate's when its weight is 1. */
  lemma BlendedDistanceBetween(distPredict: real, distDriver: real, w: real)
    requires 0.0 <= w <= 1.0
    ensures distPredict <= distDriver ==> distPredict <= BlendedDistance(distPredict, distDriver, w) <= distDriver
    ensures distDriver <= distPredict ==> distDriver <= BlendedDistance(distPredict, distDriver, w) <= distPredict
    ensures w == 1.0 || distPredict == distDriver ==> BlendedDistance(distPredict, distDriver, w) == distPredict
  {
    var p, d := distPredict, distDriver;
    var r := BlendedDistance(p, d, w);
    assert r == d - w * (d - p);
    assert r == p + (1.0 - w) * (d - p);
    if p <= d {
      MulBetween(w, d - p);
      MulBetween(1.0 - w, d - p);
    } else {
      MulBetween(w, p - d);
      MulBetween(1.0 - w, p - d);
      assert w * (d - p) == -(w * (p - d));
      assert (1.0 - w) * (d - p) == -((1.0 - w) * (p - d));
    }
  }

  /** The estimated position moved along its own ray to the blended depth.
    * An estimate at the camera centre divides by zero in the source; the model
    * keeps it. */
  function BlendedPosition(sqrt: real -> real, position: Vec3, driverPosition: Vec3, smoothing: real): (r: Vec3)
    requires IsSqrt(sqrt) && smoothing > 0.0
  {
    var distPredict := Length(sqrt, position);
    var distDriver := Length(sqrt, driverPosition);
    if distPredict == 0.0 then position
    else
      var w := BlendWeight(distPredict, distDriver, smoothing);
      Scale(Scale(position, 1.0 / distPredict), BlendedDistance(distPredict, distDriver, w))
  }

  lemma ScaleBack(x: real, l: real)
    requires l != 0.0
    ensures x * (1.0 / l) * l == x
  {
  }

  lemma SignKept(z: real, a: real, b: real)
    requires a > 0.0 && b > 0.0
    ensures z * a * b < 0.0 <==> z < 0.0
  {
    if z < 0.0 {
      assert z * a < 0.0;
    } else {
      assert z * a >= 0.0;
    }
  }

  /** When the driver agrees on the depth, blending keeps the estimate. */
  lemma BlendAtAgreement(sqrt: real -> real, position: Vec3, driverPosition: Vec3, smoothing: real)
    requires IsSqrt(sqrt) && smoothing > 0.0
    requires Length(sqrt, position) == Length(sqrt, driverPosition)
    ensures BlendedPosition(sqrt, position, driverPosition, smoothing) == position
  {
    var l := Length(sqrt, position);
    if l != 0.0 {
      BlendedDistanceBetween(l, l, BlendWeight(l, l, smoothing));
      ScaleBack(position.x, l);
      ScaleBack(position.y, l);
      ScaleBack(position.z, l);
    }
  }

  /** Blending moves the estimate along its ray and never across the image
    * plane: it is behind the camera exactly when the estimate was. */
  lemma BlendKeepsSide(sqrt: real -> real, position: Vec3, driverPosition: Vec3, smoothing: real)
    requires IsSqrt(sqrt) && smoothing > 0.0
    ensures BlendedPosition(sqrt, position, driverPosition, smoothing).z < 0.0 <==> position.z < 0.0
  {
    var l := Length(sqrt, position);
    if l != 0.0 {
      var d := Length(sqrt, driverPosition);
      var w := BlendWeight(l, d, smoothing);
      var f := BlendedDistance(l, d, w);
      BlendedDistanceBetween(l, d, w);
      assert f > 0.0 by {
        assert l > 0.0 && d >= 0.0;
      }
      SignKept(position.z, 1.0 / l, f);
    }
  }

  /** `|a / b| > limit` in IEEE arithmetic for a finite limit: dividing a
    * non-zero value by zero gives an infinity, and 0 / 0 gives NaN, which
    * compares false. */
  predicate RatioExceeds(a: real, b: real, limit: real)
  {
    if b == 0.0 then a != 0.0 else PC.Abs(a / b) > limit
  }

  /** The field-of-view test: the coordinate more likely to leave the image
    * (by the frame's aspect ratio) is checked against half the image over the
    * focal length. */
  predicate OutOfView(p: Vec3, cam: Camera)
    requires ValidCamera(cam)
  {
    var aspectRatio := cam.cols as real / cam.rows as real;
    if RatioExceeds(p.x, p.y, aspectRatio) then RatioExceeds(p.x, p.z, 0.5 * cam.cols as real / cam.fx)
    else RatioExceeds(p.y, p.z, 0.5 * cam.rows as real / cam.fy)
  }

  /** A point in front of the camera on its axis is in view. */
  lemma OnAxisInView(z: real, cam: Camera)
    requires ValidCamera(cam) && z > 0.0
    ensures !OutOfView(Vec3(0.0, 0.0, z), cam)
  {
    assert 0.0 / z == 0.0;
    assert cam.cols as real / cam.rows as real > 0.0;
  }

  /** What happens to one unit after detection. */
  datatype Verdict = NotEstimated | Behind | OutOfSight | Calibrating | Send

  function VerdictOf(numEstimated: int, position: Vec3, isDriverFound: bool, cfg: DetectConfig, cam: Camera): Verdict
    requires ValidCamera(cam)
  {
    if numEstimated <= 0 then NotEstimated
    else if position.z < 0.0 then Behind
    else if OutOfView(position, cam) then OutOfSight
    else if cfg.multicamAutocalib && isDriverFound then Calibrating
    else Send
  }

  /** Only an estimate in front of the camera and in view is used, and it is
    * used for calibration exactly when multicam calibration is on and the
    * driver saw the unit. */
  lemma VerdictRules(numEstimated: int, position: Vec3, isDriverFound: bool, cfg: DetectConfig, cam: Camera)
    requires ValidCamera(cam)
    ensures var v := VerdictOf(numEstimated, position, isDriverFound, cfg, cam);
      && (v == NotEstimated <==> numEstimated <= 0)
      && (numEstimated > 0 && position.z < 0.0 ==> v == Behind)
      && (v == Send || v == Calibrating <==> numEstimated > 0 && position.z >= 0.0 && !OutOfView(position, cam))
      && (v == Send || v == Calibrating ==> (v == Calibrating <==> cfg.multicamAutocalib && isDriverFound))
  {
  }

  /** The estimate scaled back into the playspace, then blended with the
    * driver's depth when depth smoothing is on, the driver saw the unit and
    * no manual recalibration is running. */
  function DetectedPosition(est: Estimate, scale: real, isDriverFound: bool, driverPosition: Vec3, cfg: DetectConfig,
                            sqrt: real -> real): Vec3
    requires IsSqrt(sqrt)
  {
    var p := Scale(est.pose.tvec, scale);
    if est.numEstimated > 0 && cfg.depthSmoothing > 0.0 && isDriverFound && !cfg.manualRecalibrate then
      BlendedPosition(sqrt, p, driverPosition, cfg.depthSmoothing)
    else p
  }

  /** Blending never moves an estimate to the other side of the camera: it is
    * rejected as behind exactly when the raw estimate, scaled, is. */
  lemma DetectedPositionSide(est: Estimate, scale: real, isDriverFound: bool, driverPosition: Vec3, cfg: DetectConfig,
                             sqrt: real -> real)
    requires IsSqrt(sqrt)
    ensures DetectedPosition(est, scale, isDriverFound, driverPosition, cfg, sqrt).z < 0.0 <==> est.pose.tvec.z * scale < 0.0
  {
    var p := Scale(est.pose.tvec, scale);
    if est.numEstimated > 0 && cfg.depthSmoothing > 0.0 && isDriverFound && !cfg.manualRecalibrate {
      BlendKeepsSide(sqrt, p, driverPosition, cfg.depthSmoothing);
    }
  }

  /** The checks of the second loop's body for one unit: records the
    * estimate, rejects it, or reports it for calibration or returns the pose
    * to send. */
  method CheckEstimate(index: int, unit: TU.TrackerUnit, est: Estimate, cfg: DetectConfig, cam: Camera, rot: Rotations,
                playspace: PlayspaceCalib, maths: PC.Maths, timeOffset: real) returns (sent: Option<Sent>, calibrate: bool)
    requires ValidCamera(cam) && PC.ValidMaths(maths)
    modifies unit
    ensures unit.isDriverFound == old(unit.isDriverFound) && unit.driverPose == old(unit.driverPose)
    ensures unit.ids == old(unit.ids) && unit.markers == old(unit.markers) && unit.role == old(unit.role)
    ensures var pos := DetectedPosition(est, playspace.scale, unit.isDriverFound, unit.driverPose.tvec, cfg, maths.sqrt);
      var v := VerdictOf(est.numEstimated, pos, unit.isDriverFound, cfg, cam);
      && unit.pose == TU.RodrPose(est.pose.rvec, pos)
      && unit.isFound == (v == Calibrating || v == Send)
      && calibrate == (v == Calibrating)
      && sent == (if v == Send then Some(Sent(index, playspace.TransformToOVR(Pose(pos, rot.fromRotVec(est.pose.rvec))),
                                                 timeOffset, cfg.smoothingFactor))
                  else None)
  {
    var position := Scale(est.pose.tvec, playspace.GetScale());
    unit.SetEstimatedPose(TU.RodrPose(est.pose.rvec, position));
    if est.numEstimated <= 0 {
      unit.SetWasVisibleLastFrame(false);
      return None, false;
    }
    unit.SetWasVisibleLastFrame(true);
    if cfg.depthSmoothing > 0.0 && unit.isDriverFound && !cfg.manualRecalibrate {
      position := BlendedPosition(maths.sqrt, position, unit.driverPose.tvec, cfg.depthSmoothing);
      unit.SetEstimatedPose(TU.RodrPose(est.pose.rvec, position));
    }
    if position.z < 0.0 {
      unit.SetWasVisibleLastFrame(false);
      return None, false;
    }
    if OutOfView(position, cam) {
      unit.SetWasVisibleLastFrame(false);
      return None, false;
    }
    if cfg.multicamAutocalib && unit.isDriverFound {
      return None, true;
    }
    var pose := playspace.TransformToOVR(Pose(position, rot.fromRotVec(est.pose.rvec)));
    return Some(Sent(index, pose, timeOffset, cfg.smoothingFactor)), false;
  }

  // ---------------------------------------------------------------------------
  // The second loop
  // ---------------------------------------------------------------------------

  /** A unit is sent to the driver when it was detected and is not being
    * used for multicam calibration. */
  predicate Sends(s: UnitState, cfg: DetectConfig)
  {
    s.isFound && !(cfg.multicamAutocalib && s.isDriverFound)
  }

  /** The indices of the units sent, in order. */
  function SendIndices(states: seq<UnitState>, cfg: DetectConfig): seq<int>
  {
    if states == [] then []
    else
      var n := |states| - 1;
      SendIndices(states[..n], cfg) + (if Sends(states[n], cfg) then [n] else [])
  }

  /** Exactly the units that qualify are sent, each once, in increasing order. */
  lemma {:induction false} SendIndicesExact(states: seq<UnitState>, cfg: DetectConfig)
    ensures forall k :: k in SendIndices(states, cfg) <==> 0 <= k < |states| && Sends(states[k], cfg)
    ensures forall j, j' :: 0 <= j < j' < |SendIndices(states, cfg)| ==> SendIndices(states, cfg)[j] < SendIndices(states, cfg)[j']
  {
    if states != [] {
      var n := |states| - 1;
      var pre := SendIndices(states[..n], cfg);
      SendIndicesExact(states[..n], cfg);
      assert forall k :: 0 <= k < n ==> states[..n][k] == states[k];
      forall j | 0 <= j < |pre|
        ensures pre[j] < n
      {
        assert pre[j] in pre;
        assert 0 <= pre[j] < |states[..n]|;
      }
    }
  }

  lemma SendIndicesSnoc(states: seq<UnitState>, i: int, cfg: DetectConfig)
    requires 0 <= i < |states|
    ensures SendIndices(states[..i + 1], cfg) == SendIndices(states[..i], cfg) + (if Sends(states[i], cfg) then [i] else [])
  {
    assert states[..i + 1][..i] == states[..i];
  }

  function Indices(sent: seq<Sent>): (r: seq<int>)
    ensures |r| == |sent| && forall j :: 0 <= j < |sent| ==> r[j] == sent[j].index
  {
    seq(|sent|, j requires 0 <= j < |sent| => sent[j].index)
  }

  /** What detection leaves in one unit, given its state before: the driver's
    * part untouched, the estimate's rotation, and a unit marked visible only
    * when it was estimated, is in front of the camera and in view. */
  predicate DetectedRules(s: UnitState, before: UnitState, est: Estimate, cam: Camera)
    requires ValidCamera(cam)
  {
    && s.isDriverFound == before.isDriverFound && s.driverPose == before.driverPose
    && s.pose.rvec == est.pose.rvec
    && (s.isFound ==> est.numEstimated > 0 && s.pose.tvec.z >= 0.0 && !OutOfView(s.pose.tvec, cam))
  }

  /** `PlayspaceCalib::TransformToOVR` of the given transform and rotation. */
  function ToOVR(transform: Affine, rotation: Quat, pose: Pose): Pose
  {
    Pose(Map(transform, FlipVec(pose.position)), Mul(rotation, FlipQuat(pose.rotation)))
  }

  /** What the second loop has sent after the first `i` units: their indices
    * in order and, with multicam calibration off, each unit's pose moved into
    * the room by the (then fixed) playspace transform. */
  predicate SentSoFar(sent: seq<Sent>, states: seq<UnitState>, i: int, cfg: DetectConfig, rot: Rotations,
                      transform: Affine, rotation: Quat)
    requires 0 <= i <= |states|
  {
    && Indices(sent) == SendIndices(states[..i], cfg)
    && (forall j :: 0 <= j < |sent| ==> 0 <= sent[j].index < i)
    && (!cfg.multicamAutocalib ==>
          forall j :: 0 <= j < |sent| ==>
            var s := states[sent[j].index];
            sent[j].pose == ToOVR(transform, rotation, Pose(s.pose.tvec, rot.fromRotVec(s.pose.rvec))))
  }

  /** Every pose sent carries the frame's time offset and the smoothing
    * factor. */
  predicate Stamped(sent: seq<Sent>, timeOffset: real, smoothing: real)
  {
    forall j :: 0 <= j < |sent| ==> sent[j].timeOffset == timeOffset && sent[j].smoothing == smoothing
  }

  /** Appending a stamped pose keeps the poses sent stamped. */
  lemma StampedStep(sent: seq<Sent>, r: Option<Sent>, timeOffset: real, smoothing: real)
    requires Stamped(sent, timeOffset, smoothing)
    requires r.Some? ==> r.value.timeOffset == timeOffset && r.value.smoothing == smoothing
    ensures Stamped(sent + (if r.Some? then [r.value] else []), timeOffset, smoothing)
  {
  }

  /** What the second loop knows after the first `i` units: those are
    * detected, the rest untouched, and the poses sent so far collected. */
  predicate DetectedSoFar(before: seq<UnitState>, now: seq<UnitState>, sent: seq<Sent>, i: int, estimates: seq<Estimate>,
                          cfg: DetectConfig, cam: Camera, rot: Rotations, transform: Affine, rotation: Quat)
    requires ValidCamera(cam)
  {
    && |now| == |before| == |estimates| && 0 <= i <= |now|
    && (forall k :: i <= k < |now| ==> now[k] == before[k])
    && (forall k :: 0 <= k < i ==> DetectedRules(now[k], before[k], estimates[k], cam))
    && SentSoFar(sent, now, i, cfg, rot, transform, rotation)
  }

  /** One step of the second loop keeps `DetectedSoFar`. */
  lemma DetectStep(before: seq<UnitState>, now: seq<UnitState>, sent: seq<Sent>, i: int, estimates: seq<Estimate>,
                   cfg: DetectConfig, cam: Camera, rot: Rotations, transform: Affine, rotation: Quat,
                   s: UnitState, r: Option<Sent>)
    requires ValidCamera(cam) && 0 <= i < |now| && |estimates| == |now|
    requires DetectedRules(s, now[i], estimates[i], cam)
    requires r.Some? <==> Sends(s, cfg)
    requires r.Some? ==> r.value.index == i
    requires r.Some? && !cfg.multicamAutocalib ==>
      r.value.pose == ToOVR(transform, rotation, Pose(s.pose.tvec, rot.fromRotVec(s.pose.rvec)))
    ensures DetectedSoFar(before, now, sent, i, estimates, cfg, cam, rot, transform, rotation) ==>
      DetectedSoFar(before, now[i := s], sent + (if r.Some? then [r.value] else []), i + 1, estimates,
                    cfg, cam, rot, transform, rotation)
  {
    var next := now[i := s];
    SendIndicesSnoc(next, i, cfg);
    assert next[..i] == now[..i];
  }

  /** The second loop's body for the unit at `index`: the checks, then the
    * calibration step for a unit the driver also sees when multicam
    * calibration is on. Its contract keeps what the loop needs: only that
    * unit changes, the rules its new state follows, whether it is sent and,
    * with the playspace fixed, the pose sent. */
  method Detect(index: int, units: seq<TU.TrackerUnit>, est: Estimate, cfg: DetectConfig, cam: Camera, rot: Rotations,
                gui: MC.ManualCalib, playspace: PlayspaceCalib, maths: PC.Maths, timeOffset: real, ghost transform: Affine,
                ghost rotation: Quat) returns (sent: Option<Sent>)
    requires 0 <= index < |units| && Distinct(units)
    requires ValidCamera(cam) && gui.Valid() && PC.ValidMaths(maths)
    requires !cfg.multicamAutocalib ==> playspace.transform == transform && playspace.rotation == rotation
    modifies units[index], gui, playspace
    ensures gui.Valid()
    ensures States(units) == old(States(units))[index := StateOf(units[index])]
    ensures DetectedRules(StateOf(units[index]), old(StateOf(units[index])), est, cam)
    ensures sent.Some? <==> Sends(StateOf(units[index]), cfg)
    ensures sent.Some? ==> sent.value.index == index
    ensures sent.Some? ==> sent.value.timeOffset == timeOffset && sent.value.smoothing == cfg.smoothingFactor
    ensures sent.Some? && !cfg.multicamAutocalib ==>
      var s := StateOf(units[index]);
      sent.value.pose == ToOVR(transform, rotation, Pose(s.pose.tvec, rot.fromRotVec(s.pose.rvec)))
    ensures !cfg.multicamAutocalib ==> unchanged(gui) && unchanged(playspace)
  {
    var r, calibrate := CheckEstimate(index, units[index], est, cfg, cam, rot, playspace, maths, timeOffset);
    if calibrate {
      PC.UpdateMulticam(gui, playspace, units[index], maths);
    }
    sent := r;
    StatesUpdated((units, index));
  }

  /** The second loop: every unit's estimate is checked, and the poses to
    * send are collected. With multicam calibration off nothing else changes,
    * and each pose sent is the unit's estimate moved into the room. */
  method DetectAll(units: seq<TU.TrackerUnit>, estimates: seq<Estimate>, cfg: DetectConfig, cam: Camera, rot: Rotations,
                   gui: MC.ManualCalib, playspace: PlayspaceCalib, maths: PC.Maths, timeOffset: real)
    returns (sent: seq<Sent>)
    requires |estimates| == |units| && Distinct(units)
    requires ValidCamera(cam) && gui.Valid() && PC.ValidMaths(maths)
    modifies (set u | u in units), gui, playspace
    ensures gui.Valid()
    ensures DetectedSoFar(old(States(units)), States(units), sent, |units|, estimates, cfg, cam, rot,
                          old(playspace.transform), old(playspace.rotation))
    ensures Stamped(sent, timeOffset, cfg.smoothingFactor)
    ensures !cfg.multicamAutocalib ==> unchanged(gui) && unchanged(playspace)
  {
    ghost var before := States(units);
    ghost var transform, rotation := playspace.transform, playspace.rotation;
    sent := [];
    var i := 0;
    while i < |units|
      invariant 0 <= i <= |units|
      invariant DetectedSoFar(before, States(units), sent, i, estimates, cfg, cam, rot, transform, rotation)
      invariant Stamped(sent, timeOffset, cfg.smoothingFactor)
      invariant gui.Valid()
      invariant !cfg.multicamAutocalib ==> unchanged(gui) && unchanged(playspace)
    {
      ghost var now := States(units);
      assert !cfg.multicamAutocalib ==> playspace.transform == transform && playspace.rotation == rotation;
      var r := Detect(i, units, estimates[i], cfg, cam, rot, gui, playspace, maths, timeOffset, transform, rotation);
      ghost var s := StateOf(units[i]);
      assert States(units) == now[i := s];
      DetectStep(before, now, sent, i, estimates, cfg, cam, rot, transform, rotation, s, r);
      StampedStep(sent, r, timeOffset, cfg.smoothingFactor);
      sent := sent + (if r.Some? then [r.value] else []);
      i := i + 1;
    }
  }

  // ---------------------------------------------------------------------------
  // The runner
  // ---------------------------------------------------------------------------

  /** `MainLoopRunner`: the frame counter, the manual calibrator and the
    * station pose last sent. */
  class MainLoopRunner {
    var framesSinceLastSeen: int
    var station: Pose
    const calibrator: PC.Calibrator

    /** The counter never passes `FRAMES_TO_CHECK_ALL`. */
    predicate Valid()
      reads this
    {
      0 <= framesSinceLastSeen <= FRAMES_TO_CHECK_ALL
    }

    /** Sets the playspace from the stored calibration and sends the station
      * pose it implies. */
    constructor (gui: MC.ManualCalib, playspace: PlayspaceCalib, maths: PC.Maths, now: int)
      requires gui.Valid() && PC.ValidMaths(maths)
      modifies playspace
      ensures Valid() && framesSinceLastSeen == 0
      ensures var r := gui.GetAsReal();
        playspace.Valid() && playspace.transform == Affine(maths.rotMat(r.angleOffset), r.posOffset) && playspace.scale == r.scale
      ensures station == playspace.GetStationPoseOVR()
      ensures fresh(calibrator) && fresh(calibrator.timer) && calibrator.timer.start == now
      ensures !calibrator.posActive && !calibrator.angleActive
    {
      var r := gui.GetAsReal();
      playspace.SetCalib(r, maths.rotMat, maths.quatOf);
      framesSinceLastSeen := 0;
      station := playspace.GetStationPoseOVR();
      calibrator := new PC.Calibrator(now);
    }

    /** The first loop of `Update`: the first unit not seen last frame bumps
      * the counter. */
    method UpdateSearchWindow(units: seq<TU.TrackerUnit>, circularConfig: bool) returns (circular: bool)
      modifies this
      ensures Window(framesSinceLastSeen, circular) == WindowStep(old(framesSinceLastSeen), AnyLost(units), circularConfig)
      ensures station == old(station)
      ensures old(Valid()) ==> Valid()
    {
      circular := circularConfig;
      var i := 0;
      while i < |units|
        invariant 0 <= i <= |units|
        invariant framesSinceLastSeen == old(framesSinceLastSeen) && circular == circularConfig && station == old(station)
        invariant forall k :: 0 <= k < i ==> units[k].isFound
      {
        if !units[i].isFound {
          framesSinceLastSeen := framesSinceLastSeen + 1;
          if framesSinceLastSeen > FRAMES_TO_CHECK_ALL {
            circular := false;
          }
          break;
        }
        i := i + 1;
      }
      if !circular {
        framesSinceLastSeen := 0;
      }
    }

    /** The first half of `Update`: the search window is updated and every
      * unit with a driver sample is masked. */
    method MaskFrame(units: seq<TU.TrackerUnit>, samples: seq<DriverSample>, circularConfig: bool, radius: int,
                     cam: Camera, rot: Rotations, playspace: PlayspaceCalib)
      returns (masks: seq<MaskShape>, ghost masked: seq<UnitState>)
      requires Valid() && Distinct(units) && |samples| <= |units|
      modifies this, set u | u in units
      ensures Valid() && station == old(station)
      ensures var w := WindowStep(old(framesSinceLastSeen), old(AnyLost(units)), circularConfig);
        && framesSinceLastSeen == w.counter
        && masks == Shapes(old(States(units)), samples, InverseOf(playspace), cam, w.circular, radius)
      ensures masked == States(units) == MaskedAll(old(States(units)), samples, InverseOf(playspace), cam, rot)
    {
      ghost var w := WindowStep(framesSinceLastSeen, AnyLost(units), circularConfig);
      label Start:
      var circular := UpdateSearchWindow(units, circularConfig);
      StatesKept@Start(units);
      assert Valid() && framesSinceLastSeen == w.counter && circular == w.circular;
      masks := MaskUnits(units, samples, playspace, cam, rot, circular, radius);
      masked := States(units);
    }

    /** The manual calibrator's step within a frame, seen from the runner:
      * while it is enabled the playspace is reset from the stored calibration
      * and its station pose is sent; otherwise neither changes. */
    method Calibrate(button: PC.ButtonAction, ctrl: Pose, gui: MC.ManualCalib, playspace: PlayspaceCalib,
                     lockHeightCalib: bool, enabled: bool, now: int, maths: PC.Maths) returns (hideManual: bool)
      requires Valid() && gui.Valid() && PC.ValidMaths(maths) && Norm(ctrl.rotation) == 1.0
      modifies this, calibrator, calibrator.timer, gui, playspace
      ensures Valid() && gui.Valid() && framesSinceLastSeen == old(framesSinceLastSeen)
      ensures !enabled ==> unchanged(gui) && unchanged(playspace) && station == old(station) && !hideManual
      ensures enabled ==> playspace.Valid() && station == playspace.GetStationPoseOVR()
    {
      var st;
      hideManual, st := calibrator.Update(button, ctrl, gui, playspace, lockHeightCalib, enabled, now, maths);
      if st.Some? {
        station := st.value;
      }
    }

    /** `Update`: one camera frame. The masks come from the units' state at the
      * start of the frame (`masked` is their state once masked); the manual
      * calibrator runs between the two loops and leaves the playspace at
      * `transform` and `rotation`; the second loop then decides each unit and
      * collects the poses sent, which with multicam calibration off are moved
      * into the room by the playspace as it ends the frame. */
    method Update(units: seq<TU.TrackerUnit>, samples: seq<DriverSample>, estimates: seq<Estimate>,
                  circularConfig: bool, searchWindow: real, cfg: DetectConfig, lockHeightCalib: bool,
                  button: PC.ButtonAction, ctrl: Pose, now: int, frameTimeAfterDetect: real, latency: real,
                  cam: Camera, rot: Rotations, gui: MC.ManualCalib, playspace: PlayspaceCalib, maths: PC.Maths)
      returns (masks: seq<MaskShape>, hideManual: bool, sent: seq<Sent>,
               ghost masked: seq<UnitState>, ghost transform: Affine, ghost rotation: Quat)
      requires Valid() && Distinct(units) && |samples| <= |units| && |estimates| == |units|
      requires ValidCamera(cam) && gui.Valid() && PC.ValidMaths(maths) && Norm(ctrl.rotation) == 1.0
      modifies this, calibrator, calibrator.timer, gui, playspace, (set u | u in units)
      ensures Valid() && gui.Valid()
      ensures var w := WindowStep(old(framesSinceLastSeen), old(AnyLost(units)), circularConfig);
        && framesSinceLastSeen == w.counter
        && masks == Shapes(old(States(units)), samples, old(InverseOf(playspace)), cam, w.circular,
                           SearchRadius(cam.rows, searchWindow))
      ensures masked == MaskedAll(old(States(units)), samples, old(InverseOf(playspace)), cam, rot)
      ensures DetectedSoFar(masked, States(units), sent, |units|, estimates, cfg, cam, rot, transform, rotation)
      ensures Stamped(sent, -frameTimeAfterDetect - latency, cfg.smoothingFactor)
      ensures !cfg.multicamAutocalib ==> playspace.transform == transform && playspace.rotation == rotation
    {
      masks, masked := MaskFrame(units, samples, circularConfig, SearchRadius(cam.rows, searchWindow), cam, rot, playspace);
      label Masked:
      hideManual := Calibrate(button, ctrl, gui, playspace, lockHeightCalib, cfg.manualRecalibrate, now, maths);
      StatesKept@Masked(units);
      transform, rotation := playspace.transform, playspace.rotation;
      sent := DetectAll(units, estimates, cfg, cam, rot, gui, playspace, maths, -frameTimeAfterDetect - latency);
    }
  }
}
