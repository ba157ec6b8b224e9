/** The tracker's control logic in `Tracker.cpp`: the start buttons and the
  * checks they make before launching a worker thread, the camera rotation
  * chosen from the two flags, which marker ids belong to which tracker, the
  * per-tracker windows of previous values, the pruning of the worst view
  * during camera calibration, and the clamps on the calibration scale, the
  * camera's pitch and the smoothing factor.
  *
  * Threads are represented by the job a start button launches; the GUI by
  * the error popup a button shows. Image work, pose estimation and the
  * OpenCV calibration routines are outside the model. */
module TrackerLoop {
  import opened Wrappers
  import V = Validated
  import Text

  // ---------------------------------------------------------------------------
  // Start buttons
  // ---------------------------------------------------------------------------

  /** The error popups the start buttons can show. */
  datatype Popup = CameraStartError | CameraNotRunning | CameraNotCalibrated | TrackersNotCalibrated | SteamVRNotConnected

  /** The worker a start button launches. */
  datatype Job = CameraLoop | CharucoCalibration | ChessboardCalibration | TrackerCalibration | Detection

  /** What the buttons check: the camera thread, the camera matrix, the
    * tracker calibration and the driver connection. */
  datatype Readiness = Readiness(cameraRunning: bool, cameraCalibrated: bool, trackersCalibrated: bool, connected: bool)

  /** The popup of the first failing check, in the order given; `None` when all
    * checks pass. */
  function FirstFailure(checks: seq<(bool, Popup)>): (r: Option<Popup>)
    ensures r.None? <==> forall k :: 0 <= k < |checks| ==> checks[k].0
    ensures r.Some? ==> exists k :: 0 <= k < |checks| && !checks[k].0 && checks[k].1 == r.value
                                   && forall j :: 0 <= j < k ==> checks[j].0
  {
    if |checks| == 0 then None
    else if !checks[0].0 then Some(checks[0].1)
    else
      var rest := FirstFailure(checks[1..]);
      assert forall k :: 1 <= k < |checks| ==> checks[k] == checks[1..][k - 1];
      rest
  }

  /** The camera calibration needs the camera running. */
  function CameraCalibChecks(r: Readiness): seq<(bool, Popup)>
  {
    [(r.cameraRunning, CameraNotRunning)]
  }

  /** The tracker calibration also needs the camera calibrated. */
  function TrackerCalibChecks(r: Readiness): seq<(bool, Popup)>
  {
    CameraCalibChecks(r) + [(r.cameraCalibrated, CameraNotCalibrated)]
  }

  /** Detection also needs calibrated trackers and a connected driver. */
  function StartChecks(r: Readiness): seq<(bool, Popup)>
  {
    TrackerCalibChecks(r) + [(r.trackersCalibrated, TrackersNotCalibrated), (r.connected, SteamVRNotConnected)]
  }

  /** Checks appended after a failing check are never reached; after passing
    * checks, the appended ones decide. */
  lemma {:induction false} FirstFailureAppend(a: seq<(bool, Popup)>, b: seq<(bool, Popup)>)
    ensures FirstFailure(a).Some? ==> FirstFailure(a + b) == FirstFailure(a)
    ensures FirstFailure(a).None? ==> FirstFailure(a + b) == FirstFailure(b)
  {
    if |a| > 0 {
      assert (a + b)[0] == a[0];
      assert (a + b)[1..] == a[1..] + b;
      FirstFailureAppend(a[1..], b);
    } else {
      assert a + b == b;
    }
  }

  /** Whatever stops the tracker calibration stops detection with the same
    * popup, and whatever stops the camera calibration stops both. */
  lemma StartRefusesLikeCalibration(r: Readiness)
    ensures FirstFailure(CameraCalibChecks(r)).Some? ==> FirstFailure(TrackerCalibChecks(r)) == FirstFailure(CameraCalibChecks(r))
    ensures FirstFailure(TrackerCalibChecks(r)).Some? ==> FirstFailure(StartChecks(r)) == FirstFailure(TrackerCalibChecks(r))
  {
    FirstFailureAppend(CameraCalibChecks(r), [(r.cameraCalibrated, CameraNotCalibrated)]);
    FirstFailureAppend(TrackerCalibChecks(r), [(r.trackersCalibrated, TrackersNotCalibrated), (r.connected, SteamVRNotConnected)]);
  }

  /** Detection launches only when all four conditions hold, and a stopped
    * camera is reported before anything else. */
  lemma StartChecksOrder(r: Readiness)
    ensures FirstFailure(StartChecks(r)).None? <==> r.cameraRunning && r.cameraCalibrated && r.trackersCalibrated && r.connected
    ensures !r.cameraRunning ==> FirstFailure(StartChecks(r)) == Some(CameraNotRunning)
    ensures r.cameraRunning && !r.cameraCalibrated ==> FirstFailure(StartChecks(r)) == Some(CameraNotCalibrated)
    ensures r.cameraRunning && r.cameraCalibrated && !r.trackersCalibrated ==> FirstFailure(StartChecks(r)) == Some(TrackersNotCalibrated)
    ensures r.cameraRunning && r.cameraCalibrated && r.trackersCalibrated && !r.connected ==>
              FirstFailure(StartChecks(r)) == Some(SteamVRNotConnected)
  {
    var c := StartChecks(r);
    assert c[0].0 == r.cameraRunning && c[1].0 == r.cameraCalibrated && c[2].0 == r.trackersCalibrated && c[3].0 == r.connected;
  }

  /** `Tracker`: the flags the buttons read and write, and the calibration scale. */
  class Tracker {
    var mainThreadRunning: bool
    var cameraRunning: bool
    var trackersCalibrated: bool
    var calibScale: real

    /** The trackers count as calibrated when the saved calibration holds any;
      * the scale starts at the user's setting. */
    constructor (savedTrackers: nat, userCalibScale: real)
      ensures !mainThreadRunning && !cameraRunning
      ensures trackersCalibrated == (savedTrackers > 0) && calibScale == userCalibScale
    {
      mainThreadRunning := false;
      cameraRunning := false;
      trackersCalibrated := savedTrackers > 0;
      calibScale := userCalibScale;
    }

    /** `StartCamera`: a toggle. A running camera is stopped, and the main
      * thread with it; otherwise the camera loop starts if the capture opened,
      * and an error is shown if it did not. */
    method StartCamera(isOpened: bool) returns (shown: Option<Popup>, launched: Option<Job>)
      modifies this
      ensures trackersCalibrated == old(trackersCalibrated) && calibScale == old(calibScale)
      ensures old(cameraRunning) ==> !cameraRunning && !mainThreadRunning && shown.None? && launched.None?
      ensures !old(cameraRunning) ==> mainThreadRunning == old(mainThreadRunning)
      ensures !old(cameraRunning) ==> cameraRunning == isOpened
      ensures !old(cameraRunning) ==> shown == (if isOpened then None else Some(CameraStartError))
      ensures launched == (if !old(cameraRunning) && isOpened then Some(CameraLoop) else None)
    {
      if cameraRunning {
        cameraRunning := false;
        mainThreadRunning := false;
        return None, None;
      }
      if !isOpened {
        return Some(CameraStartError), None;
      }
      cameraRunning := true;
      return None, Some(CameraLoop);
    }

    /** `StartCameraCalib`: a toggle that stops a running main thread, else
      * checks the camera and launches the ChArUco or the chessboard
      * calibration. */
    method StartCameraCalib(chessboard: bool) returns (shown: Option<Popup>, launched: Option<Job>)
      modifies this
      ensures cameraRunning == old(cameraRunning) && trackersCalibrated == old(trackersCalibrated) && calibScale == old(calibScale)
      ensures old(mainThreadRunning) ==> !mainThreadRunning && shown.None? && launched.None?
      ensures !old(mainThreadRunning) ==> shown == FirstFailure(CameraCalibChecks(Readiness(cameraRunning, false, false, false)))
      ensures !old(mainThreadRunning) ==> mainThreadRunning == shown.None?
      ensures launched == (if !mainThreadRunning then None else if chessboard then Some(ChessboardCalibration) else Some(CharucoCalibration))
    {
      if mainThreadRunning {
        mainThreadRunning := false;
        return None, None;
      }
      if !cameraRunning {
        mainThreadRunning := false;
        return Some(CameraNotRunning), None;
      }
      mainThreadRunning := true;
      if !chessboard {
        launched := Some(CharucoCalibration);
      } else {
        launched := Some(ChessboardCalibration);
      }
      shown := None;
    }

    /** `StartTrackerCalib`: the same toggle, checking the camera and its
      * calibration before launching the tracker calibration. */
    method StartTrackerCalib(cameraCalibrated: bool) returns (shown: Option<Popup>, launched: Option<Job>)
      modifies this
      ensures cameraRunning == old(cameraRunning) && trackersCalibrated == old(trackersCalibrated) && calibScale == old(calibScale)
      ensures old(mainThreadRunning) ==> !mainThreadRunning && shown.None? && launched.None?
      ensures !old(mainThreadRunning) ==> shown == FirstFailure(TrackerCalibChecks(Readiness(cameraRunning, cameraCalibrated, false, false)))
      ensures !old(mainThreadRunning) ==> mainThreadRunning == shown.None?
      ensures launched == (if mainThreadRunning then Some(TrackerCalibration) else None)
    {
      if mainThreadRunning {
        mainThreadRunning := false;
        return None, None;
      }
      if !cameraRunning {
        mainThreadRunning := false;
        return Some(CameraNotRunning), None;
      }
      if !cameraCalibrated {
        mainThreadRunning := false;
        return Some(CameraNotCalibrated), None;
      }
      mainThreadRunning := true;
      return None, Some(TrackerCalibration);
    }

    /** `Start`: the same toggle, checking the camera, its calibration, the
      * trackers' calibration and the driver connection, in that order. */
    method Start(cameraCalibrated: bool, connected: bool) returns (shown: Option<Popup>, launched: Option<Job>)
      modifies this
      ensures cameraRunning == old(cameraRunning) && trackersCalibrated == old(trackersCalibrated) && calibScale == old(calibScale)
      ensures old(mainThreadRunning) ==> !mainThreadRunning && shown.None? && launched.None?
      ensures !old(mainThreadRunning) ==>
                shown == FirstFailure(StartChecks(Readiness(cameraRunning, cameraCalibrated, trackersCalibrated, connected)))
      ensures !old(mainThreadRunning) ==> mainThreadRunning == shown.None?
      ensures launched == (if mainThreadRunning then Some(Detection) else None)
    {
      StartChecksOrder(Readiness(cameraRunning, cameraCalibrated, trackersCalibrated, connected));
      if mainThreadRunning {
        mainThreadRunning := false;
        return None, None;
      }
      if !cameraRunning {
        mainThreadRunning := false;
        return Some(CameraNotRunning), None;
      }
      if !cameraCalibrated {
        mainThreadRunning := false;
        return Some(CameraNotCalibrated), None;
      }
      if !trackersCalibrated {
        mainThreadRunning := false;
        return Some(TrackersNotCalibrated), None;
      }
      if !connected {
        mainThreadRunning := false;
        return Some(SteamVRNotConnected), None;
      }
      mainThreadRunning := true;
      return None, Some(Detection);
    }

    /** The multicam refinement of the scale: a tenth of the relative error
      * between the driver's distance from the camera and the estimate's, then
      * clamped. The source divides unguarded; a zero distance is excluded. */
    method RefineScale(length: real, driverLength: real)
      requires length != 0.0
      modifies this
      ensures mainThreadRunning == old(mainThreadRunning) && cameraRunning == old(cameraRunning)
      ensures trackersCalibrated == old(trackersCalibrated)
      ensures calibScale == ClampCalibScale(old(calibScale) - 0.1 * (1.0 - driverLength / length))
    {
      calibScale := calibScale - 0.1 * (1.0 - driverLength / length);
      if calibScale > 1.2 {
        calibScale := 1.2;
      } else if calibScale < 0.8 {
        calibScale := 0.8;
      }
    }
  }

  /** Once the estimate's distance agrees with the driver's, refinement leaves
    * an in-range scale where it is. */
  lemma RefineScaleFixedPoint(scale: real, length: real)
    requires length != 0.0 && 0.8 <= scale <= 1.2
    ensures ClampCalibScale(scale - 0.1 * (1.0 - length / length)) == scale
  {
  }

  // ---------------------------------------------------------------------------
  // Camera rotation
  // ---------------------------------------------------------------------------

  datatype Rotation = Rotate180 | Rotate90Clockwise | Rotate90CounterClockwise

  /** The rotation the camera loop applies to each frame, from the clockwise
    * and counter-clockwise settings. */
  function RotationOf(clockwise: bool, counterClockwise: bool): (r: Option<Rotation>)
    ensures r.None? <==> !clockwise && !counterClockwise
    ensures r == Some(Rotate180) <==> clockwise && counterClockwise
    ensures r == Some(Rotate90Clockwise) <==> clockwise && !counterClockwise
    ensures r == Some(Rotate90CounterClockwise) <==> !clockwise && counterClockwise
  {
    if clockwise && counterClockwise then Some(Rotate180)
    else if clockwise then Some(Rotate90Clockwise)
    else if counterClockwise then Some(Rotate90CounterClockwise)
    else None
  }

  /** Quarter turns clockwise. */
  function QuarterTurns(r: Option<Rotation>): int
  {
    match r
    case None => 0
    case Some(Rotate90Clockwise) => 1
    case Some(Rotate180) => 2
    case Some(Rotate90CounterClockwise) => 3
  }

  /** Clockwise counts as one quarter turn and counter-clockwise as three;
    * with both flags set the frame turns by half, not by their sum. */
  lemma RotationTurns(clockwise: bool, counterClockwise: bool)
    ensures !(clockwise && counterClockwise) ==>
              QuarterTurns(RotationOf(clockwise, counterClockwise))
              == ((if clockwise then 1 else 0) + (if counterClockwise then 3 else 0)) % 4
    ensures clockwise && counterClockwise ==> QuarterTurns(RotationOf(clockwise, counterClockwise)) == 2
  {
  }

  // ---------------------------------------------------------------------------
  // Marker ranges
  // ---------------------------------------------------------------------------

  /** A marker belongs to tracker `i` when its id lies in the `i`-th block of
    * `markersPerTracker` ids. */
  predicate BelongsTo(id: int, i: int, markersPerTracker: int)
  {
    i * markersPerTracker <= id < (i + 1) * markersPerTracker
  }

  lemma MulLeftMono(a: int, b: int, m: int)
    requires m > 0 && a <= b
    ensures a * m <= b * m
  {
  }

  /** The tracker of an id is the id's block number: each id belongs to
    * exactly one tracker. */
  lemma BelongsToBlock(id: int, i: int, m: int)
    requires m > 0
    ensures BelongsTo(id, i, m) <==> i == id / m
  {
    var q := id / m;
    assert q * m <= id < (q + 1) * m;
    if BelongsTo(id, i, m) && i != q {
      if i < q {
        MulLeftMono(i + 1, q, m);
      } else {
        MulLeftMono(q + 1, i, m);
      }
      assert false;
    }
  }

  // ---------------------------------------------------------------------------
  // Windows of previous values
  // ---------------------------------------------------------------------------

  /** The `int` bound as the `size_t` it is compared with: a negative bound
    * wraps to a value near 2^64. */
  function AsSizeT(n: int): (r: nat)
    ensures 0 <= n < 0x1_0000_0000_0000_0000 ==> r == n
    ensures -0x1_0000_0000_0000_0000 <= n < 0 ==> r == n + 0x1_0000_0000_0000_0000
  {
    n % 0x1_0000_0000_0000_0000
  }

  /** One window after a detection: the value appended, then the oldest
    * dropped if the window's size exceeds `n` taken as a `size_t`. */
  function Pushed(w: seq<real>, v: real, n: int): seq<real>
  {
    var a := w + [v];
    if |a| > AsSizeT(n) then a[1..] else a
  }

  /** The pushed window is empty only when an empty window meets a zero bound,
    * and otherwise ends with the pushed value. */
  lemma PushedNewestLast(w: seq<real>, v: real, n: int)
    requires Text.INT_MIN <= n <= Text.INT_MAX
    ensures Pushed(w, v, n) == [] <==> (w == [] && n == 0)
    ensures Pushed(w, v, n) != [] ==> Pushed(w, v, n)[|Pushed(w, v, n)| - 1] == v
  {
  }

  /** A negative bound never drops anything: it wraps to a size no window
    * reaches, so the window only grows. */
  lemma NegativeBoundKeepsAll(w: seq<real>, v: real, n: int)
    requires Text.INT_MIN <= n < 0 && |w| < 0x8000_0000_0000_0000
    ensures Pushed(w, v, n) == w + [v]
  {
  }

  /** One window after a missed detection: the oldest value dropped, if any. */
  function DroppedOldest(w: seq<real>): (r: seq<real>)
    ensures |w| > 0 ==> w == [w[0]] + r
    ensures |w| == 0 ==> r == []
  {
    if |w| > 0 then w[1..] else w
  }

  /** The `n` latest values of `s`, or all of them. */
  function Latest(s: seq<real>, n: nat): (r: seq<real>)
    ensures |r| == if |s| < n then |s| else n
  {
    if |s| <= n then s else s[|s| - n..]
  }

  /** A window within its bound keeps the `n` latest values with the new one
    * last. */
  lemma PushedKeepsLatest(w: seq<real>, v: real, n: int)
    requires 1 <= n <= Text.INT_MAX && |w| <= n
    ensures Pushed(w, v, n) == Latest(w + [v], n)
    ensures |Pushed(w, v, n)| <= n
    ensures Pushed(w, v, n)[|Pushed(w, v, n)| - 1] == v
  {
  }

  /** `TrackerStatus`: whether the board was found, and the windows of
    * previous position and rotation values (three of each). */
  class TrackerStatus {
    var boardFound: bool
    var prevLocValues: seq<seq<real>>

    /** The windows all hold at most `n` values; seven are allocated, and the
      * loop uses the first six. */
    predicate Bounded(n: int)
      reads this
    {
      |prevLocValues| == 7 && forall j :: 0 <= j < 7 ==> |prevLocValues[j]| <= n
    }

    /** Not found, with seven empty windows. */
    constructor ()
      ensures !boardFound
      ensures |prevLocValues| == 7 && forall j :: 0 <= j < 7 ==> prevLocValues[j] == []
      ensures forall n :: n >= 0 ==> Bounded(n)
    {
      boardFound := false;
      prevLocValues := [[], [], [], [], [], [], []];
    }

    /** A board not found this frame: the oldest value of each of the six
      * windows in use goes, and the board is marked lost. */
    method Missed()
      requires |prevLocValues| == 7
      modifies this
      ensures !boardFound && |prevLocValues| == 7
      ensures forall j :: 0 <= j < 6 ==> prevLocValues[j] == DroppedOldest(old(prevLocValues[j]))
      ensures prevLocValues[6] == old(prevLocValues[6])
      ensures forall n :: old(Bounded(n)) ==> Bounded(n)
    {
      for j := 0 to 6
        invariant |prevLocValues| == 7
        invariant forall k :: 0 <= k < j ==> prevLocValues[k] == DroppedOldest(old(prevLocValues[k]))
        invariant forall k :: j <= k < 7 ==> prevLocValues[k] == old(prevLocValues[k])
      {
        if |prevLocValues[j]| > 0 {
          prevLocValues := prevLocValues[j := prevLocValues[j][1..]];
        }
      }
      boardFound := false;
    }

    /** A board found this frame: the six values go into their windows and the
      * newest of each window is what is sent, so the values pass through
      * unsmoothed. A zero bound on an empty window is excluded: the window
      * ends up empty and the source reads before its start. */
    method Found(values: seq<real>, n: int) returns (sent: seq<real>)
      requires |values| == 6 && Text.INT_MIN <= n <= Text.INT_MAX && |prevLocValues| == 7
      requires forall j :: 0 <= j < 6 ==> n != 0 || prevLocValues[j] != []
      modifies this
      ensures boardFound == old(boardFound) && |prevLocValues| == 7
      ensures forall j :: 0 <= j < 6 ==> prevLocValues[j] == Pushed(old(prevLocValues[j]), values[j], n)
      ensures prevLocValues[6] == old(prevLocValues[6])
      ensures old(Bounded(n)) ==> Bounded(n)
      ensures sent == values
    {
      var posValues := values;
      for j := 0 to 6
        invariant boardFound == old(boardFound)
        invariant |prevLocValues| == 7 && |posValues| == 6
        invariant forall k :: 0 <= k < j ==> prevLocValues[k] == Pushed(old(prevLocValues[k]), values[k], n)
        invariant forall k :: j <= k < 7 ==> prevLocValues[k] == old(prevLocValues[k])
        invariant forall k :: 0 <= k < 6 ==> posValues[k] == values[k]
      {
        PushedNewestLast(prevLocValues[j], posValues[j], n);
        prevLocValues := prevLocValues[j := prevLocValues[j] + [posValues[j]]];
        if |prevLocValues[j]| > AsSizeT(n) {
          prevLocValues := prevLocValues[j := prevLocValues[j][1..]];
        }
        var valArray := prevLocValues[j];
        posValues := posValues[j := valArray[|valArray| - 1]];
      }
      sent := posValues;
      forall k | 0 <= k < 6 && old(Bounded(n))
        ensures |prevLocValues[k]| <= n
      {
        PushedKeepsLatest(old(prevLocValues[k]), values[k], n);
      }
    }
  }

  // ---------------------------------------------------------------------------
  // Camera calibration: pruning the worst view
  // ---------------------------------------------------------------------------

  /** `i` holds the largest error, and every earlier error is smaller. */
  predicate IsFirstMax(errors: seq<real>, i: int)
  {
    0 <= i < |errors| && (forall k :: 0 <= k < |errors| ==> errors[k] <= errors[i])
    && forall k :: 0 <= k < i ==> errors[k] < errors[i]
  }

  /** The first maximum is unique. */
  lemma FirstMaxUnique(errors: seq<real>, i: int, j: int)
    requires IsFirstMax(errors, i) && IsFirstMax(errors, j)
    ensures i == j
  {
    assert errors[i] <= errors[j] && errors[j] <= errors[i];
  }

  /** The list without its element at `i`. */
  function RemoveAt<T>(s: seq<T>, i: int): (r: seq<T>)
    requires 0 <= i < |s|
    ensures |r| == |s| - 1
    ensures forall k :: 0 <= k < i ==> r[k] == s[k]
    ensures forall k :: i <= k < |r| ==> r[k] == s[k + 1]
  {
    s[..i] + s[i + 1..]
  }

  /** The scan for the largest per-view error, starting from 0 and keeping
    * the first of equal maxima. */
  method WorstView(errors: seq<real>) returns (maxError: real, index: int)
    ensures maxError >= 0.0
    ensures forall k :: 0 <= k < |errors| ==> errors[k] <= maxError
    ensures maxError > 0.0 ==> IsFirstMax(errors, index) && errors[index] == maxError
    ensures maxError == 0.0 ==> index == 0
  {
    maxError, index := 0.0, 0;
    for i := 0 to |errors|
      invariant maxError >= 0.0
      invariant forall k :: 0 <= k < i ==> errors[k] <= maxError
      invariant maxError > 0.0 ==> 0 <= index < i && errors[index] == maxError
      invariant maxError > 0.0 ==> forall k :: 0 <= k < index ==> errors[k] < maxError
      invariant maxError == 0.0 ==> index == 0
    {
      if errors[i] > maxError {
        maxError := errors[i];
        index := i;
      }
    }
  }

  /** With more than ten views, the view with the largest error is dropped
    * from all three lists when that error exceeds one pixel; the camera is
    * then recalibrated (`recalibrate` gives the new per-view errors) and one
    * picture fewer counts as taken. The errors can be fewer than the views:
    * there are none before the third picture, and a calibration that threw
    * leaves those of the one before. */
  method PruneWorstView<C, I>(errors: seq<real>, corners: seq<C>, ids: seq<I>, picsTaken: int,
                              recalibrate: (seq<C>, seq<I>) -> seq<real>)
    returns (errors': seq<real>, corners': seq<C>, ids': seq<I>, picsTaken': int)
    requires |errors| <= |corners| == |ids|
    ensures |corners'| == |ids'|
    ensures (|errors| <= 10 || forall k :: 0 <= k < |errors| ==> errors[k] <= 1.0) ==>
              errors' == errors && corners' == corners && ids' == ids && picsTaken' == picsTaken
    ensures (|errors| > 10 && exists k :: 0 <= k < |errors| && errors[k] > 1.0) ==>
              exists i :: IsFirstMax(errors, i) && corners' == RemoveAt(corners, i) && ids' == RemoveAt(ids, i)
                          && errors' == recalibrate(corners', ids') && picsTaken' == picsTaken - 1
  {
    errors', corners', ids', picsTaken' := errors, corners, ids, picsTaken;
    if |errors| > 10 {
      var maxError, index := WorstView(errors);
      if maxError > 1.0 {
        corners' := RemoveAt(corners, index);
        ids' := RemoveAt(ids, index);
        errors' := recalibrate(corners', ids');
        picsTaken' := picsTaken - 1;
      }
    }
  }

  // ---------------------------------------------------------------------------
  // Clamps
  // ---------------------------------------------------------------------------

  /** The calibration scale is kept within 20% of one. */
  function ClampCalibScale(s: real): (r: real)
    ensures r == V.Clamp(0.8, 1.2, s)
  {
    if s > 1.2 then 1.2 else if s < 0.8 then 0.8 else s
  }

  /** The camera's pitch is kept between looking straight down (90) and
    * straight up (270), so the camera is never upside down. */
  function ClampAngleA(a: real): (r: real)
    ensures r == V.Clamp(90.0, 270.0, a)
  {
    if a < 90.0 then 90.0 else if a > 270.0 then 270.0 else a
  }

  /** The smoothing factor sent to the driver: negative values become 0 and
    * values of 1 or more become 0.99; values in between pass unchanged. */
  function SmoothingFactor(f: real): (r: real)
    ensures 0.0 <= r < 1.0
    ensures 0.0 <= f < 1.0 <==> r == f
    ensures r == f || r == 0.0 || r == 0.99
  {
    if f < 0.0 then 0.0 else if f >= 1.0 then 0.99 else f
  }
}
