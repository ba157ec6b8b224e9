/** The first version of the tracker (`AprilTagTrackers.cpp`): its start
  * buttons, the per-tracker windows of previous values smoothed by a moving
  * median, the growing list of mask centres (one per tracker, found from the
  * marker ids) and the shaping of the AprilTag detector's output into id,
  * centre and corner lists.
  *
  * The buttons' checks and popups are those of the newer loop, `TrackerLoop`;
  * the differences are stated in the contracts below. Image work, the
  * detector itself, pose estimation and the driver connection are outside
  * the model. */
module LegacyTracker {
  import opened Wrappers
  import TL = TrackerLoop
  import Median
  import Text
  import ML = MainLoop

  /** The number of marker ids each tracker owns in this version. */
  const MARKERS_PER_TRACKER: int := 45

  // ---------------------------------------------------------------------------
  // Start buttons
  // ---------------------------------------------------------------------------

  /** `Tracker`: the flags the buttons read and write. */
  class Tracker {
    var mainThreadRunning: bool
    var cameraRunning: bool
    var trackersCalibrated: bool

    /** Nothing running and no tracker calibration yet. */
    constructor ()
      ensures !mainThreadRunning && !cameraRunning && !trackersCalibrated
    {
      mainThreadRunning := false;
      cameraRunning := false;
      trackersCalibrated := false;
    }

    /** `StartCamera`: a toggle. Unlike the newer loop, stopping the camera
      * leaves the main thread's flag alone. */
    method StartCamera(isOpened: bool) returns (shown: Option<TL.Popup>, launched: Option<TL.Job>)
      modifies this
      ensures mainThreadRunning == old(mainThreadRunning) && trackersCalibrated == old(trackersCalibrated)
      ensures old(cameraRunning) ==> !cameraRunning && shown.None? && launched.None?
      ensures !old(cameraRunning) ==> cameraRunning == isOpened
      ensures !old(cameraRunning) ==> shown == (if isOpened then None else Some(TL.CameraStartError))
      ensures launched == (if !old(cameraRunning) && isOpened then Some(TL.CameraLoop) else None)
    {
      if cameraRunning {
        cameraRunning := false;
        return None, None;
      }
      if !isOpened {
        return Some(TL.CameraStartError), None;
      }
      cameraRunning := true;
      return None, Some(TL.CameraLoop);
    }

    /** `StartCameraCalib`: the toggle, then the chessboard calibration if
      * the camera runs. A stopped camera is not reported: the button silently
      * does nothing. */
    method StartCameraCalib() returns (launched: Option<TL.Job>)
      modifies this
      ensures cameraRunning == old(cameraRunning) && trackersCalibrated == old(trackersCalibrated)
      ensures old(mainThreadRunning) ==> !mainThreadRunning
      ensures !old(mainThreadRunning) ==> mainThreadRunning == cameraRunning
      ensures launched == (if mainThreadRunning then Some(TL.ChessboardCalibration) else None)
    {
      if mainThreadRunning {
        mainThreadRunning := false;
        return None;
      }
      if !cameraRunning {
        mainThreadRunning := false;
        return None;
      }
      mainThreadRunning := true;
      return Some(TL.ChessboardCalibration);
    }

    /** `StartTrackerCalib`: as in the newer loop. */
    method StartTrackerCalib(cameraCalibrated: bool) returns (shown: Option<TL.Popup>, launched: Option<TL.Job>)
      modifies this
      ensures cameraRunning == old(cameraRunning) && trackersCalibrated == old(trackersCalibrated)
      ensures old(mainThreadRunning) ==> !mainThreadRunning && shown.None? && launched.None?
      ensures !old(mainThreadRunning) ==>
                shown == TL.FirstFailure(TL.TrackerCalibChecks(TL.Readiness(cameraRunning, cameraCalibrated, false, false)))
      ensures !old(mainThreadRunning) ==> mainThreadRunning == shown.None?
      ensures launched == (if mainThreadRunning then Some(TL.TrackerCalibration) else None)
    {
      if mainThreadRunning {
        mainThreadRunning := false;
        return None, None;
      }
      if !cameraRunning {
        mainThreadRunning := false;
        return Some(TL.CameraNotRunning), None;
      }
      if !cameraCalibrated {
        mainThreadRunning := false;
        return Some(TL.CameraNotCalibrated), None;
      }
      mainThreadRunning := true;
      return None, Some(TL.TrackerCalibration);
    }

    /** `Start`: the same four checks in the same order as the newer loop, but
      * a missing driver connection is only reported: detection is launched
      * anyway. */
    method Start(cameraCalibrated: bool, connected: bool) returns (shown: Option<TL.Popup>, launched: Option<TL.Job>)
      modifies this
      ensures cameraRunning == old(cameraRunning) && trackersCalibrated == old(trackersCalibrated)
      ensures old(mainThreadRunning) ==> !mainThreadRunning && shown.None? && launched.None?
      ensures !old(mainThreadRunning) ==>
                shown == TL.FirstFailure(TL.StartChecks(TL.Readiness(cameraRunning, cameraCalibrated, trackersCalibrated, connected)))
      ensures !old(mainThreadRunning) ==>
                mainThreadRunning == TL.FirstFailure(TL.StartChecks(TL.Readiness(cameraRunning, cameraCalibrated, trackersCalibrated, true))).None?
      ensures launched == (if mainThreadRunning then Some(TL.Detection) else None)
    {
      TL.StartChecksOrder(TL.Readiness(cameraRunning, cameraCalibrated, trackersCalibrated, connected));
      TL.StartChecksOrder(TL.Readiness(cameraRunning, cameraCalibrated, trackersCalibrated, true));
      if mainThreadRunning {
        mainThreadRunning := false;
        return None, None;
      }
      if !cameraRunning {
        mainThreadRunning := false;
        return Some(TL.CameraNotRunning), None;
      }
      if !cameraCalibrated {
        mainThreadRunning := false;
        return Some(TL.CameraNotCalibrated), None;
      }
      if !trackersCalibrated {
        mainThreadRunning := false;
        return Some(TL.TrackersNotCalibrated), None;
      }
      shown := None;
      if !connected {
        shown := Some(TL.SteamVRNotConnected);
        mainThreadRunning := false;
      }
      mainThreadRunning := true;
      launched := Some(TL.Detection);
    }
  }

  /** With everything ready except the driver connection, the legacy button
    * reports the connection and still launches detection; the newer one
    * reports it and stays stopped. */
  lemma StartWithoutConnection(r: TL.Readiness)
    requires r.cameraRunning && r.cameraCalibrated && r.trackersCalibrated && !r.connected
    ensures TL.FirstFailure(TL.StartChecks(r)) == Some(TL.SteamVRNotConnected)
    ensures TL.FirstFailure(TL.StartChecks(r.(connected := true))).None?
  {
    TL.StartChecksOrder(r);
    TL.StartChecksOrder(r.(connected := true));
  }

  // ---------------------------------------------------------------------------
  // Windows of previous values, smoothed by the median
  // ---------------------------------------------------------------------------

  /** `n` zeros. */
  function Zeros(n: nat): (r: seq<real>)
    ensures |r| == n && forall k :: 0 <= k < n ==> r[k] == 0.0
  {
    if n == 0 then [] else Zeros(n - 1) + [0.0]
  }

  /** The windows at the start of the main loop: for each tracker, six
    * windows (three position and three rotation values) of `n` zeros each. */
  method InitialWindows(trackers: nat, n: int) returns (windows: seq<seq<seq<real>>>)
    ensures |windows| == trackers
    ensures forall k :: 0 <= k < trackers ==> |windows[k]| == 6
    ensures forall k, i :: 0 <= k < trackers && 0 <= i < 6 ==> windows[k][i] == Zeros(if n > 0 then n else 0)
  {
    windows := [];
    for k := 0 to trackers
      invariant |windows| == k
      invariant forall k' :: 0 <= k' < k ==> |windows[k']| == 6
      invariant forall k', i :: 0 <= k' < k && 0 <= i < 6 ==> windows[k'][i] == Zeros(if n > 0 then n else 0)
    {
      var vv: seq<seq<real>> := [];
      for i := 0 to 6
        invariant |vv| == i
        invariant forall i' :: 0 <= i' < i ==> vv[i'] == Zeros(if n > 0 then n else 0)
      {
        var v: seq<real> := [];
        var j := 0;
        while j < n
          invariant 0 <= j && (n > 0 ==> j <= n) && (n <= 0 ==> j == 0) && v == Zeros(j)
        {
          v := v + [0.0];
          j := j + 1;
        }
        vv := vv + [v];
      }
      windows := windows + [vv];
    }
  }

  /** A tracker whose board was not found: the oldest value of each of its
    * six windows goes. */
  method Missed(windows: seq<seq<real>>) returns (windows': seq<seq<real>>)
    requires |windows| == 6
    ensures |windows'| == 6
    ensures forall j :: 0 <= j < 6 ==> windows'[j] == TL.DroppedOldest(windows[j])
  {
    windows' := windows;
    for j := 0 to 6
      invariant |windows'| == 6
      invariant forall k :: 0 <= k < j ==> windows'[k] == TL.DroppedOldest(windows[k])
      invariant forall k :: j <= k < 6 ==> windows'[k] == windows[k]
    {
      if |windows'[j]| > 0 {
        windows' := windows'[j := windows'[j][1..]];
      }
    }
  }

  /** A tracker whose board was found: each of the six values goes into its
    * window, the window drops its oldest value if it outgrew `n`, and the
    * value used is the window's upper median. The size is compared with `n`
    * as a `size_t`, so a negative `n` never drops anything. A window that
    * would end up empty (a zero `n` on an empty window) is excluded: the
    * source then reads an empty vector. */
  method Found(windows: seq<seq<real>>, values: seq<real>, n: int) returns (windows': seq<seq<real>>, smoothed: seq<real>)
    requires |windows| == 6 && |values| == 6 && Text.INT_MIN <= n <= Text.INT_MAX
    requires forall j :: 0 <= j < 6 ==> n != 0 || |windows[j]| > 0
    ensures |windows'| == 6 && |smoothed| == 6
    ensures forall j :: 0 <= j < 6 ==> windows'[j] == TL.Pushed(windows[j], values[j], n)
    ensures forall j :: 0 <= j < 6 ==> |windows'[j]| > 0 && smoothed[j] == Median.UpperMedian(windows'[j])
  {
    windows' := windows;
    smoothed := values;
    for j := 0 to 6
      invariant |windows'| == 6 && |smoothed| == 6
      invariant forall k :: 0 <= k < j ==> windows'[k] == TL.Pushed(windows[k], values[k], n)
      invariant forall k :: 0 <= k < j ==> |windows'[k]| > 0 && smoothed[k] == Median.UpperMedian(windows'[k])
      invariant forall k :: j <= k < 6 ==> windows'[k] == windows[k] && smoothed[k] == values[k]
    {
      TL.PushedNewestLast(windows'[j], smoothed[j], n);
      windows' := windows'[j := windows'[j] + [smoothed[j]]];
      if |windows'[j]| > TL.AsSizeT(n) {
        windows' := windows'[j := windows'[j][1..]];
      }
      var valArray := Median.Sort(windows'[j]);
      Median.SortSorted(windows'[j]);
      smoothed := smoothed[j := valArray[|valArray| / 2]];
    }
  }

  /** Windows that start full stay full: every found frame keeps exactly `n`
    * values, the newest last. */
  lemma FullWindowStaysFull(w: seq<real>, v: real, n: int)
    requires 1 <= n <= Text.INT_MAX && |w| == n
    ensures |TL.Pushed(w, v, n)| == n
    ensures TL.Pushed(w, v, n) == w[1..] + [v]
  {
  }

  // ---------------------------------------------------------------------------
  // Mask centres
  // ---------------------------------------------------------------------------

  /** The list of centres after one detection of tracker `t` at `c`: grown
    * with copies of `c` until it covers `t`, then `c` stored at `t`. */
  function Place(centers: seq<ML.Point2>, t: nat, c: ML.Point2): (r: seq<ML.Point2>)
    ensures |r| == if t < |centers| then |centers| else t + 1
    ensures r[t] == c
    ensures forall k :: 0 <= k < |centers| && k != t ==> r[k] == centers[k]
    ensures forall k :: |centers| <= k < |r| ==> r[k] == c
    decreases t + 1 - |centers|
  {
    if t < |centers| then centers[t := c]
    else Place(centers + [c], t, c)
  }

  /** The centres after the first `i` detections. */
  function PlacedAll(centers: seq<ML.Point2>, ids: seq<int>, found: seq<ML.Point2>, i: nat): seq<ML.Point2>
    requires i <= |found| <= |ids|
    requires forall k :: 0 <= k < |ids| ==> ids[k] >= 0
  {
    if i == 0 then centers
    else Place(PlacedAll(centers, ids, found, i - 1), ids[i - 1] / MARKERS_PER_TRACKER, found[i - 1])
  }

  /** The mask-centre update of each frame: for each detection, the tracker
    * owning its id (`id / 45`) gets the detection's centre, the list growing
    * as needed. Marker ids are not negative. */
  method UpdateMaskCenters(centers: seq<ML.Point2>, ids: seq<int>, found: seq<ML.Point2>) returns (centers': seq<ML.Point2>)
    requires |found| <= |ids|
    requires forall k :: 0 <= k < |ids| ==> ids[k] >= 0
    ensures centers' == PlacedAll(centers, ids, found, |found|)
  {
    centers' := centers;
    for i := 0 to |found|
      invariant centers' == PlacedAll(centers, ids, found, i)
    {
      var tracker := ids[i] / MARKERS_PER_TRACKER;
      while tracker >= |centers'|
        invariant Place(centers', tracker, found[i]) == PlacedAll(centers, ids, found, i + 1)
        decreases tracker - |centers'|
      {
        centers' := centers' + [found[i]];
      }
      centers' := centers'[tracker := found[i]];
    }
  }

  /** The list only grows, covers every detected tracker, and is no longer
    * than the old list or the largest detected tracker plus one. */
  lemma {:induction false} PlacedAllLength(centers: seq<ML.Point2>, ids: seq<int>, found: seq<ML.Point2>, i: nat)
    requires i <= |found| <= |ids|
    requires forall k :: 0 <= k < |ids| ==> ids[k] >= 0
    ensures |PlacedAll(centers, ids, found, i)| >= |centers|
    ensures forall k :: 0 <= k < i ==> ids[k] / MARKERS_PER_TRACKER < |PlacedAll(centers, ids, found, i)|
    ensures |PlacedAll(centers, ids, found, i)| == |centers|
            || exists k :: 0 <= k < i && |PlacedAll(centers, ids, found, i)| == ids[k] / MARKERS_PER_TRACKER + 1
  {
    if i > 0 {
      PlacedAllLength(centers, ids, found, i - 1);
    }
  }

  /** Each tracker's slot holds the centre of its latest detection. */
  lemma {:induction false} PlacedAllLatest(centers: seq<ML.Point2>, ids: seq<int>, found: seq<ML.Point2>, i: nat, k: nat)
    requires i <= |found| <= |ids|
    requires forall j :: 0 <= j < |ids| ==> ids[j] >= 0
    requires k < i && forall j :: k < j < i ==> ids[j] / MARKERS_PER_TRACKER != ids[k] / MARKERS_PER_TRACKER
    ensures ids[k] / MARKERS_PER_TRACKER < |PlacedAll(centers, ids, found, i)|
    ensures PlacedAll(centers, ids, found, i)[ids[k] / MARKERS_PER_TRACKER] == found[k]
  {
    PlacedAllLength(centers, ids, found, i);
    if k < i - 1 {
      PlacedAllLatest(centers, ids, found, i - 1, k);
    }
  }

  /** A tracker with no detection keeps its old centre. */
  lemma {:induction false} PlacedAllUntouched(centers: seq<ML.Point2>, ids: seq<int>, found: seq<ML.Point2>, i: nat, t: nat)
    requires i <= |found| <= |ids|
    requires forall j :: 0 <= j < |ids| ==> ids[j] >= 0
    requires t < |centers| && forall j :: 0 <= j < i ==> ids[j] / MARKERS_PER_TRACKER != t
    ensures t < |PlacedAll(centers, ids, found, i)| && PlacedAll(centers, ids, found, i)[t] == centers[t]
  {
    if i > 0 {
      PlacedAllUntouched(centers, ids, found, i - 1, t);
      PlacedAllLength(centers, ids, found, i - 1);
    }
  }

  // ---------------------------------------------------------------------------
  // Detector output
  // ---------------------------------------------------------------------------

  /** One AprilTag detection: its id, its centre and its four corners. */
  datatype Detection = Detection(id: int, center: ML.Point2, corners: seq<ML.Point2>)

  function Reverse<T>(s: seq<T>): (r: seq<T>)
    ensures |r| == |s|
    ensures forall k :: 0 <= k < |s| ==> r[k] == s[|s| - 1 - k]
  {
    if |s| == 0 then [] else Reverse(s[1..]) + [s[0]]
  }

  /** The inner loop: the four corners from the last to the first. */
  method ReversedCorners(p: seq<ML.Point2>) returns (temp: seq<ML.Point2>)
    requires |p| == 4
    ensures temp == Reverse(p)
  {
    temp := [];
    var j := 3;
    while j >= 0
      invariant -1 <= j <= 3 && |temp| == 3 - j
      invariant forall k :: 0 <= k < |temp| ==> temp[k] == p[3 - k]
    {
      temp := temp + [p[j]];
      j := j - 1;
    }
    assert forall k :: 0 <= k < 4 ==> temp[k] == Reverse(p)[k];
  }

  /** `detectMarkersApriltag`: the three output lists are cleared and then
    * get one entry per detection, in the detector's order; the corners are
    * taken from the last to the first. */
  method DetectMarkersApriltag(detections: seq<Detection>)
    returns (corners: seq<seq<ML.Point2>>, ids: seq<int>, centers: seq<ML.Point2>)
    requires forall i :: 0 <= i < |detections| ==> |detections[i].corners| == 4
    ensures |corners| == |ids| == |centers| == |detections|
    ensures forall i :: 0 <= i < |detections| ==> ids[i] == detections[i].id && centers[i] == detections[i].center
    ensures forall i :: 0 <= i < |detections| ==> corners[i] == Reverse(detections[i].corners)
  {
    corners, ids, centers := [], [], [];
    for i := 0 to |detections|
      invariant |corners| == |ids| == |centers| == i
      invariant forall k :: 0 <= k < i ==> ids[k] == detections[k].id && centers[k] == detections[k].center
      invariant forall k :: 0 <= k < i ==> corners[k] == Reverse(detections[k].corners)
    {
      var det := detections[i];
      ids := ids + [det.id];
      centers := centers + [det.center];
      var temp := ReversedCorners(det.corners);
      corners := corners + [temp];
    }
  }
}
