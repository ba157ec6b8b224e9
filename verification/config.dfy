/** The user, calibration and ArUco configuration files: each field's default and,
  * for validated fields, the rule that every assignment or read applies. Lists are
  * represented by their element counts; file locations are not modelled. */
module Config {
  import opened Validated
  import MC = ManualCalib
  import Helpers

  /** `UserConfig`, field by field. */
  datatype UserConfig = UserConfig(
    windowTitle: string,
    langCode: string,
    trackerNum: int,
    markerSize: real,
    numOfPrevValues: int,
    usePredictive: bool,
    ignoreTracker0: bool,
    coloredMarkers: bool,
    manualCalib: MC.Stored,
    chessboardCalib: bool,
    smoothingFactor: real,
    circularMarkers: bool,
    trackerCalibDistance: real,
    cameraCalibSamples: int,
    trackerCalibCenters: bool,
    depthSmoothing: real,
    additionalSmoothing: real,
    markerLibrary: int,
    markersPerTracker: int,
    disableOpenVrApi: bool,
    apriltagThreadCount: int,
    videoStreams: nat,
    trackers: nat,
    detectorThreads: int)

  /** Every validated field satisfies its rule. */
  predicate WithinRules(c: UserConfig)
  {
    c.markerSize >= 0.01
    && 0.0 <= c.smoothingFactor <= 1.0
    && c.trackerCalibDistance >= 0.5
    && c.cameraCalibSamples >= 15
    && 0.0 <= c.depthSmoothing <= 1.0
    && c.markersPerTracker >= 1
    && 1 <= c.apriltagThreadCount <= 32
    && c.detectorThreads >= 1
    && MC.ValidStored(c.manualCalib)
  }

  /** The default user configuration. */
  function DefaultUserConfig(): (c: UserConfig)
    ensures WithinRules(c)
    ensures c.trackers == 3 && c.videoStreams == 1
    ensures c.markerSize == 5.0 && c.smoothingFactor == 0.5 && c.markersPerTracker == 45
  {
    UserConfig(
      windowTitle := "",
      langCode := "en",
      trackerNum := 3,
      markerSize := 5.0,
      numOfPrevValues := 5,
      usePredictive := true,
      ignoreTracker0 := false,
      coloredMarkers := true,
      manualCalib := MC.Stored(Helpers.Zero, Helpers.Zero, 100.0),
      chessboardCalib := false,
      smoothingFactor := 0.5,
      circularMarkers := false,
      trackerCalibDistance := 0.5,
      cameraCalibSamples := 15,
      trackerCalibCenters := false,
      depthSmoothing := 0.0,
      additionalSmoothing := 0.0,
      markerLibrary := 0,
      markersPerTracker := 45,
      disableOpenVrApi := false,
      apriltagThreadCount := 4,
      videoStreams := 1,
      trackers := 3,
      detectorThreads := 4)
  }

  /** Reading a user configuration: every validated field goes through its rule. */
  function Validate(c: UserConfig): (r: UserConfig)
    ensures WithinRules(r)
    ensures r.markerSize == GreaterEqual(0.01, c.markerSize)
    ensures r.smoothingFactor == Clamp(0.0, 1.0, c.smoothingFactor)
    ensures r.apriltagThreadCount == ClampInt(1, 32, c.apriltagThreadCount)
    ensures r.trackerNum == c.trackerNum && r.langCode == c.langCode && r.trackers == c.trackers
  {
    c.(markerSize := GreaterEqual(0.01, c.markerSize),
       smoothingFactor := Clamp(0.0, 1.0, c.smoothingFactor),
       trackerCalibDistance := GreaterEqual(0.5, c.trackerCalibDistance),
       cameraCalibSamples := GreaterEqualInt(15, c.cameraCalibSamples),
       depthSmoothing := Clamp(0.0, 1.0, c.depthSmoothing),
       markersPerTracker := GreaterEqualInt(1, c.markersPerTracker),
       apriltagThreadCount := ClampInt(1, 32, c.apriltagThreadCount),
       detectorThreads := GreaterEqualInt(1, c.detectorThreads),
       manualCalib := c.manualCalib.(scale := MC.ScaleRule(c.manualCalib.scale)))
  }

  /** Validation changes nothing exactly when every rule already holds. */
  lemma ValidateFixesValid(c: UserConfig)
    ensures Validate(c) == c <==> WithinRules(c)
  {
    if WithinRules(c) {
      assert Validate(c).manualCalib == c.manualCalib;
    }
  }

  /** Validation is idempotent; in particular the defaults survive it. */
  lemma ValidateIdempotent(c: UserConfig)
    ensures Validate(Validate(c)) == Validate(c)
    ensures Validate(DefaultUserConfig()) == DefaultUserConfig()
  {
    ValidateFixesValid(Validate(c));
    ValidateFixesValid(DefaultUserConfig());
  }

  /** `CalibrationConfig`: one camera calibration and three tracker calibrations. */
  datatype CalibrationConfig = CalibrationConfig(cameras: nat, trackers: nat)

  function DefaultCalibrationConfig(): (c: CalibrationConfig)
    ensures c.cameras == 1 && c.trackers == DefaultUserConfig().trackers
  {
    CalibrationConfig(1, 3)
  }

  /** The corner refinement methods of the ArUco detector. */
  datatype CornerRefine = CornerRefineNone | CornerRefineSubpix | CornerRefineContour | CornerRefineApriltag

  /** The detector parameters `ArucoConfig` sets in its constructor. */
  datatype ArucoConfig = ArucoConfig(detectInvertedMarker: bool, cornerRefinementMethod: CornerRefine)

  function DefaultArucoConfig(): (c: ArucoConfig)
    ensures c.detectInvertedMarker && c.cornerRefinementMethod == CornerRefineContour
  {
    ArucoConfig(true, CornerRefineContour)
  }
}
