/** The older configuration classes: the same files, with validators written as
  * lambdas. Two of them reset an out-of-range value to a fixed value instead of
  * clamping it. Matrices, marker boards and detector parameters other than the two
  * the ArUco constructor sets are not modelled. */
module LegacyConfig {
  import Config

  const APP_VERSION: string := "0.5.5"
  const DRIVER_VERSION: string := "0.5.5"

  /** markerSize: `std::clamp(value, 0., 1.)`. */
  function MarkerSizeRule(v: real): (r: real)
    ensures 0.0 <= r <= 1.0
    ensures 0.0 <= v <= 1.0 ==> r == v
  {
    if v < 0.0 then 0.0 else if 1.0 < v then 1.0 else v
  }

  /** trackerCalibDistance: below 0.5 becomes 0.5. */
  function TrackerCalibDistanceRule(v: real): (r: real)
    ensures r >= 0.5
    ensures v >= 0.5 ==> r == v
  {
    if v < 0.5 then 0.5 else v
  }

  /** cameraCalibSamples: below 15 becomes 15. */
  function CameraCalibSamplesRule(v: int): (r: int)
    ensures r >= 15
    ensures v >= 15 ==> r == v
  {
    if v < 15 then 15 else v
  }

  /** markersPerTracker: zero or negative is reset to 45. */
  function MarkersPerTrackerRule(v: int): (r: int)
    ensures r >= 1
    ensures v > 0 ==> r == v
    ensures v <= 0 ==> r == 45
  {
    if v <= 0 then 45 else v
  }

  /** calibScale: below 0.5 is reset to 1.0. */
  function CalibScaleRule(v: real): (r: real)
    ensures r >= 0.5
    ensures v >= 0.5 ==> r == v
    ensures v < 0.5 ==> r == 1.0
  {
    if v < 0.5 then 1.0 else v
  }

  /** Each rule leaves its own results alone. */
  lemma RulesIdempotent(x: real, n: int)
    ensures MarkerSizeRule(MarkerSizeRule(x)) == MarkerSizeRule(x)
    ensures TrackerCalibDistanceRule(TrackerCalibDistanceRule(x)) == TrackerCalibDistanceRule(x)
    ensures CameraCalibSamplesRule(CameraCalibSamplesRule(n)) == CameraCalibSamplesRule(n)
    ensures MarkersPerTrackerRule(MarkersPerTrackerRule(n)) == MarkersPerTrackerRule(n)
    ensures CalibScaleRule(CalibScaleRule(x)) == CalibScaleRule(x)
  {
  }

  /** The resets are not clamps: a value just below the bound does not end at the
    * bound, unlike the rule of the newer configuration. */
  lemma ResetsAreNotClamps()
    ensures MarkersPerTrackerRule(0) == 45 && Config.Validate(Config.DefaultUserConfig().(markersPerTracker := 0)).markersPerTracker == 1
    ensures CalibScaleRule(0.4) == 1.0
  {
  }

  /** The older `UserConfig`. */
  datatype UserConfig = UserConfig(
    version: string, driverVersion: string, langCode: string, cameraAddr: string,
    cameraApiPreference: int, trackerNum: int, markerSize: real, numOfPrevValues: int,
    quadDecimate: real, searchWindow: real, usePredictive: bool, calibrationTracker: int,
    chessboardCalib: bool, ignoreTracker0: bool, rotateCl: bool, rotateCounterCl: bool,
    coloredMarkers: bool, calibOffsetX: real, calibOffsetY: real, calibOffsetZ: real,
    calibOffsetA: real, calibOffsetB: real, calibOffsetC: real, circularWindow: bool,
    smoothingFactor: real, camFps: int, camHeight: int, camWidth: int, cameraSettings: bool,
    camLatency: real, circularMarkers: bool, trackerCalibDistance: real, cameraCalibSamples: int,
    settingsParameters: bool, cameraAutoexposure: real, cameraExposure: real, cameraGain: real,
    trackerCalibCenters: bool, depthSmoothing: real, additionalSmoothing: real, markerLibrary: int,
    markersPerTracker: int, calibScale: real, disableOpenVrApi: bool)

  predicate WithinRules(c: UserConfig)
  {
    0.0 <= c.markerSize <= 1.0 && c.trackerCalibDistance >= 0.5 && c.cameraCalibSamples >= 15
    && c.markersPerTracker >= 1 && c.calibScale >= 0.5
  }

  function DefaultUserConfig(): (c: UserConfig)
    ensures WithinRules(c)
    ensures c.version == APP_VERSION && c.trackerNum == 1 && c.markerSize == 0.05 && c.cameraAddr == "0"
  {
    UserConfig(APP_VERSION, DRIVER_VERSION, "en", "0",
      0, 1, 0.05, 5,
      1.0, 0.25, true, 0,
      false, false, false, false,
      true, 0.0, 100.0, 100.0,
      100.0, 0.0, 0.0, true,
      0.5, 30, 0, 0, false,
      0.0, false, 0.5, 15,
      false, 0.0, 0.0, 0.0,
      false, 0.0, 0.0, 0,
      45, 1.0, false)
  }

  /** Reading the file: every validated field goes through its lambda. */
  function Validate(c: UserConfig): (r: UserConfig)
    ensures WithinRules(r)
    ensures WithinRules(c) ==> r == c
    ensures r.trackerNum == c.trackerNum && r.smoothingFactor == c.smoothingFactor
  {
    c.(markerSize := MarkerSizeRule(c.markerSize),
       trackerCalibDistance := TrackerCalibDistanceRule(c.trackerCalibDistance),
       cameraCalibSamples := CameraCalibSamplesRule(c.cameraCalibSamples),
       markersPerTracker := MarkersPerTrackerRule(c.markersPerTracker),
       calibScale := CalibScaleRule(c.calibScale))
  }

  /** The ArUco detector parameters the constructor sets. */
  function DefaultArucoConfig(): (c: Config.ArucoConfig)
    ensures c == Config.DefaultArucoConfig()
  {
    Config.ArucoConfig(true, Config.CornerRefineContour)
  }
}
