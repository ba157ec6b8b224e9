/** The older `Parameters` class and its settings file. The file maps names to nodes;
  * a nested map keeps its entries in file order. A name is one of the names the
  * class knows, enumerated below by member type and spelled by `Name`, or any other
  * string. Reading a name that is absent gives the value-initialised member (zero,
  * false, empty), as `operator>>` of the file storage does; a node is stored as
  * read, without converting between kinds. The ArUco detector defaults are a
  * parameter. */
module ParametersFile {
  import opened Wrappers
  import Text

  /** The `int` members stored at the top level of the file. */
  datatype IntField =
    | MarkersPerTracker | CameraApiPreference | CamFps | CamHeight | CamWidth | TrackerNum
    | NumOfPrevValues | CalibrationTracker | CameraCalibSamples | MarkerLibrary
    | LanguageSelection

  /** The `double` members. */
  datatype RealField =
    | MarkerSize | QuadDecimate | SearchWindow | CalibOffsetX | CalibOffsetY | CalibOffsetZ
    | CalibOffsetA | CalibOffsetB | CalibOffsetC | SmoothingFactor | CamLatency
    | TrackerCalibDistance | CameraAutoexposure | CameraExposure | CameraGain
    | DepthSmoothing | AdditionalSmoothing

  /** The `bool` members. */
  datatype BoolField =
    | UsePredictive | RotateCl | RotateCounterCl | ColoredMarkers | CircularWindow
    | IgnoreTracker0 | CameraSettings | ChessboardCalib | CircularMarkers
    | SettingsParameters | TrackerCalibCenters

  /** The matrix and vector members. */
  datatype MatField =
    | CameraMatrix | DistortionCoeffs | StdDeviationsIntrinsics | PerViewErrors
    | AllCharucoCorners | AllCharucoIds | WTranslation

  /** A plain member: one of the above, or the `std::string` member `cameraAddr`. */
  datatype FieldKey =
    | IntF(i: IntField)
    | RealF(r: RealField)
    | BoolF(b: BoolField)
    | MatF(m: MatField)
    | CameraAddr

  /** The `int` detector parameters stored under `arucoParams`. */
  datatype IntParam =
    | CornerRefinementMethod | MarkerBorderBits | AdaptiveThreshWinSizeMax
    | AdaptiveThreshWinSizeMin | AdaptiveThreshWinSizeStep | AprilTagDeglitch
    | AprilTagMaxNmaxima | AprilTagMinClusterPixels | AprilTagMinWhiteBlackDiff
    | CornerRefinementMaxIterations | CornerRefinementWinSize | MinDistanceToBorder
    | PerspectiveRemovePixelPerCell

  /** The `double` detector parameters. */
  datatype RealParam =
    | AdaptiveThreshConstant | AprilTagCriticalRad | AprilTagMaxLineFitMse
    | AprilTagQuadDecimate | AprilTagQuadSigma | CornerRefinementMinAccuracy
    | ErrorCorrectionRate | MaxErroneousBitsInBorderRate | MaxMarkerPerimeterRate
    | MinCornerDistanceRate | MinMarkerDistanceRate | MinMarkerPerimeterRate | MinOtsuStdDev
    | PerspectiveRemoveIgnoredMarginPerCell | PolygonalApproxAccuracyRate

  /** A detector parameter: one of the above, or the `bool` `detectInvertedMarker`. */
  datatype ArucoKey =
    | IntP(ip: IntParam)
    | RealP(rp: RealParam)
    | DetectInvertedMarker

  /** A name in the file. */
  datatype Key =
    | Plain(field: FieldKey)
    | ArucoParams
    | WRotation
    | Trackers
    | Detector(param: ArucoKey)
    | TrackerIds
    | TrackerCorners
    | TrackerItem(i: nat)
    | CornerItem(j: nat)
    | Other(name: string)

  datatype Value =
    | Int(i: int)
    | Real(r: real)
    | Bool(b: bool)
    | Str(s: string)
    | List(items: seq<Value>)
    | Map(entries: seq<(Key, Value)>)

  type File = map<Key, Value>

  /** The plain fields in the order `Load` reads them: the `i`-th one. */
  function FieldAt(i: nat): FieldKey
    requires i < 47
  {
    if i == 0 then IntF(MarkersPerTracker)
    else if i == 1 then CameraAddr
    else if i == 2 then IntF(CameraApiPreference)
    else if i == 3 then IntF(CamFps)
    else if i == 4 then IntF(CamHeight)
    else if i == 5 then IntF(CamWidth)
    else if i == 6 then MatF(CameraMatrix)
    else if i == 7 then MatF(DistortionCoeffs)
    else if i == 8 then MatF(StdDeviationsIntrinsics)
    else if i == 9 then MatF(PerViewErrors)
    else if i == 10 then MatF(AllCharucoCorners)
    else if i == 11 then MatF(AllCharucoIds)
    else if i == 12 then IntF(TrackerNum)
    else if i == 13 then RealF(MarkerSize)
    else if i == 14 then IntF(NumOfPrevValues)
    else if i == 15 then RealF(QuadDecimate)
    else if i == 16 then RealF(SearchWindow)
    else if i == 17 then BoolF(UsePredictive)
    else if i == 18 then IntF(CalibrationTracker)
    else if i == 19 then BoolF(RotateCl)
    else if i == 20 then BoolF(RotateCounterCl)
    else if i == 21 then BoolF(ColoredMarkers)
    else if i == 22 then RealF(CalibOffsetX)
    else if i == 23 then RealF(CalibOffsetY)
    else if i == 24 then RealF(CalibOffsetZ)
    else if i == 25 then RealF(CalibOffsetA)
    else if i == 26 then RealF(CalibOffsetB)
    else if i == 27 then RealF(CalibOffsetC)
    else if i == 28 then BoolF(CircularWindow)
    else if i == 29 then RealF(SmoothingFactor)
    else if i == 30 then BoolF(IgnoreTracker0)
    else if i == 31 then MatF(WTranslation)
    else if i == 32 then BoolF(CameraSettings)
    else if i == 33 then BoolF(ChessboardCalib)
    else if i == 34 then RealF(CamLatency)
    else if i == 35 then BoolF(CircularMarkers)
    else if i == 36 then RealF(TrackerCalibDistance)
    else if i == 37 then IntF(CameraCalibSamples)
    else if i == 38 then BoolF(SettingsParameters)
    else if i == 39 then RealF(CameraAutoexposure)
    else if i == 40 then RealF(CameraExposure)
    else if i == 41 then RealF(CameraGain)
    else if i == 42 then BoolF(TrackerCalibCenters)
    else if i == 43 then RealF(DepthSmoothing)
    else if i == 44 then RealF(AdditionalSmoothing)
    else if i == 45 then IntF(MarkerLibrary)
    else IntF(LanguageSelection)
  }

  function FieldOrder(): (s: seq<FieldKey>)
    ensures |s| == 47 && forall i :: 0 <= i < 47 ==> s[i] == FieldAt(i)
  {
    seq(47, i requires 0 <= i < 47 => FieldAt(i))
  }

  /** The detector parameters in the order `Load` reads and `Save` writes them:
    * the `i`-th one. */
  function ArucoAt(i: nat): ArucoKey
    requires i < 29
  {
    if i == 0 then IntP(CornerRefinementMethod)
    else if i == 1 then IntP(MarkerBorderBits)
    else if i == 2 then RealP(AdaptiveThreshConstant)
    else if i == 3 then IntP(AdaptiveThreshWinSizeMax)
    else if i == 4 then IntP(AdaptiveThreshWinSizeMin)
    else if i == 5 then IntP(AdaptiveThreshWinSizeStep)
    else if i == 6 then RealP(AprilTagCriticalRad)
    else if i == 7 then IntP(AprilTagDeglitch)
    else if i == 8 then RealP(AprilTagMaxLineFitMse)
    else if i == 9 then IntP(AprilTagMaxNmaxima)
    else if i == 10 then IntP(AprilTagMinClusterPixels)
    else if i == 11 then IntP(AprilTagMinWhiteBlackDiff)
    else if i == 12 then RealP(AprilTagQuadDecimate)
    else if i == 13 then RealP(AprilTagQuadSigma)
    else if i == 14 then IntP(CornerRefinementMaxIterations)
    else if i == 15 then RealP(CornerRefinementMinAccuracy)
    else if i == 16 then IntP(CornerRefinementWinSize)
    else if i == 17 then DetectInvertedMarker
    else if i == 18 then RealP(ErrorCorrectionRate)
    else if i == 19 then RealP(MaxErroneousBitsInBorderRate)
    else if i == 20 then RealP(MaxMarkerPerimeterRate)
    else if i == 21 then RealP(MinCornerDistanceRate)
    else if i == 22 then IntP(MinDistanceToBorder)
    else if i == 23 then RealP(MinMarkerDistanceRate)
    else if i == 24 then RealP(MinMarkerPerimeterRate)
    else if i == 25 then RealP(MinOtsuStdDev)
    else if i == 26 then RealP(PerspectiveRemoveIgnoredMarginPerCell)
    else if i == 27 then IntP(PerspectiveRemovePixelPerCell)
    else RealP(PolygonalApproxAccuracyRate)
  }

  function ArucoOrder(): (s: seq<ArucoKey>)
    ensures |s| == 29 && forall i :: 0 <= i < 29 ==> s[i] == ArucoAt(i)
  {
    seq(29, i requires 0 <= i < 29 => ArucoAt(i))
  }

  function FieldName(f: FieldKey): string
  {
    match f
    case CameraAddr => "cameraAddr"
    case IntF(i) => (
      match i
      case MarkersPerTracker => "markersPerTracker"
      case CameraApiPreference => "cameraApiPreference"
      case CamFps => "camFps"
      case CamHeight => "camHeight"
      case CamWidth => "camWidth"
      case TrackerNum => "trackerNum"
      case NumOfPrevValues => "numOfPrevValues"
      case CalibrationTracker => "calibrationTracker"
      case CameraCalibSamples => "cameraCalibSamples"
      case MarkerLibrary => "markerLibrary"
      case LanguageSelection => "languageSelection")
    case RealF(r) => (
      match r
      case MarkerSize => "markerSize"
      case QuadDecimate => "quadDecimate"
      case SearchWindow => "searchWindow"
      case CalibOffsetX => "calibOffsetX"
      case CalibOffsetY => "calibOffsetY"
      case CalibOffsetZ => "calibOffsetZ"
      case CalibOffsetA => "calibOffsetA"
      case CalibOffsetB => "calibOffsetB"
      case CalibOffsetC => "calibOffsetC"
      case SmoothingFactor => "smoothingFactor"
      case CamLatency => "camLatency"
      case TrackerCalibDistance => "trackerCalibDistance"
      case CameraAutoexposure => "cameraAutoexposure"
      case CameraExposure => "cameraExposure"
      case CameraGain => "cameraGain"
      case DepthSmoothing => "depthSmoothing"
      case AdditionalSmoothing => "additionalSmoothing")
    case BoolF(b) => (
      match b
      case UsePredictive => "usePredictive"
      case RotateCl => "rotateCl"
      case RotateCounterCl => "rotateCounterCl"
      case ColoredMarkers => "coloredMarkers"
      case CircularWindow => "circularWindow"
      case IgnoreTracker0 => "ignoreTracker0"
      case CameraSettings => "cameraSettings"
      case ChessboardCalib => "chessboardCalib"
      case CircularMarkers => "circularMarkers"
      case SettingsParameters => "settingsParameters"
      case TrackerCalibCenters => "trackerCalibCenters")
    case MatF(m) => (
      match m
      case CameraMatrix => "cameraMatrix"
      case DistortionCoeffs => "distortionCoeffs"
      case StdDeviationsIntrinsics => "stdDeviationsIntrinsics"
      case PerViewErrors => "perViewErrors"
      case AllCharucoCorners => "allCharucoCorners"
      case AllCharucoIds => "allCharucoIds"
      case WTranslation => "wtranslation")
  }

  function ArucoName(a: ArucoKey): string
  {
    match a
    case DetectInvertedMarker => "detectInvertedMarker"
    case IntP(p) => (
      match p
      case CornerRefinementMethod => "cornerRefinementMethod"
      case MarkerBorderBits => "markerBorderBits"
      case AdaptiveThreshWinSizeMax => "adaptiveThreshWinSizeMax"
      case AdaptiveThreshWinSizeMin => "adaptiveThreshWinSizeMin"
      case AdaptiveThreshWinSizeStep => "adaptiveThreshWinSizeStep"
      case AprilTagDeglitch => "aprilTagDeglitch"
      case AprilTagMaxNmaxima => "aprilTagMaxNmaxima"
      case AprilTagMinClusterPixels => "aprilTagMinClusterPixels"
      case AprilTagMinWhiteBlackDiff => "aprilTagMinWhiteBlackDiff"
      case CornerRefinementMaxIterations => "cornerRefinementMaxIterations"
      case CornerRefinementWinSize => "cornerRefinementWinSize"
      case MinDistanceToBorder => "minDistanceToBorder"
      case PerspectiveRemovePixelPerCell => "perspectiveRemovePixelPerCell")
    case RealP(p) => (
      match p
      case AdaptiveThreshConstant => "adaptiveThreshConstant"
      case AprilTagCriticalRad => "aprilTagCriticalRad"
      case AprilTagMaxLineFitMse => "aprilTagMaxLineFitMse"
      case AprilTagQuadDecimate => "aprilTagQuadDecimate"
      case AprilTagQuadSigma => "aprilTagQuadSigma"
      case CornerRefinementMinAccuracy => "cornerRefinementMinAccuracy"
      case ErrorCorrectionRate => "errorCorrectionRate"
      case MaxErroneousBitsInBorderRate => "maxErroneousBitsInBorderRate"
      case MaxMarkerPerimeterRate => "maxMarkerPerimeterRate"
      case MinCornerDistanceRate => "minCornerDistanceRate"
      case MinMarkerDistanceRate => "minMarkerDistanceRate"
      case MinMarkerPerimeterRate => "minMarkerPerimeterRate"
      case MinOtsuStdDev => "minOtsuStdDev"
      case PerspectiveRemoveIgnoredMarginPerCell => "perspectiveRemoveIgnoredMarginPerCell"
      case PolygonalApproxAccuracyRate => "polygonalApproxAccuracyRate")
  }

  /** How a name is spelled in the file. */
  function Name(k: Key): string
  {
    match k
    case Plain(f) => FieldName(f)
    case ArucoParams => "arucoParams"
    case WRotation => "wrotation"
    case Trackers => "trackers"
    case Detector(a) => ArucoName(a)
    case TrackerIds => "trackerIds"
    case TrackerCorners => "trackerCorners"
    case TrackerItem(i) => "tracker_" + Text.NatToString(i)
    case CornerItem(j) => "trackerCorners_" + Text.NatToString(j)
    case Other(s) => s
  }

  /** What `>>` gives for an absent plain field: the value-initialised member. */
  function FieldZero(f: FieldKey): Value
  {
    match f
    case IntF(_) => Int(0)
    case RealF(_) => Real(0.0)
    case BoolF(_) => Bool(false)
    case MatF(_) => List([])
    case CameraAddr => Str("")
  }

  /** The initial value of a plain member. */
  function FieldInitial(f: FieldKey): Value
  {
    match f
    case IntF(MarkersPerTracker) => Int(45)
    case CameraAddr => Str("0")
    case IntF(CamFps) => Int(30)
    case IntF(TrackerNum) => Int(1)
    case RealF(MarkerSize) => Real(0.05)
    case IntF(NumOfPrevValues) => Int(5)
    case RealF(QuadDecimate) => Real(1.0)
    case RealF(SearchWindow) => Real(0.25)
    case BoolF(UsePredictive) => Bool(true)
    case BoolF(ColoredMarkers) => Bool(true)
    case RealF(CalibOffsetY) => Real(100.0)
    case RealF(CalibOffsetZ) => Real(100.0)
    case RealF(CalibOffsetA) => Real(180.0)
    case BoolF(CircularWindow) => Bool(true)
    case RealF(SmoothingFactor) => Real(0.5)
    case RealF(TrackerCalibDistance) => Real(0.5)
    case IntF(CameraCalibSamples) => Int(15)
    case _ => FieldZero(f)
  }

  /** What `>>` gives for an absent detector parameter. */
  function ArucoZero(a: ArucoKey): Value
  {
    match a
    case IntP(_) => Int(0)
    case RealP(_) => Real(0.0)
    case DetectInvertedMarker => Bool(false)
  }

  /** The first entry of a map node with the given name. */
  function Lookup(entries: seq<(Key, Value)>, key: Key): (r: Option<Value>)
    ensures r.Some? ==> (key, r.value) in entries
    ensures r.None? ==> forall e :: e in entries ==> e.0 != key
  {
    if entries == [] then None
    else if entries[0].0 == key then Some(entries[0].1)
    else Lookup(entries[1..], key)
  }

  /** When every entry with the name holds `v`, looking the name up finds `v`. */
  lemma LookupUniform(entries: seq<(Key, Value)>, key: Key, v: Value, i: nat)
    requires i < |entries| && entries[i].0 == key
    requires forall e :: e in entries && e.0 == key ==> e.1 == v
    ensures Lookup(entries, key) == Some(v)
  {
    assert entries[i] in entries;
  }

  /** `node[key]`: present only when the node is a map with that name. */
  function Child(node: Value, key: Key): Option<Value>
  {
    if node.Map? then Lookup(node.entries, key) else None
  }

  /** The nodes an iterator over `node` visits: the entries of a map in file order,
    * or the items of a sequence. */
  function Children(node: Value): (r: seq<Value>)
    ensures node.Map? ==> |r| == |node.entries| && forall i :: 0 <= i < |r| ==> r[i] == node.entries[i].1
    ensures node.List? ==> r == node.items
  {
    match node
    case Map(es) => seq(|es|, i requires 0 <= i < |es| => es[i].1)
    case List(items) => items
    case _ => []
  }

  /** A value the three normalisation rules leave alone. */
  predicate NormalForm(f: FieldKey, v: Value)
  {
    !(f == IntF(MarkersPerTracker) && v.Int? && v.i <= 0)
    && !(f == RealF(TrackerCalibDistance) && v.Real? && v.r < 0.5)
    && !(f == IntF(CameraCalibSamples) && v.Int? && v.i < 15)
  }

  /** The rules `Load` applies right after reading: `markersPerTracker <= 0`
    * becomes 45, `trackerCalibDistance < 0.5` becomes 0.5 and
    * `cameraCalibSamples < 15` becomes 15. */
  function Normalize(f: FieldKey, v: Value): (r: Value)
    ensures f == IntF(MarkersPerTracker) && v.Int? && v.i <= 0 ==> r == Int(45)
    ensures f == RealF(TrackerCalibDistance) && v.Real? && v.r < 0.5 ==> r == Real(0.5)
    ensures f == IntF(CameraCalibSamples) && v.Int? && v.i < 15 ==> r == Int(15)
    ensures NormalForm(f, v) ==> r == v
    ensures NormalForm(f, r)
  {
    if f == IntF(MarkersPerTracker) && v.Int? && v.i <= 0 then Int(45)
    else if f == RealF(TrackerCalibDistance) && v.Real? && v.r < 0.5 then Real(0.5)
    else if f == IntF(CameraCalibSamples) && v.Int? && v.i < 15 then Int(15)
    else v
  }

  /** `fs[name] >> field`, followed by the field's rule. */
  function ReadField(fs: File, f: FieldKey): (v: Value)
    ensures NormalForm(f, v)
    ensures Plain(f) in fs ==> v == Normalize(f, fs[Plain(f)])
    ensures Plain(f) !in fs ==> v == Normalize(f, FieldZero(f))
  {
    Normalize(f, if Plain(f) in fs then fs[Plain(f)] else FieldZero(f))
  }

  /** The fields after reading the listed ones in order. */
  function ReadFields(m: map<FieldKey, Value>, fs: File, fl: seq<FieldKey>): (r: map<FieldKey, Value>)
    ensures forall f :: f in r <==> f in m || f in fl
  {
    if fl == [] then m
    else
      var init := fl[..|fl| - 1];
      assert fl == init + [fl[|fl| - 1]];
      ReadFields(m, fs, init)[fl[|fl| - 1] := ReadField(fs, fl[|fl| - 1])]
  }

  /** Every listed field is read from the file; every other field is kept. */
  lemma {:induction false} ReadFieldsLookup(m: map<FieldKey, Value>, fs: File, fl: seq<FieldKey>, f: FieldKey)
    ensures f in fl ==> ReadFields(m, fs, fl)[f] == ReadField(fs, f)
    ensures f !in fl && f in m ==> ReadFields(m, fs, fl)[f] == m[f]
  {
    if fl != [] {
      var init := fl[..|fl| - 1];
      assert fl == init + [fl[|fl| - 1]];
      ReadFieldsLookup(m, fs, init, f);
    }
  }

  /** `node[name] >> aruco_params->name` for the listed detector parameters. */
  function ReadAruco(m: map<ArucoKey, Value>, node: Value, al: seq<ArucoKey>): (r: map<ArucoKey, Value>)
    ensures forall a :: a in r <==> a in m || a in al
  {
    if al == [] then m
    else
      var init := al[..|al| - 1];
      var a := al[|al| - 1];
      assert al == init + [a];
      ReadAruco(m, node, init)[a := match Child(node, Detector(a)) case Some(x) => x case None => ArucoZero(a)]
  }

  /** A listed parameter present in the node is read from it; an absent one becomes
    * its zero; an unlisted one is kept. */
  lemma {:induction false} ReadArucoLookup(m: map<ArucoKey, Value>, node: Value, al: seq<ArucoKey>, a: ArucoKey)
    ensures a in al && Child(node, Detector(a)).Some? ==> ReadAruco(m, node, al)[a] == Child(node, Detector(a)).value
    ensures a in al && Child(node, Detector(a)).None? ==> ReadAruco(m, node, al)[a] == ArucoZero(a)
    ensures a !in al && a in m ==> ReadAruco(m, node, al)[a] == m[a]
  {
    if al != [] {
      var init := al[..|al| - 1];
      assert al == init + [al[|al| - 1]];
      ReadArucoLookup(m, node, init, a);
    }
  }

  /** The detector parameters after `DetectorParameters::create()` and the two
    * settings `Load` makes before reading. */
  function ArucoBase(detectorDefaults: map<ArucoKey, Value>): (r: map<ArucoKey, Value>)
    ensures r.Keys == detectorDefaults.Keys + {DetectInvertedMarker, IntP(CornerRefinementMethod)}
    ensures r[DetectInvertedMarker] == Bool(true) && r[IntP(CornerRefinementMethod)] == Int(2)
    ensures forall a :: a in detectorDefaults && a != DetectInvertedMarker && a != IntP(CornerRefinementMethod) ==>
      r[a] == detectorDefaults[a]
  {
    detectorDefaults[DetectInvertedMarker := Bool(true)][IntP(CornerRefinementMethod) := Int(2)]
  }

  /** `Quaternion<double>`. */
  datatype Rotation = Rotation(w: real, x: real, y: real, z: real)

  /** A stored rotation matrix that `wrotmat.at<double>(0..3)` can read: absent,
    * empty, or at least four numbers. */
  predicate RotationReadable(fs: File)
  {
    WRotation in fs ==>
      fs[WRotation].List?
      && (fs[WRotation].items == []
          || (|fs[WRotation].items| >= 4 && forall i :: 0 <= i < 4 ==> fs[WRotation].items[i].Real?))
  }

  /** The rotation `Load` leaves: the stored one when the matrix is not empty. */
  function ReadRotation(fs: File, current: Rotation): (q: Rotation)
    requires RotationReadable(fs)
    ensures WRotation !in fs || fs[WRotation].items == [] ==> q == current
    ensures WRotation in fs && fs[WRotation].items != [] ==>
      [Real(q.w), Real(q.x), Real(q.y), Real(q.z)] == fs[WRotation].items[..4]
  {
    if WRotation in fs && fs[WRotation].items != [] then
      var m := fs[WRotation].items;
      Rotation(m[0].r, m[1].r, m[2].r, m[3].r)
    else current
  }

  /** A marker board: the marker ids node and one corner node per marker. */
  datatype Board = Board(ids: Value, corners: seq<Value>)

  /** One item of `trackers`: `trackerIds`, and the children of `trackerCorners`. */
  function BoardOf(item: Value): (b: Board)
    ensures Child(item, TrackerIds).None? ==> b.ids == List([])
    ensures Child(item, TrackerIds).Some? ==> b.ids == Child(item, TrackerIds).value
    ensures Child(item, TrackerCorners).None? ==> b.corners == []
    ensures Child(item, TrackerCorners).Some? ==> b.corners == Children(Child(item, TrackerCorners).value)
  {
    Board(match Child(item, TrackerIds) case Some(ids) => ids case None => List([]),
          match Child(item, TrackerCorners) case Some(c) => Children(c) case None => [])
  }

  /** The boards read from `fs["trackers"]`, in file order. */
  function ReadBoards(fs: File): (bs: seq<Board>)
    ensures Trackers !in fs ==> bs == []
    ensures Trackers in fs ==> (|bs| == |Children(fs[Trackers])|
      && forall i :: 0 <= i < |bs| ==> bs[i] == BoardOf(Children(fs[Trackers])[i]))
  {
    if Trackers in fs then
      var items := Children(fs[Trackers]);
      seq(|items|, i requires 0 <= i < |items| => BoardOf(items[i]))
    else []
  }

  /** The language table is the Chinese one when `languageSelection` is 1. */
  predicate SelectsChinese(fields: map<FieldKey, Value>)
  {
    IntF(LanguageSelection) in fields && fields[IntF(LanguageSelection)] == Int(1)
  }

  /** The whole state the class holds. */
  datatype State = State(
    fields: map<FieldKey, Value>,
    aruco: map<ArucoKey, Value>,
    wrotation: Rotation,
    trackers: seq<Board>,
    chinese: bool)

  /** The names `Load` relies on are among the listed ones. */
  lemma KnownKeys()
    ensures IntF(MarkersPerTracker) in FieldOrder() && CameraAddr in FieldOrder()
    ensures RealF(TrackerCalibDistance) in FieldOrder() && IntF(CameraCalibSamples) in FieldOrder()
    ensures IntF(LanguageSelection) in FieldOrder()
    ensures DetectInvertedMarker in ArucoOrder() && IntP(CornerRefinementMethod) in ArucoOrder()
  {
    assert FieldOrder()[0] == IntF(MarkersPerTracker);
    assert FieldOrder()[1] == CameraAddr;
    assert FieldOrder()[36] == RealF(TrackerCalibDistance);
    assert FieldOrder()[37] == IntF(CameraCalibSamples);
    assert FieldOrder()[46] == IntF(LanguageSelection);
    assert ArucoOrder()[17] == DetectInvertedMarker;
    assert ArucoOrder()[0] == IntP(CornerRefinementMethod);
  }

  /** The detector parameters `Load` leaves when the file has `cameraAddr`. */
  function LoadAruco(fs: File, detectorDefaults: map<ArucoKey, Value>): (r: map<ArucoKey, Value>)
    ensures ArucoParams !in fs ==> r == ArucoBase(detectorDefaults)
    ensures ArucoParams in fs ==> forall a :: a in r <==> a in detectorDefaults || a in ArucoOrder()
  {
    KnownKeys();
    if ArucoParams in fs then ReadAruco(ArucoBase(detectorDefaults), fs[ArucoParams], ArucoOrder())
    else ArucoBase(detectorDefaults)
  }

  /** `Load` on a state. Nothing is read unless the file has `cameraAddr`. Read boards
    * are appended to the ones held. The Chinese table is chosen when
    * `languageSelection` is 1 and otherwise left as it was. */
  function LoadState(s: State, fs: File, detectorDefaults: map<ArucoKey, Value>): (t: State)
    requires RotationReadable(fs)
    ensures Plain(CameraAddr) !in fs ==> t == s.(chinese := t.chinese)
    ensures Plain(CameraAddr) in fs ==> (t.fields == ReadFields(s.fields, fs, FieldOrder())
      && t.aruco == LoadAruco(fs, detectorDefaults)
      && t.wrotation == ReadRotation(fs, s.wrotation)
      && t.trackers == s.trackers + ReadBoards(fs))
    ensures t.chinese == (s.chinese || SelectsChinese(t.fields))
  {
    if Plain(CameraAddr) !in fs then
      s.(chinese := s.chinese || SelectsChinese(s.fields))
    else
      var fields := ReadFields(s.fields, fs, FieldOrder());
      State(fields, LoadAruco(fs, detectorDefaults), ReadRotation(fs, s.wrotation),
            s.trackers + ReadBoards(fs), s.chinese || SelectsChinese(fields))
  }

  /** After a load from a file with `cameraAddr`, `markersPerTracker`,
    * `trackerCalibDistance` and `cameraCalibSamples` are within their rules, and an
    * absent `markersPerTracker` becomes 45. */
  lemma LoadAppliesRules(s: State, fs: File, detectorDefaults: map<ArucoKey, Value>)
    requires RotationReadable(fs) && Plain(CameraAddr) in fs
    ensures var t := LoadState(s, fs, detectorDefaults);
      IntF(MarkersPerTracker) in t.fields && RealF(TrackerCalibDistance) in t.fields
      && IntF(CameraCalibSamples) in t.fields
      && NormalForm(IntF(MarkersPerTracker), t.fields[IntF(MarkersPerTracker)])
      && NormalForm(RealF(TrackerCalibDistance), t.fields[RealF(TrackerCalibDistance)])
      && NormalForm(IntF(CameraCalibSamples), t.fields[IntF(CameraCalibSamples)])
      && (Plain(IntF(MarkersPerTracker)) !in fs ==> t.fields[IntF(MarkersPerTracker)] == Int(45))
  {
    KnownKeys();
    ReadFieldsLookup(s.fields, fs, FieldOrder(), IntF(MarkersPerTracker));
    ReadFieldsLookup(s.fields, fs, FieldOrder(), RealF(TrackerCalibDistance));
    ReadFieldsLookup(s.fields, fs, FieldOrder(), IntF(CameraCalibSamples));
  }

  /** The corner entries of a board as `Save` writes them. */
  function CornerEntries(corners: seq<Value>): (es: seq<(Key, Value)>)
    ensures |es| == |corners| && forall j :: 0 <= j < |es| ==> es[j] == (CornerItem(j), corners[j])
  {
    seq(|corners|, j requires 0 <= j < |corners| => (CornerItem(j), corners[j]))
  }

  /** A board as `Save` writes it: `trackerIds`, then `trackerCorners` holding
    * `trackerCorners_<j>` for every marker. */
  function BoardNode(b: Board): Value
  {
    Map([(TrackerIds, b.ids), (TrackerCorners, Map(CornerEntries(b.corners)))])
  }

  /** Reading a written board gives it back. */
  lemma BoardRoundTrip(b: Board)
    ensures BoardOf(BoardNode(b)) == b
  {
    var n := BoardNode(b);
    assert Child(n, TrackerIds) == Some(b.ids);
    assert Child(n, TrackerCorners) == Some(n.entries[1].1);
  }

  /** The tracker entries `Save` writes: `tracker_<i>` for every board. */
  function TrackerEntries(trackers: seq<Board>): (es: seq<(Key, Value)>)
    ensures |es| == |trackers| && forall i :: 0 <= i < |es| ==> es[i] == (TrackerItem(i), BoardNode(trackers[i]))
  {
    seq(|trackers|, i requires 0 <= i < |trackers| => (TrackerItem(i), BoardNode(trackers[i])))
  }

  /** Every detector parameter has a value. */
  predicate ArucoPresent(aruco: map<ArucoKey, Value>)
  {
    forall a :: a in ArucoOrder() ==> a in aruco
  }

  /** The detector parameter entries `Save` writes, in order. */
  function ArucoEntries(aruco: map<ArucoKey, Value>): (es: seq<(Key, Value)>)
    requires ArucoPresent(aruco)
    ensures |es| == |ArucoOrder()| && forall i :: 0 <= i < |es| ==> es[i] == (Detector(ArucoOrder()[i]), aruco[ArucoOrder()[i]])
  {
    seq(|ArucoOrder()|, i requires 0 <= i < |ArucoOrder()| => (Detector(ArucoOrder()[i]), aruco[ArucoOrder()[i]]))
  }

  /** The rotation as the 4x1 matrix `Save` writes. */
  function RotationNode(q: Rotation): Value
  {
    List([Real(q.w), Real(q.x), Real(q.y), Real(q.z)])
  }

  /** Every plain field has a value. */
  predicate FieldsPresent(fields: map<FieldKey, Value>)
  {
    forall f :: f in FieldOrder() ==> f in fields
  }

  /** `Save`'s file: every plain field, the detector parameters, the rotation as a
    * 4x1 matrix, and the boards. */
  function SaveFile(s: State): (fs: File)
    requires FieldsPresent(s.fields) && ArucoPresent(s.aruco)
    ensures forall k :: k in fs <==> (k.Plain? && k.field in FieldOrder()) || k in {ArucoParams, WRotation, Trackers}
    ensures forall f :: f in FieldOrder() ==> fs[Plain(f)] == s.fields[f]
    ensures fs[ArucoParams] == Map(ArucoEntries(s.aruco))
    ensures fs[WRotation] == RotationNode(s.wrotation)
    ensures fs[Trackers] == Map(TrackerEntries(s.trackers))
  {
    var plain := map k | k in PlainKeys() :: s.fields[k.field];
    plain[ArucoParams := Map(ArucoEntries(s.aruco))][WRotation := RotationNode(s.wrotation)][Trackers := Map(TrackerEntries(s.trackers))]
  }

  /** The names of the plain fields. */
  function PlainKeys(): (ks: set<Key>)
    ensures forall k :: k in ks <==> k.Plain? && k.field in FieldOrder()
  {
    set f | f in FieldOrder() :: Plain(f)
  }

  /** A state `Save` and `Load` can round-trip: exactly the plain fields, each within
    * its rule; exactly the detector parameters; the language in step with
    * `languageSelection`. */
  ghost predicate Saveable(s: State)
  {
    (forall f :: f in s.fields <==> f in FieldOrder())
    && (forall f :: f in s.fields ==> NormalForm(f, s.fields[f]))
    && (forall a :: a in s.aruco <==> a in ArucoOrder())
    && s.chinese == SelectsChinese(s.fields)
  }

  /** Entries that hold every parameter of `order` under its own name hold one
    * value per name. */
  lemma EntriesUniform(order: seq<ArucoKey>, aruco: map<ArucoKey, Value>, es: seq<(Key, Value)>, a: ArucoKey)
    requires forall a :: a in order ==> a in aruco
    requires |es| == |order| && forall i :: 0 <= i < |es| ==> es[i] == (Detector(order[i]), aruco[order[i]])
    requires a in aruco
    ensures forall e :: e in es && e.0 == Detector(a) ==> e.1 == aruco[a]
  {
    forall e | e in es && e.0 == Detector(a)
      ensures e.1 == aruco[a]
    {
      var i :| 0 <= i < |es| && es[i] == e;
    }
  }

  /** Reading entries that hold every parameter of `order` under its own name, over
    * defaults with the same names, gives the parameters back. */
  lemma {:induction false} ArucoRoundTripOver(order: seq<ArucoKey>, aruco: map<ArucoKey, Value>,
                                              es: seq<(Key, Value)>, detectorDefaults: map<ArucoKey, Value>)
    requires forall a :: a in aruco <==> a in order
    requires forall a :: a in detectorDefaults <==> a in order
    requires DetectInvertedMarker in order && IntP(CornerRefinementMethod) in order
    requires |es| == |order| && forall i :: 0 <= i < |es| ==> es[i] == (Detector(order[i]), aruco[order[i]])
    ensures ReadAruco(ArucoBase(detectorDefaults), Map(es), order) == aruco
  {
    var r := ReadAruco(ArucoBase(detectorDefaults), Map(es), order);
    forall a | a in aruco
      ensures a in r && r[a] == aruco[a]
    {
      ArucoRoundTripAt(order, aruco, es, ArucoBase(detectorDefaults), a);
    }
  }

  /** One parameter of `order` read back from the entries. */
  lemma ArucoRoundTripAt(order: seq<ArucoKey>, aruco: map<ArucoKey, Value>,
                         es: seq<(Key, Value)>, base: map<ArucoKey, Value>, a: ArucoKey)
    requires forall a :: a in order ==> a in aruco
    requires |es| == |order| && forall i :: 0 <= i < |es| ==> es[i] == (Detector(order[i]), aruco[order[i]])
    requires a in order
    ensures ReadAruco(base, Map(es), order)[a] == aruco[a]
  {
    var i :| 0 <= i < |order| && order[i] == a;
    EntriesUniform(order, aruco, es, a);
    LookupUniform(es, Detector(a), aruco[a], i);
    ReadArucoLookup(base, Map(es), order, a);
  }

  /** Reading fields that the file holds under their own names, each within its
    * rule, gives them back. */
  lemma {:induction false} FieldsRoundTripOver(order: seq<FieldKey>, fields: map<FieldKey, Value>,
                                               blank: map<FieldKey, Value>, fs: File)
    requires forall f :: f in fields <==> f in order
    requires forall f :: f in blank <==> f in order
    requires forall f :: f in fields ==> NormalForm(f, fields[f])
    requires forall f :: f in order ==> Plain(f) in fs && fs[Plain(f)] == fields[f]
    ensures ReadFields(blank, fs, order) == fields
  {
    var r := ReadFields(blank, fs, order);
    forall f | f in fields
      ensures f in r && r[f] == fields[f]
    {
      ReadFieldsLookup(blank, fs, order, f);
    }
  }

  /** Reading the saved boards gives them back. */
  lemma BoardsRoundTrip(trackers: seq<Board>, fs: File)
    requires Trackers in fs && fs[Trackers] == Map(TrackerEntries(trackers))
    ensures ReadBoards(fs) == trackers
  {
    var items := Children(fs[Trackers]);
    forall i | 0 <= i < |trackers|
      ensures BoardOf(items[i]) == trackers[i]
    {
      BoardRoundTrip(trackers[i]);
    }
  }

  /** The saved plain fields read back over fields with the same names. */
  lemma SaveLoadFields(s: State, blank: map<FieldKey, Value>)
    requires Saveable(s)
    requires forall f :: f in blank <==> f in FieldOrder()
    ensures FieldsPresent(s.fields) && ArucoPresent(s.aruco)
    ensures ReadFields(blank, SaveFile(s), FieldOrder()) == s.fields
  {
    FieldsRoundTripOver(FieldOrder(), s.fields, blank, SaveFile(s));
  }

  /** The saved detector parameters read back over defaults with the same names. */
  lemma SaveLoadAruco(s: State, detectorDefaults: map<ArucoKey, Value>)
    requires Saveable(s)
    requires forall a :: a in detectorDefaults <==> a in ArucoOrder()
    ensures FieldsPresent(s.fields) && ArucoPresent(s.aruco)
    ensures LoadAruco(SaveFile(s), detectorDefaults) == s.aruco
  {
    KnownKeys();
    ArucoRoundTripOver(ArucoOrder(), s.aruco, ArucoEntries(s.aruco), detectorDefaults);
  }

  /** The saved rotation matrix is readable and reads back as the rotation. */
  lemma SaveLoadRotation(s: State, current: Rotation)
    requires FieldsPresent(s.fields) && ArucoPresent(s.aruco)
    ensures RotationReadable(SaveFile(s))
    ensures ReadRotation(SaveFile(s), current) == s.wrotation
  {
  }

  /** Loading what was saved, into an object holding the same fields and no boards,
    * restores the state. */
  lemma {:induction false} SaveLoadRoundTrip(s: State, blank: State, detectorDefaults: map<ArucoKey, Value>)
    requires Saveable(s)
    requires forall f :: f in blank.fields <==> f in FieldOrder()
    requires blank.trackers == [] && !blank.chinese
    requires forall a :: a in detectorDefaults <==> a in ArucoOrder()
    ensures FieldsPresent(s.fields) && ArucoPresent(s.aruco)
    ensures RotationReadable(SaveFile(s))
    ensures LoadState(blank, SaveFile(s), detectorDefaults) == s
  {
    var fs := SaveFile(s);
    KnownKeys();
    SaveLoadFields(s, blank.fields);
    SaveLoadAruco(s, detectorDefaults);
    BoardsRoundTrip(s.trackers, fs);
    SaveLoadRotation(s, blank.wrotation);
    assert Plain(CameraAddr) in fs;
  }

  /** The initial members of a new object, before its constructor loads the file. */
  function InitialState(detectorDefaults: map<ArucoKey, Value>): (s: State)
    ensures forall f :: f in s.fields <==> f in FieldOrder()
    ensures forall f :: f in s.fields ==> s.fields[f] == FieldInitial(f)
    ensures s.aruco == detectorDefaults && s.trackers == [] && !s.chinese
  {
    State(map f | f in FieldOrder() :: FieldInitial(f),
          detectorDefaults, Rotation(0.0, 0.0, 0.0, 0.0), [], false)
  }

  /** The loop over `arucoParams`: every listed parameter read from the node. */
  method ReadArucoNode(base: map<ArucoKey, Value>, node: Value, order: seq<ArucoKey>) returns (r: map<ArucoKey, Value>)
    ensures r == ReadAruco(base, node, order)
  {
    r := base;
    for i := 0 to |order|
      invariant r == ReadAruco(base, node, order[..i])
    {
      assert order[..i + 1][..i] == order[..i];
      var a := order[i];
      var v := match Child(node, Detector(a)) case Some(x) => x case None => ArucoZero(a);
      r := r[a := v];
    }
    assert order[..|order|] == order;
  }

  /** The plain field reads, in order. */
  method ReadFieldsInOrder(m: map<FieldKey, Value>, fs: File, order: seq<FieldKey>) returns (r: map<FieldKey, Value>)
    ensures r == ReadFields(m, fs, order)
  {
    r := m;
    for i := 0 to |order|
      invariant r == ReadFields(m, fs, order[..i])
    {
      assert order[..i + 1][..i] == order[..i];
      r := r[order[i] := ReadField(fs, order[i])];
    }
    assert order[..|order|] == order;
  }

  /** One board: its ids and each child of `trackerCorners` pushed in order. */
  method ReadBoard(item: Value) returns (b: Board)
    ensures b == BoardOf(item)
  {
    var ids := match Child(item, TrackerIds) case Some(x) => x case None => List([]);
    var boardCorners: seq<Value> := [];
    match Child(item, TrackerCorners) {
      case Some(c) =>
        var cs := Children(c);
        for j := 0 to |cs|
          invariant boardCorners == cs[..j]
        {
          boardCorners := boardCorners + [cs[j]];
        }
        assert cs[..|cs|] == cs;
      case None =>
    }
    b := Board(ids, boardCorners);
  }

  /** The loop over `trackers`, pushing each board after the ones held. */
  method ReadTrackers(held: seq<Board>, fs: File) returns (r: seq<Board>)
    ensures r == held + ReadBoards(fs)
  {
    r := held;
    if Trackers in fs {
      var items := Children(fs[Trackers]);
      for i := 0 to |items|
        invariant r == held + ReadBoards(fs)[..i]
      {
        var b := ReadBoard(items[i]);
        assert ReadBoards(fs)[..i + 1] == ReadBoards(fs)[..i] + [b];
        r := r + [b];
      }
      assert ReadBoards(fs)[..|items|] == ReadBoards(fs);
    }
  }

  /** The `arucoParams` block `Save` writes. */
  method WriteAruco(aruco: map<ArucoKey, Value>) returns (node: Value)
    requires ArucoPresent(aruco)
    ensures node == Map(ArucoEntries(aruco))
  {
    var entries: seq<(Key, Value)> := [];
    for i := 0 to |ArucoOrder()|
      invariant entries == ArucoEntries(aruco)[..i]
    {
      assert ArucoEntries(aruco)[..i + 1] == entries + [(Detector(ArucoOrder()[i]), aruco[ArucoOrder()[i]])];
      entries := entries + [(Detector(ArucoOrder()[i]), aruco[ArucoOrder()[i]])];
    }
    assert ArucoEntries(aruco)[..|ArucoOrder()|] == ArucoEntries(aruco);
    node := Map(entries);
  }

  /** One `tracker_<i>` block. */
  method WriteBoard(b: Board) returns (node: Value)
    ensures node == BoardNode(b)
  {
    var cs: seq<(Key, Value)> := [];
    for j := 0 to |b.corners|
      invariant cs == CornerEntries(b.corners)[..j]
    {
      assert CornerEntries(b.corners)[..j + 1] == cs + [(CornerItem(j), b.corners[j])];
      cs := cs + [(CornerItem(j), b.corners[j])];
    }
    assert CornerEntries(b.corners)[..|b.corners|] == CornerEntries(b.corners);
    node := Map([(TrackerIds, b.ids), (TrackerCorners, Map(cs))]);
  }

  /** The `trackers` block. */
  method WriteTrackers(trackers: seq<Board>) returns (node: Value)
    ensures node == Map(TrackerEntries(trackers))
  {
    var boards: seq<(Key, Value)> := [];
    for i := 0 to |trackers|
      invariant boards == TrackerEntries(trackers)[..i]
    {
      var n := WriteBoard(trackers[i]);
      assert TrackerEntries(trackers)[..i + 1] == boards + [(TrackerItem(i), n)];
      boards := boards + [(TrackerItem(i), n)];
    }
    assert TrackerEntries(trackers)[..|trackers|] == TrackerEntries(trackers);
    node := Map(boards);
  }

  /** `Parameters`. */
  class Parameters {
    var fields: map<FieldKey, Value>
    var aruco: map<ArucoKey, Value>
    var wrotation: Rotation
    var trackers: seq<Board>
    var chinese: bool
    /** What `DetectorParameters::create()` returns. */
    const detectorDefaults: map<ArucoKey, Value>

    function Snapshot(): State
      reads this
    {
      State(fields, aruco, wrotation, trackers, chinese)
    }

    /** `Parameters()`: the member initialisers, then `Load`. */
    constructor (fs: File, detectorDefaults: map<ArucoKey, Value>)
      requires RotationReadable(fs)
      ensures Snapshot() == LoadState(InitialState(detectorDefaults), fs, detectorDefaults)
      ensures this.detectorDefaults == detectorDefaults
    {
      var s := InitialState(detectorDefaults);
      fields, aruco, wrotation, trackers, chinese := s.fields, s.aruco, s.wrotation, s.trackers, s.chinese;
      this.detectorDefaults := detectorDefaults;
      new;
      Load(fs);
    }

    /** `Load`. */
    method Load(fs: File)
      requires RotationReadable(fs)
      modifies this
      ensures Snapshot() == LoadState(old(Snapshot()), fs, detectorDefaults)
    {
      if Plain(CameraAddr) in fs {
        ReadFile(fs);
      }
      if SelectsChinese(fields) {
        chinese := true;
      }
    }

    /** The part of `Load` that runs when the file has `cameraAddr`: every
      * member is read in turn. */
    method ReadFile(fs: File)
      requires RotationReadable(fs) && Plain(CameraAddr) in fs
      modifies this
      ensures fields == ReadFields(old(fields), fs, FieldOrder())
      ensures aruco == LoadAruco(fs, detectorDefaults)
      ensures wrotation == ReadRotation(fs, old(wrotation))
      ensures trackers == old(trackers) + ReadBoards(fs)
      ensures chinese == old(chinese)
    {
      fields := ReadFieldsInOrder(fields, fs, FieldOrder());
      aruco := ArucoBase(detectorDefaults);
      if ArucoParams in fs {
        aruco := ReadArucoNode(aruco, fs[ArucoParams], ArucoOrder());
      }
      wrotation := ReadRotation(fs, wrotation);
      trackers := ReadTrackers(trackers, fs);
      assert aruco == LoadAruco(fs, detectorDefaults);
    }

    /** `Save`: writes the file and then selects the language table afresh. */
    method Save() returns (file: File)
      requires FieldsPresent(fields) && ArucoPresent(aruco)
      modifies this
      ensures file == SaveFile(old(Snapshot()))
      ensures Snapshot() == old(Snapshot()).(chinese := SelectsChinese(fields))
    {
      file := map k | k in PlainKeys() :: fields[k.field];
      var node := WriteAruco(aruco);
      file := file[ArucoParams := node];
      file := file[WRotation := RotationNode(wrotation)];
      node := WriteTrackers(trackers);
      file := file[Trackers := node];
      chinese := SelectsChinese(fields);
    }
  }

  /** After construction the Chinese table is chosen exactly when
    * `languageSelection` is 1. */
  lemma ConstructedLanguage(fs: File, detectorDefaults: map<ArucoKey, Value>)
    requires RotationReadable(fs)
    ensures var t := LoadState(InitialState(detectorDefaults), fs, detectorDefaults);
      t.chinese <==> SelectsChinese(t.fields)
  {
  }

  /** A file without `cameraAddr` leaves every member but the language alone. */
  lemma LoadWithoutAddress(s: State, fs: File, detectorDefaults: map<ArucoKey, Value>)
    requires RotationReadable(fs) && Plain(CameraAddr) !in fs
    ensures LoadState(s, fs, detectorDefaults).(chinese := s.chinese) == s
  {
  }
}
