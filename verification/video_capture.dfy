/** The camera front end of the tracker (`tracker::VideoCapture`): it turns the
  * configured camera address into a device index, builds the Linux GStreamer
  * pipeline, chooses which backend to open, and applies the capture options.
  * The camera backends themselves are outside the model: the outcome of every
  * open request is given by a parameter. */
module VideoCapture {
  import opened Wrappers
  import Text

  /** OpenCV's backend identifiers used by the camera front end, and the
    * application's own identifier for the PS3 Eye driver. */
  const CAP_ANY: int := 0
  const CAP_GSTREAMER: int := 1800
  const CAP_PS3EYE: int := 9100

  /** Camera settings as configured (`cfg::Camera`). */
  datatype Extra = Extra(enabled: bool, exposure: real, autoExposure: real, gain: real)
  datatype CameraInfo = CameraInfo(
    address: string, width: int, height: int, fps: int, api: int,
    openDirectShowSettings: bool, extraSettings: Extra)

  // ---------------------------------------------------------------------------
  // Address parsing and the GStreamer pipeline (pure)
  // ---------------------------------------------------------------------------

  /** A camera address is a device index when the whole text is a base-10 `int`
    * that is not negative. */
  function AddressToIndex(address: string): (r: Option<nat>)
    ensures r.Some? ==> |address| > 0 && r.value <= Text.INT_MAX
    ensures r.Some? && Text.AllDigits(address) ==> r.value == Text.DecimalValue(address)
    ensures r.Some? && !Text.AllDigits(address) ==> address[0] == '-' && r.value == 0
  {
    var r := Text.WholeNonNegative(address);
    if r.Some? then Text.WholeNonNegativeAccepts(address); r else r
  }

  /** Every index that fits an `int`, written in decimal, is read back. */
  lemma IndexRoundTrip(index: nat)
    requires index <= Text.INT_MAX
    ensures AddressToIndex(Text.NatToString(index)) == Some(index)
  {
    Text.NatToStringAccepted(index);
  }

  /** The accepted examples of the address parser: "0", "1" and "015". */
  lemma AddressToIndexAccepts()
    ensures AddressToIndex("0") == Some(0)
    ensures AddressToIndex("1") == Some(1)
    ensures AddressToIndex("015") == Some(15)
  {
    assert Text.LeadingDigits("0"[1..]) == 0;
    assert Text.LeadingDigits("1"[1..]) == 0;
    assert Text.LeadingDigits("015"[3..]) == 0;
    assert Text.LeadingDigits("015"[2..]) == 1;
    assert Text.LeadingDigits("015"[1..]) == 2;
    assert "015"[0..][..3] == "015";
    assert Text.DecimalValue("015"[..2]) == 1 by {
      assert "015"[..2][..1] == "0";
      assert Text.DecimalValue("0"[..0]) == 0;
    }
  }

  /** The rejected examples: the empty address, a negative number and a number
    * followed by text. */
  lemma AddressToIndexRejects()
    ensures AddressToIndex("") == None
    ensures AddressToIndex("-1") == None
    ensures AddressToIndex("1two") == None
  {
    assert Text.LeadingDigits("-1"[1..][1..]) == 0;
    assert Text.LeadingDigits("1two"[1..]) == 0;
    assert "-1"[1..][..1] == "1";
    assert Text.DecimalValue("1") == 1 by { assert "1"[..0] == []; }
  }

  /** `from_chars` reads "-0" as the integer zero, so that address opens device 0. */
  lemma NegativeZeroIsDeviceZero()
    ensures AddressToIndex("-0") == Some(0)
  {
    assert Text.LeadingDigits("-0"[1..][1..]) == 0;
    assert "-0"[1..][..1] == "0";
    assert Text.DecimalValue("0") == 0 by { assert "0"[..0] == []; }
  }

  /** One optional caps field: present with its value only when the value is positive. */
  function CapsField(name: string, value: int, suffix: string): (s: string)
    ensures value > 0 ==> s == "," + name + "=" + Text.NatToString(value) + suffix
    ensures value <= 0 ==> s == []
  {
    if value > 0 then "," + name + "=" + Text.IntToString(value) + suffix else ""
  }

  /** The caps restricting the JPEG stream: width, height and frame rate, each
    * only when it is set. */
  function Caps(width: int, height: int, fps: int): string
  {
    CapsField("width", width, "") + CapsField("height", height, "") + CapsField("framerate", fps, "/1")
  }

  /** The `v4l2src` pipeline that decodes MJPG before handing frames to the
    * application. */
  function CreateGStreamerPipeline(index: int, width: int, height: int, fps: int): string
  {
    "v4l2src device=/dev/video" + Text.IntToString(index) + " ! image/jpeg" + Caps(width, height, fps)
      + " ! jpegdec ! video/x-raw,format=I420 ! videoconvert ! appsink"
  }

  /** The caps are empty exactly when no setting is positive. */
  lemma CapsEmpty(width: int, height: int, fps: int)
    ensures Caps(width, height, fps) == [] <==> width <= 0 && height <= 0 && fps <= 0
  {
    if width > 0 { assert |CapsField("width", width, "")| > 0; }
    if height > 0 { assert |CapsField("height", height, "")| > 0; }
    if fps > 0 { assert |CapsField("framerate", fps, "/1")| > 0; }
  }

  /** A setting that is zero or negative is treated as unset. */
  lemma CapsIgnoreNonPositive(width: int, height: int, fps: int)
    ensures Caps(width, height, fps)
         == Caps(if width > 0 then width else 0, if height > 0 then height else 0, if fps > 0 then fps else 0)
  {
  }

  /** The decimal forms used by the pipeline example. */
  lemma DigitsExample()
    ensures Text.IntToString(3) == "3" && Text.IntToString(15) == "15" && Text.IntToString(30) == "30"
  {
    assert Text.NatToString(15) == "15" by { assert Text.NatToString(1) == "1"; }
    assert Text.NatToString(30) == "30" by { assert Text.NatToString(3) == "3"; }
  }

  /** Width 15, no height and 30 frames per second give two caps fields. */
  lemma CapsExample()
    ensures Caps(15, 0, 30) == ",width=15,framerate=30/1"
  {
    DigitsExample();
  }

  /** The pipeline for device 3 at width 15, no height and 30 frames per second. */
  lemma PipelineExample()
    ensures CreateGStreamerPipeline(3, 15, 0, 30)
         == "v4l2src device=/dev/video3 ! image/jpeg" + ",width=15,framerate=30/1"
            + " ! jpegdec ! video/x-raw,format=I420 ! videoconvert ! appsink"
  {
    DigitsExample();
    CapsExample();
  }

  // ---------------------------------------------------------------------------
  // Opening a capture
  // ---------------------------------------------------------------------------

  /** What a capture was asked to open: a PS3 Eye by index, an OpenCV device by
    * index and backend, a GStreamer pipeline, or an address (URL or file). */
  datatype Source =
    | PSEye(index: nat)
    | Device(index: nat, api: int)
    | Pipeline(description: string)
    | Url(address: string, api: int)

  /** How an open request ended; `Threw` is an exception out of the backend. */
  datatype Outcome = Opened | Failed | Threw

  /** The object held by the capture pointer: which driver it is and whether it
    * is open. */
  datatype Capture = Capture(ps3eye: bool, open: bool)

  /** The sources to try, in order, for a camera: the GStreamer pipeline comes
    * first only on Linux, for a numeric address and the ANY or GSTREAMER backend. */
  function Candidates(info: CameraInfo, linux: bool): seq<Source>
  {
    var index := AddressToIndex(info.address);
    if info.api == CAP_PS3EYE then (if index.Some? then [PSEye(index.value)] else [])
    else OtherCandidates(index, info, linux)
  }

  /** The sources to try for any backend but PS3EYE, given the address read
    * as an index or not. */
  function OtherCandidates(index: Option<nat>, info: CameraInfo, linux: bool): seq<Source>
  {
    match index
    case None => [Url(info.address, info.api)]
    case Some(i) =>
      if linux && (info.api == CAP_ANY || info.api == CAP_GSTREAMER) then
        [Pipeline(CreateGStreamerPipeline(i, info.width, info.height, info.fps)), Device(i, info.api)]
      else [Device(i, info.api)]
  }

  /** The open requests actually made: candidates in order, up to and including
    * the first that does not fail. */
  function Tried(cands: seq<Source>, opens: Source -> Outcome): (t: seq<Source>)
    ensures t <= cands
    ensures forall k :: 0 <= k < |t| - 1 ==> opens(t[k]) == Failed
    ensures |t| < |cands| ==> |t| > 0 && opens(t[|t| - 1]) != Failed
  {
    if cands == [] then []
    else if opens(cands[0]) != Failed then [cands[0]]
    else [cands[0]] + Tried(cands[1..], opens)
  }

  /** The outcome of the whole attempt: that of the last request, or `Failed`
    * when nothing was tried. */
  function Final(t: seq<Source>, opens: Source -> Outcome): Outcome
  {
    if t == [] then Failed else opens(t[|t| - 1])
  }

  /** No request among `s` opened or threw. */
  predicate AllFailed(s: seq<Source>, opens: Source -> Outcome)
  {
    forall j :: 0 <= j < |s| ==> opens(s[j]) == Failed
  }

  /** A successful capture names the candidate that opened: every one before it
    * failed without an exception. */
  lemma OpenedHasWitness(cands: seq<Source>, opens: Source -> Outcome)
    requires Final(Tried(cands, opens), opens) == Opened
    ensures var k := |Tried(cands, opens)| - 1;
      0 <= k < |cands| && opens(cands[k]) == Opened && AllFailed(cands[..k], opens)
  {
    var t := Tried(cands, opens);
    var k := |t| - 1;
    assert cands[..k] == t[..k];
  }

  /** Conversely, a candidate that opens after only failures makes the capture
    * succeed, and it is the last request made. */
  lemma WitnessOpens(cands: seq<Source>, opens: Source -> Outcome, k: nat)
    requires k < |cands| && opens(cands[k]) == Opened && AllFailed(cands[..k], opens)
    ensures |Tried(cands, opens)| == k + 1
    ensures Final(Tried(cands, opens), opens) == Opened
  {
    var t := Tried(cands, opens);
    if |t| <= k {
      assert false;
    } else if |t| > k + 1 {
      assert false;
    }
  }

  /** The requests made for one or two candidates. */
  lemma TriedShort(cands: seq<Source>, opens: Source -> Outcome)
    ensures |cands| == 1 ==> Tried(cands, opens) == cands
    ensures |cands| == 2 ==> Tried(cands, opens) == if opens(cands[0]) == Failed then cands else cands[..1]
  {
    if |cands| == 2 && opens(cands[0]) == Failed {
      assert Tried(cands[1..], opens) == cands[1..];
      assert cands == [cands[0]] + cands[1..];
    }
  }

  /** With the PS3 Eye backend an address that is not a device index opens nothing
    * and fails. */
  lemma PS3EyeNeedsIndex(info: CameraInfo, linux: bool, opens: Source -> Outcome)
    requires info.api == CAP_PS3EYE && AddressToIndex(info.address).None?
    ensures Tried(Candidates(info, linux), opens) == []
    ensures Final(Tried(Candidates(info, linux), opens), opens) == Failed
  {
  }

  /** A pipeline is only ever requested on Linux for a numeric address with the ANY
    * or GSTREAMER backend, and then it is the first request. */
  lemma PipelineOnlyFirst(info: CameraInfo, linux: bool, k: nat)
    requires k < |Candidates(info, linux)| && Candidates(info, linux)[k].Pipeline?
    ensures k == 0 && linux && AddressToIndex(info.address).Some?
    ensures info.api == CAP_ANY || info.api == CAP_GSTREAMER
  {
  }

  /** On Linux with a numeric address and the ANY or GSTREAMER backend, the device
    * is opened directly only after the pipeline failed. */
  lemma PipelineBeforeDevice(info: CameraInfo, opens: Source -> Outcome)
    requires AddressToIndex(info.address).Some?
    requires info.api == CAP_ANY || info.api == CAP_GSTREAMER
    ensures var t := Tried(Candidates(info, true), opens);
      var i := AddressToIndex(info.address).value;
      t[0] == Pipeline(CreateGStreamerPipeline(i, info.width, info.height, info.fps))
      && (Device(i, info.api) in t <==> opens(t[0]) == Failed)
  {
  }

  /** An address that is not a device index is opened as a URL with the configured
    * backend, once (unless the backend is the PS3 Eye). */
  lemma AddressOpenedAsUrl(info: CameraInfo, linux: bool, opens: Source -> Outcome)
    requires AddressToIndex(info.address).None? && info.api != CAP_PS3EYE
    ensures Tried(Candidates(info, linux), opens) == [Url(info.address, info.api)]
  {
  }

  /** Capture properties written by `SetCaptureOptions`. */
  datatype Prop = FrameWidth | FrameHeight | Fps | Settings | Autofocus | AutoExposure | Exposure | Gain | FourCC

  /** `cv::VideoWriter::fourcc('M', 'J', 'P', 'G')`: the four characters packed
    * little-endian. */
  const MJPG: int := 0x47504A4D

  lemma MJPGIsFourCC()
    ensures MJPG == 'M' as int + 'J' as int * 0x100 + 'P' as int * 0x1_0000 + 'G' as int * 0x100_0000
  {
  }

  /** Size and frame rate, written unless the Linux pipeline already set them. */
  function SizeOptions(info: CameraInfo, linux: bool): seq<(Prop, real)>
  {
    if linux && (info.api == CAP_ANY || info.api == CAP_GSTREAMER) then []
    else (if info.width != 0 then [(FrameWidth, info.width as real)] else [])
         + (if info.height != 0 then [(FrameHeight, info.height as real)] else [])
         + [(Fps, info.fps as real)]
  }

  function ExtraOptions(extra: Extra): seq<(Prop, real)>
  {
    if extra.enabled then
      [(Autofocus, 0.0), (AutoExposure, extra.autoExposure), (Exposure, extra.exposure), (Gain, extra.gain)]
    else []
  }

  /** The property writes `SetCaptureOptions` makes, in order. */
  function Options(info: CameraInfo, linux: bool): seq<(Prop, real)>
  {
    SizeOptions(info, linux)
    + (if info.openDirectShowSettings then [(Settings, 1.0)] else [])
    + ExtraOptions(info.extraSettings)
    + [(FourCC, MJPG as real)]
  }

  /** The codec is always requested, last; size and rate are left to the pipeline
    * where it was built, and otherwise the frame rate is always set. */
  lemma OptionsShape(info: CameraInfo, linux: bool)
    ensures var o := Options(info, linux);
      |o| > 0 && o[|o| - 1] == (FourCC, MJPG as real)
      && (forall k :: 0 <= k < |o| - 1 ==> o[k].0 != FourCC)
      && ((linux && (info.api == CAP_ANY || info.api == CAP_GSTREAMER))
          <==> forall k :: 0 <= k < |o| ==> o[k].0 !in {FrameWidth, FrameHeight, Fps})
  {
    var o := Options(info, linux);
    if !(linux && (info.api == CAP_ANY || info.api == CAP_GSTREAMER)) {
      var n := (if info.width != 0 then 1 else 0) + (if info.height != 0 then 1 else 0);
      assert o[n].0 == Fps;
    }
  }

  lemma AppendAssoc<T>(w: seq<T>, a: seq<T>, b: seq<T>, c: seq<T>, d: seq<T>)
    ensures w + (a + b + c + d) == w + a + b + c + d
  {
  }

  /** One configured camera and the capture object the tracker reads from. The
    * backends record the requests they receive in `requests` and `writes`. */
  class VideoCapture {
    const info: CameraInfo
    /** Whether the program was built for Linux. */
    const linux: bool
    /** The capture pointer; `None` once closed. */
    var capture: Option<Capture>
    /** Every open request made, in order. */
    var requests: seq<Source>
    /** Every property written, in order. */
    var writes: seq<(Prop, real)>

    constructor(info: CameraInfo, linux: bool)
      ensures this.info == info && this.linux == linux
      ensures capture == Some(Capture(false, false)) && requests == [] && writes == []
    {
      this.info := info;
      this.linux := linux;
      capture := Some(Capture(false, false));
      requests := [];
      writes := [];
    }

    function IsOpen(): (b: bool)
      reads this
      ensures b ==> capture.Some?
    {
      capture.Some? && capture.value.open
    }

    method Close()
      modifies this
      ensures capture == None && !IsOpen()
      ensures requests == old(requests) && writes == old(writes)
    {
      capture := None;
    }

    /** A frame is delivered when there is a capture, the read succeeds and the
      * frame is not empty; `read` is what the backend returns. */
    method TryReadFrame(read: Option<seq<int>>) returns (ok: bool)
      ensures ok <==> capture.Some? && read.Some? && read.value != []
    {
      ok := capture.Some? && read.Some? && read.value != [];
    }

    /** Opens the device on Linux through the GStreamer pipeline; elsewhere fails
      * without a request. */
    method TryOpenGStreamerCapture(index: nat, opens: Source -> Outcome) returns (r: Outcome)
      modifies this
      ensures linux ==> requests == old(requests) + [Pipeline(CreateGStreamerPipeline(index, info.width, info.height, info.fps))]
      ensures linux ==> r == opens(requests[|requests| - 1])
      ensures !linux ==> requests == old(requests) && r == Failed
      ensures capture == old(capture) && writes == old(writes)
    {
      if linux {
        var p := Pipeline(CreateGStreamerPipeline(index, info.width, info.height, info.fps));
        requests := requests + [p];
        r := opens(p);
      } else {
        r := Failed;
      }
    }

    /** Chooses the driver and backend for the configured address; `opens` is how
      * each backend answers an open request. */
    method TryOpenCapture(opens: Source -> Outcome) returns (r: Outcome)
      modifies this
      ensures requests == old(requests) + Tried(Candidates(info, linux), opens)
      ensures r == Final(Tried(Candidates(info, linux), opens), opens)
      ensures writes == old(writes)
      ensures info.api == CAP_PS3EYE && AddressToIndex(info.address).None? ==> capture == old(capture)
      ensures !(info.api == CAP_PS3EYE && AddressToIndex(info.address).None?) && r != Threw
              ==> capture == Some(Capture(info.api == CAP_PS3EYE, r == Opened))
    {
      var hwIndex := AddressToIndex(info.address);
      TriedShort(Candidates(info, linux), opens);
      if info.api == CAP_PS3EYE {
        if hwIndex.None? {
          return Failed;
        }
        requests := requests + [PSEye(hwIndex.value)];
        r := opens(PSEye(hwIndex.value));
        capture := Some(Capture(true, r == Opened));
        return;
      }
      assert Candidates(info, linux) == OtherCandidates(hwIndex, info, linux);
      r := TryOpenOther(hwIndex, opens);
    }

    /** The part of `TryOpenCapture` for every backend but PS3EYE: with an
      * index, GStreamer first when the backend allows it, then the device;
      * without one, the address as a URL. */
    method TryOpenOther(hwIndex: Option<nat>, opens: Source -> Outcome) returns (r: Outcome)
      modifies this
      ensures requests == old(requests) + Tried(OtherCandidates(hwIndex, info, linux), opens)
      ensures r == Final(Tried(OtherCandidates(hwIndex, info, linux), opens), opens)
      ensures writes == old(writes)
      ensures r != Threw ==> capture == Some(Capture(false, r == Opened))
    {
      capture := Some(Capture(false, false));
      if hwIndex.Some? {
        r := TryOpenIndexed(hwIndex.value, opens);
        return;
      }
      requests := requests + [Url(info.address, info.api)];
      r := opens(Url(info.address, info.api));
      capture := Some(Capture(false, r == Opened));
    }

    /** A numeric address: GStreamer first when the backend allows it, then
      * the device. */
    method TryOpenIndexed(index: nat, opens: Source -> Outcome) returns (r: Outcome)
      modifies this
      ensures requests == old(requests) + Tried(OtherCandidates(Some(index), info, linux), opens)
      ensures r == Final(Tried(OtherCandidates(Some(index), info, linux), opens), opens)
      ensures writes == old(writes)
      ensures r != Threw ==> capture == Some(Capture(false, r == Opened))
    {
      ghost var cands := OtherCandidates(Some(index), info, linux);
      TriedShort(cands, opens);
      var device := Device(index, info.api);
      if info.api == CAP_ANY || info.api == CAP_GSTREAMER {
        r := TryOpenGStreamerCapture(index, opens);
        if r != Failed {
          capture := Some(Capture(false, r == Opened));
          return;
        }
      }
      requests := requests + [device];
      r := opens(device);
      capture := Some(Capture(false, r == Opened));
    }

    method SetCaptureOptions()
      requires capture.Some?
      modifies this
      ensures writes == old(writes) + Options(info, linux)
      ensures capture == old(capture) && requests == old(requests)
    {
      if !(linux && (info.api == CAP_ANY || info.api == CAP_GSTREAMER)) {
        if info.width != 0 { writes := writes + [(FrameWidth, info.width as real)]; }
        if info.height != 0 { writes := writes + [(FrameHeight, info.height as real)]; }
        writes := writes + [(Fps, info.fps as real)];
      }
      assert writes == old(writes) + SizeOptions(info, linux);
      writes := writes + (if info.openDirectShowSettings then [(Settings, 1.0)] else []);
      writes := writes + ExtraOptions(info.extraSettings);
      writes := writes + [(FourCC, MJPG as real)];
      AppendAssoc(old(writes), SizeOptions(info, linux), (if info.openDirectShowSettings then [(Settings, 1.0)] else []),
                  ExtraOptions(info.extraSettings), [(FourCC, MJPG as real)]);
    }

    /** Opens the camera and applies its options; an exception from a backend
      * closes the capture and reports failure. */
    method TryOpen(opens: Source -> Outcome) returns (ok: bool)
      modifies this
      ensures requests == old(requests) + Tried(Candidates(info, linux), opens)
      ensures ok <==> Final(Tried(Candidates(info, linux), opens), opens) == Opened
      ensures ok ==> IsOpen() && writes == old(writes) + Options(info, linux)
      ensures !ok ==> writes == old(writes)
      ensures Final(Tried(Candidates(info, linux), opens), opens) == Threw ==> capture == None
    {
      var r := TryOpenCapture(opens);
      if r == Threw {
        Close();
        return false;
      }
      if r != Opened {
        return false;
      }
      SetCaptureOptions();
      ok := true;
    }
  }
}
