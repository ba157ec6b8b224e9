/** The OpenCV capture built on the PS3 Eye driver, `PSEyeVideoCapture.cpp`:
  * the capture domains an index selects, the PS3EYE capture object (opening
  * a camera in its fixed mode, the property mapping, closing) and
  * `PSEyeVideoCapture::open`, `get` and `set` for a build with the PS3EYE
  * driver and without the CL Eye drivers.
  *
  * Frame retrieval and colour conversion are not part of this model. */
module PsEyeCapture {
  import opened Wrappers
  import opened Ps3EyeFrames
  import opened Ps3EyeCamera
  import Ps3EyeCApi
  import Text
  import CInt

  /** `PSEYE_CAP_PS3EYE`, the one capture domain of this build. */
  const CAP_PS3EYE: int := 2300

  /** OpenCV's property ids the PS3EYE capture maps. */
  const PROP_FRAME_WIDTH: int := 3
  const PROP_FRAME_HEIGHT: int := 4
  const PROP_FPS: int := 5
  const PROP_BRIGHTNESS: int := 10
  const PROP_CONTRAST: int := 11
  const PROP_HUE: int := 13
  const PROP_GAIN: int := 14
  const PROP_EXPOSURE: int := 15
  const PROP_SHARPNESS: int := 20

  // ---------------------------------------------------------------------------
  // C arithmetic
  // ---------------------------------------------------------------------------

  /** `round`: to the nearest integer, halves away from zero. */
  function Round(x: real): (n: int)
    ensures x - 0.5 <= n as real <= x + 0.5
    ensures x >= 0.0 ==> n >= 0
  {
    if x >= 0.0 then (x + 0.5).Floor else -((-x + 0.5).Floor)
  }

  // ---------------------------------------------------------------------------
  // Capture domains
  // ---------------------------------------------------------------------------

  /** The domain table and index `pseyeVideoCapture_create` works with: an
    * index of 100 or more in size names a preferred domain in its
    * hundreds and a camera in the rest. */
  function Domains(index: int): (r: (seq<int>, int))
    ensures |r.0| == 3 && r.0[1] == -1 && r.0[2] == -1
  {
    var pref := CInt.TruncDiv(index, 100) * 100;
    if pref != 0 then ([pref, -1, -1], CInt.TruncRem(index, 100)) else ([CAP_PS3EYE, -1, -1], index)
  }

  /** The domains the loop tries: those before the first negative entry. */
  function Tried(domains: seq<int>, i: nat): (r: seq<int>)
    requires i <= |domains|
    decreases |domains| - i
  {
    if i == |domains| || domains[i] < 0 then [] else [domains[i]] + Tried(domains, i + 1)
  }

  /** The PS3EYE driver is tried for the indexes below 100 in size, with
    * the index unchanged, and for 2300 to 2399, with the index's last two
    * digits; a negative preferred domain stops the loop before any
    * attempt, and any other domain is tried without a capture. */
  lemma DomainDecoding(index: int)
    ensures var (domains, camera) := Domains(index);
            && (CAP_PS3EYE in Tried(domains, 0) <==> -100 < index < 100 || 2300 <= index < 2400)
            && |Tried(domains, 0)| <= 1
            && (-100 < index < 100 ==> camera == index)
            && (index >= 100 ==> camera == index % 100)
            && (index <= -100 ==> Tried(domains, 0) == [])
  {
    var (domains, camera) := Domains(index);
    assert Tried(domains, 1) == [];
    if index <= -100 {
      assert CInt.TruncDiv(index, 100) <= -1;
    } else if index >= 100 {
      assert CInt.TruncDiv(index, 100) >= 1;
      assert 2300 <= index < 2400 <==> CInt.TruncDiv(index, 100) == 23;
    }
  }

  // ---------------------------------------------------------------------------
  // Property mapping
  // ---------------------------------------------------------------------------

  /** What `getProperty` reads from the stored controls: gain and sharpness
    * scaled from [0, 63] to [0, 255]. */
  function ControlProperty(c: Controls, prop: int): (v: Option<real>)
    ensures v.Some? <==> prop in {PROP_BRIGHTNESS, PROP_CONTRAST, PROP_EXPOSURE, PROP_GAIN, PROP_HUE, PROP_SHARPNESS}
  {
    if prop == PROP_BRIGHTNESS then Some(c.brightness as real)
    else if prop == PROP_CONTRAST then Some(c.contrast as real)
    else if prop == PROP_EXPOSURE then Some(c.exposure as real)
    else if prop == PROP_GAIN then Some(c.gain as real * 256.0 / 64.0)
    else if prop == PROP_HUE then Some(c.hue as real)
    else if prop == PROP_SHARPNESS then Some(c.sharpness as real * 256.0 / 64.0)
    else None
  }

  /** A value scaled from [0, 255] to [0, 63]: `(int)(value * 64 / 256)`. */
  function Scaled(value: real): int
  {
    CInt.RealToInt(value * 64.0 / 256.0)
  }

  /** The stored controls after `setProperty` as written: brightness,
    * contrast, exposure and hue take the rounded value, gain the scaled
    * value, and sharpness the rounded value unscaled; each goes through the
    * setter's byte parameter. */
  function ControlsAfterProperty(c: Controls, prop: int, value: real): Controls
  {
    var b := Ps3EyeCApi.ToUint8(Round(value));
    if prop == PROP_BRIGHTNESS then c.(brightness := b)
    else if prop == PROP_CONTRAST then c.(contrast := b)
    else if prop == PROP_EXPOSURE then c.(exposure := b)
    else if prop == PROP_GAIN then c.(gain := Ps3EyeCApi.ToUint8(Scaled(value)))
    else if prop == PROP_HUE then c.(hue := b)
    else if prop == PROP_SHARPNESS then c.(sharpness := b)
    else c
  }

  /** Sharpness as its comment and the gain case intend: the scaled value. */
  function ControlsAfterPropertyCorrected(c: Controls, prop: int, value: real): (r: Controls)
    ensures prop != PROP_SHARPNESS ==> r == ControlsAfterProperty(c, prop, value)
  {
    if prop == PROP_SHARPNESS then c.(sharpness := Ps3EyeCApi.ToUint8(Scaled(value)))
    else ControlsAfterProperty(c, prop, value)
  }

  /** A whole value in [0, 255] set as brightness, contrast, exposure or hue
    * reads back unchanged. */
  lemma PlainPropertyRoundTrip(c: Controls, prop: int, v: int)
    requires prop in {PROP_BRIGHTNESS, PROP_CONTRAST, PROP_EXPOSURE, PROP_HUE}
    requires 0 <= v < 0x100
    ensures ControlProperty(ControlsAfterProperty(c, prop, v as real), prop) == Some(v as real)
  {
    assert Round(v as real) == v;
    StoredByte(v);
  }

  /** A value `v` in [0, 1024) scaled down and back reads as the multiple of
    * four at or just below it. */
  lemma ScaledRoundTrip(v: real)
    requires 0.0 <= v < 1024.0
    ensures var g := Ps3EyeCApi.ToUint8(Scaled(v));
            v - 4.0 < g as real * 256.0 / 64.0 <= v
  {
    var n := Scaled(v);
    assert 0 <= n < 0x100;
    assert Ps3EyeCApi.ToUint8(n) as int == n;
  }

  /** Gain reads back as the value set, to within the step of four the
    * scaling to [0, 63] leaves. */
  lemma GainRoundTrip(c: Controls, v: real)
    requires 0.0 <= v < 1024.0
    ensures var r := ControlProperty(ControlsAfterProperty(c, PROP_GAIN, v), PROP_GAIN);
            r.Some? && v - 4.0 < r.value <= v
  {
    ScaledRoundTrip(v);
  }

  /** As written, sharpness set to 100 reads back as 400: the setter stores
    * the unscaled value and the getter scales it up. */
  lemma SharpnessRoundTripAsWritten(c: Controls)
    ensures ControlProperty(ControlsAfterProperty(c, PROP_SHARPNESS, 100.0), PROP_SHARPNESS) == Some(400.0)
  {
    StoredByte(100);
    assert Round(100.0) == 100;
  }

  /** A byte-sized value passes the setter's byte parameter unchanged. */
  lemma StoredByte(v: int)
    requires 0 <= v < 0x100
    ensures Ps3EyeCApi.ToUint8(v) as int == v
    ensures Ps3EyeCApi.ToUint8(v) as real == v as real
  {
  }

  /** Corrected, sharpness reads back like gain. */
  lemma SharpnessRoundTripCorrected(c: Controls, v: real)
    requires 0.0 <= v < 1024.0
    ensures var r := ControlProperty(ControlsAfterPropertyCorrected(c, PROP_SHARPNESS, v), PROP_SHARPNESS);
            r.Some? && v - 4.0 < r.value <= v
  {
    ScaledRoundTrip(v);
  }

  // ---------------------------------------------------------------------------
  // The PS3EYE capture
  // ---------------------------------------------------------------------------

  /** What `open` does once the camera initialized: start it (nothing
    * happens when it already streams), then switch automatic gain and white
    * balance off and mirror the image. */
  method StartMirrored(camera: Camera, submitted: bool)
    requires camera.Valid() && camera.ModeValid()
    modifies camera, camera.urb, camera.mgr
    ensures camera.Valid() && camera.ModeValid() && camera.isStreaming
    ensures camera.frameWidth == old(camera.frameWidth) && camera.frameHeight == old(camera.frameHeight)
    ensures camera.frameRate == old(camera.frameRate) && camera.frameOutputFormat == old(camera.frameOutputFormat)
    ensures camera.controls == old(camera.controls).(autogain := false, awb := false, flipH := true, flipV := false)
    ensures old(camera.isStreaming) ==> camera.bridge == old(camera.bridge)
    ensures !old(camera.isStreaming) ==> BRIDGE_STREAM in camera.bridge && camera.bridge[BRIDGE_STREAM] == 0x00
  {
    camera.Start(submitted);
    ManualMirrored(camera);
  }

  /** Automatic gain and white balance off, the image mirrored. */
  method ManualMirrored(camera: Camera)
    requires camera.Valid()
    modifies camera`controls, camera`sensor
    ensures camera.Valid()
    ensures camera.controls == old(camera.controls).(autogain := false, awb := false, flipH := true, flipV := false)
  {
    camera.SetAutogain(false);
    camera.SetAutoWhiteBalance(false);
    camera.SetFlip(true, false);
  }

  /** The frame-rate and frame-size cases of `setProperty`: stop, take the
    * new rate if there is one (never refused once stopped), start again. */
  method Restart(camera: Camera, rate: Option<bv8>)
    requires camera.Valid() && camera.ModeValid()
    modifies camera, camera.urb, camera.mgr
    ensures camera.Valid() && camera.ModeValid() && camera.isStreaming
    ensures camera.controls == old(camera.controls)
    ensures camera.frameWidth == old(camera.frameWidth) && camera.frameHeight == old(camera.frameHeight)
    ensures rate.None? ==> camera.frameRate == old(camera.frameRate)
    ensures rate.Some? ==> camera.frameRate == ChosenRate(camera.frameWidth, rate.value as nat).fps
  {
    camera.Stop();
    if rate.Some? {
      var accepted := camera.SetFrameRate(rate.value);
      if !accepted {
        assert false;
      }
    }
    camera.Start(false);
  }

  /** The control cases of `setProperty`, and the default that changes
    * nothing. */
  method SetControlProperty(camera: Camera, prop: int, value: real)
    requires camera.Valid() && camera.ModeValid()
    requires prop != PROP_FPS && prop != PROP_FRAME_HEIGHT && prop != PROP_FRAME_WIDTH
    modifies camera`controls, camera`sensor
    ensures camera.Valid() && camera.ModeValid()
    ensures camera.controls == ControlsAfterProperty(old(camera.controls), prop, value)
  {
    var b := Ps3EyeCApi.ToUint8(Round(value));
    if prop == PROP_BRIGHTNESS {
      camera.SetBrightness(b);
    } else if prop == PROP_CONTRAST {
      camera.SetContrast(b);
    } else if prop == PROP_EXPOSURE {
      camera.SetExposure(b);
    } else if prop == PROP_GAIN {
      camera.SetGain(Ps3EyeCApi.ToUint8(Scaled(value)));
    } else if prop == PROP_HUE {
      camera.SetHue(b);
    } else if prop == PROP_SHARPNESS {
      camera.SetSharpness(b);
    }
  }

  /** `PSEYECaptureCAM_PS3EYE`: the camera index once opened (-1 before),
    * the frame dimensions last read from the camera, and the camera. */
  class Ps3EyeCapture {
    var index: int
    var width: int
    var height: int
    var widthStep: int
    var size: int
    var eye: Camera?

    /** The constructor's member initialisers, before `open`. */
    constructor Empty()
      ensures index == -1 && width == -1 && height == -1 && widthStep == -1 && size == -1 && eye == null
    {
      index, width, height, widthStep, size := -1, -1, -1, -1, -1;
      eye := null;
    }

    /** `isOpened`. */
    predicate IsOpened()
      reads this
    {
      index != -1
    }

    /** `open`: a camera is chosen when the index, taken as unsigned, is
      * below the number of cameras found, and the capture opens when that
      * camera initializes as 640x480 at 15 frames per second in Bayer
      * format. The camera is then started with automatic gain and white
      * balance off and the image mirrored, and the dimensions are read
      * back. The enumeration is cached and `close` leaves the camera
      * streaming, so the camera may already stream: `init` then switches the
      * bridge's stream off and `start` does nothing. `found` is the
      * enumeration; `usb` what opening the device meets; `submitted` whether
      * libusb accepts the transfers. */
    method Open(i: int, found: seq<Camera>, usb: UsbOpen, submitted: bool) returns (ok: bool)
      requires Text.INT_MIN <= i <= Text.INT_MAX && |found| <= Text.INT_MAX
      requires 0 <= i < |found| ==> found[i].Valid() && |found[i].sensor| == 256
      modifies this, if 0 <= i < |found| then {found[i], found[i].urb, found[i].mgr} else {}
      ensures ok <==> 0 <= i < |found| && (old(found[i].hasHandle) || usb == Opens)
      ensures 0 <= i < |found| ==> eye == found[i] && eye.Valid()
      ensures !(0 <= i < |found|) ==> eye == old(eye)
      ensures !ok ==> index == old(index) && width == old(width) && height == old(height)
      ensures !ok ==> widthStep == old(widthStep) && size == old(size)
      ensures ok ==> index == i && eye.isStreaming && eye.ModeValid()
      ensures ok ==> eye.frameWidth == 640 && eye.frameHeight == 480 && eye.frameOutputFormat == Bayer
      ensures ok ==> eye.frameRate == ChosenRate(640, 15).fps
      ensures ok ==> !eye.controls.autogain && !eye.controls.awb && eye.controls.flipH && !eye.controls.flipV
      ensures ok ==> width == 640 && height == 480 && widthStep == 640 && size == 640 * 480
      ensures ok && !old(found[i].isStreaming) ==> BRIDGE_STREAM in eye.bridge && eye.bridge[BRIDGE_STREAM] == 0x00
      ensures ok && old(found[i].isStreaming) ==> BRIDGE_STREAM in eye.bridge && eye.bridge[BRIDGE_STREAM] == 0x09
      ensures !ok && 0 <= i < |found| ==> eye.isStreaming == old(found[i].isStreaming)
    {
      if |found| > i % 0x1_0000_0000 {
        assert 0 <= i < |found|;
        eye := found[i];
        var camera := eye;
        var started := camera.Init(640, 480, 15, Bayer, usb);
        if started {
          StartMirrored(camera, submitted);
          index := i;
          RefreshDimensions();
          return true;
        }
      }
      return false;
    }

    /** `close`: the capture forgets its index; the camera stays as it is. */
    method Close()
      modifies this`index
      ensures index == -1 && !IsOpened()
    {
      index := -1;
    }

    /** `refreshDimensions`: width, row bytes and height from the camera. */
    method RefreshDimensions()
      requires eye != null
      modifies this`width, this`height, this`widthStep, this`size
      ensures width == eye.frameWidth && height == eye.frameHeight
      ensures widthStep == eye.RowBytes() && size == widthStep * height
    {
      width := eye.frameWidth;
      widthStep := eye.RowBytes();
      height := eye.frameHeight;
      size := widthStep * height;
    }

    /** `getProperty`: the stored controls, the frame rate and size, and 0
      * for any other property. */
    function GetProperty(prop: int): (v: real)
      reads this, eye
      requires eye != null
      ensures prop == PROP_FPS ==> v == eye.frameRate as real
      ensures prop == PROP_FRAME_WIDTH ==> v == eye.frameWidth as real
      ensures prop == PROP_FRAME_HEIGHT ==> v == eye.frameHeight as real
      ensures ControlProperty(eye.controls, prop).Some? ==> v == ControlProperty(eye.controls, prop).value
      ensures ControlProperty(eye.controls, prop).None? && prop !in {PROP_FPS, PROP_FRAME_WIDTH, PROP_FRAME_HEIGHT} ==> v == 0.0
    {
      if prop == PROP_FPS then eye.frameRate as real
      else if prop == PROP_FRAME_HEIGHT then eye.frameHeight as real
      else if prop == PROP_FRAME_WIDTH then eye.frameWidth as real
      else match ControlProperty(eye.controls, prop)
        case Some(v) => v
        case None => 0.0
    }

    /** `setProperty`: refused without a camera. The frame rate restarts the
      * camera at the supported rate for the rounded value; a frame size
      * only restarts it; the controls go through their setters. Every
      * other property is accepted and changes nothing. The dimensions are
      * read back afterwards. */
    method SetProperty(prop: int, value: real) returns (ok: bool)
      requires eye != null ==> eye.Valid() && eye.ModeValid() && |eye.sensor| == 256
      modifies this`width, this`height, this`widthStep, this`size
      modifies if eye != null then {eye, eye.urb, eye.mgr} else {}
      ensures ok <==> eye != null
      ensures eye != null ==> eye.Valid() && eye.ModeValid()
      ensures eye != null ==> eye.controls == ControlsAfterProperty(old(eye.controls), prop, value)
      ensures eye != null && prop == PROP_FPS ==>
                eye.isStreaming && eye.frameRate == ChosenRate(eye.frameWidth, Ps3EyeCApi.ToUint8(Round(value)) as nat).fps
      ensures eye != null && prop != PROP_FPS ==> eye.frameRate == old(eye.frameRate)
      ensures eye != null && (prop == PROP_FRAME_WIDTH || prop == PROP_FRAME_HEIGHT) ==> eye.isStreaming
      ensures eye != null ==> eye.frameWidth == old(eye.frameWidth) && eye.frameHeight == old(eye.frameHeight)
      ensures eye != null ==> width == eye.frameWidth && height == eye.frameHeight && size == widthStep * height
    {
      if eye == null {
        return false;
      }
      var camera := eye;
      if prop == PROP_FPS || prop == PROP_FRAME_HEIGHT || prop == PROP_FRAME_WIDTH {
        Restart(camera, if prop == PROP_FPS then Some(Ps3EyeCApi.ToUint8(Round(value))) else None);
      } else {
        SetControlProperty(camera, prop, value);
      }
      RefreshDimensions();
      return true;
    }

    /** `getUniqueIndentifier`: `ps3eye_`, followed by the camera's USB port
      * path when the capture is open and the path fits 128 bytes in full. */
    function UniqueIdentifier(bus: nat, ports: seq<nat>): (s: string)
      reads this, eye
      requires IsOpened() ==> eye != null
      ensures "ps3eye_" <= s
      ensures var full := Ps3EyeCApi.FullPath(bus, ports);
              s == if IsOpened() && eye.IsInitialized() && |ports| > 0 && |full| + 1 <= 128
                   then "ps3eye_" + full else "ps3eye_"
    {
      if IsOpened() then
        var path := Ps3EyeCApi.PortPath(eye.IsInitialized(), bus, ports, 128);
        Ps3EyeCApi.PortPathMeaning(eye.IsInitialized(), bus, ports, 128);
        if path.0 then "ps3eye_" + path.1.value else "ps3eye_"
      else "ps3eye_"
    }
  }

  // ---------------------------------------------------------------------------
  // PSEyeVideoCapture
  // ---------------------------------------------------------------------------

  /** `PSEyeVideoCapture`: the capture object OpenCV delegates to (`icap`)
    * and the identifier filled in when a camera is opened. */
  class VideoCapture {
    var icap: Ps3EyeCapture?
    var identifier: string

    constructor ()
      ensures icap == null && identifier == ""
    {
      icap := null;
      identifier := "";
    }

    /** `isOpened` of the OpenCV base: whether there is a capture object. */
    predicate IsOpened()
      reads this
    {
      icap != null
    }

    /** `pseyeVideoCapture_create`: each domain before the first negative
      * entry is tried in turn; the PS3EYE domain builds a capture, records
      * its identifier and returns it when it opened. */
    method Create(index: int, found: seq<Camera>, usb: UsbOpen, submitted: bool, bus: nat, ports: seq<nat>)
      returns (capture: Ps3EyeCapture?)
      requires Text.INT_MIN <= index <= Text.INT_MAX && |found| <= Text.INT_MAX
      requires forall k :: 0 <= k < |found| ==> found[k].Valid() && |found[k].sensor| == 256
      modifies this`identifier, set k | 0 <= k < |found| :: found[k]
      modifies set k | 0 <= k < |found| :: found[k].urb, set k | 0 <= k < |found| :: found[k].mgr
      ensures var (domains, camera) := Domains(index);
              && (capture != null <==> CAP_PS3EYE in Tried(domains, 0) && 0 <= camera < |found|
                                       && (old(found[camera].hasHandle) || usb == Opens))
              && (capture != null ==> fresh(capture) && capture.IsOpened() && capture.index == camera
                                      && capture.eye == found[camera])
              && (CAP_PS3EYE !in Tried(domains, 0) ==> identifier == old(identifier))
              && (CAP_PS3EYE in Tried(domains, 0) ==> "ps3eye_" <= identifier)
              && (capture != null ==> identifier == capture.UniqueIdentifier(bus, ports))
    {
      var (domains, camera) := Domains(index);
      DomainDecoding(index);
      var i := 0;
      while domains[i] >= 0
        invariant 0 <= i <= 1
        invariant i == 1 ==> Tried(domains, 0) == [domains[0]] && domains[0] != CAP_PS3EYE
        invariant i == 1 ==> identifier == old(identifier)
        invariant i == 0 ==> identifier == old(identifier)
        invariant unchanged(set k | 0 <= k < |found| :: found[k])
        decreases 2 - i
      {
        if domains[i] == CAP_PS3EYE {
          capture := new Ps3EyeCapture.Empty();
          var _ := capture.Open(camera, found, usb, submitted);
          identifier := capture.UniqueIdentifier(bus, ports);
          if capture.IsOpened() {
            return capture;
          }
          return null;
        }
        i := i + 1;
      }
      return null;
    }

    /** `PSEyeVideoCapture::open`: an open capture is released first; the
      * result is whether the PS3EYE capture opened. */
    method Open(index: int, found: seq<Camera>, usb: UsbOpen, submitted: bool, bus: nat, ports: seq<nat>)
      returns (ok: bool)
      requires Text.INT_MIN <= index <= Text.INT_MAX && |found| <= Text.INT_MAX
      requires forall k :: 0 <= k < |found| ==> found[k].Valid() && |found[k].sensor| == 256
      modifies this, set k | 0 <= k < |found| :: found[k]
      modifies set k | 0 <= k < |found| :: found[k].urb, set k | 0 <= k < |found| :: found[k].mgr
      ensures ok == IsOpened()
      ensures var (domains, camera) := Domains(index);
              ok <==> CAP_PS3EYE in Tried(domains, 0) && 0 <= camera < |found|
                      && (old(found[camera].hasHandle) || usb == Opens)
      ensures ok ==> icap.eye == found[Domains(index).1] && icap.IsOpened()
    {
      if IsOpened() {
        icap := null;
      }
      icap := Create(index, found, usb, submitted, bus, ports);
      return icap != null;
    }

    /** `get`: the capture's property, or 0 without one. */
    function Get(prop: int): (v: real)
      reads this, icap, if icap != null then {icap.eye} else {}
      requires icap != null ==> icap.eye != null
      ensures icap == null ==> v == 0.0
      ensures icap != null ==> v == icap.GetProperty(prop)
    {
      if icap == null then 0.0 else icap.GetProperty(prop)
    }

    /** `set`: the capture's `setProperty`, or refused without one. */
    method Set(prop: int, value: real) returns (ok: bool)
      requires icap != null && icap.eye != null ==> icap.eye.Valid() && icap.eye.ModeValid() && |icap.eye.sensor| == 256
      modifies if icap != null then {icap} else {}
      modifies if icap != null && icap.eye != null then {icap.eye, icap.eye.urb, icap.eye.mgr} else {}
      ensures icap == old(icap) && (icap != null ==> icap.eye == old(icap.eye))
      ensures ok <==> icap != null && icap.eye != null
      ensures ok ==> icap.eye.controls == ControlsAfterProperty(old(icap.eye.controls), prop, value)
    {
      if icap == null {
        return false;
      }
      ok := icap.SetProperty(prop, value);
    }
  }
}
