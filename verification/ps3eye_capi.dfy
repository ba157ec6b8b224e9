/** The C interface of the PS3 Eye driver, `ps3eye_capi.cpp`: one global
  * context holding the enumerated cameras and the handles opened on them,
  * the numbered parameters read and written through a handle, and the USB
  * port path that names a camera.
  *
  * The global context pointer is the `Library` object; device enumeration
  * and what libusb reports (bus and port numbers, whether a device opens)
  * are parameters. */
module Ps3EyeCApi {
  import opened Wrappers
  import opened Ps3EyeFrames
  import opened Ps3EyeCamera
  import Text

  // ---------------------------------------------------------------------------
  // Parameters
  // ---------------------------------------------------------------------------

  /** `ps3eye_parameter`, numbered from 0 in this order. */
  datatype Parameter =
    | AutoGain | Gain | AutoWhiteBalance | Exposure | Sharpness | Contrast | Brightness
    | Hue | RedBalance | BlueBalance | GreenBalance | HFlip | VFlip

  const PARAMETERS: seq<Parameter> :=
    [AutoGain, Gain, AutoWhiteBalance, Exposure, Sharpness, Contrast, Brightness,
     Hue, RedBalance, BlueBalance, GreenBalance, HFlip, VFlip]

  /** The parameter an enum value names; any other value reaches the
    * `default` of the switches. */
  function ParameterOf(i: int): (r: Option<Parameter>)
    ensures r.Some? <==> 0 <= i < 13
    ensures r.Some? ==> r.value == PARAMETERS[i]
  {
    if 0 <= i < |PARAMETERS| then Some(PARAMETERS[i]) else None
  }

  /** The parameters that are switches: set by `value > 0`, read as 0 or 1. */
  predicate IsSwitch(p: Parameter)
  {
    p == AutoGain || p == AutoWhiteBalance || p == HFlip || p == VFlip
  }

  /** `(uint8_t)value`: the value modulo 256. */
  function ToUint8(value: int): (b: bv8)
    ensures b as int == value % 0x100
  {
    var n := value % 0x100;
    Combine(Nibble(n / 0x10), Nibble(n % 0x10))
  }

  /** A byte from its high and low four bits. */
  function Combine(high: bv8, low: bv8): (b: bv8)
    requires high as int < 0x10 && low as int < 0x10
    ensures b as int == 0x10 * high as int + low as int
  {
    high * 0x10 + low
  }

  /** A number below 16 as a byte. */
  function Nibble(n: nat): (b: bv8)
    requires n < 0x10
    ensures b as int == n
  {
    n as bv8
  }

  function Switch(b: bool): int { if b then 1 else 0 }

  /** What `ps3eye_get_parameter` reads from the stored controls. */
  function ParameterValue(c: Controls, p: Parameter): (v: int)
    ensures IsSwitch(p) ==> v == 0 || v == 1
    ensures !IsSwitch(p) ==> 0 <= v < 0x100
  {
    match p
    case AutoGain => Switch(c.autogain)
    case Gain => c.gain as int
    case AutoWhiteBalance => Switch(c.awb)
    case Exposure => c.exposure as int
    case Sharpness => c.sharpness as int
    case Contrast => c.contrast as int
    case Brightness => c.brightness as int
    case Hue => c.hue as int
    case RedBalance => c.redBlc as int
    case BlueBalance => c.blueBlc as int
    case GreenBalance => c.greenBlc as int
    case HFlip => Switch(c.flipH)
    case VFlip => Switch(c.flipV)
  }

  /** The stored controls after `ps3eye_set_parameter`: a switch takes
    * `value > 0`, any other parameter the value truncated to a byte, and an
    * unknown parameter changes nothing. */
  function ControlsAfter(c: Controls, param: int, value: int): Controls
  {
    match ParameterOf(param)
    case None => c
    case Some(p) =>
      var on := value > 0;
      var b := ToUint8(value);
      match p
      case AutoGain => c.(autogain := on)
      case Gain => c.(gain := b)
      case AutoWhiteBalance => c.(awb := on)
      case Exposure => c.(exposure := b)
      case Sharpness => c.(sharpness := b)
      case Contrast => c.(contrast := b)
      case Brightness => c.(brightness := b)
      case Hue => c.(hue := b)
      case RedBalance => c.(redBlc := b)
      case BlueBalance => c.(blueBlc := b)
      case GreenBalance => c.(greenBlc := b)
      case HFlip => c.(flipH := on)
      case VFlip => c.(flipV := on)
  }

  /** Reading a parameter back after setting it gives the value as stored
    * (a switch as 0 or 1, any other parameter modulo 256), and every other
    * parameter keeps its value. */
  lemma SetThenGet(c: Controls, p: Parameter, value: int, q: Parameter)
    ensures var i := ParameterIndex(p);
            var after := ControlsAfter(c, i, value);
            && ParameterValue(after, p) == (if IsSwitch(p) then Switch(value > 0) else value % 0x100)
            && (q != p ==> ParameterValue(after, q) == ParameterValue(c, q))
  {
    var i := ParameterIndex(p);
    assert ParameterOf(i) == Some(p);
  }

  /** The enum value of a parameter. */
  function ParameterIndex(p: Parameter): (i: nat)
    ensures i < 13 && PARAMETERS[i] == p
  {
    match p
    case AutoGain => 0
    case Gain => 1
    case AutoWhiteBalance => 2
    case Exposure => 3
    case Sharpness => 4
    case Contrast => 5
    case Brightness => 6
    case Hue => 7
    case RedBalance => 8
    case BlueBalance => 9
    case GreenBalance => 10
    case HFlip => 11
    case VFlip => 12
  }

  /** An unknown parameter is read as -1 and written as nothing. */
  lemma UnknownParameter(c: Controls, param: int, value: int)
    requires param < 0 || param >= 13
    ensures ControlsAfter(c, param, value) == c
  {
  }

  // ---------------------------------------------------------------------------
  // USB port path
  // ---------------------------------------------------------------------------

  /** One port of the path: `_p<n>` for the first, `.<n>` after it. */
  function PortPiece(first: bool, port: nat): (s: string)
    ensures |s| >= 2
  {
    (if first then "_p" else ".") + Text.NatToString(port)
  }

  /** The pieces of the ports from `i` on. */
  function Pieces(ports: seq<nat>, i: nat): string
    requires i <= |ports|
    decreases |ports| - i
  {
    if i == |ports| then "" else PortPiece(i == 0, ports[i]) + Pieces(ports, i + 1)
  }

  /** `b<bus>` followed by every port: the identifier when the buffer is
    * large enough. */
  function FullPath(bus: nat, ports: seq<nat>): string
  {
    "b" + Text.NatToString(bus) + Pieces(ports, 0)
  }

  /** The appending loop of `getUSBPortPath` from port `i`: each piece is
    * appended while it fits with the terminating zero, and the first that
    * does not fit stops the loop with failure. */
  function AppendPorts(out: string, ports: seq<nat>, i: nat, maxLen: nat): (r: (bool, string))
    requires i <= |ports|
    decreases |ports| - i
  {
    if i == |ports| then (true, out)
    else
      var piece := PortPiece(i == 0, ports[i]);
      if |out| + |piece| + 1 <= maxLen then AppendPorts(out + piece, ports, i + 1, maxLen)
      else (false, out)
  }

  /** `getUSBPortPath`: nothing is written for a camera that is not
    * initialized; otherwise the buffer holds `b<bus>` cut to fit, followed
    * by the ports that fit, and success needs at least one port and every
    * port to fit. */
  function PortPath(initialized: bool, bus: nat, ports: seq<nat>, maxLen: nat): (r: (bool, Option<string>))
    requires maxLen >= 1
  {
    if !initialized then (false, None)
    else
      var b := "b" + Text.NatToString(bus);
      var start := if |b| <= maxLen - 1 then b else b[..maxLen - 1];
      if |ports| == 0 then (false, Some(start))
      else
        var (ok, out) := AppendPorts(start, ports, 0, maxLen);
        (ok, Some(out))
  }

  /** The appending loop keeps a prefix of what it would write in full
    * inside the buffer, and succeeds exactly when all of it fits. */
  lemma {:induction false} AppendPortsMeaning(out: string, ports: seq<nat>, i: nat, maxLen: nat)
    requires i <= |ports| && |out| + 1 <= maxLen
    ensures var r := AppendPorts(out, ports, i, maxLen);
            && |r.1| + 1 <= maxLen
            && r.1 <= out + Pieces(ports, i)
            && (r.0 <==> |out + Pieces(ports, i)| + 1 <= maxLen)
            && (r.0 ==> r.1 == out + Pieces(ports, i))
    decreases |ports| - i
  {
    if i < |ports| {
      var piece := PortPiece(i == 0, ports[i]);
      assert out + Pieces(ports, i) == (out + piece) + Pieces(ports, i + 1);
      if |out| + |piece| + 1 <= maxLen {
        AppendPortsMeaning(out + piece, ports, i + 1, maxLen);
      }
    }
  }

  /** The identifier always fits the buffer with its terminating zero and
    * is a prefix of the full path; it is the full path exactly when the
    * call succeeds, which is when there is a port and the full path fits. */
  lemma PortPathMeaning(initialized: bool, bus: nat, ports: seq<nat>, maxLen: nat)
    requires maxLen >= 1
    ensures var r := PortPath(initialized, bus, ports, maxLen);
            && (r.1.Some? <==> initialized)
            && (r.1.Some? ==> |r.1.value| + 1 <= maxLen && r.1.value <= FullPath(bus, ports))
            && (r.0 <==> initialized && |ports| > 0 && |FullPath(bus, ports)| + 1 <= maxLen)
            && (r.0 ==> r.1 == Some(FullPath(bus, ports)))
  {
    if initialized {
      var b := "b" + Text.NatToString(bus);
      var start := if |b| <= maxLen - 1 then b else b[..maxLen - 1];
      assert FullPath(bus, ports) == b + Pieces(ports, 0);
      if |ports| > 0 {
        AppendPortsMeaning(start, ports, 0, maxLen);
        if |b| > maxLen - 1 {
          var piece := PortPiece(true, ports[0]);
          assert AppendPorts(start, ports, 0, maxLen) == (false, start);
          assert |FullPath(bus, ports)| >= |b| + |piece|;
        }
      }
    }
  }

  /** `PS3EYECam::getUSBPortPath`, the loop over the ports. */
  method GetUsbPortPath(initialized: bool, bus: nat, ports: seq<nat>, maxLen: nat)
    returns (success: bool, written: Option<string>)
    requires maxLen >= 1
    ensures (success, written) == PortPath(initialized, bus, ports, maxLen)
  {
    if !initialized {
      return false, None;
    }
    var b := "b" + Text.NatToString(bus);
    var out := if |b| <= maxLen - 1 then b else b[..maxLen - 1];
    success := false;
    if |ports| > 0 {
      ghost var r := PortPath(initialized, bus, ports, maxLen);
      success := true;
      var i := 0;
      while i < |ports|
        invariant 0 <= i <= |ports| && success
        invariant r.1.Some? && AppendPorts(out, ports, i, maxLen) == (r.0, r.1.value)
      {
        var piece := PortPiece(i == 0, ports[i]);
        if |out| + |piece| + 1 <= maxLen {
          out := out + piece;
        } else {
          success := false;
          break;
        }
        i := i + 1;
      }
    }
    written := Some(out);
  }

  // ---------------------------------------------------------------------------
  // Context and handles
  // ---------------------------------------------------------------------------

  /** `ps3eye_t`: a handle on one enumerated camera. */
  class Handle {
    const eye: Camera

    constructor (eye: Camera)
      ensures this.eye == eye
    {
      this.eye := eye;
    }
  }

  /** `opened_devices.remove(h)`: every entry that is `h` goes, the others
    * stay in order. */
  function Removed(handles: seq<Handle>, h: Handle): (r: seq<Handle>)
    ensures h !in r && |r| <= |handles|
    ensures forall x :: x in handles && x != h ==> x in r
    ensures forall x :: x in r ==> x in handles
  {
    if handles == [] then []
    else if handles[0] == h then Removed(handles[1..], h)
    else [handles[0]] + Removed(handles[1..], h)
  }

  /** Removing a handle that was appended to a list without it gives the
    * list back, and removing one that is not there changes nothing. */
  lemma {:induction false} RemovedAppended(handles: seq<Handle>, h: Handle)
    requires h !in handles
    ensures Removed(handles, h) == handles
    ensures Removed(handles + [h], h) == handles
  {
    if handles != [] {
      assert (handles + [h])[1..] == handles[1..] + [h];
      RemovedAppended(handles[1..], h);
    } else {
      assert [h][1..] == [];
    }
  }

  /** The sensor writes of the setter of parameter `p` for `value`, on
    * sensor memory `s` with stored controls `c`. */
  ghost function SetterWrites(s: seq<bv8>, c: Controls, p: Parameter, value: int): (r: seq<bv8>)
    requires |s| == 256
    ensures |r| == 256
  {
    var on := value > 0;
    var b := ToUint8(value);
    match p
    case AutoGain =>
      if on then s[REG_AUTO := 0xf7][REG_AUTO_EXTRA := s[REG_AUTO_EXTRA] | 0x03]
      else s[REG_AUTO := 0xf0][REG_AUTO_EXTRA := s[REG_AUTO_EXTRA] & 0xFC][REG_GAIN := GainRegister(c.gain)]
             [REG_EXPOSURE_HIGH := ExposureHigh(c.exposure)][REG_EXPOSURE_LOW := ExposureLow(c.exposure)]
    case Gain => s[REG_GAIN := GainRegister(b)]
    case AutoWhiteBalance => s[REG_AWB := if on then 0xe0 else 0xAA]
    case Exposure => s[REG_EXPOSURE_HIGH := ExposureHigh(b)][REG_EXPOSURE_LOW := ExposureLow(b)]
    case Sharpness => s[REG_VGA_NOISE := b][REG_QVGA_NOISE := b]
    case Contrast => s[REG_CONTRAST := b]
    case Brightness => s[REG_BRIGHTNESS := b]
    case Hue => s[REG_HUE := b]
    case RedBalance => s[REG_RED := b]
    case BlueBalance => s[REG_BLUE := b]
    case GreenBalance => s[REG_GREEN := b]
    case HFlip => s[REG_FLIP := FlipRegister(s[REG_FLIP], on, c.flipV)]
    case VFlip => s[REG_FLIP := FlipRegister(s[REG_FLIP], c.flipH, on)]
  }

  /** A setter writes only registers that hold a control. */
  lemma SetterWritesControlsOnly(s: seq<bv8>, c: Controls, p: Parameter, value: int)
    requires |s| == 256
    ensures forall k :: 0 <= k < 256 && !IsControlRegister(k) ==> SetterWrites(s, c, p, value)[k] == s[k]
  {
  }

  /** A sensor that holds every stored control still does after a setter,
    * for the controls the setter stores: automatic gain. */
  lemma {:induction false} AutoGainSetterKeeps(s: seq<bv8>, c: Controls, p: Parameter, value: int)
    requires |s| == 256 && ControlsIn(s, c)
    requires p == AutoGain
    ensures ControlsIn(SetterWrites(s, c, p, value), ControlsAfter(c, ParameterIndex(p), value))
  {
    assert ParameterOf(ParameterIndex(p)) == Some(p);
  }

  /** The same for automatic white balance and gain. */
  lemma {:induction false} GainSetterKeeps(s: seq<bv8>, c: Controls, p: Parameter, value: int)
    requires |s| == 256 && ControlsIn(s, c)
    requires p == AutoWhiteBalance || p == Gain
    ensures ControlsIn(SetterWrites(s, c, p, value), ControlsAfter(c, ParameterIndex(p), value))
  {
    assert ParameterOf(ParameterIndex(p)) == Some(p);
  }

  /** The same for exposure and sharpness. */
  lemma {:induction false} ExposureSetterKeeps(s: seq<bv8>, c: Controls, p: Parameter, value: int)
    requires |s| == 256 && ControlsIn(s, c)
    requires p == Exposure || p == Sharpness
    ensures ControlsIn(SetterWrites(s, c, p, value), ControlsAfter(c, ParameterIndex(p), value))
  {
    assert ParameterOf(ParameterIndex(p)) == Some(p);
  }

  /** The same for contrast, brightness and hue. */
  lemma {:induction false} PictureSetterKeeps(s: seq<bv8>, c: Controls, p: Parameter, value: int)
    requires |s| == 256 && ControlsIn(s, c)
    requires p == Contrast || p == Brightness || p == Hue
    ensures ControlsIn(SetterWrites(s, c, p, value), ControlsAfter(c, ParameterIndex(p), value))
  {
    assert ParameterOf(ParameterIndex(p)) == Some(p);
  }

  /** The same for the balance and flip setters. */
  lemma {:induction false} BalanceSetterKeeps(s: seq<bv8>, c: Controls, p: Parameter, value: int)
    requires |s| == 256 && ControlsIn(s, c)
    requires p == RedBalance || p == BlueBalance || p == GreenBalance || p == HFlip || p == VFlip
    ensures ControlsIn(SetterWrites(s, c, p, value), ControlsAfter(c, ParameterIndex(p), value))
  {
    assert ParameterOf(ParameterIndex(p)) == Some(p);
    var on := value > 0;
    if p == HFlip {
      FlipRegisterRoundTrip(s[REG_FLIP], on, c.flipV);
    } else if p == VFlip {
      FlipRegisterRoundTrip(s[REG_FLIP], c.flipH, on);
    }
  }

  /** Every setter keeps a sensor that holds the stored controls in step
    * with them. */
  lemma SetterKeepsControls(s: seq<bv8>, c: Controls, p: Parameter, value: int)
    requires |s| == 256 && ControlsIn(s, c)
    ensures ControlsIn(SetterWrites(s, c, p, value), ControlsAfter(c, ParameterIndex(p), value))
  {
    if p == AutoGain {
      AutoGainSetterKeeps(s, c, p, value);
    } else if p == AutoWhiteBalance || p == Gain {
      GainSetterKeeps(s, c, p, value);
    } else if p == Exposure || p == Sharpness {
      ExposureSetterKeeps(s, c, p, value);
    } else if p == RedBalance || p == BlueBalance || p == GreenBalance || p == HFlip || p == VFlip {
      BalanceSetterKeeps(s, c, p, value);
    } else {
      PictureSetterKeeps(s, c, p, value);
    }
  }

  /** The setter of parameter `p` on `eye`: it stores the value and makes
    * its sensor writes. */
  method SetControl(eye: Camera, p: Parameter, value: int)
    requires |eye.sensor| == 256
    modifies eye
    ensures eye.controls == ControlsAfter(old(eye.controls), ParameterIndex(p), value)
    ensures eye.sensor == SetterWrites(old(eye.sensor), old(eye.controls), p, value)
  {
    assert ParameterOf(ParameterIndex(p)) == Some(p);
    var on := value > 0;
    var b := ToUint8(value);
    match p {
      case AutoGain => eye.SetAutogain(on);
      case Gain => eye.SetGain(b);
      case AutoWhiteBalance => eye.SetAutoWhiteBalance(on);
      case Exposure => eye.SetExposure(b);
      case Sharpness => eye.SetSharpness(b);
      case Contrast => eye.SetContrast(b);
      case Brightness => eye.SetBrightness(b);
      case Hue => eye.SetHue(b);
      case RedBalance => eye.SetRedBalance(b);
      case BlueBalance => eye.SetBlueBalance(b);
      case GreenBalance => eye.SetGreenBalance(b);
      case HFlip => eye.SetFlip(on, eye.controls.flipV);
      case VFlip => eye.SetFlip(eye.controls.flipH, on);
    }
  }

  /** The constructor of `ps3eye_t` as written: `init` with the arguments
    * converted to the camera's unsigned types, then `start` whether or not
    * `init` succeeded. After a failed `init` the camera has no USB handle,
    * or a handle but no interface; what `start`'s register writes and
    * transfers do then is undefined and is not modelled. The result says
    * whether `start` was reached in that state. */
  method OpenCameraAsWritten(eye: Camera, width: int, height: int, fps: int, format: OutputFormat, usb: UsbOpen, submitted: bool)
    returns (startedUninitialized: bool)
    requires eye.Valid() && |eye.sensor| == 256
    modifies eye, eye.urb, eye.mgr
    ensures eye.Valid()
    ensures startedUninitialized <==> !old(eye.hasHandle) && usb != Opens
    ensures usb == OpenFails && !old(eye.hasHandle) ==> startedUninitialized && !eye.hasHandle
    ensures !startedUninitialized ==> eye.isStreaming && eye.hasHandle && eye.hasUsbBuf && eye.ModeValid()
  {
    var ok := eye.Init(width % 0x1_0000_0000, height % 0x1_0000_0000, fps % 0x100, format, usb);
    if !ok {
      return true;
    }
    eye.Start(submitted);
    return false;
  }

  /** The constructor of `ps3eye_t`, with `start` only after a successful
    * `init`. `init` does not check for streaming: on a camera that already
    * streams it sets the mode and switches the bridge's stream off, and
    * `start` then does nothing. `usb` is what opening the device meets;
    * `submitted` whether libusb accepts the transfers. */
  method OpenCamera(eye: Camera, width: int, height: int, fps: int, format: OutputFormat, usb: UsbOpen, submitted: bool)
    requires eye.Valid() && |eye.sensor| == 256
    modifies eye, eye.urb, eye.mgr
    ensures eye.Valid()
    ensures old(eye.hasHandle) || usb == Opens ==>
              && eye.isStreaming && eye.ModeValid()
              && (eye.frameWidth == 640 <==> InitPicksVga(width % 0x1_0000_0000, height % 0x1_0000_0000))
              && eye.frameRate == ChosenRate(eye.frameWidth, fps % 0x100).fps
              && (!old(eye.isStreaming) ==> eye.ControlsApplied() && BRIDGE_STREAM in eye.bridge && eye.bridge[BRIDGE_STREAM] == 0x00)
              && (old(eye.isStreaming) ==> BRIDGE_STREAM in eye.bridge && eye.bridge[BRIDGE_STREAM] == 0x09)
              && (old(eye.isStreaming) ==> SensorInitData(eye.sensor, eye.powerOn))
    ensures !(old(eye.hasHandle) || usb == Opens) ==> eye.isStreaming == old(eye.isStreaming)
    ensures eye.isStreaming && !old(eye.isStreaming) ==> eye.hasHandle && eye.hasUsbBuf
  {
    var ok := eye.Init(width % 0x1_0000_0000, height % 0x1_0000_0000, fps % 0x100, format, usb);
    if ok {
      eye.Start(submitted);
    }
  }

  /** The global context: whether `ps3eye_context` is set, the cameras it
    * enumerated and the handles handles on them. */
  class Library {
    var hasContext: bool
    var devices: seq<Camera>
    var handles: seq<Handle>

    /** Without a context there is nothing enumerated and nothing open. */
    predicate Valid()
      reads this
    {
      !hasContext ==> devices == [] && handles == []
    }

    /** The program starts without a context. */
    constructor ()
      ensures Valid() && !hasContext
    {
      hasContext := false;
      devices := [];
      handles := [];
    }

    /** `ps3eye_init`: the context is created once, with the cameras
      * enumerated then; a second call changes nothing. */
    method Init(found: seq<Camera>)
      requires Valid()
      modifies this
      ensures Valid() && hasContext
      ensures old(hasContext) ==> devices == old(devices) && handles == old(handles)
      ensures !old(hasContext) ==> devices == found && handles == []
    {
      if !hasContext {
        hasContext := true;
        devices := found;
        handles := [];
      }
    }

    /** `ps3eye_uninit`: the context goes only when no handle is open. */
    method Uninit()
      requires Valid()
      modifies this
      ensures Valid()
      ensures hasContext <==> old(hasContext) && old(handles) != []
      ensures hasContext ==> devices == old(devices) && handles == old(handles)
    {
      if hasContext {
        if |handles| == 0 {
          hasContext := false;
          devices := [];
        }
      }
    }

    /** `ps3eye_count_connected`: 0 before `ps3eye_init`. */
    function CountConnected(): (n: int)
      reads this
      ensures n >= 0
      ensures Valid() ==> n == |devices|
    {
      if !hasContext then 0 else |devices|
    }

    /** `ps3eye_open`: no handle without a context or for an id outside the
      * enumerated cameras. Otherwise a new handle on that camera joins the
      * open ones, and the camera is initialized and then, when that
      * succeeded, started (`OpenCamera`). */
    method Open(id: int, width: int, height: int, fps: int, format: OutputFormat, usb: UsbOpen, submitted: bool)
      returns (h: Handle?)
      requires Valid()
      requires 0 <= id < |devices| ==> devices[id].Valid() && |devices[id].sensor| == 256
      modifies this, if 0 <= id < |devices| then {devices[id], devices[id].urb, devices[id].mgr} else {}
      ensures Valid() && hasContext == old(hasContext) && devices == old(devices)
      ensures h == null <==> !hasContext || id < 0 || id >= |devices|
      ensures h == null ==> handles == old(handles)
      ensures h != null ==> fresh(h) && h.eye == devices[id] && handles == old(handles) + [h]
      ensures h != null ==> h.eye.Valid()
      ensures h != null && (old(devices[id].hasHandle) || usb == Opens) ==>
                && h.eye.isStreaming && h.eye.ModeValid()
                && (h.eye.frameWidth == 640 <==> InitPicksVga(width % 0x1_0000_0000, height % 0x1_0000_0000))
                && h.eye.frameRate == ChosenRate(h.eye.frameWidth, fps % 0x100).fps
                && (!old(devices[id].isStreaming) ==> h.eye.ControlsApplied() && BRIDGE_STREAM in h.eye.bridge && h.eye.bridge[BRIDGE_STREAM] == 0x00)
                && (old(devices[id].isStreaming) ==> BRIDGE_STREAM in h.eye.bridge && h.eye.bridge[BRIDGE_STREAM] == 0x09)
                && (old(devices[id].isStreaming) ==> SensorInitData(h.eye.sensor, h.eye.powerOn))
      ensures h != null && !(old(devices[id].hasHandle) || usb == Opens) ==>
                h.eye.isStreaming == old(devices[id].isStreaming)
    {
      if !hasContext {
        return null;
      }
      if id < 0 || id >= CountConnected() {
        return null;
      }
      var eye := devices[id];
      h := new Handle(eye);
      OpenCamera(eye, width, height, fps, format, usb, submitted);
      handles := handles + [h];
    }

    /** `ps3eye_close`: closing no handle does nothing; otherwise the camera
      * stops and the handle leaves the open ones. */
    method Close(h: Handle?)
      requires Valid()
      requires h != null ==> h.eye.Valid()
      modifies this, if h != null then {h.eye, h.eye.urb, h.eye.mgr} else {}
      ensures Valid() && hasContext == old(hasContext) && devices == old(devices)
      ensures h == null ==> handles == old(handles)
      ensures h != null ==> handles == Removed(old(handles), h) && !h.eye.isStreaming
    {
      if h != null {
        h.eye.Stop();
        handles := Removed(handles, h);
      }
    }

    /** `ps3eye_get_parameter`: -1 for no handle or an unknown parameter,
      * otherwise the stored control. */
    function GetParameter(h: Handle?, param: int): (v: int)
      reads if h != null then {h.eye} else {}
      ensures h == null || ParameterOf(param).None? ==> v == -1
      ensures h != null && ParameterOf(param).Some? ==> v == ParameterValue(h.eye.controls, ParameterOf(param).value)
    {
      if h == null then -1
      else match ParameterOf(param)
        case None => -1
        case Some(p) => ParameterValue(h.eye.controls, p)
    }

    /** `ps3eye_set_parameter`: -1 for no handle, 0 otherwise. The setter of
      * the parameter stores the value and writes it to the sensor, touching
      * no register that holds no control, so a sensor that held every
      * stored control still does. */
    method SetParameter(h: Handle?, param: int, value: int) returns (r: int)
      requires h != null ==> |h.eye.sensor| == 256
      modifies if h != null then {h.eye} else {}
      ensures r == (if h == null then -1 else 0)
      ensures h != null ==> h.eye.controls == ControlsAfter(old(h.eye.controls), param, value)
      ensures h != null ==> |h.eye.sensor| == 256
      ensures h != null ==> forall k :: 0 <= k < 256 && !IsControlRegister(k) ==> h.eye.sensor[k] == old(h.eye.sensor[k])
      ensures h != null && old(h.eye.ControlsApplied()) ==> h.eye.ControlsApplied()
    {
      if h == null {
        return -1;
      }
      match ParameterOf(param) {
        case None =>
        case Some(p) =>
          ghost var s, c := h.eye.sensor, h.eye.controls;
          SetterWritesControlsOnly(s, c, p, value);
          if ControlsIn(s, c) {
            SetterKeepsControls(s, c, p, value);
          }
          SetControl(h.eye, p, value);
      }
      return 0;
    }

    /** `ps3eye_get_unique_identifier`: -1 without a context or a handle;
      * otherwise the port path of the handle's camera, 0 when it was
      * written in full. `maxLen` is the size of the caller's buffer. */
    method GetUniqueIdentifier(h: Handle?, maxLen: int, bus: nat, ports: seq<nat>)
      returns (r: int, written: Option<string>)
      requires h != null ==> maxLen >= 1
      ensures !hasContext || h == null ==> r == -1 && written == None
      ensures hasContext && h != null ==>
                var path := PortPath(h.eye.IsInitialized(), bus, ports, maxLen);
                r == (if path.0 then 0 else -1) && written == path.1
    {
      if !hasContext || h == null {
        return -1, None;
      }
      var ok;
      ok, written := GetUsbPortPath(h.eye.IsInitialized(), bus, ports, maxLen);
      r := if ok then 0 else -1;
    }
  }
}
