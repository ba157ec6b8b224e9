/** The camera object of the PS3 Eye driver, `PS3EYECam`: its stored
  * controls and the sensor registers they are written to, the frame mode
  * and frame-rate table, and starting and stopping the stream.
  *
  * The sensor's registers are a memory of 256 bytes that `sccb_reg_write`
  * writes and `sccb_reg_read` reads; of the bridge registers the driver
  * sets directly, a map holds the two the model follows: the stream byte
  * and the frame-rate byte. The SCCB transport (the bridge registers
  * that carry every sensor access), the LED, the other bridge registers and
  * the register tables sent by `start` are not part of this model; the
  * sensor table `init` sends is. */
module Ps3EyeCamera {
  import opened Ps3EyeFrames

  // Sensor registers.
  const REG_GAIN: nat := 0x00
  const REG_HUE: nat := 0x01
  const REG_EXPOSURE_HIGH: nat := 0x08
  const REG_FLIP: nat := 0x0c
  const REG_RATE_0D: nat := 0x0d
  const REG_EXPOSURE_LOW: nat := 0x10
  const REG_RATE_11: nat := 0x11
  const REG_AUTO: nat := 0x13
  const REG_BLUE: nat := 0x42
  const REG_RED: nat := 0x43
  const REG_GREEN: nat := 0x44
  const REG_AWB: nat := 0x63
  const REG_AUTO_EXTRA: nat := 0x64
  const REG_QVGA_NOISE: nat := 0x8E
  const REG_VGA_NOISE: nat := 0x91
  const REG_BRIGHTNESS: nat := 0x9B
  const REG_CONTRAST: nat := 0x9C

  // Bridge registers.
  const BRIDGE_STREAM: nat := 0xe0
  const BRIDGE_RATE: nat := 0xe5

  // ---------------------------------------------------------------------------
  // The register tables `init` sends
  // ---------------------------------------------------------------------------

  /** The sensor registers `ov772x_reg_initdata` writes. */
  const OV772X_INIT_REGS: set<nat> := {
    0x12, 0x3D, 0x11, 0x14, 0x15, 0x63, 0x64, 0x66, 0x67, 0x17, 0x18, 0x19, 0x1A, 0x29,
    0x2A, 0x2C, 0x20, 0x4E, 0x3E, 0x0D, 0x32, 0x13, 0x22, 0x23, 0x24, 0x25, 0x26, 0x2B,
    0x0C, 0x8E}

  /** Sensor registers `regs` hold what `ov772x_reg_initdata` leaves over the
    * reset values `base`: a register the table does not write keeps its
    * reset value, and the table leaves the rate bytes 0x00 and 0x41,
    * automatic gain, exposure and white balance on, the flip byte 0xC0 and
    * a QVGA de-noise threshold of 0. */
  ghost predicate SensorInitData(regs: seq<bv8>, base: seq<bv8>)
    requires |regs| == |base| == 256
  {
    && (forall k | 0 <= k < 256 && k !in OV772X_INIT_REGS :: regs[k] == base[k])
    && regs[REG_RATE_11] == 0x00 && regs[REG_RATE_0D] == 0x41
    && regs[REG_AUTO] == 0xF7 && regs[REG_AWB] == 0xAA && regs[REG_AUTO_EXTRA] == 0x87
    && regs[REG_FLIP] == 0xC0 && regs[REG_QVGA_NOISE] == 0x00
  }

  // ---------------------------------------------------------------------------
  // Register encodings
  // ---------------------------------------------------------------------------

  /** `setGain`: the low nibble is kept and bits 4-5 choose the high nibble
    * 0x0, 0x3, 0x7 or 0xF. */
  function GainRegister(val: bv8): bv8
  {
    match val & 0x30
    case 0x00 => val & 0x0F
    case 0x10 => (val & 0x0F) | 0x30
    case 0x20 => (val & 0x0F) | 0x70
    case _ => (val & 0x0F) | 0xF0
  }

  /** The gain register keeps the low nibble of the gain, its high nibble is
    * a run of ones as long as the two-bit gain range, and bits 6-7 of the
    * gain are ignored. */
  lemma GainRegisterEncoding(val: bv8)
    ensures GainRegister(val) & 0x0F == val & 0x0F
    ensures GainRegister(val) >> 4 == [0x0, 0x3, 0x7, 0xF][((val >> 4) & 0x3)]
    ensures GainRegister(val) == GainRegister(val & 0x3F)
  {
  }

  /** Over the documented gain range 0 to 63 a larger gain always writes a
    * larger register value. */
  lemma GainRegisterMonotone(a: bv8, b: bv8)
    requires a < b < 64
    ensures GainRegister(a) < GainRegister(b)
  {
  }

  /** `setExposure`: bit 7 goes to one register and the 8-bit truncation of
    * `val << 1` to another. */
  function ExposureHigh(val: bv8): bv8 { val >> 7 }
  function ExposureLow(val: bv8): bv8 { val << 1 }

  /** No bit of the exposure is lost: the two registers give it back. */
  lemma ExposureRoundTrip(val: bv8)
    ensures ExposureHigh(val) <= 1
    ensures (ExposureHigh(val) << 7) | (ExposureLow(val) >> 1) == val
    ensures ExposureLow(val) & 1 == 0
  {
  }

  /** `setFlip`: bits 6-7 of the read register value are cleared; 0x40 is set
    * when not mirrored horizontally and 0x80 when not flipped vertically. */
  function FlipRegister(current: bv8, horizontal: bool, vertical: bool): bv8
  {
    (current & 0x3F) | (if !horizontal then 0x40 else 0) | (if !vertical then 0x80 else 0)
  }

  /** The flip register keeps bits 0-5 and the two flags are read back from
    * bits 6 and 7. */
  lemma FlipRegisterRoundTrip(current: bv8, horizontal: bool, vertical: bool)
    ensures var r := FlipRegister(current, horizontal, vertical);
            && r & 0x3F == current & 0x3F
            && (r & 0x40 == 0 <==> horizontal)
            && (r & 0x80 == 0 <==> vertical)
  {
  }

  // ---------------------------------------------------------------------------
  // Frame-rate tables of ov534_set_frame_rate
  // ---------------------------------------------------------------------------

  /** A supported frame rate and the values for sensor registers 0x11 and
    * 0x0d and bridge register 0xe5. */
  datatype Rate = Rate(fps: nat, r11: bv8, r0d: bv8, re5: bv8)

  /** The rates at 640x480, fastest first. */
  const VGA_RATES: seq<Rate> := [
    Rate(83, 0x01, 0xc1, 0x02), Rate(75, 0x01, 0x81, 0x02), Rate(60, 0x00, 0x41, 0x04),
    Rate(50, 0x01, 0x41, 0x02), Rate(40, 0x02, 0xc1, 0x04), Rate(30, 0x04, 0x81, 0x02),
    Rate(25, 0x00, 0x01, 0x02), Rate(20, 0x04, 0x41, 0x02), Rate(15, 0x09, 0x81, 0x02),
    Rate(10, 0x09, 0x41, 0x02), Rate(8, 0x02, 0x01, 0x02), Rate(5, 0x04, 0x01, 0x02),
    Rate(3, 0x06, 0x01, 0x02), Rate(2, 0x09, 0x01, 0x02)]

  /** The rates at 320x240, fastest first. */
  const QVGA_RATES: seq<Rate> := [
    Rate(290, 0x00, 0xc1, 0x04), Rate(205, 0x01, 0xc1, 0x02), Rate(187, 0x01, 0x81, 0x02),
    Rate(150, 0x00, 0x41, 0x04), Rate(137, 0x02, 0xc1, 0x02), Rate(125, 0x01, 0x41, 0x02),
    Rate(100, 0x02, 0xc1, 0x04), Rate(90, 0x03, 0x81, 0x02), Rate(75, 0x04, 0x81, 0x02),
    Rate(60, 0x04, 0xc1, 0x04), Rate(50, 0x04, 0x41, 0x02), Rate(40, 0x06, 0x81, 0x03),
    Rate(37, 0x00, 0x01, 0x04), Rate(30, 0x04, 0x41, 0x04), Rate(17, 0x18, 0xc1, 0x02),
    Rate(15, 0x18, 0x81, 0x02), Rate(12, 0x02, 0x01, 0x04), Rate(10, 0x18, 0x41, 0x02),
    Rate(7, 0x04, 0x01, 0x04), Rate(5, 0x06, 0x01, 0x04), Rate(3, 0x09, 0x01, 0x04),
    Rate(2, 0x18, 0x01, 0x02)]

  /** The table is chosen by the frame width alone. */
  function RateTable(frameWidth: nat): (t: seq<Rate>)
    ensures |t| > 0
  {
    if frameWidth == 640 then VGA_RATES else QVGA_RATES
  }

  /** Each rate is below the one before it. */
  predicate Decreasing(table: seq<Rate>)
  {
    forall i :: 0 < i < |table| ==> table[i - 1].fps > table[i].fps
  }

  lemma TablesDecreasing()
    ensures Decreasing(VGA_RATES) && Decreasing(QVGA_RATES)
  {
    VgaDecreasing();
    QvgaDecreasing();
  }

  lemma VgaDecreasing()
    ensures Decreasing(VGA_RATES)
  {
    assert DecreasingAfter(VGA_RATES, 7);
    assert DecreasingAfter(VGA_RATES, 0);
    DecreasingAfterMeans(VGA_RATES, 0);
  }

  lemma QvgaDecreasing()
    ensures Decreasing(QVGA_RATES)
  {
    assert DecreasingAfter(QVGA_RATES, 14);
    assert DecreasingAfter(QVGA_RATES, 7);
    assert DecreasingAfter(QVGA_RATES, 0);
    DecreasingAfterMeans(QVGA_RATES, 0);
  }

  /** The table's rates decrease from entry `i` on, checked one pair at a
    * time. */
  predicate DecreasingAfter(table: seq<Rate>, i: nat)
    decreases |table| - i
  {
    i + 1 >= |table| || (table[i].fps > table[i + 1].fps && DecreasingAfter(table, i + 1))
  }

  lemma {:induction false} DecreasingAfterMeans(table: seq<Rate>, i: nat)
    requires DecreasingAfter(table, i)
    ensures forall k :: i < k < |table| ==> table[k - 1].fps > table[k].fps
    decreases |table| - i
  {
    if i + 1 < |table| {
      DecreasingAfterMeans(table, i + 1);
    }
  }

  /** So every rate is below all the ones before it. */
  lemma {:induction false} DecreasingFrom(table: seq<Rate>, i: nat, j: nat)
    requires Decreasing(table) && i < j < |table|
    ensures table[i].fps > table[j].fps
    decreases j - i
  {
    if i + 1 < j {
      DecreasingFrom(table, i + 1, j);
    }
  }

  /** The entry the search of `ov534_set_frame_rate` stops at, looking from
    * entry `j`: the first with a rate not above the request, but never past
    * the last entry. */
  function RateIndex(table: seq<Rate>, frameRate: nat, j: nat): (k: nat)
    requires j < |table|
    ensures j <= k < |table|
    decreases |table| - j
  {
    if j == |table| - 1 || frameRate >= table[j].fps then j else RateIndex(table, frameRate, j + 1)
  }

  /** The rate chosen for a request. */
  function ChosenRate(frameWidth: nat, frameRate: nat): Rate
  {
    var t := RateTable(frameWidth);
    t[RateIndex(t, frameRate, 0)]
  }

  /** Every entry before the chosen one is faster than the request, and the
    * chosen one is not, unless it is the table's last. */
  lemma {:induction false} RateIndexFirst(table: seq<Rate>, frameRate: nat, j: nat)
    requires j < |table|
    ensures var k := RateIndex(table, frameRate, j);
            && (frameRate >= table[k].fps || k == |table| - 1)
            && forall i :: j <= i < k ==> table[i].fps > frameRate
    decreases |table| - j
  {
    if j < |table| - 1 && frameRate < table[j].fps {
      RateIndexFirst(table, frameRate, j + 1);
    }
  }

  /** In a decreasing table the search finds the fastest rate not above the
    * request, or the slowest rate when every rate is above it. */
  lemma RateIndexBest(table: seq<Rate>, frameRate: nat)
    requires |table| > 0 && Decreasing(table)
    ensures var k := RateIndex(table, frameRate, 0);
            && (table[k].fps <= frameRate || k == |table| - 1)
            && (forall i :: 0 <= i < |table| && table[i].fps <= frameRate ==> table[i].fps <= table[k].fps)
            && (table[k].fps > frameRate ==> forall i :: 0 <= i < |table| ==> table[i].fps > frameRate)
  {
    var k := RateIndex(table, frameRate, 0);
    RateIndexFirst(table, frameRate, 0);
    forall i | k < i < |table|
      ensures table[i].fps < table[k].fps
    {
      DecreasingFrom(table, k, i);
    }
  }

  /** The chosen rate is the fastest supported one not above the request;
    * a request below every rate gets the slowest. */
  lemma ChosenRateIsBest(frameWidth: nat, frameRate: nat)
    ensures var t := RateTable(frameWidth);
            var k := RateIndex(t, frameRate, 0);
            && ChosenRate(frameWidth, frameRate) == t[k]
            && (t[k].fps <= frameRate || k == |t| - 1)
            && (forall i :: 0 <= i < |t| && t[i].fps <= frameRate ==> t[i].fps <= t[k].fps)
            && (t[k].fps > frameRate ==> forall i :: 0 <= i < |t| ==> t[i].fps > frameRate)
  {
    TablesDecreasing();
    RateIndexBest(RateTable(frameWidth), frameRate);
  }

  /** A supported rate is kept as it is, so choosing again changes nothing. */
  lemma {:induction false} RateIndexOfEntry(table: seq<Rate>, i: nat, j: nat)
    requires Decreasing(table) && j <= i < |table|
    ensures RateIndex(table, table[i].fps, j) == i
    decreases i - j
  {
    if j < i {
      DecreasingFrom(table, j, i);
      RateIndexOfEntry(table, i, j + 1);
    }
  }

  lemma ChosenRateIdempotent(frameWidth: nat, frameRate: nat)
    ensures var r := ChosenRate(frameWidth, frameRate);
            ChosenRate(frameWidth, r.fps) == r
  {
    var t := RateTable(frameWidth);
    TablesDecreasing();
    RateIndexOfEntry(t, RateIndex(t, frameRate, 0), 0);
  }

  /** The search loop of `ov534_set_frame_rate`: the counter starts at the
    * table's length and is decremented before each test, so at most all but
    * the last entry are tested. */
  method SearchRate(table: seq<Rate>, request: nat) returns (j: nat)
    requires |table| > 0
    ensures j == RateIndex(table, request, 0)
  {
    var i := |table| - 1;
    j := 0;
    while i > 0
      invariant 0 <= i && i + j == |table| - 1
      invariant RateIndex(table, request, 0) == RateIndex(table, request, j)
      decreases i
    {
      if request >= table[j].fps {
        break;
      }
      j := j + 1;
      i := i - 1;
    }
  }

  // ---------------------------------------------------------------------------
  // sccb_check_status
  // ---------------------------------------------------------------------------

  const STATUS_ATTEMPTS: nat := 5

  /** The outcome of `sccb_check_status` for the successive values of the
    * status register, from attempt `i`: 0x00 is success, 0x04 is failure,
    * anything else is another attempt, and five attempts fail. */
  function StatusOutcome(statuses: seq<bv8>, i: nat): (ok: int)
    requires |statuses| >= STATUS_ATTEMPTS && i <= STATUS_ATTEMPTS
    decreases STATUS_ATTEMPTS - i
  {
    if i == STATUS_ATTEMPTS then 0
    else if statuses[i] == 0x00 then 1
    else if statuses[i] == 0x04 then 0
    else StatusOutcome(statuses, i + 1)
  }

  /** Success exactly when some attempt reads 0x00 and no earlier one read
    * 0x00 or 0x04. */
  lemma {:induction false} StatusOutcomeMeaning(statuses: seq<bv8>, i: nat)
    requires |statuses| >= STATUS_ATTEMPTS && i <= STATUS_ATTEMPTS
    ensures StatusOutcome(statuses, i) == 0 || StatusOutcome(statuses, i) == 1
    ensures StatusOutcome(statuses, i) == 1
            <==> exists k :: i <= k < STATUS_ATTEMPTS && statuses[k] == 0x00
                   && forall m :: i <= m < k ==> statuses[m] != 0x00 && statuses[m] != 0x04
    decreases STATUS_ATTEMPTS - i
  {
    if i < STATUS_ATTEMPTS && statuses[i] != 0x00 && statuses[i] != 0x04 {
      StatusOutcomeMeaning(statuses, i + 1);
      if StatusOutcome(statuses, i + 1) == 1 {
        var k :| i + 1 <= k < STATUS_ATTEMPTS && statuses[k] == 0x00
                 && forall m :: i + 1 <= m < k ==> statuses[m] != 0x00 && statuses[m] != 0x04;
        assert i <= k;
      }
    }
  }

  /** `sccb_check_status`, reading the status register up to five times;
    * `statuses` are the values the reads return. */
  method SccbCheckStatus(statuses: seq<bv8>) returns (ok: int)
    requires |statuses| >= STATUS_ATTEMPTS
    ensures ok == StatusOutcome(statuses, 0)
  {
    var i := 0;
    while i < STATUS_ATTEMPTS
      invariant i <= STATUS_ATTEMPTS
      invariant StatusOutcome(statuses, 0) == StatusOutcome(statuses, i)
    {
      var data := statuses[i];
      if data == 0x00 {
        return 1;
      } else if data == 0x04 {
        return 0;
      }
      i := i + 1;
    }
    return 0;
  }

  // ---------------------------------------------------------------------------
  // PS3EYECam
  // ---------------------------------------------------------------------------

  /** `getOutputBytesPerPixel`. The enumeration has no fourth value, so its
    * fallback of zero is never taken. */
  function OutputBytesPerPixel(format: OutputFormat): (n: nat)
    ensures n > 0
    ensures n == 1 <==> format == Bayer
    ensures format != Bayer ==> n == 3
  {
    match format
    case Bayer => 1
    case BGR => 3
    case RGB => 3
  }

  /** The stored controls. */
  datatype Controls = Controls(
    autogain: bool, gain: bv8, exposure: bv8, sharpness: bv8, hue: bv8, awb: bool,
    brightness: bv8, contrast: bv8, blueBlc: bv8, redBlc: bv8, greenBlc: bv8,
    flipH: bool, flipV: bool)

  /** The registers the automatic setters write, the picture setters write,
    * and the balance and flip setters write. */
  predicate IsAutomaticRegister(k: nat)
  {
    k == REG_AUTO || k == REG_AUTO_EXTRA || k == REG_AWB || k == REG_GAIN || k == REG_EXPOSURE_HIGH || k == REG_EXPOSURE_LOW
  }

  predicate IsPictureRegister(k: nat)
  {
    k == REG_HUE || k == REG_EXPOSURE_HIGH || k == REG_EXPOSURE_LOW || k == REG_BRIGHTNESS || k == REG_CONTRAST || k == REG_VGA_NOISE || k == REG_QVGA_NOISE
  }

  predicate IsBalanceRegister(k: nat)
  {
    k == REG_RED || k == REG_BLUE || k == REG_GREEN || k == REG_FLIP
  }

  /** The sensor registers that hold a stored control. */
  predicate IsControlRegister(k: nat)
  {
    IsAutomaticRegister(k) || IsPictureRegister(k) || IsBalanceRegister(k)
  }

  /** The automatic modes and the encoded gain of `c` are in `s`. */
  ghost predicate AutomaticIn(s: seq<bv8>, c: Controls)
    requires |s| == 256
  {
    && s[REG_AUTO] == (if c.autogain then 0xf7 else 0xf0)
    && s[REG_AUTO_EXTRA] & 0x03 == (if c.autogain then 0x03 else 0x00)
    && s[REG_AWB] == (if c.awb then 0xe0 else 0xAA)
    && s[REG_GAIN] == GainRegister(c.gain)
  }

  /** The hue, encoded exposure, brightness, contrast and sharpness of `c`
    * are in `s`. */
  ghost predicate PictureIn(s: seq<bv8>, c: Controls)
    requires |s| == 256
  {
    && s[REG_HUE] == c.hue
    && s[REG_EXPOSURE_HIGH] == ExposureHigh(c.exposure)
    && s[REG_EXPOSURE_LOW] == ExposureLow(c.exposure)
    && s[REG_BRIGHTNESS] == c.brightness
    && s[REG_CONTRAST] == c.contrast
    && s[REG_VGA_NOISE] == c.sharpness
    && s[REG_QVGA_NOISE] == c.sharpness
  }

  /** The three balances and the two flip bits of `c` are in `s`. */
  ghost predicate BalanceAndFlipIn(s: seq<bv8>, c: Controls)
    requires |s| == 256
  {
    && s[REG_RED] == c.redBlc
    && s[REG_BLUE] == c.blueBlc
    && s[REG_GREEN] == c.greenBlc
    && s[REG_FLIP] & 0xC0 == FlipRegister(0, c.flipH, c.flipV)
  }

  /** The sensor memory `s` holds every control of `c`. */
  ghost predicate ControlsIn(s: seq<bv8>, c: Controls)
    requires |s| == 256
  {
    AutomaticIn(s, c) && PictureIn(s, c) && BalanceAndFlipIn(s, c)
  }

  /** The writes of `setAutogain`, `setAutoWhiteBalance` and `setGain` in
    * turn; turning automatic gain off also writes the gain and exposure. */
  ghost function AutomaticWrites(s: seq<bv8>, c: Controls): (r: seq<bv8>)
    requires |s| == 256
    ensures |r| == 256
  {
    var s1 := if c.autogain then s[REG_AUTO := 0xf7][REG_AUTO_EXTRA := s[REG_AUTO_EXTRA] | 0x03]
              else s[REG_AUTO := 0xf0][REG_AUTO_EXTRA := s[REG_AUTO_EXTRA] & 0xFC]
                    [REG_GAIN := GainRegister(c.gain)]
                    [REG_EXPOSURE_HIGH := ExposureHigh(c.exposure)][REG_EXPOSURE_LOW := ExposureLow(c.exposure)];
    s1[REG_AWB := if c.awb then 0xe0 else 0xAA][REG_GAIN := GainRegister(c.gain)]
  }

  /** The writes of `setHue`, `setExposure`, `setBrightness`, `setContrast`
    * and `setSharpness` in turn. */
  ghost function PictureWrites(s: seq<bv8>, c: Controls): (r: seq<bv8>)
    requires |s| == 256
    ensures |r| == 256
  {
    s[REG_HUE := c.hue][REG_EXPOSURE_HIGH := ExposureHigh(c.exposure)][REG_EXPOSURE_LOW := ExposureLow(c.exposure)]
     [REG_BRIGHTNESS := c.brightness][REG_CONTRAST := c.contrast]
     [REG_VGA_NOISE := c.sharpness][REG_QVGA_NOISE := c.sharpness]
  }

  /** The writes of the three balance setters and `setFlip` in turn. */
  ghost function BalanceAndFlipWrites(s: seq<bv8>, c: Controls): (r: seq<bv8>)
    requires |s| == 256
    ensures |r| == 256
  {
    s[REG_RED := c.redBlc][REG_BLUE := c.blueBlc][REG_GREEN := c.greenBlc]
     [REG_FLIP := FlipRegister(s[REG_FLIP], c.flipH, c.flipV)]
  }

  /** Everything `start` writes for the stored controls. */
  ghost function ControlWrites(s: seq<bv8>, c: Controls): (r: seq<bv8>)
    requires |s| == 256
    ensures |r| == 256
  {
    BalanceAndFlipWrites(PictureWrites(AutomaticWrites(s, c), c), c)
  }

  /** The automatic setters leave their controls in the sensor, whatever
    * the registers held before, and write no other register. */
  lemma AutomaticWritesApply(s: seq<bv8>, c: Controls)
    requires |s| == 256
    ensures AutomaticIn(AutomaticWrites(s, c), c)
    ensures forall k :: 0 <= k < 256 && !IsAutomaticRegister(k) ==> AutomaticWrites(s, c)[k] == s[k]
  {
  }

  /** The picture setters leave their controls in the sensor, keep the
    * automatic ones and write no other register. */
  lemma PictureWritesApply(s: seq<bv8>, c: Controls)
    requires |s| == 256
    ensures PictureIn(PictureWrites(s, c), c)
    ensures forall k :: 0 <= k < 256 && !IsPictureRegister(k) ==> PictureWrites(s, c)[k] == s[k]
  {
  }

  lemma PictureWritesKeep(s: seq<bv8>, c: Controls)
    requires |s| == 256
    ensures AutomaticIn(s, c) ==> AutomaticIn(PictureWrites(s, c), c)
  {
  }

  /** The balance and flip setters leave their controls in the sensor, keep
    * all the others and write no other register. */
  lemma BalanceAndFlipWritesApply(s: seq<bv8>, c: Controls)
    requires |s| == 256
    ensures BalanceAndFlipIn(BalanceAndFlipWrites(s, c), c)
    ensures forall k :: 0 <= k < 256 && !IsBalanceRegister(k) ==> BalanceAndFlipWrites(s, c)[k] == s[k]
  {
    FlipRegisterRoundTrip(s[REG_FLIP], c.flipH, c.flipV);
  }

  lemma BalanceAndFlipWritesKeep(s: seq<bv8>, c: Controls)
    requires |s| == 256
    ensures AutomaticIn(s, c) ==> AutomaticIn(BalanceAndFlipWrites(s, c), c)
    ensures PictureIn(s, c) ==> PictureIn(BalanceAndFlipWrites(s, c), c)
  {
  }

  /** Writing the controls leaves every control in the sensor, whatever the
    * registers held before, and touches no other register. */
  lemma ControlWritesApply(s: seq<bv8>, c: Controls)
    requires |s| == 256
    ensures ControlsIn(ControlWrites(s, c), c)
    ensures forall k :: 0 <= k < 256 && !IsControlRegister(k) ==> ControlWrites(s, c)[k] == s[k]
  {
    var a := AutomaticWrites(s, c);
    AutomaticWritesApply(s, c);
    PictureWritesApply(a, c);
    PictureWritesKeep(a, c);
    BalanceAndFlipWritesApply(PictureWrites(a, c), c);
    BalanceAndFlipWritesKeep(PictureWrites(a, c), c);
  }

  /** What `open_usb` meets: the device does not open, it opens but its
    * interface cannot be claimed, or both succeed. */
  datatype UsbOpen = OpenFails | ClaimFails | Opens

  /** `init` picks 640x480 when no size is asked for or either side is
    * larger than 320x240. */
  predicate InitPicksVga(width: nat, height: nat)
  {
    (width == 0 && height == 0) || width > 320 || height > 240
  }

  /** `setWidth` and `setHeight` pick 640x480 for zero or a side larger than
    * 320 or 240. */
  predicate WidthPicksVga(width: nat) { width == 0 || width > 320 }
  predicate HeightPicksVga(height: nat) { height == 0 || height > 240 }

  /** `PS3EYECam`. */
  class Camera {
    /** The stored controls, each written to the sensor by its setter. */
    var controls: Controls
    var isStreaming: bool
    var frameWidth: nat
    var frameHeight: nat
    var frameRate: nat
    var frameOutputFormat: OutputFormat
    const hasDevice: bool
    var hasHandle: bool
    var hasUsbBuf: bool
    /** The sensor's register memory. */
    var sensor: seq<bv8>
    /** What the sensor's registers hold after a reset, fixed by the sensor
      * itself. */
    const powerOn: seq<bv8>
    /** The bridge registers the camera object writes. */
    var bridge: map<nat, bv8>
    const urb: Urb
    const mgr: UsbMgr

    /** The sensor memory and its reset values have a byte per register
      * address; a streaming
      * camera has its transfers submitted, and an idle one has none. The
      * transfers keep the frame size `start` gave them: `init` does not
      * check for streaming, so it can change the mode under them. */
    ghost predicate Valid()
      reads this, urb, urb.frameQueue, mgr
    {
      && |sensor| == 256 && |powerOn| == 256
      && urb.Valid() && mgr.Valid()
      && (isStreaming ==> urb.frameQueue != null && urb.numActiveTransfers > 0 && mgr.activeCameraCount > 0)
      && (!isStreaming ==> urb.numActiveTransfers == 0)
    }

    /** One of the two modes the driver supports. */
    ghost predicate ModeValid()
      reads this
    {
      (frameWidth == 640 && frameHeight == 480) || (frameWidth == 320 && frameHeight == 240)
    }

    /** The registers hold the rate chosen for the stored frame rate. */
    ghost predicate RateApplied()
      reads this
      requires |sensor| == 256
    {
      var r := ChosenRate(frameWidth, frameRate);
      && sensor[REG_RATE_11] == r.r11
      && sensor[REG_RATE_0D] == r.r0d
      && BRIDGE_RATE in bridge && bridge[BRIDGE_RATE] == r.re5
    }

    /** `PS3EYECam(device)`: the default controls, not streaming, no handle
      * or buffer yet. The frame mode is set by `init`. `sensor0` is the
      * sensor's register memory, as it powers up and as a reset leaves it. */
    constructor (hasDevice: bool, mgr: UsbMgr, sensor0: seq<bv8>)
      requires mgr.Valid() && |sensor0| == 256
      ensures Valid() && fresh(urb) && this.mgr == mgr
      ensures controls == Controls(false, 20, 120, 0, 143, false, 20, 37, 128, 128, 128, false, false)
      ensures !isStreaming && !hasHandle && !hasUsbBuf && this.hasDevice == hasDevice
      ensures sensor == sensor0 && powerOn == sensor0 && bridge == map[]
    {
      controls := Controls(false, 20, 120, 0, 143, false, 20, 37, 128, 128, 128, false, false);
      hasUsbBuf := false;
      hasHandle := false;
      isStreaming := false;
      this.hasDevice := hasDevice;
      this.mgr := mgr;
      urb := new Urb();
      sensor := sensor0;
      powerOn := sensor0;
      bridge := map[];
    }

    /** `isInitialized`. */
    predicate IsInitialized()
      reads this
    {
      hasDevice && hasHandle && hasUsbBuf
    }

    /** `getRowBytes`: one row of the output image, one byte per pixel in
      * Bayer format and three otherwise. */
    function RowBytes(): (n: nat)
      reads this
      ensures frameWidth <= n <= 3 * frameWidth
      ensures n == frameWidth <==> frameOutputFormat == Bayer || frameWidth == 0
    {
      frameWidth * OutputBytesPerPixel(frameOutputFormat)
    }

    /** `sccb_reg_write`, with the transport left out. */
    method SensorWrite(reg: nat, val: bv8)
      requires reg < |sensor| == 256
      modifies this`sensor
      ensures sensor == old(sensor)[reg := val]
    {
      sensor := sensor[reg := val];
    }

    /** `sccb_reg_read`, with the transport left out. */
    function SensorRead(reg: nat): bv8
      reads this
      requires reg < |sensor| == 256
    {
      sensor[reg]
    }

    /** `ov534_set_frame_rate`: the table entry for the request; only a call
      * that is not a dry run writes its register values. */
    method SetFrameRateRegisters(request: nat, dryRun: bool) returns (fps: nat)
      requires !dryRun ==> |sensor| == 256
      modifies this`sensor, this`bridge
      ensures fps == ChosenRate(frameWidth, request).fps
      ensures dryRun ==> sensor == old(sensor) && bridge == old(bridge)
      ensures !dryRun ==>
                var r := ChosenRate(frameWidth, request);
                && sensor == old(sensor)[REG_RATE_11 := r.r11][REG_RATE_0D := r.r0d]
                && bridge == old(bridge)[BRIDGE_RATE := r.re5]
    {
      var table := RateTable(frameWidth);
      var j := SearchRate(table, request);
      var r := table[j];
      if !dryRun {
        SensorWrite(REG_RATE_11, r.r11);
        SensorWrite(REG_RATE_0D, r.r0d);
        bridge := bridge[BRIDGE_RATE := r.re5];
      }
      fps := r.fps;
    }

    /** `init`: opens the device unless a handle is already there, then sets
      * the mode and validates the frame rate without writing it. It resets
      * the bridge and the sensor and sends both init tables, so the sensor's
      * registers no longer depend on what they held before, and it leaves
      * the stream byte at 0x09. A device whose interface could not be claimed
      * keeps its handle, so the next `init` does not try to open it again. */
    method Init(width: nat, height: nat, desiredFrameRate: nat, outputFormat: OutputFormat, usb: UsbOpen)
      returns (ok: bool)
      requires |powerOn| == 256
      modifies this`hasHandle, this`hasUsbBuf, this`frameWidth, this`frameHeight, this`frameRate
      modifies this`frameOutputFormat, this`bridge, this`sensor
      ensures ok <==> old(hasHandle) || usb == Opens
      ensures hasHandle == (old(hasHandle) || usb != OpenFails)
      ensures !ok ==> hasUsbBuf == old(hasUsbBuf) && frameWidth == old(frameWidth) && frameHeight == old(frameHeight)
      ensures !ok ==> frameRate == old(frameRate) && frameOutputFormat == old(frameOutputFormat)
      ensures !ok ==> bridge == old(bridge) && sensor == old(sensor)
      ensures ok ==> hasUsbBuf && ModeValid() && (frameWidth == 640 <==> InitPicksVga(width, height))
      ensures ok ==> frameRate == ChosenRate(frameWidth, desiredFrameRate).fps && frameOutputFormat == outputFormat
      ensures ok ==> |sensor| == 256 && SensorInitData(sensor, powerOn)
      ensures ok ==> bridge == old(bridge)[BRIDGE_RATE := 0x04][BRIDGE_STREAM := 0x09]
      ensures ok ==> Rate(60, sensor[REG_RATE_11], sensor[REG_RATE_0D], bridge[BRIDGE_RATE]) == VGA_RATES[2]
    {
      if !hasHandle {
        if usb == OpenFails {
          return false;
        }
        hasHandle := true;
        if usb == ClaimFails {
          return false;
        }
      }
      SetMode(width, height, desiredFrameRate, outputFormat);
      SendInitData();
      ok := true;
    }

    /** What `init` does first once the device is open: it sets the mode
      * and validates the frame rate without writing it. */
    method SetMode(width: nat, height: nat, desiredFrameRate: nat, outputFormat: OutputFormat)
      modifies this`hasUsbBuf, this`frameWidth, this`frameHeight, this`frameRate, this`frameOutputFormat
      modifies this`sensor, this`bridge
      ensures sensor == old(sensor) && bridge == old(bridge)
      ensures hasUsbBuf && ModeValid() && (frameWidth == 640 <==> InitPicksVga(width, height))
      ensures frameRate == ChosenRate(frameWidth, desiredFrameRate).fps && frameOutputFormat == outputFormat
    {
      hasUsbBuf := true;
      if InitPicksVga(width, height) {
        frameWidth, frameHeight := 640, 480;
      } else {
        frameWidth, frameHeight := 320, 240;
      }
      frameRate := SetFrameRateRegisters(desiredFrameRate, true);
      frameOutputFormat := outputFormat;
    }

    /** The rest of `init`: it resets the bridge and the sensor, sends the
      * init tables and stops the stream. */
    method SendInitData()
      requires |powerOn| == 256
      modifies this`bridge, this`sensor
      ensures |sensor| == 256 && SensorInitData(sensor, powerOn)
      ensures bridge == old(bridge)[BRIDGE_RATE := 0x04][BRIDGE_STREAM := 0x09]
    {
      // Resets the bridge, whose stream byte becomes 0x08.
      bridge := bridge[BRIDGE_STREAM := 0x08];
      // Resets the sensor; probing its id only reads it.
      sensor := powerOn;
      // Of `ov534_reg_initdata`, the frame-rate byte.
      bridge := bridge[BRIDGE_RATE := 0x04];
      SendSensorInitData();
      bridge := bridge[BRIDGE_STREAM := 0x09];
    }

    /** `sccb_w_array(ov772x_reg_initdata)`: the table's writes in its order.
      * Its first entry resets the sensor, so whatever the sensor held before,
      * it ends with the table's bytes over its reset values. */
    method SendSensorInitData()
      requires |powerOn| == 256
      modifies this`sensor
      ensures |sensor| == 256 && SensorInitData(sensor, powerOn)
    {
      sensor := powerOn;
      sensor := sensor[0x3D := 0x00][0x12 := 0x01][0x11 := 0x01][0x14 := 0x40][0x15 := 0x00]
                      [0x63 := 0xAA][0x64 := 0x87][0x66 := 0x00][0x67 := 0x02][0x17 := 0x26][0x18 := 0xA0]
                      [0x19 := 0x07][0x1A := 0xF0][0x29 := 0xA0][0x2A := 0x00][0x2C := 0xF0][0x20 := 0x10];
      sensor := sensor[0x4E := 0x0F][0x3E := 0xF3][0x0D := 0x41][0x32 := 0x00][0x13 := 0xF0][0x22 := 0x7F]
                      [0x23 := 0x03][0x24 := 0x40][0x25 := 0x30][0x26 := 0xA1][0x2A := 0x00][0x2B := 0x00]
                      [0x13 := 0xF7][0x0C := 0xC0][0x11 := 0x00][0x0D := 0x41][0x8E := 0x00];
    }

    /** The settings `start` writes again, in its order: the rate registers
      * of the stored frame rate, then every stored control. */
    method WriteSettings()
      requires |sensor| == 256
      modifies this`controls, this`sensor, this`bridge
      ensures controls == old(controls) && |sensor| == 256
      ensures ControlsApplied() && RateApplied()
      ensures bridge == old(bridge)[BRIDGE_RATE := ChosenRate(frameWidth, frameRate).re5]
    {
      var _ := SetFrameRateRegisters(frameRate, false);
      ApplyControls();
      assert !IsControlRegister(REG_RATE_11) && !IsControlRegister(REG_RATE_0D);
    }

    /** Every stored control written again through its setter. */
    method ApplyControls()
      requires |sensor| == 256
      modifies this`controls, this`sensor
      ensures controls == old(controls) && |sensor| == 256 && ControlsIn(sensor, controls)
      ensures forall k :: 0 <= k < 256 && !IsControlRegister(k) ==> sensor[k] == old(sensor)[k]
    {
      ApplyAutomatic();
      ApplyPicture();
      ApplyBalanceAndFlip();
      ControlWritesApply(old(sensor), controls);
    }

    /** Every stored control is in the sensor's registers. */
    ghost predicate ControlsApplied()
      reads this
      requires |sensor| == 256
    {
      ControlsIn(sensor, controls)
    }

    method ApplyAutomatic()
      requires |sensor| == 256
      modifies this`controls, this`sensor
      ensures controls == old(controls)
      ensures sensor == AutomaticWrites(old(sensor), controls)
    {
      SetAutogain(controls.autogain);
      SetAutoWhiteBalance(controls.awb);
      SetGain(controls.gain);
    }

    method ApplyPicture()
      requires |sensor| == 256
      modifies this`controls, this`sensor
      ensures controls == old(controls)
      ensures sensor == PictureWrites(old(sensor), controls)
    {
      SetHue(controls.hue);
      SetExposure(controls.exposure);
      SetBrightness(controls.brightness);
      SetContrast(controls.contrast);
      SetSharpness(controls.sharpness);
    }

    method ApplyBalanceAndFlip()
      requires |sensor| == 256
      modifies this`controls, this`sensor
      ensures controls == old(controls)
      ensures sensor == BalanceAndFlipWrites(old(sensor), controls)
    {
      SetRedBalance(controls.redBlc);
      SetBlueBalance(controls.blueBlc);
      SetGreenBalance(controls.greenBlc);
      SetFlip(controls.flipH, controls.flipV);
    }

    /** `start`: nothing happens while streaming. Otherwise the frame rate
      * and every stored control are written to the camera, the stream is
      * switched on and the transfers are submitted for frames of
      * `width * height` bytes. `submitted` is whether libusb accepted them. */
    method Start(submitted: bool)
      requires Valid() && ModeValid()
      modifies this`controls, this`sensor, this`bridge, this`isStreaming, urb, mgr
      ensures Valid() && isStreaming && controls == old(controls)
      ensures old(isStreaming) ==> sensor == old(sensor) && bridge == old(bridge) && unchanged(urb, mgr)
      ensures !old(isStreaming) ==> ControlsApplied() && RateApplied()
      ensures !old(isStreaming) ==> BRIDGE_STREAM in bridge && bridge[BRIDGE_STREAM] == 0x00
      ensures !old(isStreaming) ==> fresh(urb.frameQueue) && urb.frameSize == frameWidth * frameHeight
      ensures !old(isStreaming) ==> mgr.activeCameraCount == old(mgr.activeCameraCount) + 1
    {
      if isStreaming {
        return;
      }
      SwitchOn(submitted);
    }

    /** `start` on an idle camera: the settings written again, the stream
      * switched on and the transfers submitted. */
    method SwitchOn(submitted: bool)
      requires Valid() && ModeValid() && !isStreaming
      modifies this`controls, this`sensor, this`bridge, this`isStreaming, urb, mgr
      ensures Valid() && isStreaming && controls == old(controls)
      ensures ControlsApplied() && RateApplied()
      ensures BRIDGE_STREAM in bridge && bridge[BRIDGE_STREAM] == 0x00
      ensures fresh(urb.frameQueue) && urb.frameSize == frameWidth * frameHeight
      ensures mgr.activeCameraCount == old(mgr.activeCameraCount) + 1
    {
      WriteSettings();
      SubmitStream(submitted);
    }

    /** The stream switched on and the transfers submitted for frames of
      * the current mode; the registers are left as they are. */
    method SubmitStream(submitted: bool)
      requires Valid() && !isStreaming
      modifies this`bridge, this`isStreaming, urb, mgr
      ensures Valid() && isStreaming
      ensures bridge == old(bridge)[BRIDGE_STREAM := 0x00]
      ensures fresh(urb.frameQueue) && urb.frameSize == frameWidth * frameHeight
      ensures mgr.activeCameraCount == old(mgr.activeCameraCount) + 1
    {
      bridge := bridge[BRIDGE_STREAM := 0x00];
      var _ := urb.StartTransfers(frameWidth * frameHeight, mgr, submitted);
      isStreaming := true;
    }

    /** `stop`: nothing happens unless streaming. Otherwise the stream is
      * switched off and the transfers are closed. */
    method Stop()
      requires Valid()
      modifies this`bridge, this`isStreaming, urb, mgr
      ensures Valid() && !isStreaming
      ensures !old(isStreaming) ==> bridge == old(bridge) && unchanged(urb, mgr)
      ensures old(isStreaming) ==> bridge == old(bridge)[BRIDGE_STREAM := 0x09]
      ensures old(isStreaming) ==> urb.frameQueue == null
      ensures old(isStreaming) ==> mgr.activeCameraCount == old(mgr.activeCameraCount) - 1
    {
      if !isStreaming {
        return;
      }
      bridge := bridge[BRIDGE_STREAM := 0x09];
      urb.CloseTransfers(mgr);
      isStreaming := false;
    }

    /** `setWidth`: refused while streaming. */
    method SetWidth(width: nat) returns (ok: bool)
      modifies this`frameWidth, this`frameHeight
      ensures ok == !isStreaming
      ensures !ok ==> frameWidth == old(frameWidth) && frameHeight == old(frameHeight)
      ensures ok ==> ModeValid() && (frameWidth == 640 <==> WidthPicksVga(width))
    {
      if isStreaming {
        return false;
      }
      if width == 0 || width > 320 {
        frameWidth, frameHeight := 640, 480;
      } else {
        frameWidth, frameHeight := 320, 240;
      }
      return true;
    }

    /** `setHeight`: refused while streaming. */
    method SetHeight(height: nat) returns (ok: bool)
      modifies this`frameWidth, this`frameHeight
      ensures ok == !isStreaming
      ensures !ok ==> frameWidth == old(frameWidth) && frameHeight == old(frameHeight)
      ensures ok ==> ModeValid() && (frameWidth == 640 <==> HeightPicksVga(height))
    {
      if isStreaming {
        return false;
      }
      if height == 0 || height > 240 {
        frameWidth, frameHeight := 640, 480;
      } else {
        frameWidth, frameHeight := 320, 240;
      }
      return true;
    }

    /** `setFrameRate(uint8_t)`: refused while streaming, otherwise the
      * supported rate for the request, with nothing written to the camera. */
    method SetFrameRate(val: bv8) returns (ok: bool)
      requires |sensor| == 256
      modifies this`frameRate, this`sensor, this`bridge
      ensures ok == !isStreaming
      ensures sensor == old(sensor) && bridge == old(bridge)
      ensures !ok ==> frameRate == old(frameRate)
      ensures ok ==> frameRate == ChosenRate(frameWidth, val as nat).fps
    {
      if isStreaming {
        return false;
      }
      frameRate := SetFrameRateRegisters(val as nat, true);
      return true;
    }

    /** `setAutogain`: switches the sensor's automatic gain, exposure and
      * white balance; turning it off writes the stored gain and exposure
      * again. */
    method SetAutogain(val: bool)
      requires |sensor| == 256
      modifies this`controls, this`sensor
      ensures controls == old(controls).(autogain := val)
      ensures val ==> sensor == old(sensor)[REG_AUTO := 0xf7][REG_AUTO_EXTRA := old(sensor)[REG_AUTO_EXTRA] | 0x03]
      ensures !val ==> sensor == old(sensor)[REG_AUTO := 0xf0][REG_AUTO_EXTRA := old(sensor)[REG_AUTO_EXTRA] & 0xFC]
                                 [REG_GAIN := GainRegister(old(controls).gain)]
                                 [REG_EXPOSURE_HIGH := ExposureHigh(old(controls).exposure)]
                                 [REG_EXPOSURE_LOW := ExposureLow(old(controls).exposure)]
    {
      controls := controls.(autogain := val);
      if val {
        SensorWrite(REG_AUTO, 0xf7);
        var extra := SensorRead(REG_AUTO_EXTRA);
        SensorWrite(REG_AUTO_EXTRA, extra | 0x03);
      } else {
        SensorWrite(REG_AUTO, 0xf0);
        var extra := SensorRead(REG_AUTO_EXTRA);
        SensorWrite(REG_AUTO_EXTRA, extra & 0xFC);
        SetGain(controls.gain);
        SetExposure(controls.exposure);
      }
    }

    method SetAutoWhiteBalance(val: bool)
      requires |sensor| == 256
      modifies this`controls, this`sensor
      ensures controls == old(controls).(awb := val)
      ensures sensor == old(sensor)[REG_AWB := if val then 0xe0 else 0xAA]
    {
      controls := controls.(awb := val);
      if val {
        SensorWrite(REG_AWB, 0xe0);
      } else {
        SensorWrite(REG_AWB, 0xAA);
      }
    }

    /** `setGain`: the input is stored unchanged; the register gets its
      * encoding. */
    method SetGain(val: bv8)
      requires |sensor| == 256
      modifies this`controls, this`sensor
      ensures controls == old(controls).(gain := val) && sensor == old(sensor)[REG_GAIN := GainRegister(val)]
    {
      controls := controls.(gain := val);
      SensorWrite(REG_GAIN, GainRegister(val));
    }

    method SetExposure(val: bv8)
      requires |sensor| == 256
      modifies this`controls, this`sensor
      ensures controls == old(controls).(exposure := val)
      ensures sensor == old(sensor)[REG_EXPOSURE_HIGH := ExposureHigh(val)][REG_EXPOSURE_LOW := ExposureLow(val)]
    {
      controls := controls.(exposure := val);
      SensorWrite(REG_EXPOSURE_HIGH, val >> 7);
      SensorWrite(REG_EXPOSURE_LOW, val << 1);
    }

    /** `setSharpness`: both noise registers. */
    method SetSharpness(val: bv8)
      requires |sensor| == 256
      modifies this`controls, this`sensor
      ensures controls == old(controls).(sharpness := val) && sensor == old(sensor)[REG_VGA_NOISE := val][REG_QVGA_NOISE := val]
    {
      controls := controls.(sharpness := val);
      SensorWrite(REG_VGA_NOISE, val);
      SensorWrite(REG_QVGA_NOISE, val);
    }

    method SetContrast(val: bv8)
      requires |sensor| == 256
      modifies this`controls, this`sensor
      ensures controls == old(controls).(contrast := val) && sensor == old(sensor)[REG_CONTRAST := val]
    {
      controls := controls.(contrast := val);
      SensorWrite(REG_CONTRAST, val);
    }

    method SetBrightness(val: bv8)
      requires |sensor| == 256
      modifies this`controls, this`sensor
      ensures controls == old(controls).(brightness := val) && sensor == old(sensor)[REG_BRIGHTNESS := val]
    {
      controls := controls.(brightness := val);
      SensorWrite(REG_BRIGHTNESS, val);
    }

    method SetHue(val: bv8)
      requires |sensor| == 256
      modifies this`controls, this`sensor
      ensures controls == old(controls).(hue := val) && sensor == old(sensor)[REG_HUE := val]
    {
      controls := controls.(hue := val);
      SensorWrite(REG_HUE, val);
    }

    method SetRedBalance(val: bv8)
      requires |sensor| == 256
      modifies this`controls, this`sensor
      ensures controls == old(controls).(redBlc := val) && sensor == old(sensor)[REG_RED := val]
    {
      controls := controls.(redBlc := val);
      SensorWrite(REG_RED, val);
    }

    method SetBlueBalance(val: bv8)
      requires |sensor| == 256
      modifies this`controls, this`sensor
      ensures controls == old(controls).(blueBlc := val) && sensor == old(sensor)[REG_BLUE := val]
    {
      controls := controls.(blueBlc := val);
      SensorWrite(REG_BLUE, val);
    }

    method SetGreenBalance(val: bv8)
      requires |sensor| == 256
      modifies this`controls, this`sensor
      ensures controls == old(controls).(greenBlc := val) && sensor == old(sensor)[REG_GREEN := val]
    {
      controls := controls.(greenBlc := val);
      SensorWrite(REG_GREEN, val);
    }

    /** `setFlip`: a read-modify-write of the flip register. */
    method SetFlip(horizontal: bool, vertical: bool)
      requires |sensor| == 256
      modifies this`controls, this`sensor
      ensures controls == old(controls).(flipH := horizontal, flipV := vertical)
      ensures sensor == old(sensor)[REG_FLIP := FlipRegister(old(sensor)[REG_FLIP], horizontal, vertical)]
    {
      controls := controls.(flipH := horizontal, flipV := vertical);
      var val := FlipRegister(SensorRead(REG_FLIP), horizontal, vertical);
      SensorWrite(REG_FLIP, val);
    }
  }
}
