/** The text protocol between the tracker and its SteamVR driver: commands and
  * replies are one line of space-separated words, written with `operator<<`
  * (numbers in `std::fixed` notation with six decimals) and read back with
  * `operator>>` from a string stream. Both ends use the same rules, so they live
  * in one module. */
module CommandStream {
  import opened Wrappers
  import Text

  /** A tracker or station pose: position x y z and rotation quaternion w x y z. */
  datatype Pose = Pose(px: real, py: real, pz: real, qw: real, qx: real, qy: real, qz: real)

  /** `Pose::Ident()`: the origin with the identity rotation. */
  const Ident: Pose := Pose(0.0, 0.0, 0.0, 1.0, 0.0, 0.0, 0.0)

  // ---------------------------------------------------------------------------
  // Writing
  // ---------------------------------------------------------------------------

  /** Ten to the `k`. */
  function Pow10(k: nat): (p: nat)
    ensures p >= 1
  {
    if k == 0 then 1 else 10 * Pow10(k - 1)
  }

  /** Powers of ten multiply by adding their exponents. */
  lemma {:induction false} Pow10Add(a: nat, b: nat)
    ensures Pow10(a + b) == Pow10(a) * Pow10(b)
  {
    if a > 0 {
      Pow10Add(a - 1, b);
      assert Pow10(a + b) == 10 * Pow10(a - 1 + b);
    }
  }

  /** Six decimals: the precision the command builders select. */
  const Scale: nat := 1_000_000

  /** The integer nearest to `y`, ties to the even one, as `printf` rounds. */
  function RoundHalfEven(y: real): (q: int)
    ensures (q as real) - 0.5 <= y <= (q as real) + 0.5
  {
    var f := y.Floor;
    var d := y - f as real;
    if d < 0.5 then f else if d > 0.5 then f + 1 else if f % 2 == 0 then f else f + 1
  }

  /** The six fractional digits, zero-padded on the left. */
  function Pad6(n: nat): (s: string)
    requires n < Scale
    ensures |s| == 6 && Text.AllDigits(s) && Text.DecimalValue(s) == n
  {
    NatToStringLength(n, 6);
    Text.NatToStringValue(n);
    ZeroPad(Text.NatToString(n), 6)
  }

  /** `ds` with zeros prepended up to width `k`. */
  function ZeroPad(ds: string, k: nat): (s: string)
    requires Text.AllDigits(ds)
    ensures |s| == if |ds| < k then k else |ds|
    ensures Text.AllDigits(s) && Text.DecimalValue(s) == Text.DecimalValue(ds)
    decreases k - |ds|
  {
    if |ds| >= k then ds
    else
      DecimalValueLeadingZeros("0", ds);
      ZeroPad("0" + ds, k)
  }

  /** The magnitude printed, in millionths. */
  function Millionths(x: real): (q: nat)
  {
    var y := if x < 0.0 then -x else x;
    var q := RoundHalfEven(y * Scale as real);
    assert q >= 0 by { assert (q as real) + 0.5 >= 0.0; }
    q
  }

  /** `os << std::fixed << std::setprecision(6) << x`: a '-' for negative values
    * (kept even when the rounded value is zero), the integer part, a point and
    * exactly six digits. */
  function Fixed6(x: real): (s: string)
    ensures |s| >= 8 && (s[0] == '-' || Text.IsDigit(s[0]))
  {
    var q := Millionths(x);
    (if x < 0.0 then "-" else "") + (Text.NatToString(q / Scale) + "." + Pad6(q % Scale))
  }

  /** The value that printing with six decimals keeps. */
  function Rounded6(x: real): real
  {
    var q := Millionths(x) as real / Scale as real;
    if x < 0.0 then -q else q
  }

  /** Printing with six decimals moves a value by at most half a millionth. */
  lemma Rounded6Close(x: real)
    ensures -0.0000005 <= Rounded6(x) - x <= 0.0000005
  {
    var y := if x < 0.0 then -x else x;
    var q := RoundHalfEven(y * Scale as real);
    assert (q as real) - 0.5 <= y * 1000000.0 <= (q as real) + 0.5;
  }

  /** The seven fields of a pose in order, space separated. */
  function PoseText(p: Pose): string
  {
    Fixed6(p.px) + SpacedText([p.py, p.pz, p.qw, p.qx, p.qy, p.qz])
  }

  /** Each value after a space, in order. */
  function SpacedText(xs: seq<real>): string
  {
    if xs == [] then [] else " " + Fixed6(xs[0]) + SpacedText(xs[1..])
  }

  /** An argument of a command or reply. */
  datatype Arg = Word(w: string) | Int(i: int) | Real(x: real) | PoseArg(p: Pose)

  function ArgText(a: Arg): string
  {
    match a
    case Word(w) => w
    case Int(i) => Text.IntToString(i)
    case Real(x) => Fixed6(x)
    case PoseArg(p) => PoseText(p)
  }

  /** Every argument preceded by one space, in order. */
  function ArgsText(args: seq<Arg>): string
  {
    if args == [] then [] else " " + ArgText(args[0]) + ArgsText(args[1..])
  }

  /** `BuildCommand` of the tracker side: a leading space, the name, the arguments. */
  function ClientCommand(name: string, args: seq<Arg>): string
  {
    " " + name + ArgsText(args)
  }

  /** `BuildCommand` of the driver side: the same without the leading space. */
  function ServerReply(name: string, args: seq<Arg>): string
  {
    name + ArgsText(args)
  }

  // ---------------------------------------------------------------------------
  // Reading
  // ---------------------------------------------------------------------------

  /** An input string stream: the unread text and whether it is still good. Once
    * an extraction fails every later one leaves its target unchanged. */
  datatype Stream = Stream(rest: string, good: bool)

  function Fail(): Stream { Stream([], false) }

  function SkipSpace(s: string): (t: string)
    ensures |t| <= |s|
    ensures t != [] ==> !Text.IsSpace(t[0])
  {
    s[Text.LeadingSpace(s)..]
  }

  /** `is >> word`. */
  function ReadWord(st: Stream, prior: string): (r: (string, Stream))
    ensures r.1.good ==> r.0 != [] && forall i :: 0 <= i < |r.0| ==> !Text.IsSpace(r.0[i])
  {
    if !st.good then (prior, st)
    else
      var (w, rest) := Text.NextWord(st.rest);
      if w == [] then (prior, Fail()) else (w, Stream(rest, true))
  }

  /** `is >> i` for an `int`: an optional sign and decimal digits; no digits
    * stores 0 and fails, a value beyond the `int` range stores the nearest bound
    * and fails. */
  function ReadInt(st: Stream, prior: int): (r: (int, Stream))
    ensures r.1.good ==> Text.INT_MIN <= r.0 <= Text.INT_MAX
  {
    if !st.good then (prior, st) else ScanInt(SkipSpace(st.rest), prior)
  }

  /** `ReadInt` once the leading white space is skipped. */
  function ScanInt(s: string, prior: int): (r: (int, Stream))
    ensures r.1.good ==> Text.INT_MIN <= r.0 <= Text.INT_MAX
  {
    if s == [] then (prior, Fail())
    else
      var body := if s[0] == '+' then s[1..] else s;
      if s[0] == '+' && body != [] && body[0] == '-' then (0, Fail())
      else
        match Text.FromChars(body)
        case Parsed(v, k) => (v, Stream(body[k..], true))
        case InvalidArgument => (0, Fail())
        case OutOfRange(_) => (if body[0] == '-' then Text.INT_MIN else Text.INT_MAX, Fail())
  }

  /** The value of `int.frac` written in decimal. */
  function DecimalReal(intPart: string, frac: string): real
    requires Text.AllDigits(intPart) && Text.AllDigits(frac)
  {
    Text.DecimalValue(intPart) as real + Text.DecimalValue(frac) as real / Pow10(|frac|) as real
  }

  /** `is >> x` for a `double` in fixed notation: an optional sign, digits, and
    * optionally a point followed by digits, at least one digit in all; no number
    * stores 0 and fails. */
  function ReadReal(st: Stream, prior: real): (real, Stream)
  {
    if !st.good then (prior, st) else ScanReal(SkipSpace(st.rest), prior)
  }

  /** `ReadReal` once the leading white space is skipped. */
  function ScanReal(s: string, prior: real): (real, Stream)
  {
    if s == [] then (prior, Fail())
    else
      var start := if s[0] == '-' || s[0] == '+' then 1 else 0;
      match ScanMagnitude(s[start..])
      case None => (0.0, Fail())
      case Some((mag, rest)) => (if s[0] == '-' then -mag else mag, Stream(rest, true))
  }

  /** Digits, and optionally a point followed by digits, at least one digit in
    * all: their value and the text after them. */
  function ScanMagnitude(t: string): Option<(real, string)>
  {
    var n := Text.LeadingDigits(t);
    var dot := n < |t| && t[n] == '.';
    var f := if dot then Text.LeadingDigits(t[n + 1..]) else 0;
    if n + f == 0 then None
    else
      var mag := DecimalReal(t[..n], if dot then t[n + 1..][..f] else []);
      Some((mag, t[if dot then n + 1 + f else n..]))
  }

  /** `is >> pose`: the seven fields in order, each an extraction of its own. */
  function ReadPose(st: Stream, p: Pose): (Pose, Stream)
  {
    var (px, s1) := ReadReal(st, p.px);
    var (py, s2) := ReadReal(s1, p.py);
    var (pz, s3) := ReadReal(s2, p.pz);
    var (qw, s4) := ReadReal(s3, p.qw);
    var (qx, s5) := ReadReal(s4, p.qx);
    var (qy, s6) := ReadReal(s5, p.qy);
    var (qz, s7) := ReadReal(s6, p.qz);
    (Pose(px, py, pz, qw, qx, qy, qz), s7)
  }

  /** An out-argument: its kind and current value. */
  datatype Value = IntV(i: int) | RealV(x: real) | WordV(w: string) | PoseV(p: Pose)

  /** Two values of the same kind. */
  predicate SameKind(a: Value, b: Value)
  {
    a.IntV? == b.IntV? && a.RealV? == b.RealV? && a.WordV? == b.WordV? && a.PoseV? == b.PoseV?
  }

  function Read(st: Stream, v: Value): (r: (Value, Stream))
    ensures SameKind(r.0, v)
  {
    match v
    case IntV(i) => var (i', s) := ReadInt(st, i); (IntV(i'), s)
    case RealV(x) => var (x', s) := ReadReal(st, x); (RealV(x'), s)
    case WordV(w) => var (w', s) := ReadWord(st, w); (WordV(w'), s)
    case PoseV(p) => var (p', s) := ReadPose(st, p); (PoseV(p'), s)
  }

  /** `((ss >> outArgs), ...)`: the out-arguments read left to right. */
  function ReadAll(st: Stream, outs: seq<Value>): (r: (seq<Value>, Stream))
    ensures |r.0| == |outs|
    ensures forall k :: 0 <= k < |outs| ==> SameKind(r.0[k], outs[k])
    ensures !st.good ==> r == (outs, st)
    decreases |outs|
  {
    if outs == [] then ([], st)
    else
      var (v, s) := Read(st, outs[0]);
      var (vs, s') := ReadAll(s, outs[1..]);
      assert !st.good ==> v == outs[0] && s == st && [v] + vs == outs;
      ([v] + vs, s')
  }

  // ---------------------------------------------------------------------------
  // Reading back what was written
  // ---------------------------------------------------------------------------

  /** The pose that printing with six decimals keeps. */
  function RoundedPose(p: Pose): Pose
  {
    Pose(Rounded6(p.px), Rounded6(p.py), Rounded6(p.pz), Rounded6(p.qw), Rounded6(p.qx), Rounded6(p.qy), Rounded6(p.qz))
  }

  predicate SpaceFree(w: string)
  {
    forall i :: 0 <= i < |w| ==> !Text.IsSpace(w[i])
  }

  /** The argument fits the out-argument: the same kind, a non-empty word
    * without spaces, an integer within the `int` range. */
  predicate Fits(a: Arg, v: Value)
  {
    match a
    case Word(w) => v.WordV? && w != [] && SpaceFree(w)
    case Int(i) => v.IntV? && Text.INT_MIN <= i <= Text.INT_MAX
    case Real(_) => v.RealV?
    case PoseArg(_) => v.PoseV?
  }

  predicate AllFit(args: seq<Arg>, outs: seq<Value>)
  {
    |args| == |outs| && forall k :: 0 <= k < |args| ==> Fits(args[k], outs[k])
  }

  /** What a reader obtains from an argument. */
  function Received(a: Arg): Value
  {
    match a
    case Word(w) => WordV(w)
    case Int(i) => IntV(i)
    case Real(x) => RealV(Rounded6(x))
    case PoseArg(p) => PoseV(RoundedPose(p))
  }

  function AllReceived(args: seq<Arg>): (vs: seq<Value>)
    ensures |vs| == |args|
    ensures forall k :: 0 <= k < |args| ==> vs[k] == Received(args[k])
  {
    if args == [] then [] else [Received(args[0])] + AllReceived(args[1..])
  }

  /** What may follow a written item without running into it. */
  predicate Boundary(tail: string)
  {
    tail == [] || Text.IsSpace(tail[0])
  }

  lemma SkipSpaceOne(s: string)
    ensures SkipSpace(" " + s) == SkipSpace(s)
  {
    assert (" " + s)[1..] == s;
  }

  lemma SkipSpaceNone(s: string)
    requires s != [] && !Text.IsSpace(s[0])
    ensures SkipSpace(s) == s
  {
    assert s[0..] == s;
  }

  lemma {:induction false} LeadingDigitsOf(ds: string, tail: string)
    requires Text.AllDigits(ds)
    requires tail == [] || !Text.IsDigit(tail[0])
    ensures Text.LeadingDigits(ds + tail) == |ds|
  {
    if ds != [] {
      assert (ds + tail)[1..] == ds[1..] + tail;
      LeadingDigitsOf(ds[1..], tail);
    }
  }

  /** A number below `10^k` takes at most `k` digits. */
  lemma {:induction false} NatToStringLength(n: nat, k: nat)
    requires 1 <= k && n < Pow10(k)
    ensures |Text.NatToString(n)| <= k
  {
    if n >= 10 {
      assert Pow10(1) == 10;
      assert n / 10 < Pow10(k - 1);
      NatToStringLength(n / 10, k - 1);
    }
  }

  lemma AllDigitsAppend(a: string, b: string)
    requires Text.AllDigits(a) && Text.AllDigits(b)
    ensures Text.AllDigits(a + b)
  {
    forall i | 0 <= i < |a + b| ensures Text.IsDigit((a + b)[i]) {
      if i < |a| { assert (a + b)[i] == a[i]; } else { assert (a + b)[i] == b[i - |a|]; }
    }
  }

  /** Appending digits on the right shifts the value left by their count. */
  lemma {:induction false} DecimalValueAppend(a: string, b: string)
    requires Text.AllDigits(a) && Text.AllDigits(b)
    ensures Text.AllDigits(a + b)
    ensures Text.DecimalValue(a + b) == Text.DecimalValue(a) * Pow10(|b|) + Text.DecimalValue(b)
    decreases |b|
  {
    AllDigitsAppend(a, b);
    if b == [] {
      assert a + b == a;
    } else {
      var b' := b[..|b| - 1];
      var d := Text.DigitValue(b[|b| - 1]);
      assert (a + b)[..|a + b| - 1] == a + b';
      assert (a + b)[|a + b| - 1] == b[|b| - 1];
      assert Text.DecimalValue(a + b) == Text.DecimalValue(a + b') * 10 + d;
      assert Text.DecimalValue(b) == Text.DecimalValue(b') * 10 + d;
      DecimalValueAppend(a, b');
      ShiftStep(Text.DecimalValue(a), Pow10(|b'|), Text.DecimalValue(b'), d);
    }
  }

  lemma ShiftStep(x: int, p: int, y: int, d: int)
    ensures (x * p + y) * 10 + d == x * (10 * p) + (y * 10 + d)
  {
  }

  lemma DecimalValueLeadingZeros(zs: string, ds: string)
    requires forall i :: 0 <= i < |zs| ==> zs[i] == '0'
    requires Text.AllDigits(ds)
    ensures Text.AllDigits(zs + ds) && Text.DecimalValue(zs + ds) == Text.DecimalValue(ds)
  {
    assert Text.DecimalValue(zs) == 0 by { ZerosValue(zs); }
    DecimalValueAppend(zs, ds);
  }

  lemma {:induction false} ZerosValue(zs: string)
    requires forall i :: 0 <= i < |zs| ==> zs[i] == '0'
    ensures Text.AllDigits(zs) && Text.DecimalValue(zs) == 0
  {
    if zs != [] { ZerosValue(zs[..|zs| - 1]); }
  }

  /** A written word is read back. */
  lemma ReadWordBack(w: string, tail: string, prior: string)
    requires w != [] && SpaceFree(w) && Boundary(tail)
    ensures ReadWord(Stream(w + tail, true), prior) == (w, Stream(tail, true))
  {
    var s := w + tail;
    assert Text.LeadingSpace(s) == 0;
    Text.LeadingWordOf(w, tail);
    assert s[0..] == s;
    assert s[..|w|] == w && s[|w|..] == tail;
  }

  /** `from_chars` on digits followed by a boundary. */
  lemma FromCharsDigits(ds: string, tail: string)
    requires ds != [] && Text.AllDigits(ds) && Boundary(tail)
    requires Text.DecimalValue(ds) <= Text.INT_MAX
    ensures Text.FromChars(ds + tail) == Text.Parsed(Text.DecimalValue(ds), |ds|)
  {
    var s := ds + tail;
    LeadingDigitsOf(ds, tail);
    assert s[..|ds|] == ds;
    assert s[0] != '-' by { assert Text.IsDigit(ds[0]); }
    assert s[0..] == s;
  }

  /** `from_chars` on a minus sign, digits and a boundary. */
  lemma FromCharsNegDigits(s: string, t: string, ds: string, tail: string)
    requires ds != [] && Text.AllDigits(ds) && Boundary(tail)
    requires Text.INT_MIN <= -(Text.DecimalValue(ds) as int)
    requires s == "-" + t && t == ds + tail
    ensures Text.FromChars(s) == Text.Parsed(-(Text.DecimalValue(ds) as int), 1 + |ds|)
  {
    assert |s| > 0 && s[0] == '-';
    assert s[1..] == t;
    LeadingDigitsOf(ds, tail);
    assert t[..|ds|] == ds;
  }

  /** Digits followed by a boundary are read as one `int`. */
  lemma ReadDigits(s: string, ds: string, tail: string, prior: int)
    requires ds != [] && Text.AllDigits(ds) && Boundary(tail)
    requires Text.DecimalValue(ds) <= Text.INT_MAX
    requires s == ds + tail
    ensures ReadInt(Stream(s, true), prior) == (Text.DecimalValue(ds), Stream(tail, true))
  {
    assert Text.IsDigit(s[0]);
    SkipSpaceNone(s);
    FromCharsDigits(ds, tail);
    assert s[|ds|..] == tail;
  }

  /** A minus sign, digits and a boundary are read as one negative `int`. */
  lemma ReadNegDigits(s: string, t: string, ds: string, tail: string, prior: int)
    requires ds != [] && Text.AllDigits(ds) && Boundary(tail)
    requires Text.INT_MIN <= -(Text.DecimalValue(ds) as int)
    requires s == "-" + t && t == ds + tail
    ensures ReadInt(Stream(s, true), prior) == (-(Text.DecimalValue(ds) as int), Stream(tail, true))
  {
    assert s[0] == '-';
    SkipSpaceNone(s);
    FromCharsNegDigits(s, t, ds, tail);
    assert s[1 + |ds|..] == tail;
  }

  /** A written `int` is read back. */
  lemma ReadIntBack(i: int, tail: string, prior: int)
    requires Text.INT_MIN <= i <= Text.INT_MAX && Boundary(tail)
    ensures ReadInt(Stream(Text.IntToString(i) + tail, true), prior) == (i, Stream(tail, true))
  {
    var m: nat := if i < 0 then -i else i;
    var ds := Text.NatToString(m);
    Text.NatToStringValue(m);
    if i < 0 {
      Assoc("-", ds, tail);
      ReadNegDigits(Text.IntToString(i) + tail, ds + tail, ds, tail, prior);
    } else {
      ReadDigits(Text.IntToString(i) + tail, ds, tail, prior);
    }
  }

  /** Digits, a point and six digits followed by a boundary make one magnitude. */
  lemma FixedMagnitude(t: string, a: string, b: string, tail: string)
    requires a != [] && Text.AllDigits(a) && |b| == 6 && Text.AllDigits(b) && Boundary(tail)
    requires t == a + "." + b + tail
    ensures Text.IsDigit(t[0]) && ScanMagnitude(t) == Some((DecimalReal(a, b), tail))
  {
    var bt := b + tail;
    var r := "." + bt;
    Assoc(a + ".", b, tail);
    Assoc(a, ".", bt);
    Split(a, r);
    Split(".", bt);
    Split(b, tail);
    LeadingDigitsOf(a, r);
    LeadingDigitsOf(b, tail);
    SliceSlice(t, |a|, 1);
    SliceSlice(t, |a| + 1, 6);
    assert t[|a|] == r[0];
    assert t[0] == a[0];
  }

  /** A magnitude starting with a digit is read as one real. */
  lemma ReadMagnitude(t: string, v: real, tail: string, prior: real)
    requires t != [] && Text.IsDigit(t[0]) && ScanMagnitude(t) == Some((v, tail))
    ensures ReadReal(Stream(t, true), prior) == (v, Stream(tail, true))
  {
    SkipSpaceNone(t);
    ScanPositive(t, prior);
  }

  /** After a minus sign it is read as the negated real. */
  lemma ReadNegMagnitude(s: string, t: string, v: real, tail: string, prior: real)
    requires ScanMagnitude(t) == Some((v, tail)) && s == "-" + t
    ensures ReadReal(Stream(s, true), prior) == (-v, Stream(tail, true))
  {
    DropPrefix("-", t);
    SkipSpaceNone(s);
    ScanNegative(s, t, prior);
  }

  lemma ScanNegative(s: string, t: string, prior: real)
    requires |s| >= 1 && s[0] == '-' && s[1..] == t && ScanMagnitude(t).Some?
    ensures ScanReal(s, prior) == (-ScanMagnitude(t).value.0, Stream(ScanMagnitude(t).value.1, true))
  {
  }

  lemma ScanPositive(t: string, prior: real)
    requires t != [] && Text.IsDigit(t[0]) && ScanMagnitude(t).Some?
    ensures ScanReal(t, prior) == (ScanMagnitude(t).value.0, Stream(ScanMagnitude(t).value.1, true))
  {
    assert t[0..] == t;
  }

  lemma Pow10Six()
    ensures Pow10(6) == Scale
  {
    assert Pow10(2) == 100;
    assert Pow10(4) == 10000;
  }

  /** Whole millionths split into the integer part and six decimals. */
  lemma MillionthsSplit(q: nat)
    ensures (q / Scale) as real + (q % Scale) as real / Scale as real == q as real / Scale as real
  {
    var w := q / Scale;
    var r := q % Scale;
    assert q == w * Scale + r;
    assert q as real == w as real * Scale as real + r as real;
  }

  /** The integer digits `Fixed6` prints. */
  function IntDigits(x: real): (a: string)
    ensures a != [] && Text.AllDigits(a)
  {
    Text.NatToString(Millionths(x) / Scale)
  }

  /** The six decimals `Fixed6` prints. */
  function FracDigits(x: real): (b: string)
    ensures |b| == 6 && Text.AllDigits(b)
  {
    Pad6(Millionths(x) % Scale)
  }

  /** The printed digits denote the value printing keeps. */
  lemma Fixed6Parts(x: real)
    ensures Fixed6(x) == (if x < 0.0 then "-" else "") + (IntDigits(x) + "." + FracDigits(x))
    ensures Rounded6(x) == if x < 0.0 then -DecimalReal(IntDigits(x), FracDigits(x)) else DecimalReal(IntDigits(x), FracDigits(x))
  {
    var q := Millionths(x);
    Text.NatToStringValue(q / Scale);
    Pow10Six();
    MillionthsSplit(q);
    assert DecimalReal(IntDigits(x), FracDigits(x)) == q as real / Scale as real;
  }

  /** Unsigned text of that shape followed by a boundary is read as its value. */
  lemma ReadPosFixed(f: string, a: string, b: string, tail: string, prior: real)
    requires a != [] && Text.AllDigits(a) && |b| == 6 && Text.AllDigits(b) && Boundary(tail)
    requires f == a + "." + b + tail
    ensures ReadReal(Stream(f, true), prior) == (DecimalReal(a, b), Stream(tail, true))
  {
    FixedMagnitude(f, a, b, tail);
    ReadMagnitude(f, DecimalReal(a, b), tail, prior);
  }

  /** The same text after a minus sign is read as the negated value. */
  lemma ReadNegFixed(f: string, a: string, b: string, tail: string, prior: real)
    requires a != [] && Text.AllDigits(a) && |b| == 6 && Text.AllDigits(b) && Boundary(tail)
    requires f == "-" + (a + "." + b + tail)
    ensures ReadReal(Stream(f, true), prior) == (-DecimalReal(a, b), Stream(tail, true))
  {
    var t := a + "." + b + tail;
    var v := DecimalReal(a, b);
    FixedMagnitude(t, a, b, tail);
    assert f == "-" + t;
    ReadNegMagnitude(f, t, v, tail, prior);
  }

  /** A number written by Fixed6 and followed by a boundary is read back as its rounded value. */
  lemma ReadRealBack(x: real, tail: string, prior: real)
    requires Boundary(tail)
    ensures ReadReal(Stream(Fixed6(x) + tail, true), prior) == (Rounded6(x), Stream(tail, true))
  {
    var a, b := IntDigits(x), FracDigits(x);
    var m := a + "." + b;
    assert Fixed6(x) + tail == (if x < 0.0 then "-" + (m + tail) else m + tail) by {
      Fixed6Parts(x);
      Assoc("-", m, tail);
    }
    assert Rounded6(x) == (if x < 0.0 then -DecimalReal(a, b) else DecimalReal(a, b)) by {
      Fixed6Parts(x);
    }
    ReadSignedFixed(Fixed6(x) + tail, x < 0.0, a, b, tail, prior);
  }

  /** A fixed-notation number, with or without its minus sign, is read back. */
  lemma ReadSignedFixed(f: string, negative: bool, a: string, b: string, tail: string, prior: real)
    requires a != [] && Text.AllDigits(a) && |b| == 6 && Text.AllDigits(b) && Boundary(tail)
    requires f == (if negative then "-" + (a + "." + b + tail) else a + "." + b + tail)
    ensures ReadReal(Stream(f, true), prior)
         == (if negative then -DecimalReal(a, b) else DecimalReal(a, b), Stream(tail, true))
  {
    if negative {
      ReadNegFixed(f, a, b, tail, prior);
    } else {
      ReadPosFixed(f, a, b, tail, prior);
    }
  }

  /** A written pose is read back field by field. */
  lemma ReadPoseBack(p: Pose, tail: string, prior: Pose)
    requires Boundary(tail)
    ensures ReadPose(Stream(PoseText(p) + tail, true), prior) == (RoundedPose(p), Stream(tail, true))
  {
    var q := RoundedPose(p);
    assert ReadReal(Stream(PoseText(p) + tail, true), prior.px) == (q.px, Rest(p, 0, tail)) by {
      ReadFirstField(p, tail, prior.px);
    }
    assert ReadReal(Rest(p, 0, tail), prior.py) == (q.py, Rest(p, 1, tail)) by {
      ReadLaterField(p, 0, tail, prior.py);
    }
    assert ReadReal(Rest(p, 1, tail), prior.pz) == (q.pz, Rest(p, 2, tail)) by {
      ReadLaterField(p, 1, tail, prior.pz);
    }
    assert ReadReal(Rest(p, 2, tail), prior.qw) == (q.qw, Rest(p, 3, tail)) by {
      ReadLaterField(p, 2, tail, prior.qw);
    }
    assert ReadReal(Rest(p, 3, tail), prior.qx) == (q.qx, Rest(p, 4, tail)) by {
      ReadLaterField(p, 3, tail, prior.qx);
    }
    assert ReadReal(Rest(p, 4, tail), prior.qy) == (q.qy, Rest(p, 5, tail)) by {
      ReadLaterField(p, 4, tail, prior.qy);
    }
    assert ReadReal(Rest(p, 5, tail), prior.qz) == (q.qz, Rest(p, 6, tail)) by {
      ReadLaterField(p, 5, tail, prior.qz);
    }
    RestOfNone(p, tail);
    ReadPoseSteps(Stream(PoseText(p) + tail, true), prior, q, Rest(p, 0, tail), Rest(p, 1, tail),
                  Rest(p, 2, tail), Rest(p, 3, tail), Rest(p, 4, tail), Rest(p, 5, tail), Rest(p, 6, tail));
  }

  /** The stream left once the fields before `Later(p)[k]` are read. */
  function Rest(p: Pose, k: nat, tail: string): Stream
    requires k <= 6
  {
    Stream(SpacedText(Later(p)[k..]) + tail, true)
  }

  lemma RestOfNone(p: Pose, tail: string)
    ensures Rest(p, 6, tail) == Stream(tail, true)
  {
    assert Later(p)[6..] == [];
  }

  /** The fields after the first, in writing order. */
  function Later(p: Pose): (xs: seq<real>)
    ensures |xs| == 6
  {
    [p.py, p.pz, p.qw, p.qx, p.qy, p.qz]
  }

  lemma ReadFirstField(p: Pose, tail: string, prior: real)
    requires Boundary(tail)
    ensures ReadReal(Stream(PoseText(p) + tail, true), prior) == (Rounded6(p.px), Rest(p, 0, tail))
  {
    assert Later(p)[0..] == Later(p);
    ReadSpacedBack(Later(p), tail, prior);
    Assoc(Fixed6(p.px), SpacedText(Later(p)), tail);
    ReadRealBack(p.px, SpacedText(Later(p)) + tail, prior);
  }

  lemma ReadLaterField(p: Pose, k: nat, tail: string, prior: real)
    requires k < 6 && Boundary(tail)
    ensures ReadReal(Rest(p, k, tail), prior) == (Field(RoundedPose(p), k + 1), Rest(p, k + 1, tail))
  {
    var xs := Later(p);
    ReadSpacedBack(xs[k..], tail, prior);
    assert xs[k..][1..] == xs[k + 1..];
    assert xs[k] == Field(p, k + 1);
  }

  /** Field `k` of a pose in writing order. */
  function Field(p: Pose, k: nat): real
    requires k < 7
  {
    if k == 0 then p.px else if k == 1 then p.py else if k == 2 then p.pz
    else if k == 3 then p.qw else if k == 4 then p.qx else if k == 5 then p.qy else p.qz
  }

  /** `ReadPose` is its seven extractions in order. */
  lemma ReadPoseSteps(st: Stream, prior: Pose, q: Pose, s1: Stream, s2: Stream, s3: Stream,
                      s4: Stream, s5: Stream, s6: Stream, s7: Stream)
    requires ReadReal(st, prior.px) == (q.px, s1)
    requires ReadReal(s1, prior.py) == (q.py, s2)
    requires ReadReal(s2, prior.pz) == (q.pz, s3)
    requires ReadReal(s3, prior.qw) == (q.qw, s4)
    requires ReadReal(s4, prior.qx) == (q.qx, s5)
    requires ReadReal(s5, prior.qy) == (q.qy, s6)
    requires ReadReal(s6, prior.qz) == (q.qz, s7)
    ensures ReadPose(st, prior) == (q, s7)
  {
  }

  /** The first of spaced values is read back and leaves the others. */
  lemma ReadSpacedBack(xs: seq<real>, tail: string, prior: real)
    requires xs != [] && Boundary(tail)
    ensures Boundary(SpacedText(xs) + tail)
    ensures ReadReal(Stream(SpacedText(xs) + tail, true), prior) == (Rounded6(xs[0]), Stream(SpacedText(xs[1..]) + tail, true))
  {
    var f := Fixed6(xs[0]);
    var r := SpacedText(xs[1..]);
    Assoc(" " + f, r, tail);
    assert Boundary(r + tail) by {
      if xs[1..] != [] { assert (r + tail)[0] == r[0]; }
      else { assert r + tail == tail; }
    }
    ReadRealAfterSpace(xs[0], r + tail, prior);
  }

  lemma ReadRealAfterSpace(x: real, tail: string, prior: real)
    requires Boundary(tail)
    ensures ReadReal(Stream(" " + Fixed6(x) + tail, true), prior) == (Rounded6(x), Stream(tail, true))
  {
    var t := Fixed6(x) + tail;
    Assoc(" ", Fixed6(x), tail);
    ReadRealSpace(" " + Fixed6(x) + tail, t, prior);
    ReadRealBack(x, tail, prior);
  }

  lemma Split<T>(a: seq<T>, b: seq<T>)
    ensures (a + b)[..|a|] == a && (a + b)[|a|..] == b
  {
  }

  lemma SliceSlice<T>(s: seq<T>, i: nat, j: nat)
    requires i + j <= |s|
    ensures s[i..][j..] == s[i + j..]
  {
  }

  lemma DropPrefix<T>(a: seq<T>, b: seq<T>)
    ensures (a + b)[|a|..] == b
  {
  }

  lemma Assoc<T>(a: seq<T>, b: seq<T>, c: seq<T>)
    ensures a + b + c == a + (b + c)
  {
  }

  lemma ReadRealSpace(s: string, t: string, prior: real)
    requires s == " " + t
    ensures ReadReal(Stream(s, true), prior) == ReadReal(Stream(t, true), prior)
  {
    SkipSpaceOne(t);
  }

  lemma ReadIntSpace(s: string, t: string, prior: int)
    requires s == " " + t
    ensures ReadInt(Stream(s, true), prior) == ReadInt(Stream(t, true), prior)
  {
    SkipSpaceOne(t);
  }

  lemma ReadWordSpace(s: string, t: string, prior: string)
    requires s == " " + t
    ensures ReadWord(Stream(s, true), prior) == ReadWord(Stream(t, true), prior)
  {
    assert Text.LeadingSpace(s) == 1 + Text.LeadingSpace(t) by { assert s[1..] == t; }
    assert s[1 + Text.LeadingSpace(t)..] == t[Text.LeadingSpace(t)..];
  }

  lemma ReadPoseSpace(s: string, t: string, prior: Pose)
    requires s == " " + t
    ensures ReadPose(Stream(s, true), prior) == ReadPose(Stream(t, true), prior)
  {
    ReadRealSpace(s, t, prior.px);
  }

  /** One written argument, after its separating space, is read back into an
    * out-argument it fits. */
  lemma ReadArgBack(a: Arg, v: Value, tail: string)
    requires Fits(a, v) && Boundary(tail)
    ensures Read(Stream(" " + ArgText(a) + tail, true), v) == (Received(a), Stream(tail, true))
  {
    var t := ArgText(a) + tail;
    Assoc(" ", ArgText(a), tail);
    match a {
      case Word(w) =>
        ReadWordSpace(" " + t, t, v.w);
        ReadWordBack(w, tail, v.w);
      case Int(i) =>
        ReadIntSpace(" " + t, t, v.i);
        ReadIntBack(i, tail, v.i);
      case Real(x) =>
        ReadRealSpace(" " + t, t, v.x);
        ReadRealBack(x, tail, v.x);
      case PoseArg(p) =>
        ReadPoseSpace(" " + t, t, v.p);
        ReadPoseBack(p, tail, v.p);
    }
  }

  /** The arguments of a command, read into out-arguments they fit, arrive in
    * order with the values their printing keeps, and the stream stays good. */
  lemma {:induction false} ReadAllBack(args: seq<Arg>, outs: seq<Value>, tail: string)
    requires AllFit(args, outs) && Boundary(tail)
    ensures ReadAll(Stream(ArgsText(args) + tail, true), outs) == (AllReceived(args), Stream(tail, true))
  {
    if args != [] {
      var rest := ArgsText(args[1..]) + tail;
      Assoc(" " + ArgText(args[0]), ArgsText(args[1..]), tail);
      assert Boundary(rest) by {
        if args[1..] != [] { assert rest[0] == ArgsText(args[1..])[0]; }
        else { assert rest == tail; }
      }
      assert Fits(args[0], outs[0]);
      ReadArgBack(args[0], outs[0], rest);
      assert AllFit(args[1..], outs[1..]) by {
        forall k | 0 <= k < |args| - 1 ensures Fits(args[1..][k], outs[1..][k]) {
          assert Fits(args[k + 1], outs[k + 1]);
        }
      }
      ReadAllBack(args[1..], outs[1..], tail);
    } else {
      assert ArgsText(args) + tail == tail;
    }
  }

  // ---------------------------------------------------------------------------
  // The documented examples of `BuildCommand`
  // ---------------------------------------------------------------------------

  /** The text of a value with `q` millionths. */
  lemma Fixed6Of(x: real, q: nat)
    requires 0.0 <= x && Millionths(x) == q
    ensures Fixed6(x) == Text.NatToString(q / Scale) + "." + Pad6(q % Scale)
  {
  }

  lemma Pad6HundredThousand()
    ensures Pad6(100000) == "100000"
  {
  }

  /** `1.1` prints as `1.100000`. */
  lemma Fixed6OnePointOne()
    ensures Fixed6(1.1) == "1.100000"
  {
    Fixed6Of(1.1, 1100000);
    Pad6HundredThousand();
  }

  /** The `float` nearest to `1.1` prints the same. */
  lemma Fixed6FloatOnePointOne()
    ensures Fixed6(1.10000002384185791015625) == "1.100000"
  {
    Fixed6Of(1.10000002384185791015625, 1100000);
    Pad6HundredThousand();
  }

  /** The seventh decimal rounds the sixth up. */
  lemma Fixed6RoundsUp()
    ensures Fixed6(10.1234559) == "10.123456"
  {
    Fixed6Of(10.1234559, 10123456);
    assert Pad6(123456) == "123456";
  }

  lemma Pad6Zero()
    ensures Pad6(0) == "000000"
  {
    assert Text.NatToString(0) == "0";
    assert "0" + "0" == "00";
    assert "0" + "00" == "000";
    assert "0" + "000" == "0000";
    assert "0" + "0000" == "00000";
    assert "0" + "00000" == "000000";
    assert ZeroPad("000000", 6) == "000000";
    assert ZeroPad("00000", 6) == "000000";
    assert ZeroPad("0000", 6) == "000000";
    assert ZeroPad("000", 6) == "000000";
    assert ZeroPad("00", 6) == "000000";
    assert ZeroPad("0", 6) == "000000";
  }

  lemma Fixed6Zero()
    ensures Fixed6(0.0) == "0.000000"
  {
    Fixed6Of(0.0, 0);
    Pad6Zero();
  }

  lemma Fixed6One()
    ensures Fixed6(1.0) == "1.000000"
  {
    Fixed6Of(1.0, 1000000);
    Pad6Zero();
  }

  lemma Fixed6OneTenth()
    ensures Fixed6(0.1) == "0.100000"
  {
    Fixed6Of(0.1, 100000);
    Pad6HundredThousand();
  }

  lemma Pad6TwoHundredThousand()
    ensures Pad6(200000) == "200000"
  {
  }

  lemma Fixed6TwoTenths()
    ensures Fixed6(0.2) == "0.200000"
  {
    Fixed6Of(0.2, 200000);
    Pad6TwoHundredThousand();
    assert Text.NatToString(0) == "0";
  }

  lemma Pad6ThreeHundredThousand()
    ensures Pad6(300000) == "300000"
  {
  }

  lemma Fixed6ThreeTenths()
    ensures Fixed6(0.3) == "0.300000"
  {
    Fixed6Of(0.3, 300000);
    Pad6ThreeHundredThousand();
    assert Text.NatToString(0) == "0";
  }

  /** Text already printed, followed by the spaced values: the first value's
    * text joins what was printed. */
  lemma SpacedStep(done: string, xs: seq<real>)
    requires xs != []
    ensures done + SpacedText(xs) == (done + " " + Fixed6(xs[0])) + SpacedText(xs[1..])
  {
    assert SpacedText(xs) == " " + Fixed6(xs[0]) + SpacedText(xs[1..]);
  }

  /** Text already printed, followed by a pose argument: the pose's first
    * field joins what was printed. */
  lemma PoseArgStep(done: string, p: Pose)
    ensures done + ArgsText([PoseArg(p)])
      == (done + " " + Fixed6(p.px)) + SpacedText([p.py, p.pz, p.qw, p.qx, p.qy, p.qz])
  {
    assert ArgsText([PoseArg(p)]) == " " + PoseText(p) + ArgsText([]);
  }

  /** The command of the doc comment on `BuildCommand`, joined field by field. */
  lemma PoseCommandStart()
    ensures " " + "foo" == " foo" && " foo" + " " + "0.100000" == " foo 0.100000"
  {
  }

  lemma PoseCommandJoin2()
    ensures " foo 0.100000" + " " + "0.200000" == " foo 0.100000 0.200000"
  {
  }

  lemma PoseCommandJoin3()
    ensures " foo 0.100000 0.200000" + " " + "0.300000" == " foo 0.100000 0.200000 0.300000"
  {
  }

  lemma PoseCommandJoin4()
    ensures " foo 0.100000 0.200000 0.300000" + " " + "1.000000" == " foo 0.100000 0.200000 0.300000 1.000000"
  {
  }

  lemma PoseCommandJoin5()
    ensures " foo 0.100000 0.200000 0.300000 1.000000" + " " + "0.000000" == " foo 0.100000 0.200000 0.300000 1.000000 0.000000"
  {
  }

  lemma PoseCommandJoin6()
    ensures " foo 0.100000 0.200000 0.300000 1.000000 0.000000" + " " + "0.000000" == " foo 0.100000 0.200000 0.300000 1.000000 0.000000 0.000000"
  {
  }

  lemma PoseCommandJoin7()
    ensures " foo 0.100000 0.200000 0.300000 1.000000 0.000000 0.000000" + " " + "0.000000" == " foo 0.100000 0.200000 0.300000 1.000000 0.000000 0.000000 0.000000"
  {
  }

  /** The doc comment on `BuildCommand`: a pose prints as its seven fields
    * with six decimals, in order. */
  lemma BuildCommandPose()
    ensures ClientCommand("foo", [PoseArg(Pose(0.1, 0.2, 0.3, 1.0, 0.0, 0.0, 0.0))])
      == " foo 0.100000 0.200000 0.300000 1.000000 0.000000 0.000000 0.000000"
  {
    Fixed6OneTenth();
    Fixed6TwoTenths();
    Fixed6ThreeTenths();
    Fixed6One();
    Fixed6Zero();
    PoseCommandStart();
    var xs := [0.2, 0.3, 1.0, 0.0, 0.0, 0.0];
    PoseArgStep(" foo", Pose(0.1, 0.2, 0.3, 1.0, 0.0, 0.0, 0.0));
    assert ClientCommand("foo", [PoseArg(Pose(0.1, 0.2, 0.3, 1.0, 0.0, 0.0, 0.0))])
      == " foo 0.100000" + SpacedText(xs[0..]);
    var cmd := ClientCommand("foo", [PoseArg(Pose(0.1, 0.2, 0.3, 1.0, 0.0, 0.0, 0.0))]);
    SpacedStep(" foo 0.100000", xs[0..]);
    PoseCommandJoin2();
    assert xs[0..][1..] == xs[1..];
    assert cmd == " foo 0.100000 0.200000" + SpacedText(xs[1..]);
    SpacedStep(" foo 0.100000 0.200000", xs[1..]);
    PoseCommandJoin3();
    assert xs[1..][1..] == xs[2..];
    assert cmd == " foo 0.100000 0.200000 0.300000" + SpacedText(xs[2..]);
    SpacedStep(" foo 0.100000 0.200000 0.300000", xs[2..]);
    PoseCommandJoin4();
    assert xs[2..][1..] == xs[3..];
    assert cmd == " foo 0.100000 0.200000 0.300000 1.000000" + SpacedText(xs[3..]);
    SpacedStep(" foo 0.100000 0.200000 0.300000 1.000000", xs[3..]);
    PoseCommandJoin5();
    assert xs[3..][1..] == xs[4..];
    assert cmd == " foo 0.100000 0.200000 0.300000 1.000000 0.000000" + SpacedText(xs[4..]);
    SpacedStep(" foo 0.100000 0.200000 0.300000 1.000000 0.000000", xs[4..]);
    PoseCommandJoin6();
    assert xs[4..][1..] == xs[5..];
    assert cmd == " foo 0.100000 0.200000 0.300000 1.000000 0.000000 0.000000" + SpacedText(xs[5..]);
    SpacedStep(" foo 0.100000 0.200000 0.300000 1.000000 0.000000 0.000000", xs[5..]);
    PoseCommandJoin7();
    assert xs[5..][1..] == xs[6..];
    assert cmd == " foo 0.100000 0.200000 0.300000 1.000000 0.000000 0.000000 0.000000" + SpacedText(xs[6..]);
    assert SpacedText(xs[6..]) == "";
  }

  lemma BuildCommandNameOnly()
    ensures ClientCommand("updatepose", []) == " updatepose"
  {
  }

  lemma BuildCommandInt()
    ensures ClientCommand("foo", [Int(10)]) == " foo 10"
  {
  }

  lemma BuildCommandWords()
    ensures ClientCommand("foo", [Word("bar"), Word("baz"), Int(10)]) == " foo bar baz 10"
  {
  }

  lemma BuildCommandReal()
    ensures ClientCommand("foo", [Real(1.1)]) == " foo 1.100000"
  {
    Fixed6OnePointOne();
  }

  lemma BuildCommandFloat()
    ensures ClientCommand("foo", [Real(1.10000002384185791015625)]) == " foo 1.100000"
  {
    Fixed6FloatOnePointOne();
  }

  lemma BuildCommandRounded()
    ensures ClientCommand("foo", [Real(10.1234559)]) == " foo 10.123456"
  {
    Fixed6RoundsUp();
  }
}
