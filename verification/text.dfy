/** Decimal digits, integer printing and `std::from_chars`-style integer parsing,
  * shared by the version parser, the camera-address parser, the driver protocol
  * and the debug driver. Strings are `seq<char>`. */
module Text {
  import opened Wrappers

  /** Largest and smallest value of a C++ `int` (32-bit). */
  const INT_MAX: int := 0x7fff_ffff
  const INT_MIN: int := -0x8000_0000

  predicate IsDigit(c: char) { '0' <= c <= '9' }

  predicate AllDigits(s: string) { forall i :: 0 <= i < |s| ==> IsDigit(s[i]) }

  function DigitValue(c: char): (d: nat)
    requires IsDigit(c)
    ensures d < 10
  { (c as int - '0' as int) }

  function DigitChar(d: nat): (c: char)
    requires d < 10
    ensures IsDigit(c) && DigitValue(c) == d
  { ('0' as int + d) as char }

  /** The value of a run of digits folded from the left starting at `acc`,
    * exactly as a `value = value * 10 + digit` loop accumulates it. */
  function Accumulate(acc: int, ds: string): int
    requires AllDigits(ds)
    decreases |ds|
  {
    if ds == [] then acc else Accumulate(acc * 10 + DigitValue(ds[0]), ds[1..])
  }

  /** Decimal value of a digit string, most significant digit first. */
  function DecimalValue(ds: string): (n: nat)
    requires AllDigits(ds)
  {
    if ds == [] then 0 else DecimalValue(ds[..|ds| - 1]) * 10 + DigitValue(ds[|ds| - 1])
  }

  /** Appending a digit on the right multiplies the fold by ten and adds the digit. */
  lemma {:induction false} AccumulateSnoc(acc: int, ds: string, c: char)
    requires AllDigits(ds) && IsDigit(c)
    ensures AllDigits(ds + [c])
    ensures Accumulate(acc, ds + [c]) == Accumulate(acc, ds) * 10 + DigitValue(c)
    decreases |ds|
  {
    if ds == [] {
      assert ds + [c] == [c];
    } else {
      assert (ds + [c])[1..] == ds[1..] + [c];
      AccumulateSnoc(acc * 10 + DigitValue(ds[0]), ds[1..], c);
    }
  }

  /** The left fold from zero and the positional value agree. */
  lemma {:induction false} AccumulateIsDecimal(ds: string)
    requires AllDigits(ds)
    ensures Accumulate(0, ds) == DecimalValue(ds)
  {
    if ds != [] {
      var init := ds[..|ds| - 1];
      AccumulateIsDecimal(init);
      AccumulateSnoc(0, init, ds[|ds| - 1]);
      assert init + [ds[|ds| - 1]] == ds;
    }
  }

  /** `std::to_string` / `operator<<` of a non-negative integer: no leading zeros. */
  function NatToString(n: nat): (s: string)
    ensures |s| >= 1 && AllDigits(s)
    ensures n < 10 <==> |s| == 1
  {
    if n < 10 then [DigitChar(n)] else NatToString(n / 10) + [DigitChar(n % 10)]
  }

  /** `operator<<` of a signed integer: a minus sign, then the magnitude. */
  function IntToString(i: int): (s: string)
    ensures |s| >= 1
    ensures (s[0] == '-') <==> i < 0
  {
    if i < 0 then "-" + NatToString(-i) else NatToString(i)
  }

  /** The printed digits read back as the printed number. */
  lemma {:induction false} NatToStringValue(n: nat)
    ensures DecimalValue(NatToString(n)) == n
  {
    if n >= 10 {
      NatToStringValue(n / 10);
      var s := NatToString(n);
      assert s[..|s| - 1] == NatToString(n / 10);
    }
  }

  /** Number of leading decimal digits of `s`. */
  function LeadingDigits(s: string): (n: nat)
    ensures n <= |s| && AllDigits(s[..n])
    ensures n < |s| ==> !IsDigit(s[n])
  {
    if s == [] || !IsDigit(s[0]) then 0
    else
      var k := LeadingDigits(s[1..]);
      assert s[..1 + k] == [s[0]] + s[1..][..k];
      1 + k
  }

  /** Outcome of `std::from_chars` on an `int`: the value and how many characters it
    * consumed, `std::errc::invalid_argument` when no number starts the text, or
    * `std::errc::result_out_of_range` when the digits do not fit an `int`. */
  datatype FromCharsResult = Parsed(value: int, consumed: nat) | InvalidArgument | OutOfRange(consumed: nat)

  /** `std::from_chars(first, last, int&, 10)`: an optional '-' (never '+', never
    * leading spaces) followed by at least one digit; digits are consumed greedily. */
  function FromChars(s: string): (r: FromCharsResult)
    ensures r.Parsed? ==> INT_MIN <= r.value <= INT_MAX && 0 < r.consumed <= |s|
    ensures r.Parsed? ==> (r.value < 0 <==> s[0] == '-' && r.value != 0)
  {
    var start := if |s| > 0 && s[0] == '-' then 1 else 0;
    var n := LeadingDigits(s[start..]);
    if n == 0 then InvalidArgument
    else
      var magnitude: int := DecimalValue(s[start..][..n]);
      var v: int := if start == 1 then -magnitude else magnitude;
      if INT_MIN <= v <= INT_MAX then Parsed(v, start + n) else OutOfRange(start + n)
  }

  /** The shared rule of `AddressToIndex` and `GetIdFromName`: the whole text must be
    * consumed by `from_chars` without error and the value must not be negative. */
  function WholeNonNegative(s: string): (r: Option<nat>)
    ensures r.Some? ==> r.value <= INT_MAX
  {
    match FromChars(s)
    case Parsed(v, k) => if k == |s| && v >= 0 then Some(v) else None
    case _ => None
  }

  /** Accepted texts are non-empty digit strings (possibly "-0"), valued as written. */
  lemma WholeNonNegativeAccepts(s: string)
    requires WholeNonNegative(s).Some?
    ensures |s| > 0
    ensures AllDigits(s) ==> WholeNonNegative(s).value == DecimalValue(s)
    ensures !AllDigits(s) ==> s[0] == '-' && WholeNonNegative(s).value == 0
  {
    var start := if |s| > 0 && s[0] == '-' then 1 else 0;
    var n := LeadingDigits(s[start..]);
    assert start + n == |s|;
    assert s[start..][..n] == s[start..];
    if start == 0 {
      assert s[0..] == s;
    } else {
      assert !IsDigit(s[0]);
    }
  }

  /** Every `int`-sized number printed without sign is accepted back. */
  lemma NatToStringAccepted(n: nat)
    requires n <= INT_MAX
    ensures WholeNonNegative(NatToString(n)) == Some(n)
  {
    var s := NatToString(n);
    NatToStringValue(n);
    assert s[0] != '-' by { assert IsDigit(s[0]); }
    assert s[0..] == s;
    assert LeadingDigits(s) == |s| by { LeadingDigitsAll(s); }
    assert s[..|s|] == s;
  }

  lemma {:induction false} LeadingDigitsAll(s: string)
    requires AllDigits(s)
    ensures LeadingDigits(s) == |s|
  {
    if s != [] { LeadingDigitsAll(s[1..]); }
  }

  /** `std::isspace` in the "C" locale, the separator of `operator>>` on strings. */
  predicate IsSpace(c: char) { c == ' ' || c == '\t' || c == '\n' || c == '\r' || c == 11 as char || c == 12 as char }

  /** Length of the leading run of white space. */
  function LeadingSpace(s: string): (n: nat)
    ensures n <= |s|
    ensures forall i :: 0 <= i < n ==> IsSpace(s[i])
    ensures n < |s| ==> !IsSpace(s[n])
  {
    if s == [] || !IsSpace(s[0]) then 0 else 1 + LeadingSpace(s[1..])
  }

  /** Length of the leading run of non-space characters. */
  function LeadingWord(s: string): (n: nat)
    ensures n <= |s|
    ensures forall i :: 0 <= i < n ==> !IsSpace(s[i])
    ensures n < |s| ==> IsSpace(s[n])
  {
    if s == [] || IsSpace(s[0]) then 0 else 1 + LeadingWord(s[1..])
  }

  /** `stream >> word`: skips white space, then takes the longest run of non-space
    * characters; the word is empty exactly when only white space remained.
    * Returns the word and the unread rest of the stream. */
  function NextWord(s: string): (r: (string, string))
    ensures |r.0| + |r.1| <= |s|
    ensures forall i :: 0 <= i < |r.0| ==> !IsSpace(r.0[i])
    ensures r.0 == [] ==> r.1 == [] && forall i :: 0 <= i < |s| ==> IsSpace(s[i])
    ensures r.0 != [] ==> |r.1| < |s|
  {
    var sp := LeadingSpace(s);
    var rest := s[sp..];
    var w := LeadingWord(rest);
    (rest[..w], rest[w..])
  }

  /** All the words `>>` extracts from a stream, in order. */
  function Words(s: string): (ws: seq<string>)
    ensures forall k :: 0 <= k < |ws| ==> ws[k] != []
    decreases |s|
  {
    var (w, rest) := NextWord(s);
    if w == [] then [] else [w] + Words(rest)
  }

  /** Words joined by single spaces, the shape the command builders emit. */
  function JoinSpaced(ws: seq<string>): string
  {
    if ws == [] then [] else if |ws| == 1 then ws[0] else ws[0] + " " + JoinSpaced(ws[1..])
  }

  /** Reading the words of a space-joined list of space-free words gives the list back. */
  lemma {:induction false} WordsOfJoin(ws: seq<string>)
    requires forall k :: 0 <= k < |ws| ==> ws[k] != [] && forall i :: 0 <= i < |ws[k]| ==> !IsSpace(ws[k][i])
    ensures Words(JoinSpaced(ws)) == ws
    decreases |ws|
  {
    if ws != [] {
      var tail := if |ws| == 1 then [] else " " + JoinSpaced(ws[1..]);
      NextWordOfJoin(ws, tail);
      if |ws| == 1 {
        assert Words(tail) == [];
      } else {
        WordsOfJoin(ws[1..]);
        WordsSkipSpace(JoinSpaced(ws[1..]));
      }
    }
  }

  /** The first word of a joined list is its first element. */
  lemma NextWordOfJoin(ws: seq<string>, tail: string)
    requires ws != [] && ws[0] != [] && forall i :: 0 <= i < |ws[0]| ==> !IsSpace(ws[0][i])
    requires tail == if |ws| == 1 then [] else " " + JoinSpaced(ws[1..])
    ensures NextWord(JoinSpaced(ws)) == (ws[0], tail)
  {
    var w := ws[0];
    var s := JoinSpaced(ws);
    assert s == w + tail;
    assert LeadingSpace(s) == 0;
    LeadingWordOf(w, tail);
    assert s[0..] == s;
    assert s[..|w|] == w;
    assert s[|w|..] == tail;
  }

  lemma {:induction false} LeadingWordOf(w: string, tail: string)
    requires forall i :: 0 <= i < |w| ==> !IsSpace(w[i])
    requires tail == [] || IsSpace(tail[0])
    ensures LeadingWord(w + tail) == |w|
  {
    if w != [] {
      assert (w + tail)[1..] == w[1..] + tail;
      LeadingWordOf(w[1..], tail);
    }
  }

  lemma WordsSkipSpace(s: string)
    requires |s| > 0 && !IsSpace(s[0])
    ensures Words(" " + s) == Words(s)
  {
    var t := " " + s;
    assert LeadingSpace(t) == 1 by { assert t[1..] == s; }
    assert t[1..] == s;
    assert s[0..] == s;
  }
}
