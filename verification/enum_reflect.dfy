/** Compile-time reflection of enums declared with `ATT_ENUM(name, ...)`: the macro
  * keeps the enumerator list as text ("Stringized") and as optional explicit values;
  * the key names, the numeric values and the lookups are derived from those two.
  * Enumerator values are modelled as `int`; the key list is the stringized text. */
module EnumReflect {
  import opened Wrappers

  /** Characters that may appear in an identifier. */
  predicate IsIdent(c: char)
  {
    ('a' <= c <= 'z') || ('A' <= c <= 'Z') || ('0' <= c <= '9') || c == '_'
  }

  /** Change of parenthesis depth caused by one character. */
  function DepthStep(c: char): int
  {
    if c == '(' then 1 else if c == ')' then -1 else 0
  }

  /** Parenthesis depth reached after reading `s[from..k]`. */
  function Depth(s: string, from: nat, k: nat): int
    requires from <= k <= |s|
    decreases k - from
  {
    if k == from then 0 else Depth(s, from, k - 1) + DepthStep(s[k - 1])
  }

  /** A comma at position k that is not inside parentheses opened after `from`. */
  predicate OuterCommaAt(s: string, from: nat, k: nat)
    requires from <= k < |s|
  {
    s[k] == ',' && Depth(s, from, k) == 0
  }

  /** `detail::FindOuterComma`: the position just after the first comma at depth 0
    * (counting from `from`), or the end of the text when there is none; what that
    * means is stated by `NextOuterCommaIsFirst`. */
  method FindOuterComma(s: string, from: nat) returns (r: nat)
    requires from <= |s|
    ensures r == NextOuterComma(s, from, from)
  {
    var depth := 0;
    var it := from;
    while it < |s|
      invariant from <= it <= |s|
      invariant depth == Depth(s, from, it)
      invariant NextOuterComma(s, from, it) == NextOuterComma(s, from, from)
    {
      var c := s[it];
      if c == ',' && depth == 0 {
        return it + 1;
      }
      if c == '(' {
        depth := depth + 1;
      } else if c == ')' {
        depth := depth - 1;
      }
      it := it + 1;
    }
    return |s|;
  }

  /** First position at or after `from` holding an identifier character (`std::find_if`). */
  function FindIdent(s: string, from: nat): (k: nat)
    requires from <= |s|
    ensures from <= k <= |s|
    ensures k < |s| ==> IsIdent(s[k])
    decreases |s| - from
  {
    if from == |s| || IsIdent(s[from]) then from else FindIdent(s, from + 1)
  }

  /** First position at or after `from` that is not an identifier character (`std::find_if_not`). */
  function FindNotIdent(s: string, from: nat): (k: nat)
    requires from <= |s|
    ensures from <= k <= |s|
    ensures k < |s| ==> !IsIdent(s[k])
    decreases |s| - from
  {
    if from == |s| || !IsIdent(s[from]) then from else FindNotIdent(s, from + 1)
  }

  /** `FindIdent` skips only characters outside identifiers. */
  lemma {:induction false} FindIdentIsFirst(s: string, from: nat)
    requires from <= |s|
    ensures forall j :: from <= j < FindIdent(s, from) ==> !IsIdent(s[j])
    decreases |s| - from
  {
    if from < |s| && !IsIdent(s[from]) { FindIdentIsFirst(s, from + 1); }
  }

  /** `FindNotIdent` skips only identifier characters. */
  lemma {:induction false} FindNotIdentIsFirst(s: string, from: nat)
    requires from <= |s|
    ensures forall j :: from <= j < FindNotIdent(s, from) ==> IsIdent(s[j])
    decreases |s| - from
  {
    if from < |s| && IsIdent(s[from]) { FindNotIdentIsFirst(s, from + 1); }
  }

  /** The position after the first outer comma from `from`, as a function. */
  function NextOuterComma(s: string, from: nat, k: nat): (r: nat)
    requires from <= k <= |s|
    ensures k <= r <= |s|
    decreases |s| - k
  {
    if k == |s| then |s|
    else if OuterCommaAt(s, from, k) then k + 1
    else NextOuterComma(s, from, k + 1)
  }

  /** A key: a non-empty, maximal run of identifier characters. */
  predicate IsKey(key: string)
  {
    |key| > 0 && forall i :: 0 <= i < |key| ==> IsIdent(key[i])
  }

  /** The key found from position `it` (the run of identifier characters starting
    * at the first one), and the position just after the next outer comma, where
    * the scan resumes; None when no identifier character is left. */
  function NextKey(s: string, it: nat): (r: Option<(string, nat)>)
    requires it <= |s|
    ensures r.Some? ==> IsKey(r.value.0) && r.value.1 <= |s|
  {
    var ident := FindIdent(s, it);
    if ident == |s| then None
    else
      var stop := FindNotIdent(s, ident + 1);
      FindNotIdentIsFirst(s, ident + 1);
      KeyRun(s, ident, stop);
      Some((s[ident..stop], NextOuterComma(s, stop, stop)))
  }

  /** The keys read by the first `n` turns of the scan and the position it has
    * reached, or None when an identifier was missing (the constant evaluation
    * of `ParseEnumKeys` then steps past the end). */
  function ScanKeys(s: string, n: nat): (r: Option<(seq<string>, nat)>)
    ensures r.Some? ==> |r.value.0| == n && r.value.1 <= |s|
    ensures r.Some? ==> forall i :: 0 <= i < n ==> IsKey(r.value.0[i])
  {
    if n == 0 then Some(([], 0))
    else
      match ScanKeys(s, n - 1)
      case None => None
      case Some((keys, it)) =>
        match NextKey(s, it)
        case None => None
        case Some((key, next)) => Some((keys + [key], next))
  }

  /** `NextOuterComma` is just after the first comma at depth 0 from `k` on, or the
    * end of the text when there is none. */
  lemma {:induction false} NextOuterCommaIsFirst(s: string, from: nat, k: nat)
    requires from <= k <= |s|
    ensures var r := NextOuterComma(s, from, k);
      (k < r && OuterCommaAt(s, from, r - 1) && forall j :: k <= j < r - 1 ==> !OuterCommaAt(s, from, j))
      || (r == |s| && forall j :: k <= j < |s| ==> !OuterCommaAt(s, from, j))
    decreases |s| - k
  {
    if k < |s| && !OuterCommaAt(s, from, k) {
      NextOuterCommaIsFirst(s, from, k + 1);
    }
  }

  /** The run between an identifier character and the next non-identifier one is a key. */
  lemma KeyRun(s: string, ident: nat, stop: nat)
    requires ident < |s| && IsIdent(s[ident]) && ident + 1 <= stop <= |s|
    requires forall j :: ident + 1 <= j < stop ==> IsIdent(s[j])
    ensures IsKey(s[ident..stop])
  {
    var key := s[ident..stop];
    assert forall j :: 0 <= j < |key| ==> key[j] == s[ident + j];
  }

  /** One turn of the scan: the key at the first identifier character from `it`. */
  lemma ScanStep(s: string, n: nat, keys: seq<string>, it: nat)
    requires ScanKeys(s, n) == Some((keys, it)) && FindIdent(s, it) < |s|
    ensures var ident := FindIdent(s, it); var stop := FindNotIdent(s, ident + 1);
      ScanKeys(s, n + 1) == Some((keys + [s[ident..stop]], NextOuterComma(s, stop, stop)))
  {
  }

  /** A turn that finds no identifier character stops the scan. */
  lemma ScanMissing(s: string, n: nat, keys: seq<string>, it: nat)
    requires ScanKeys(s, n) == Some((keys, it)) && FindIdent(s, it) == |s|
    ensures ScanKeys(s, n + 1).None?
  {
  }

  /** Once a key is missing the scan stays stopped. */
  lemma {:induction false} NoKeyStops(s: string, n: nat, m: nat)
    requires n <= m && ScanKeys(s, n).None?
    ensures ScanKeys(s, m).None?
    decreases m - n
  {
    if n < m {
      NoKeyStops(s, n + 1, m);
    }
  }

  /** `detail::ParseEnumKeys<Size>`: reads `size` keys left to right; after each key
    * the scan skips to just past the next comma outside parentheses, so an explicit
    * value such as `A = f(1, 2)` is skipped whole. */
  method ParseEnumKeys(str: string, size: nat) returns (r: Option<seq<string>>)
    ensures ScanKeys(str, size).Some? ==> r == Some(ScanKeys(str, size).value.0)
    ensures ScanKeys(str, size).None? ==> r.None?
    ensures r.Some? ==> |r.value| == size && forall i :: 0 <= i < size ==> IsKey(r.value[i])
  {
    var members: seq<string> := [];
    var it: nat := 0;
    var i := 0;
    while i < size
      invariant 0 <= i <= size && it <= |str|
      invariant ScanKeys(str, i) == Some((members, it))
    {
      var ident := FindIdent(str, it);
      if ident == |str| {
        ScanMissing(str, i, members, it);
        NoKeyStops(str, i + 1, size);
        return None;
      }
      var stop := FindNotIdent(str, ident + 1);
      ScanStep(str, i, members, it);
      members := members + [str[ident..stop]];
      it := FindOuterComma(str, stop);
      i := i + 1;
    }
    return Some(members);
  }

  /** `detail::MapEnumValues`: an explicit value is kept, a missing one is the previous
    * value plus one, and the first defaults to 0. */
  method MapEnumValues(values: seq<Option<int>>) returns (result: seq<int>)
    ensures |result| == |values|
    ensures forall i :: 0 <= i < |values| && values[i].Some? ==> result[i] == values[i].value
    ensures |values| > 0 && values[0].None? ==> result[0] == 0
    ensures forall i :: 0 < i < |values| && values[i].None? ==> result[i] == result[i - 1] + 1
  {
    result := [];
    var previous := 0;
    var i := 0;
    while i < |values|
      invariant 0 <= i <= |values| && |result| == i
      invariant forall j :: 0 <= j < i && values[j].Some? ==> result[j] == values[j].value
      invariant i > 0 && values[0].None? ==> result[0] == 0
      invariant forall j :: 0 < j < i && values[j].None? ==> result[j] == result[j - 1] + 1
      invariant previous == if i == 0 then 0 else result[i - 1] + 1
    {
      result := result + [values[i].GetOr(previous)];
      previous := result[i] + 1;
      i := i + 1;
    }
  }

  /** Reference definition: the values run on from the first without gaps. */
  predicate Sequential(values: seq<int>)
    requires |values| > 0
  {
    forall i :: 0 <= i < |values| ==> values[i] == values[0] + i
  }

  /** `IsSequential<T>()`: checks every value against its index plus the first value. */
  method IsSequential(values: seq<int>) returns (b: bool)
    requires |values| > 0
    ensures b <==> Sequential(values)
  {
    var offset := values[0];
    var i := 1;
    while i < |values|
      invariant 1 <= i <= |values|
      invariant forall j :: 0 <= j < i ==> values[j] == offset + j
    {
      if values[i] != i + offset {
        return false;
      }
      i := i + 1;
    }
    return true;
  }

  /** `IsUnique<T>()`: no value occurs twice (the source sorts a copy and looks for
    * adjacent equal values; only the verdict is modelled). */
  function IsUnique(values: seq<int>): (b: bool)
    ensures b <==> forall i, j :: 0 <= i < j < |values| ==> values[i] != values[j]
  {
    if |values| == 0 then true
    else values[0] !in values[1..] && IsUnique(values[1..])
  }

  /** A sequential list never repeats a value. */
  lemma SequentialIsUnique(values: seq<int>)
    requires |values| > 0 && Sequential(values)
    ensures IsUnique(values)
  {
  }

  /** Index of the first element equal to `x`, or `|s|` (`std::find`). */
  function IndexOf<T(==)>(s: seq<T>, x: T): (k: nat)
    ensures k <= |s|
    ensures k < |s| ==> s[k] == x
    ensures forall j :: 0 <= j < k ==> s[j] != x
  {
    if s == [] then 0 else if s[0] == x then 0 else 1 + IndexOf(s[1..], x)
  }

  /** `FromString<T>`: the value paired with the first key equal to `name`. */
  function FromString(keys: seq<string>, values: seq<int>, name: string): (r: Option<int>)
    requires |keys| == |values|
    ensures r.None? <==> name !in keys
    ensures r.Some? ==> exists i :: 0 <= i < |keys| && keys[i] == name && r.value == values[i]
                                   && forall j :: 0 <= j < i ==> keys[j] != name
  {
    var k := IndexOf(keys, name);
    if k == |keys| then None else Some(values[k])
  }

  /** `ToString<T>` for a sequential enum: the key at `val - Values[0]`; `Keys.at`
    * throws `std::out_of_range` (here `None`) for a value outside the enum. */
  function ToString(keys: seq<string>, values: seq<int>, val: int): (r: Option<string>)
    requires |keys| == |values| > 0 && Sequential(values)
    ensures r.Some? <==> val in values
    ensures r.Some? ==> r.value in keys
  {
    var k := val - values[0];
    if 0 <= k < |keys| then assert values[k] == val; Some(keys[k]) else None
  }

  /** Names of a sequential enum with distinct keys round-trip through the value. */
  lemma FromStringOfToString(keys: seq<string>, values: seq<int>, val: int)
    requires |keys| == |values| > 0 && Sequential(values)
    requires forall i, j :: 0 <= i < j < |keys| ==> keys[i] != keys[j]
    requires val in values
    ensures ToString(keys, values, val).Some?
    ensures FromString(keys, values, ToString(keys, values, val).value) == Some(val)
  {
    var k := val - values[0];
    var i := IndexOf(keys, keys[k]);
    assert i == k;
  }

  /** Values of an enum round-trip through their names when the values are unique. */
  lemma ToStringOfFromString(keys: seq<string>, values: seq<int>, name: string)
    requires |keys| == |values| > 0 && Sequential(values)
    requires name in keys
    ensures FromString(keys, values, name).Some?
    ensures ToString(keys, values, FromString(keys, values, name).value) == Some(keys[IndexOf(keys, name)])
  {
  }

  /** `IsAnyOf`: the value equals one of the candidates. */
  function IsAnyOf<E(==)>(value: E, candidates: seq<E>): (b: bool)
    ensures b <==> exists i :: 0 <= i < |candidates| && candidates[i] == value
  {
    value in candidates
  }

  /** Index of the first pair whose key is `value`, or `|pairs|`. */
  function KeyIndex<E(==), R>(value: E, pairs: seq<(E, R)>): (k: nat)
    ensures k <= |pairs|
    ensures k < |pairs| ==> pairs[k].0 == value
    ensures forall j :: 0 <= j < k ==> pairs[j].0 != value
  {
    if pairs == [] then 0 else if pairs[0].0 == value then 0 else 1 + KeyIndex(value, pairs[1..])
  }

  /** `Map` / `detail::MatchPairs`: the partner of the first pair whose key is `value`. */
  function Map<E(==), R>(value: E, pairs: seq<(E, R)>): (r: Option<R>)
    ensures r.None? <==> forall i :: 0 <= i < |pairs| ==> pairs[i].0 != value
    ensures r.Some? ==> r.value == pairs[KeyIndex(value, pairs)].1
  {
    if pairs == [] then None
    else if pairs[0].0 == value then Some(pairs[0].1)
    else Map(value, pairs[1..])
  }
}
