/** A configuration value guarded by a validator: every assignment and every read
  * from a file stores the value and then lets the validator correct it in place.
  * The validator `void(T&)` is represented by the value it leaves, `T -> T`.
  * The stock validators clamp to a closed range or to one bound. */
module Validated {
  /** `cfg::Validated<T>`. */
  class Validated<T> {
    var value: T
    const validator: T -> T

    /** The initial value is stored as given, without validation. */
    constructor (initial: T, validator: T -> T)
      ensures value == initial && this.validator == validator
    {
      value := initial;
      this.validator := validator;
    }

    /** `operator=`: store, then validate. */
    method Assign(rhs: T)
      modifies this
      ensures value == validator(rhs)
    {
      value := rhs;
      value := validator(value);
    }

    /** `ReadSelf`: the value read from the file, then validated. */
    method ReadSelf(read: T)
      modifies this
      ensures value == validator(read)
    {
      value := read;
      value := validator(value);
    }

    /** `Get` / the conversion to `const T&`. */
    function Get(): T
      reads this
    {
      value
    }
  }

  /** `std::clamp(value, minInc, maxInc)` on doubles (the bounds must be ordered). */
  function Clamp(minInc: real, maxInc: real, value: real): (r: real)
    requires minInc <= maxInc
    ensures minInc <= r <= maxInc
    ensures minInc <= value <= maxInc ==> r == value
    ensures value < minInc ==> r == minInc
    ensures value > maxInc ==> r == maxInc
  {
    if value < minInc then minInc else if maxInc < value then maxInc else value
  }

  /** `std::clamp` on ints. */
  function ClampInt(minInc: int, maxInc: int, value: int): (r: int)
    requires minInc <= maxInc
    ensures minInc <= r <= maxInc
    ensures minInc <= value <= maxInc ==> r == value
    ensures value < minInc ==> r == minInc
    ensures value > maxInc ==> r == maxInc
  {
    if value < minInc then minInc else if maxInc < value then maxInc else value
  }

  /** `GreaterEqual(min)`: `std::max(value, min)`. */
  function GreaterEqual(min: real, value: real): (r: real)
    ensures r >= min && r >= value
    ensures r == value || r == min
  {
    if value < min then min else value
  }

  function GreaterEqualInt(min: int, value: int): (r: int)
    ensures r >= min && r >= value
    ensures r == value || r == min
  {
    if value < min then min else value
  }

  /** `LessEqual(max)`: `std::min(value, max)`. */
  function LessEqual(max: real, value: real): (r: real)
    ensures r <= max && r <= value
    ensures r == value || r == max
  {
    if max < value then max else value
  }

  function LessEqualInt(max: int, value: int): (r: int)
    ensures r <= max && r <= value
    ensures r == value || r == max
  {
    if max < value then max else value
  }

  /** Validating twice is validating once, so a stored validated value is left alone
    * by a second validation. */
  lemma ValidatorsIdempotent(lo: real, hi: real, m: real, v: real)
    requires lo <= hi
    ensures Clamp(lo, hi, Clamp(lo, hi, v)) == Clamp(lo, hi, v)
    ensures GreaterEqual(m, GreaterEqual(m, v)) == GreaterEqual(m, v)
    ensures LessEqual(m, LessEqual(m, v)) == LessEqual(m, v)
  {
  }

  /** A value is left alone exactly when it already satisfies the rule. */
  lemma ValidatorsFixedPoints(lo: real, hi: real, m: real, v: real)
    requires lo <= hi
    ensures Clamp(lo, hi, v) == v <==> lo <= v <= hi
    ensures GreaterEqual(m, v) == v <==> v >= m
    ensures LessEqual(m, v) == v <==> v <= m
  {
  }

  /** Clamping is the composition of the two one-sided rules. */
  lemma ClampIsBothBounds(lo: real, hi: real, v: real)
    requires lo <= hi
    ensures Clamp(lo, hi, v) == LessEqual(hi, GreaterEqual(lo, v))
  {
  }

  /** A `Validated` field with a clamp validator always holds a value in range
    * after an assignment, whatever was assigned. */
  method AssignClamped(f: Validated<real>, lo: real, hi: real, rhs: real)
    requires lo <= hi
    requires forall x :: f.validator(x) == Clamp(lo, hi, x)
    modifies f
    ensures lo <= f.Get() <= hi
    ensures lo <= rhs <= hi ==> f.Get() == rhs
  {
    f.Assign(rhs);
  }
}
