/** The older validated value: a value and a plain function-pointer validator, which
  * is null in a default-constructed proxy. Calling a null validator is undefined
  * behaviour, so every operation that validates requires one to be present. */
module ValidatorProxy {
  import opened Wrappers

  class ValidatorProxy<T(==)> {
    var value: T
    /** `void (*)(T&)`, as the value it leaves; `None` is the null pointer. */
    const validator: Option<T -> T>

    /** `ValidatorProxy()`: no validator (the value is the default `T`, given here). */
    constructor Default(init: T)
      ensures value == init && validator.None?
    {
      value := init;
      validator := None;
    }

    /** `ValidatorProxy(value, validator)`: stored as given, without validation. */
    constructor (init: T, v: T -> T)
      ensures value == init && validator == Some(v)
    {
      value := init;
      validator := Some(v);
    }

    /** Both `operator=` overloads: store, then validate. */
    method Assign(rhs: T)
      requires validator.Some?
      modifies this
      ensures value == validator.value(rhs)
    {
      value := rhs;
      value := validator.value(value);
    }

    /** `Set(val)`: stores and validates, and reports whether the validator changed
      * the value that was passed. */
    method Set(val: T) returns (changed: bool)
      requires validator.Some?
      modifies this
      ensures value == validator.value(val)
      ensures changed <==> value != val
    {
      value := val;
      value := validator.value(value);
      changed := value != val;
    }

    /** `Write(fs, proxy)`: the stored value, unchanged. */
    function Write(): (out: T)
      reads this
      ensures out == value
    {
      value
    }

    /** `Read(fn, proxy)`: the value read, then validated. */
    method Read(read: T)
      requires validator.Some?
      modifies this
      ensures value == validator.value(read)
    {
      value := read;
      value := validator.value(value);
    }
  }

  /** With a validator that keeps in-range values, `Set` reports no change exactly for
    * in-range arguments. */
  method SetReportsCorrection(p: ValidatorProxy<int>, lo: int, hi: int, val: int) returns (changed: bool)
    requires lo <= hi
    requires p.validator.Some? && forall x :: p.validator.value(x) == (if x < lo then lo else if x > hi then hi else x)
    modifies p
    ensures changed <==> !(lo <= val <= hi)
    ensures lo <= p.value <= hi
  {
    changed := p.Set(val);
  }
}
