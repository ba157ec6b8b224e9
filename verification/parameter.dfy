/** The newer parameter tree: a `ParamNode` maps names to typed parameters, each
  * with an optional default and an optional validator. A file node is an
  * `Option<T>` (`None` is an empty node); a file map is a `map<string, T>`. All
  * parameters of one node share the type `T`; the per-type tag check of debug
  * builds is not modelled. */
module Parameter {
  import opened Wrappers

  /** `Parameter<T>`: the value, the default (if any) and the validator (if any). */
  datatype Parameter<!T> = Parameter(value: T, hasDefault: bool, defaultValue: T, validate: Option<T -> T>)

  /** `Parameter(validate)`: a value-initialised parameter with no default. */
  function WithoutDefault<T>(zero: T, validate: Option<T -> T>): (p: Parameter<T>)
    ensures p.value == zero && !p.hasDefault && p.validate == validate
  {
    Parameter(zero, false, zero, validate)
  }

  /** `Parameter(default_value, validate)`: starts at its default. */
  function WithDefault<T>(d: T, validate: Option<T -> T>): (p: Parameter<T>)
    ensures p.value == d && p.hasDefault && p.defaultValue == d && p.validate == validate
  {
    Parameter(d, true, d, validate)
  }

  /** `Validate`: the validator runs only when one is set. */
  function Validate<T>(p: Parameter<T>): (r: Parameter<T>)
    ensures r.hasDefault == p.hasDefault && r.defaultValue == p.defaultValue && r.validate == p.validate
    ensures p.validate.None? ==> r == p
    ensures p.validate.Some? ==> r.value == p.validate.value(p.value)
  {
    match p.validate
    case None => p
    case Some(f) => p.(value := f(p.value))
  }

  /** `Deserialize`: a present node is read and validated; an absent one restores
    * the default when there is one and otherwise changes nothing. */
  function Deserialize<T>(p: Parameter<T>, node: Option<T>): (r: Parameter<T>)
    ensures r.hasDefault == p.hasDefault && r.defaultValue == p.defaultValue && r.validate == p.validate
    ensures node.Some? && p.validate.None? ==> r.value == node.value
    ensures node.Some? && p.validate.Some? ==> r.value == p.validate.value(node.value)
    ensures node.None? && p.hasDefault ==> r.value == p.defaultValue
    ensures node.None? && !p.hasDefault ==> r == p
  {
    match node
    case Some(v) => Validate(p.(value := v))
    case None => if p.hasDefault then p.(value := p.defaultValue) else p
  }

  /** A parameter whose validator accepts its current value. */
  ghost predicate Settled<T>(p: Parameter<T>)
  {
    p.validate.None? || p.validate.value(p.value) == p.value
  }

  /** Reading back what was written leaves a settled parameter unchanged. */
  lemma DeserializeWritten<T>(p: Parameter<T>)
    requires Settled(p)
    ensures Deserialize(p, Some(p.value)) == p
  {
  }

  /** Writing out a value just read and reading it again changes nothing, for
    * validators that leave their own results alone. */
  lemma DeserializeIdempotent<T>(p: Parameter<T>, v: T)
    requires p.validate.Some? ==> forall x :: p.validate.value(p.validate.value(x)) == p.validate.value(x)
    ensures Deserialize(Deserialize(p, Some(v)), Some(Deserialize(p, Some(v)).value)) == Deserialize(p, Some(v))
  {
  }

  /** Every parameter of the node deserialised from the file entry of its own name. */
  function DeserializeAll<T>(params: map<string, Parameter<T>>, file: map<string, T>): (r: map<string, Parameter<T>>)
    ensures r.Keys == params.Keys
    ensures forall n :: n in params ==> r[n] == Deserialize(params[n], if n in file then Some(file[n]) else None)
  {
    map n | n in params :: Deserialize(params[n], if n in file then Some(file[n]) else None)
  }

  /** `ParamNode`. */
  class ParamNode<T> {
    var params: map<string, Parameter<T>>

    constructor ()
      ensures params == map[]
    {
      params := map[];
    }

    /** `Add(name, validate)`: the name must be unused. */
    method Add(name: string, zero: T, validate: Option<T -> T>)
      requires name !in params
      modifies this
      ensures params == old(params)[name := WithoutDefault(zero, validate)]
    {
      params := params[name := WithoutDefault(zero, validate)];
    }

    /** `Add(name, default_value, validate)`: the name must be unused. */
    method AddWithDefault(name: string, d: T, validate: Option<T -> T>)
      requires name !in params
      modifies this
      ensures params == old(params)[name := WithDefault(d, validate)]
    {
      params := params[name := WithDefault(d, validate)];
    }

    /** `Get(name)`: the value of a registered parameter. */
    function Get(name: string): (v: T)
      requires name in params
      reads this
      ensures v == params[name].value
    {
      params[name].value
    }

    /** Assigning through `Ref(name)`: only the value of that parameter changes. */
    method SetRef(name: string, v: T)
      requires name in params
      modifies this
      ensures params == old(params)[name := old(params)[name].(value := v)]
      ensures Get(name) == v
    {
      params := params[name := params[name].(value := v)];
    }

    /** `Validate(name)`: runs the validator of a registered parameter. */
    method ValidateOne(name: string)
      requires name in params
      modifies this
      ensures params == old(params)[name := Validate(old(params)[name])]
    {
      params := params[name := Validate(params[name])];
    }

    /** `operator<<`: every parameter written under its own name. */
    function Serialize(): (file: map<string, T>)
      reads this
      ensures file.Keys == params.Keys
      ensures forall n :: n in params ==> file[n] == params[n].value
    {
      map n | n in params :: params[n].value
    }

    /** `operator>>`: every registered name is visited once, and its parameter reads
      * the entry of that name. */
    method ReadFrom(file: map<string, T>)
      modifies this
      ensures params == DeserializeAll(old(params), file)
    {
      ghost var start := params;
      var todo := params.Keys;
      while todo != {}
        invariant todo <= start.Keys
        invariant params.Keys == start.Keys
        invariant forall n :: n in start && n in todo ==> params[n] == start[n]
        invariant forall n :: n in start && n !in todo ==>
          params[n] == Deserialize(start[n], if n in file then Some(file[n]) else None)
        decreases todo
      {
        var n :| n in todo;
        var node := if n in file then Some(file[n]) else None;
        params := params[n := Deserialize(params[n], node)];
        todo := todo - {n};
      }
    }
  }

  /** Reading a node back from what it wrote leaves it unchanged when every
    * parameter is settled. */
  lemma {:induction false} RoundTrip<T>(params: map<string, Parameter<T>>)
    requires forall n :: n in params ==> Settled(params[n])
    ensures DeserializeAll(params, map n | n in params :: params[n].value) == params
  {
    var file := map n | n in params :: params[n].value;
    var r := DeserializeAll(params, file);
    forall n | n in params
      ensures r[n] == params[n]
    {
      DeserializeWritten(params[n]);
    }
  }

  /** An empty file resets every parameter that has a default and keeps the rest. */
  lemma EmptyFileRestoresDefaults<T>(params: map<string, Parameter<T>>)
    ensures forall n :: n in params && params[n].hasDefault ==>
      DeserializeAll(params, map[])[n].value == params[n].defaultValue
    ensures forall n :: n in params && !params[n].hasDefault ==> DeserializeAll(params, map[])[n] == params[n]
  {
  }

  /** A node that registers a parameter and reads a file holding an entry for it
    * ends with the validated entry. */
  method AddThenLoad<T>(node: ParamNode<T>, name: string, d: T, f: T -> T, file: map<string, T>)
    requires name !in node.params && name in file
    modifies node
    ensures name in node.params && node.Get(name) == f(file[name])
  {
    node.AddWithDefault(name, d, Some(f));
    node.ReadFrom(file);
  }
}
