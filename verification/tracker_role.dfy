/** The `TrackerRole` enum of the configuration and its serialiser: a role is read
  * from its name (anything else reads as `Disabled`) and written as its name,
  * preceded by a comment listing every role. */
module TrackerRoleConfig {
  import opened Wrappers
  import EnumReflect

  datatype TrackerRole = Disabled | Waist | RightFoot | LeftFoot

  /** The enumerator list as the enum macro stringizes it. */
  const Stringized: string := "Disabled, Waist, RightFoot, LeftFoot"
  /** `Keys<TrackerRole>` (the names `ParseEnumKeys` reads from `Stringized`) and
    * `Values<TrackerRole>` (no explicit values: 0, 1, 2, 3). */
  const Keys: seq<string> := ["Disabled", "Waist", "RightFoot", "LeftFoot"]
  const Values: seq<int> := [0, 1, 2, 3]

  /** The underlying integer of a role. */
  function Rep(r: TrackerRole): (v: int)
    ensures 0 <= v < 4 && Values[v] == v
  {
    match r
    case Disabled => 0
    case Waist => 1
    case RightFoot => 2
    case LeftFoot => 3
  }

  function OfRep(v: int): (r: TrackerRole)
    requires 0 <= v < 4
    ensures Rep(r) == v
  {
    if v == 0 then Disabled else if v == 1 then Waist else if v == 2 then RightFoot else LeftFoot
  }

  /** `Serial<TrackerRole>::Parse`: the role with that name, `Disabled` for any other text. */
  function Parse(roleStr: string): (r: TrackerRole)
    ensures roleStr !in Keys ==> r == Disabled
    ensures roleStr in Keys ==> Keys[Rep(r)] == roleStr
  {
    assert EnumReflect.Sequential(Values);
    match EnumReflect.FromString(Keys, Values, roleStr)
    case None => Disabled
    case Some(v) => OfRep(v)
  }

  /** What the serialiser emits: a comment, then a scalar. */
  datatype Emitted = Comment(text: string) | Scalar(text: string)

  /** `Serial<TrackerRole>::Format`: the stringized key list as a comment, then the name. */
  function Format(r: TrackerRole): (out: seq<Emitted>)
    ensures |out| == 2 && out[0] == Comment(Stringized) && out[1].Scalar?
    ensures out[1].text in Keys
  {
    assert EnumReflect.Sequential(Values);
    var name := EnumReflect.ToString(Keys, Values, Rep(r));
    assert Values[Rep(r)] == Rep(r);
    [Comment(Stringized), Scalar(name.value)]
  }

  /** Parsing the name that Format wrote yields the original role. */
  lemma FormatThenParse(r: TrackerRole)
    ensures Parse(Format(r)[1].text) == r
  {
    assert EnumReflect.Sequential(Values);
    assert Values[Rep(r)] == Rep(r);
    EnumReflect.FromStringOfToString(Keys, Values, Rep(r));
  }
}
