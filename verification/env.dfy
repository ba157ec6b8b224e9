/** Environment variables read as booleans and as paths. The process environment is
  * a parameter (a map from variable names to values); the main-thread guard of
  * `GetVarAsString` and the thread-name registry are not part of this model.
  * Paths use the POSIX generic format: '/' is the only separator and there is no
  * root name. */
module Env {
  import opened Wrappers

  /** `StringToBool`: empty, "0" and anything starting with 'f' or 'F' are false. */
  function StringToBool(value: string): (r: bool)
    ensures value == [] ==> !r
    ensures value == "0" ==> !r
    ensures |value| > 0 && (value[0] == 'f' || value[0] == 'F') ==> !r
    ensures |value| > 0 && value[0] != 'f' && value[0] != 'F' && value != "0" ==> r
  {
    if |value| == 0 then false
    else if |value| == 1 && value[0] == '0' then false
    else value[0] != 'f' && value[0] != 'F'
  }

  /** Only the exact text "0" is false among strings that start with '0'. */
  lemma StringToBoolZeros(value: string)
    requires |value| > 1 && value[0] == '0'
    ensures StringToBool(value)
  {
  }

  /** `GetVarAsString`: the value of the variable, when it is set. */
  function GetVarAsString(env: map<string, string>, key: string): (r: Option<string>)
    ensures r.Some? <==> key in env
    ensures r.Some? ==> r.value == env[key]
  {
    if key in env then Some(env[key]) else None
  }

  /** `EnvVars::GetVarAsBool`: an unset variable reads as false. */
  function GetVarAsBool(env: map<string, string>, key: string): (r: bool)
    ensures key !in env ==> !r
    ensures key in env ==> (r <==> StringToBool(env[key]))
  {
    match GetVarAsString(env, key)
    case None => false
    case Some(v) => StringToBool(v)
  }

  /** A path in generic format: whether it starts at the root, its non-empty file
    * names in order, and whether it ends with a separator after the last name. */
  datatype GenericPath = GenericPath(absolute: bool, names: seq<string>, trailing: bool)

  predicate IsName(n: string) { n != [] && '/' !in n }

  predicate WellFormed(p: GenericPath)
  {
    (forall i :: 0 <= i < |p.names| ==> IsName(p.names[i]))
    && (p.trailing ==> |p.names| > 0)
  }

  /** The pieces between separators, empty ones included. */
  function Split(s: string): (segs: seq<string>)
    ensures |segs| > 0
    ensures forall i :: 0 <= i < |segs| ==> '/' !in segs[i]
    decreases |s|
  {
    if s == [] then [[]]
    else
      var rest := Split(s[1..]);
      if s[0] == '/' then [[]] + rest else [[s[0]] + rest[0]] + rest[1..]
  }

  /** The non-empty pieces, in order. */
  function NonEmpty(segs: seq<string>): (names: seq<string>)
    ensures |names| <= |segs|
    ensures forall i :: 0 <= i < |names| ==> names[i] != [] && names[i] in segs
  {
    if segs == [] then []
    else if segs[0] == [] then NonEmpty(segs[1..])
    else [segs[0]] + NonEmpty(segs[1..])
  }

  /** `fs::path` construction: repeated separators count once. */
  function ParsePath(s: string): (p: GenericPath)
    ensures WellFormed(p)
    ensures p.absolute <==> (|s| > 0 && s[0] == '/')
  {
    var names := NonEmpty(Split(s));
    GenericPath(|s| > 0 && s[0] == '/', names, |s| > 0 && s[|s| - 1] == '/' && |names| > 0)
  }

  /** State of the left-to-right normalisation: the names kept so far and whether
    * the last thing removed left a separator at the end. */
  datatype Norm = Norm(kept: seq<string>, endSep: bool)

  function Last(s: seq<string>): string
    requires |s| > 0
  {
    s[|s| - 1]
  }

  /** One name of the lexical normalisation (steps 4 to 6 of `lexically_normal`):
    * "." is dropped; ".." removes the preceding name unless that is ".." too, is
    * dropped right after the root, and is otherwise kept; other names are kept. */
  function Step(absolute: bool, st: Norm, name: string): Norm
  {
    if name == "." then Norm(st.kept, true)
    else if name == ".." then
      if |st.kept| > 0 && Last(st.kept) != ".." then Norm(st.kept[..|st.kept| - 1], true)
      else if absolute then Norm(st.kept, true)
      else Norm(st.kept + [".."], false)
    else Norm(st.kept + [name], false)
  }

  function Fold(absolute: bool, st: Norm, names: seq<string>): Norm
    decreases |names|
  {
    if names == [] then st else Fold(absolute, Step(absolute, st, names[0]), names[1..])
  }

  /** Normal form: no "." names, ".." only as a leading run of a relative path, and
    * no separator after a final "..". */
  predicate IsNormal(p: GenericPath)
  {
    WellFormed(p)
    && (forall i :: 0 <= i < |p.names| ==> p.names[i] != ".")
    && (forall i :: 0 <= i < |p.names| && p.names[i] == ".." ==> !p.absolute && forall j :: 0 <= j < i ==> p.names[j] == "..")
    && (p.trailing ==> Last(p.names) != "..")
  }

  /** The kept names are a normal name list of the path. */
  predicate NormalKept(absolute: bool, kept: seq<string>)
  {
    IsNormal(GenericPath(absolute, kept, false))
  }

  lemma {:induction false} FoldNormal(absolute: bool, st: Norm, names: seq<string>)
    requires NormalKept(absolute, st.kept)
    requires forall i :: 0 <= i < |names| ==> IsName(names[i])
    ensures NormalKept(absolute, Fold(absolute, st, names).kept)
    decreases |names|
  {
    if names != [] {
      var next := Step(absolute, st, names[0]);
      var k := st.kept;
      if names[0] == ".." && |k| > 0 && Last(k) != ".." {
        assert next.kept == k[..|k| - 1];
      } else if names[0] == ".." && !absolute && !(|k| > 0 && Last(k) != "..") {
        assert next.kept == k + [".."];
      }
      FoldNormal(absolute, next, names[1..]);
    }
  }

  /** `path::lexically_normal` on well-formed parts. */
  function Normalize(p: GenericPath): (q: GenericPath)
    requires WellFormed(p)
    ensures IsNormal(q)
    ensures q.absolute == p.absolute
  {
    var st := Fold(p.absolute, Norm([], false), p.names);
    FoldNormal(p.absolute, Norm([], false), p.names);
    var trailing := (st.endSep || p.trailing) && |st.kept| > 0 && Last(st.kept) != "..";
    GenericPath(p.absolute, st.kept, trailing)
  }

  /** On a name list that is already normal the fold keeps every name. */
  lemma {:induction false} FoldKeeps(absolute: bool, st: Norm, names: seq<string>)
    requires IsNormal(GenericPath(absolute, st.kept + names, false))
    requires names != [] ==> !st.endSep
    ensures Fold(absolute, st, names) == Norm(st.kept + names, st.endSep && names == [])
    decreases |names|
  {
    if names == [] {
      assert st.kept + names == st.kept;
    } else {
      var k := st.kept;
      var n := names[0];
      assert (k + names)[|k|] == n;
      if n == ".." {
        if |k| > 0 {
          assert (k + names)[|k| - 1] == k[|k| - 1];
        }
      }
      assert Step(absolute, st, n) == Norm(k + [n], false);
      assert k + [n] + names[1..] == k + names;
      FoldKeeps(absolute, Step(absolute, st, n), names[1..]);
    }
  }

  /** Normalising a normal path changes nothing, so normalisation is idempotent. */
  lemma NormalizeFixesNormal(p: GenericPath)
    requires IsNormal(p)
    ensures Normalize(p) == p
  {
    assert [] + p.names == p.names;
    FoldKeeps(p.absolute, Norm([], false), p.names);
  }

  lemma NormalizeIdempotent(p: GenericPath)
    requires WellFormed(p)
    ensures Normalize(Normalize(p)) == Normalize(p)
  {
    NormalizeFixesNormal(Normalize(p));
  }

  /** "a/./b/.." normalises to "a/". */
  lemma NormalizeDotDot()
    ensures Normalize(GenericPath(false, ["a", ".", "b", ".."], false)) == GenericPath(false, ["a"], true)
  {
  }

  /** "/../x" normalises to "/x": ".." right after the root is dropped. */
  lemma NormalizeRootDotDot()
    ensures Normalize(GenericPath(true, ["..", "x"], false)) == GenericPath(true, ["x"], false)
  {
  }

  /** Names joined by single separators. */
  function JoinNames(names: seq<string>): (s: string)
    ensures names != [] ==> |s| >= |names[0]|
  {
    if names == [] then [] else if |names| == 1 then names[0] else names[0] + "/" + JoinNames(names[1..])
  }

  /** The text of a path; an empty relative path is written "." (step 8). */
  function Format(p: GenericPath): (s: string)
    requires WellFormed(p)
    ensures |s| > 0
    ensures p.absolute ==> s[0] == '/'
  {
    if p.names == [] then (if p.absolute then "/" else ".")
    else (if p.absolute then "/" else "") + JoinNames(p.names) + (if p.trailing then "/" else "")
  }

  /** `lexically_normal` of the text: the empty path stays empty. */
  function LexicallyNormal(s: string): (r: string)
    ensures s == [] <==> r == []
  {
    if s == [] then [] else Format(Normalize(ParsePath(s)))
  }

  /** `EnvVars::GetVarAsPath`: the normalised path of a set variable, nothing for an
    * unset one; a set variable always yields a path. */
  function GetVarAsPath(env: map<string, string>, key: string): (r: Option<string>)
    ensures r.Some? <==> key in env
    ensures key in env ==> r.value == LexicallyNormal(env[key])
  {
    match GetVarAsString(env, key)
    case None => None
    case Some(v) => Some(LexicallyNormal(v))
  }
}
