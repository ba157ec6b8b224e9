/** The driver installer scripts: `installer.py` (copies the driver folder),
  * `install.py` (moves it) and `uninstaller.py` (removes it).
  *
  * The file system is a map from paths, split into their `/`-separated
  * components, to entries: a directory, or a file with its contents as
  * JSON (`None` when the contents do not parse). The environment variable,
  * the folder dialogs and the typed answer are inputs; the console output
  * is left out. */
module Installer {
  import opened Wrappers

  type Path = seq<string>

  /** A JSON value as `json.load` returns it; numbers are kept as reals. */
  datatype Json =
    | JNull
    | JBool(b: bool)
    | JNumber(n: real)
    | JString(s: string)
    | JArray(items: seq<Json>)
    | JObject(fields: map<string, Json>)

  datatype Entry = Dir | File(json: Option<Json>)

  /** Why a run ends early: the first five are the scripts' own exits
    * (through `error` or, for the payload, directly), the rest are
    * exceptions the scripts do not catch. */
  datatype Stop =
    | SteamNotChosen
    | SteamVrNotInstalled
    | SteamVrNotChosen
    | ConfigMissing
    | PayloadMissing
    | NoProgramFiles
    | ConfigNotJson
    | NoSteamVrSection
    | CopyFailed
    | MoveFailed
    | WriteFailed

  datatype Outcome = Finished | Stopped(why: Stop)

  // ---------------------------------------------------------------------------
  // Paths
  // ---------------------------------------------------------------------------

  /** The components of a path string, split at every `/`. */
  function Split(s: string): (r: Path)
    ensures |r| >= 1
  {
    if s == [] then [""]
    else
      var rest := Split(s[1..]);
      if s[0] == '/' then [""] + rest else [[s[0]] + rest[0]] + rest[1..]
  }

  /** No component holds a `/`. */
  lemma {:induction false} SplitComponents(s: string)
    ensures forall i :: 0 <= i < |Split(s)| ==> '/' !in Split(s)[i]
  {
    if s != [] {
      SplitComponents(s[1..]);
    }
  }

  /** The components joined back with `/`. */
  function Join(p: Path): string
    requires |p| >= 1
  {
    if |p| == 1 then p[0] else p[0] + "/" + Join(p[1..])
  }

  /** Splitting loses nothing: joining the components gives the string. */
  lemma {:induction false} JoinSplit(s: string)
    ensures Join(Split(s)) == s
  {
    if s != [] {
      JoinSplit(s[1..]);
      var rest := Split(s[1..]);
      if s[0] == '/' {
        assert s == [s[0]] + s[1..];
      } else if |rest| == 1 {
        assert s == [s[0]] + s[1..];
      } else {
        assert Join(rest) == rest[0] + "/" + Join(rest[1..]);
        assert s == [s[0]] + s[1..];
      }
    }
  }

  /** Appending `/` and a relative path appends its components. */
  lemma {:induction false} SplitAppend(a: string, b: string)
    ensures Split(a + "/" + b) == Split(a) + Split(b)
  {
    var s := a + "/" + b;
    if a == [] {
      assert s[0] == '/' && s[1..] == b;
    } else {
      assert s[0] == a[0] && s[1..] == a[1..] + "/" + b;
      SplitAppend(a[1..], b);
      var tail := Split(a[1..]);
      var rest := Split(s[1..]);
      assert rest == tail + Split(b);
      if a[0] != '/' {
        assert rest[0] == tail[0];
        assert rest[1..] == tail[1..] + Split(b);
      }
    }
  }

  /** `str.replace("\\", "/")`. */
  function Slashes(s: string): (r: string)
    ensures |r| == |s| && '\\' !in r
    ensures forall i :: 0 <= i < |s| && s[i] != '\\' ==> r[i] == s[i]
  {
    if s == [] then [] else [if s[0] == '\\' then '/' else s[0]] + Slashes(s[1..])
  }

  /** `str.lower()` on ASCII letters. */
  function Lower(s: string): (r: string)
    ensures |r| == |s|
    ensures forall i :: 0 <= i < |s| ==> r[i] == if 'A' <= s[i] <= 'Z' then (s[i] as int + 32) as char else s[i]
  {
    if s == [] then [] else [if 'A' <= s[0] <= 'Z' then (s[0] as int + 32) as char else s[0]] + Lower(s[1..])
  }

  /** The answers taken as "SteamVR is installed". */
  predicate Agrees(answer: string)
  {
    Lower(answer) in {"y", "yes", "ye"}
  }

  // ---------------------------------------------------------------------------
  // The tree of entries
  // ---------------------------------------------------------------------------

  predicate IsDir(t: map<Path, Entry>, p: Path)
  {
    p in t && t[p] == Dir
  }

  predicate IsFile(t: map<Path, Entry>, p: Path)
  {
    p in t && t[p].File?
  }

  /** Every entry has at least a root component, and the folder holding it
    * is a directory entry. */
  ghost predicate WellFormed(t: map<Path, Entry>)
  {
    forall p :: p in t ==> |p| >= 1 && (|p| >= 2 ==> IsDir(t, p[..|p| - 1]))
  }

  /** In a well-formed tree every folder above an entry is a directory. */
  lemma {:induction false} AncestorIsDir(t: map<Path, Entry>, d: Path, p: Path)
    requires WellFormed(t) && p in t && |d| >= 1 && d <= p && d != p
    ensures IsDir(t, d)
    decreases |p|
  {
    var up := p[..|p| - 1];
    assert IsDir(t, up);
    assert d <= up;
    if d != up {
      AncestorIsDir(t, d, up);
    }
  }

  /** The entries of `src`'s tree placed under `dst`. */
  function Copies(t: map<Path, Entry>, src: Path, dst: Path): map<Path, Entry>
  {
    var keys := set p | p in t && src <= p :: dst + p[|src|..];
    assert forall q | q in keys :: src + q[|dst|..] in t by {
      forall q | q in keys
        ensures src + q[|dst|..] in t
      {
        var p :| p in t && src <= p && q == dst + p[|src|..];
        assert q[|dst|..] == p[|src|..];
        assert src + p[|src|..] == p;
      }
    }
    map q | q in keys :: t[src + q[|dst|..]]
  }

  /** Each entry of `src`'s tree has its copy under `dst`. */
  lemma CopiedEntry(t: map<Path, Entry>, src: Path, dst: Path, r: Path)
    requires src + r in t
    ensures dst + r in Copies(t, src, dst) && Copies(t, src, dst)[dst + r] == t[src + r]
  {
    assert (src + r)[|src|..] == r;
    assert (dst + r)[|dst|..] == r;
  }

  /** Each copied entry lies under `dst` and comes from `src`'s tree. */
  lemma CopySource(t: map<Path, Entry>, src: Path, dst: Path, q: Path)
    requires q in Copies(t, src, dst)
    ensures dst <= q && src + q[|dst|..] in t && Copies(t, src, dst)[q] == t[src + q[|dst|..]]
  {
    var p :| p in t && src <= p && q == dst + p[|src|..];
    assert q[|dst|..] == p[|src|..];
    assert src + p[|src|..] == p;
  }

  /** The folders `os.makedirs` creates above `dst`. */
  function Missing(t: map<Path, Entry>, dst: Path): map<Path, Entry>
  {
    map k | 1 <= k < |dst| && dst[..k] !in t :: dst[..k] := Dir
  }

  /** A created folder is a directory strictly above `dst` that was absent. */
  lemma MissingEntry(t: map<Path, Entry>, dst: Path, q: Path)
    ensures q in Missing(t, dst) <==> q !in t && q <= dst && 1 <= |q| < |dst|
    ensures q in Missing(t, dst) ==> Missing(t, dst)[q] == Dir
  {
    if q <= dst && 1 <= |q| < |dst| {
      assert q == dst[..|q|];
    }
  }

  /** Where `os.makedirs` can create `dst`: no folder above it is a file. */
  predicate CanCreate(t: map<Path, Entry>, dst: Path)
  {
    && |dst| >= 1
    && dst !in t
    && forall k :: 1 <= k < |dst| && dst[..k] in t ==> t[dst[..k]] == Dir
  }

  /** `shutil.copytree(src, dst)`: fails when `src` is not a directory,
    * when `dst` exists or cannot be created, or when `dst` lies inside
    * `src`; otherwise creates the missing folders above `dst` and a copy of
    * `src`'s tree at `dst`. */
  function CopyTree(t: map<Path, Entry>, src: Path, dst: Path): Option<map<Path, Entry>>
  {
    if !IsDir(t, src) || !CanCreate(t, dst) || src <= dst then None
    else Some(t + Missing(t, dst) + Copies(t, src, dst))
  }

  /** In a well-formed tree nothing lies below a path that is absent. */
  lemma AbsentHasNothingBelow(t: map<Path, Entry>, d: Path)
    requires WellFormed(t) && |d| >= 1 && d !in t
    ensures forall p :: p in t ==> !(d <= p)
  {
    forall p | p in t && d <= p
      ensures false
    {
      AncestorIsDir(t, d, p);
    }
  }

  lemma ParentIsDir(t: map<Path, Entry>, p: Path)
    requires WellFormed(t) && p in t && |p| >= 2
    ensures IsDir(t, p[..|p| - 1])
  {
  }

  /** Copying never overwrites: every entry there before is still there
    * with the same contents; the copy holds `src`'s tree at `dst`; and
    * every new entry lies at or under `dst` or is a folder above it. */
  lemma CopyTreeKeeps(t: map<Path, Entry>, src: Path, dst: Path)
    requires WellFormed(t) && CopyTree(t, src, dst).Some?
    ensures var t' := CopyTree(t, src, dst).value;
            && (forall p :: p in t ==> p in t' && t'[p] == t[p])
            && (forall r :: src + r in t ==> dst + r in t' && t'[dst + r] == t[src + r])
            && (forall p :: p in t' && p !in t ==> dst <= p || p < dst)
  {
    var m := Missing(t, dst);
    var c := Copies(t, src, dst);
    var t' := t + m + c;
    assert CopyTree(t, src, dst) == Some(t');
    AbsentHasNothingBelow(t, dst);
    forall p | p in t
      ensures p in t' && t'[p] == t[p]
    {
      if p in c {
        CopySource(t, src, dst, p);
      }
      MissingEntry(t, dst, p);
    }
    forall r | src + r in t
      ensures dst + r in t' && t'[dst + r] == t[src + r]
    {
      CopiedEntry(t, src, dst, r);
    }
    forall p | p in t' && p !in t
      ensures dst <= p || p < dst
    {
      if p in c {
        CopySource(t, src, dst, p);
      } else {
        MissingEntry(t, dst, p);
      }
    }
  }

  /** After a copy, every folder above `dst` is a directory. */
  lemma DirAboveCopy(t: map<Path, Entry>, src: Path, dst: Path, q: Path)
    requires WellFormed(t) && CopyTree(t, src, dst).Some?
    requires q <= dst && 1 <= |q| < |dst|
    ensures IsDir(CopyTree(t, src, dst).value, q)
  {
    var m := Missing(t, dst);
    var c := Copies(t, src, dst);
    assert CopyTree(t, src, dst) == Some(t + m + c);
    assert q == dst[..|q|];
    if q in c {
      CopySource(t, src, dst, q);
    }
    MissingEntry(t, dst, q);
  }

  /** The folder above a copied entry below `dst` is the copy of the
    * folder above its source, so a directory when that one is. */
  lemma CopiedParent(t: map<Path, Entry>, src: Path, dst: Path, p: Path)
    requires p in Copies(t, src, dst) && dst <= p && p != dst
    requires var q := src + p[|dst|..];
             |q| >= 2 && IsDir(t, q[..|q| - 1])
    ensures p[..|p| - 1] in Copies(t, src, dst) && Copies(t, src, dst)[p[..|p| - 1]] == Dir
  {
    var up := p[..|p| - 1];
    var r := up[|dst|..];
    var q := src + p[|dst|..];
    assert q[..|q| - 1] == src + r;
    assert up == dst + r;
    CopiedEntry(t, src, dst, r);
  }

  /** The copy leaves the tree well formed. */
  lemma CopyTreeWellFormed(t: map<Path, Entry>, src: Path, dst: Path)
    requires WellFormed(t) && CopyTree(t, src, dst).Some?
    ensures WellFormed(CopyTree(t, src, dst).value)
  {
    var t' := CopyTree(t, src, dst).value;
    var c := Copies(t, src, dst);
    CopyTreeKeeps(t, src, dst);
    forall p | p in t'
      ensures |p| >= 1 && (|p| >= 2 ==> IsDir(t', p[..|p| - 1]))
    {
      if p in c && p != dst {
        CopySource(t, src, dst, p);
        ParentIsDir(t, src + p[|dst|..]);
        CopiedParent(t, src, dst, p);
      } else if p in t {
        if |p| >= 2 {
          ParentIsDir(t, p);
        }
      } else if |p| >= 2 {
        DirAboveCopy(t, src, dst, p[..|p| - 1]);
      }
    }
  }

  /** `shutil.rmtree(d)`: every entry below `d`, and `d`, removed. */
  function Removed(t: map<Path, Entry>, d: Path): map<Path, Entry>
  {
    map p | p in t && !(d <= p) :: t[p]
  }

  /** Exactly the entries at or below `d` go; the rest keep their contents. */
  lemma RemovedEntry(t: map<Path, Entry>, d: Path, p: Path)
    ensures p in Removed(t, d) <==> p in t && !(d <= p)
    ensures p in Removed(t, d) ==> Removed(t, d)[p] == t[p]
  {
  }

  /** Removing a tree leaves the rest well formed. */
  lemma RemovedWellFormed(t: map<Path, Entry>, d: Path)
    requires WellFormed(t)
    ensures WellFormed(Removed(t, d))
  {
    var r := Removed(t, d);
    forall p | p in r
      ensures |p| >= 1 && (|p| >= 2 ==> IsDir(r, p[..|p| - 1]))
    {
      RemovedEntry(t, d, p);
      if |p| >= 2 {
        ParentIsDir(t, p);
        assert !(d <= p[..|p| - 1]);
        RemovedEntry(t, d, p[..|p| - 1]);
      }
    }
  }

  /** Where `shutil.move` puts `src`: inside `dst` under its own name when
    * `dst` is a directory, at `dst` otherwise. */
  function MoveTarget(t: map<Path, Entry>, src: Path, dst: Path): Path
    requires |src| >= 1
  {
    if IsDir(t, dst) then dst + [src[|src| - 1]] else dst
  }

  /** `shutil.move(src, dst)`: fails when `src` is absent, when the
    * destination exists or a folder above it is a file, or when the
    * destination lies inside `src`. A folder that cannot be renamed falls
    * back to `copytree`, whose `os.makedirs` creates the missing folders
    * above the destination; a file falls back to `copy2`, which needs the
    * folder holding the destination to be a directory. `src`'s tree then
    * moves there. */
  function Move(t: map<Path, Entry>, src: Path, dst: Path): Option<map<Path, Entry>>
  {
    if |src| == 0 || src !in t then None
    else
      var target := MoveTarget(t, src, dst);
      if |target| < 2 || !CanCreate(t, target) || src <= target then None
      else if !IsDir(t, src) && !IsDir(t, target[..|target| - 1]) then None
      else Some(Removed(t, src) + Missing(t, target) + Copies(t, src, target))
  }

  /** Writing a file where its folder is a directory and no directory is
    * keeps the tree well formed. */
  lemma WrittenWellFormed(t: map<Path, Entry>, p: Path, e: Entry)
    requires WellFormed(t) && |p| >= 2 && IsDir(t, p[..|p| - 1]) && !IsDir(t, p) && e != Dir
    ensures WellFormed(t[p := e])
  {
    var t' := t[p := e];
    forall q | q in t'
      ensures |q| >= 1 && (|q| >= 2 ==> IsDir(t', q[..|q| - 1]))
    {
      if q != p && |q| >= 2 {
        ParentIsDir(t, q);
        if q[..|q| - 1] == p {
          assert false;
        }
      }
    }
  }

  /** Moving keeps everything outside `src` unchanged, leaves nothing
    * below `src`, and holds `src`'s old tree at the target; every other new
    * entry is a folder created above the target. */
  lemma MoveKeeps(t: map<Path, Entry>, src: Path, dst: Path)
    requires WellFormed(t) && Move(t, src, dst).Some?
    ensures var t' := Move(t, src, dst).value;
            var target := MoveTarget(t, src, dst);
            && (forall p :: p in t && !(src <= p) ==> p in t' && t'[p] == t[p])
            && (forall p :: p in t' ==> !(src <= p))
            && (forall r :: src + r in t ==> target + r in t' && t'[target + r] == t[src + r])
            && (forall p :: p in t' && p !in t ==> target <= p || (p < target && t'[p] == Dir))
  {
    var target := MoveTarget(t, src, dst);
    var rest := Removed(t, src);
    var m := Missing(t, target);
    var c := Copies(t, src, target);
    var t' := rest + m + c;
    assert Move(t, src, dst) == Some(t');
    AbsentHasNothingBelow(t, target);
    forall p | p in t && !(src <= p)
      ensures p in t' && t'[p] == t[p]
    {
      RemovedEntry(t, src, p);
      MissingEntry(t, target, p);
      if p in c {
        CopySource(t, src, target, p);
      }
    }
    forall p | p in t'
      ensures !(src <= p)
    {
      if p in c {
        CopySource(t, src, target, p);
      } else if p in m {
        MissingEntry(t, target, p);
      } else {
        RemovedEntry(t, src, p);
      }
    }
    forall r | src + r in t
      ensures target + r in t' && t'[target + r] == t[src + r]
    {
      CopiedEntry(t, src, target, r);
    }
    forall p | p in t' && p !in t
      ensures target <= p || (p < target && t'[p] == Dir)
    {
      RemovedEntry(t, src, p);
      MissingEntry(t, target, p);
      if p in c {
        CopySource(t, src, target, p);
      }
    }
  }

  /** After a move, every folder above the target is a directory. */
  lemma DirAboveMove(t: map<Path, Entry>, src: Path, dst: Path, q: Path)
    requires WellFormed(t) && Move(t, src, dst).Some?
    requires var target := MoveTarget(t, src, dst);
             q <= target && 1 <= |q| < |target|
    ensures IsDir(Move(t, src, dst).value, q)
  {
    var target := MoveTarget(t, src, dst);
    var m := Missing(t, target);
    var c := Copies(t, src, target);
    assert Move(t, src, dst) == Some(Removed(t, src) + m + c);
    assert q == target[..|q|];
    assert !(src <= q);
    RemovedEntry(t, src, q);
    MissingEntry(t, target, q);
    if q in c {
      CopySource(t, src, target, q);
    }
  }

  /** Moving leaves the tree well formed. */
  lemma MoveWellFormed(t: map<Path, Entry>, src: Path, dst: Path)
    requires WellFormed(t) && Move(t, src, dst).Some?
    ensures WellFormed(Move(t, src, dst).value)
  {
    var target := MoveTarget(t, src, dst);
    var rest := Removed(t, src);
    var m := Missing(t, target);
    var c := Copies(t, src, target);
    var t' := rest + m + c;
    assert Move(t, src, dst) == Some(t');
    forall p | p in t'
      ensures |p| >= 1 && (|p| >= 2 ==> IsDir(t', p[..|p| - 1]))
    {
      if p in c {
        CopySource(t, src, target, p);
        if p != target {
          ParentIsDir(t, src + p[|target|..]);
          CopiedParent(t, src, target, p);
        } else {
          MovedTargetParent(t, src, dst);
        }
      } else if p in m {
        MissingEntry(t, target, p);
        if |p| >= 2 {
          DirAboveMove(t, src, dst, p[..|p| - 1]);
        }
      } else {
        RemovedEntry(t, src, p);
        if |p| >= 2 {
          var up := p[..|p| - 1];
          ParentIsDir(t, p);
          RemovedEntry(t, src, up);
          MissingEntry(t, target, up);
          if up in c {
            CopySource(t, src, target, up);
            NotBelowAbsent(t, target, up);
          }
        }
      }
    }
  }

  /** In a well-formed tree no entry lies below an absent path. */
  lemma NotBelowAbsent(t: map<Path, Entry>, d: Path, p: Path)
    requires WellFormed(t) && |d| >= 1 && d !in t && p in t
    ensures !(d <= p)
  {
    if d <= p {
      AncestorIsDir(t, d, p);
    }
  }

  /** After a move, the folder holding the target is a directory. */
  lemma MovedTargetParent(t: map<Path, Entry>, src: Path, dst: Path)
    requires WellFormed(t) && Move(t, src, dst).Some?
    ensures var target := MoveTarget(t, src, dst);
            IsDir(Move(t, src, dst).value, target[..|target| - 1])
  {
    var target := MoveTarget(t, src, dst);
    DirAboveMove(t, src, dst, target[..|target| - 1]);
  }

  // ---------------------------------------------------------------------------
  // The SteamVR setting
  // ---------------------------------------------------------------------------

  const FLAG := "activateMultipleDrivers"

  /** Python's `x == False`: true for `false` and for the number zero. */
  predicate EqualsFalse(j: Json)
  {
    j == JBool(false) || j == JNumber(0.0)
  }

  /** The `steamvr` section, when the settings are an object holding one
    * that is itself an object. */
  function Section(config: Json): Option<map<string, Json>>
  {
    if config.JObject? && "steamvr" in config.fields && config.fields["steamvr"].JObject?
    then Some(config.fields["steamvr"].fields)
    else None
  }

  /** The flag is set to `true` when it is absent or equal to `False`; the
    * result is the settings to write, or `None` when nothing is written.
    * Settings without a `steamvr` object raise. */
  function FlagUpdate(config: Json): Result<Option<Json>>
  {
    match Section(config)
    case None => Err("steamvr")
    case Some(section) =>
      if FLAG !in section || EqualsFalse(section[FLAG])
      then Ok(Some(JObject(config.fields["steamvr" := JObject(section[FLAG := JBool(true)])])))
      else Ok(None)
  }

  /** The update changes only the flag, which it sets to `true`, and it is
    * needed exactly when the flag is absent or equal to `False`. */
  lemma FlagUpdateOnlyFlag(config: Json)
    requires Section(config).Some?
    ensures var section := Section(config).value;
            var u := FlagUpdate(config);
            && u.Ok?
            && (u.value.Some? <==> FLAG !in section || EqualsFalse(section[FLAG]))
            && (u.value.Some? ==>
                  && u.value.value.JObject?
                  && u.value.value.fields.Keys == config.fields.Keys
                  && (forall k :: k in config.fields && k != "steamvr" ==> u.value.value.fields[k] == config.fields[k])
                  && Section(u.value.value) == Some(section[FLAG := JBool(true)]))
  {
  }

  /** Updating twice writes nothing the second time. */
  lemma FlagUpdateIdempotent(config: Json)
    requires FlagUpdate(config).Ok? && FlagUpdate(config).value.Some?
    ensures FlagUpdate(FlagUpdate(config).value.value) == Ok(None)
  {
    var u := FlagUpdate(config).value.value;
    assert Section(u).Some?;
    assert Section(u).value[FLAG] == JBool(true);
  }

  /** A settings file whose flag needs no update. */
  predicate FlagSet(t: map<Path, Entry>, config: Path)
  {
    && IsFile(t, config) && t[config].json.Some?
    && FlagUpdate(t[config].json.value) == Ok(None)
  }

  // ---------------------------------------------------------------------------
  // Locating SteamVR and its settings
  // ---------------------------------------------------------------------------

  /** A step of a run: going on with a value, or stopping. */
  datatype Step<T> = Go(value: T) | Halt(why: Stop)

  /** What the user and the environment supply: the `ProgramFiles(x86)`
    * variable, the folder picked in each dialog (empty when cancelled),
    * the typed answer, and the folder the script runs in. */
  datatype Inputs = Inputs(programFiles: Option<string>, steamChoice: string, answer: string,
                           steamVrChoice: string, cwd: Path)

  /** The settings a run works on. */
  datatype Located = Located(steamVr: string, config: Path, settings: Json)

  const PAYLOAD := "apriltagtrackers"

  /** A name without `/` is one component. */
  lemma {:induction false} SplitName(s: string)
    requires '/' !in s
    ensures Split(s) == [s]
  {
    if s != [] {
      SplitName(s[1..]);
      assert s == [s[0]] + s[1..];
    }
  }

  function SteamVrDefault(root: string): string
  {
    root + "/steamapps/common/SteamVR"
  }

  function ConfigPath(root: string): Path
  {
    Split(root + "/config/steamvr.vrsettings")
  }

  function DriversPath(steamVr: string): Path
  {
    Split(steamVr + "/drivers")
  }

  function DriverPath(steamVr: string): Path
  {
    Split(steamVr + "/drivers" + "/" + PAYLOAD)
  }

  function PayloadPath(cwd: Path): Path
  {
    cwd + [PAYLOAD]
  }

  /** The driver folder is the payload's name inside the drivers folder. */
  lemma DriverInDrivers(steamVr: string)
    ensures DriverPath(steamVr) == DriversPath(steamVr) + [PAYLOAD]
  {
    var drivers := steamVr + "/drivers";
    assert Split(PAYLOAD) == [PAYLOAD] by {
      SplitName(PAYLOAD);
    }
    assert Split(drivers + "/" + PAYLOAD) == Split(drivers) + [PAYLOAD] by {
      SplitAppend(drivers, PAYLOAD);
    }
  }

  /** The Steam folder: the variable's value followed by `/Steam`, with
    * every backslash made a forward slash; when that is not a directory,
    * the folder picked in the dialog. */
  function SteamRoot(t: map<Path, Entry>, inputs: Inputs): Step<string>
  {
    match inputs.programFiles
    case None => Halt(NoProgramFiles)
    case Some(pf) =>
      var root := Slashes(pf + "/Steam");
      if IsDir(t, Split(root)) then Go(root)
      else if inputs.steamChoice == "" then Halt(SteamNotChosen)
      else Go(inputs.steamChoice)
  }

  /** The run goes on only with the default Steam folder, when it is a
    * directory, or with a folder the user picked. */
  lemma SteamRootMeaning(t: map<Path, Entry>, inputs: Inputs)
    ensures var r := SteamRoot(t, inputs);
            && (r.Halt? <==> inputs.programFiles.None?
                             || (!IsDir(t, Split(Slashes(inputs.programFiles.value + "/Steam"))) && inputs.steamChoice == ""))
            && (r.Go? ==> r.value != "")
            && (r.Go? ==> || (r.value == Slashes(inputs.programFiles.value + "/Steam") && IsDir(t, Split(r.value)))
                          || (r.value == inputs.steamChoice && !IsDir(t, Split(Slashes(inputs.programFiles.value + "/Steam")))))
  {
    match inputs.programFiles
    case None =>
    case Some(pf) =>
      assert |Slashes(pf + "/Steam")| >= 6;
  }

  /** `installer.py` and `uninstaller.py`: SteamVR below the Steam folder;
    * when it is not a directory the user must agree that it is installed
    * and pick its folder. */
  function SteamVr(t: map<Path, Entry>, root: string, answer: string, choice: string): Step<string>
  {
    var d := SteamVrDefault(root);
    if IsDir(t, Split(d)) then Go(d)
    else if !Agrees(answer) then Halt(SteamVrNotInstalled)
    else if choice == "" then Halt(SteamVrNotChosen)
    else Go(choice)
  }

  /** `install.py` as written: the same prompt, asked when SteamVR's
    * default folder IS a directory. */
  function SteamVrInverted(t: map<Path, Entry>, root: string, answer: string, choice: string): Step<string>
  {
    var d := SteamVrDefault(root);
    if !IsDir(t, Split(d)) then Go(d)
    else if !Agrees(answer) then Halt(SteamVrNotInstalled)
    else if choice == "" then Halt(SteamVrNotChosen)
    else Go(choice)
  }

  /** The prompt comes only when SteamVR is not found: a present default
    * folder is taken without asking, an absent one is never taken. */
  lemma SteamVrAsksOnlyWhenMissing(t: map<Path, Entry>, root: string, answer: string, choice: string)
    ensures IsDir(t, Split(SteamVrDefault(root))) ==> SteamVr(t, root, answer, choice) == Go(SteamVrDefault(root))
    ensures !IsDir(t, Split(SteamVrDefault(root))) ==>
              SteamVr(t, root, answer, choice) == (if !Agrees(answer) then Halt(SteamVrNotInstalled)
                                                   else if choice == "" then Halt(SteamVrNotChosen) else Go(choice))
    ensures SteamVr(t, root, answer, choice).Go? ==>
              IsDir(t, Split(SteamVr(t, root, answer, choice).value)) || SteamVr(t, root, answer, choice).value == choice
  {
  }

  /** As written, `install.py` stops a user whose SteamVR is where it
    * belongs and who answers that it is not installed, and goes on with
    * the default folder when it does not exist. */
  lemma SteamVrInvertedAsWritten(t: map<Path, Entry>, root: string, choice: string)
    ensures IsDir(t, Split(SteamVrDefault(root))) ==>
              SteamVrInverted(t, root, "no", choice) == Halt(SteamVrNotInstalled)
              && SteamVr(t, root, "no", choice) == Go(SteamVrDefault(root))
    ensures !IsDir(t, Split(SteamVrDefault(root))) ==>
              SteamVrInverted(t, root, "no", choice) == Go(SteamVrDefault(root))
              && SteamVr(t, root, "no", choice) == Halt(SteamVrNotInstalled)
  {
    assert Lower("no") == "no";
  }

  /** The Steam and SteamVR folders, then the settings file below the Steam
    * folder, which must exist and hold JSON. */
  function Locate(t: map<Path, Entry>, inputs: Inputs, inverted: bool): Step<Located>
  {
    match SteamRoot(t, inputs)
    case Halt(why) => Halt(why)
    case Go(root) =>
      var vr := if inverted then SteamVrInverted(t, root, inputs.answer, inputs.steamVrChoice)
                else SteamVr(t, root, inputs.answer, inputs.steamVrChoice);
      match vr
      case Halt(why) => Halt(why)
      case Go(steamVr) =>
        var config := ConfigPath(root);
        if !IsFile(t, config) then Halt(ConfigMissing)
        else match t[config].json
          case None => Halt(ConfigNotJson)
          case Some(settings) => Go(Located(steamVr, config, settings))
  }

  /** A located settings file is a file in the tree holding that JSON. */
  lemma LocateMeaning(t: map<Path, Entry>, inputs: Inputs, inverted: bool)
    ensures var l := Locate(t, inputs, inverted);
            && (l.Go? ==> IsFile(t, l.value.config) && t[l.value.config] == File(Some(l.value.settings)))
            && (l.Go? ==> SteamRoot(t, inputs).Go? && l.value.config == ConfigPath(SteamRoot(t, inputs).value))
            && (l.Halt? && SteamRoot(t, inputs).Halt? ==> l.why == SteamRoot(t, inputs).why)
            && (l.Halt? ==> l.why in {SteamNotChosen, SteamVrNotInstalled, SteamVrNotChosen, ConfigMissing, NoProgramFiles, ConfigNotJson})
  {
  }

  // ---------------------------------------------------------------------------
  // The file system and the scripts
  // ---------------------------------------------------------------------------

  /** The file system the scripts change. */
  class FileSystem {
    var entries: map<Path, Entry>

    ghost predicate Valid()
      reads this
    {
      WellFormed(entries)
    }

    constructor (t: map<Path, Entry>)
      requires WellFormed(t)
      ensures Valid() && entries == t
    {
      entries := t;
    }

    /** `shutil.copytree`; nothing changes when it fails, and nothing that
      * existed is overwritten when it succeeds. */
    method CopyFolder(src: Path, dst: Path) returns (ok: bool)
      requires Valid()
      modifies this
      ensures Valid()
      ensures ok <==> CopyTree(old(entries), src, dst).Some?
      ensures entries == if ok then CopyTree(old(entries), src, dst).value else old(entries)
      ensures forall p :: p in old(entries) ==> p in entries && entries[p] == old(entries)[p]
    {
      var r := CopyTree(entries, src, dst);
      if r.None? {
        return false;
      }
      CopyTreeKeeps(entries, src, dst);
      CopyTreeWellFormed(entries, src, dst);
      entries := r.value;
      return true;
    }

    /** `shutil.move`; nothing changes when it fails. */
    method MoveFolder(src: Path, dst: Path) returns (ok: bool)
      requires Valid()
      modifies this
      ensures Valid()
      ensures ok <==> Move(old(entries), src, dst).Some?
      ensures entries == if ok then Move(old(entries), src, dst).value else old(entries)
    {
      var r := Move(entries, src, dst);
      if r.None? {
        return false;
      }
      MoveWellFormed(entries, src, dst);
      entries := r.value;
      return true;
    }

    /** `shutil.rmtree`. */
    method RemoveFolder(d: Path)
      requires Valid()
      modifies this
      ensures Valid()
      ensures entries == Removed(old(entries), d)
    {
      RemovedWellFormed(entries, d);
      entries := Removed(entries, d);
    }

    /** `open(p, 'w')` and `json.dump`: the file is created or replaced
      * when its folder is a directory and `p` is not one. */
    method WriteSettings(p: Path, settings: Json) returns (ok: bool)
      requires Valid()
      modifies this
      ensures Valid()
      ensures ok <==> |p| >= 2 && IsDir(old(entries), p[..|p| - 1]) && !IsDir(old(entries), p)
      ensures entries == if ok then old(entries)[p := File(Some(settings))] else old(entries)
    {
      if |p| < 2 || !IsDir(entries, p[..|p| - 1]) || IsDir(entries, p) {
        return false;
      }
      WrittenWellFormed(entries, p, File(Some(settings)));
      entries := entries[p := File(Some(settings))];
      return true;
    }
  }

  /** The flag step both installers end with: nothing is written when the
    * flag needs no update. */
  method ActivateFlag(fs: FileSystem, config: Path, settings: Json) returns (o: Outcome)
    requires fs.Valid()
    modifies fs
    ensures fs.Valid()
    ensures FlagUpdate(settings).Err? ==> o == Stopped(NoSteamVrSection) && fs.entries == old(fs.entries)
    ensures FlagUpdate(settings) == Ok(None) ==> o == Finished && fs.entries == old(fs.entries)
    ensures FlagUpdate(settings).Ok? && FlagUpdate(settings).value.Some? ==>
              || (o == Finished && fs.entries == old(fs.entries)[config := File(Some(FlagUpdate(settings).value.value))])
              || (o == Stopped(WriteFailed) && fs.entries == old(fs.entries))
    ensures o == Finished && old(IsFile(fs.entries, config) && fs.entries[config] == File(Some(settings))) ==>
              FlagSet(fs.entries, config)
    ensures o == Finished && FlagUpdate(settings) != Ok(None) ==> FlagSet(fs.entries, config)
    ensures forall p :: p in old(fs.entries) && p != config ==> p in fs.entries && fs.entries[p] == old(fs.entries)[p]
  {
    var update := FlagUpdate(settings);
    if update.Err? {
      return Stopped(NoSteamVrSection);
    }
    if update.value.Some? {
      FlagUpdateIdempotent(settings);
      var written := fs.WriteSettings(config, update.value.value);
      if !written {
        return Stopped(WriteFailed);
      }
    }
    return Finished;
  }

  /** `installer.py`'s copy step: the payload is copied to the driver
    * folder unless that is already a directory; nothing is overwritten. */
  method CopyDriver(fs: FileSystem, payload: Path, driver: Path) returns (ok: bool)
    requires fs.Valid() && IsDir(fs.entries, payload)
    modifies fs
    ensures fs.Valid()
    ensures IsDir(old(fs.entries), driver) ==> ok && fs.entries == old(fs.entries)
    ensures !ok ==> fs.entries == old(fs.entries)
    ensures forall p :: p in old(fs.entries) ==> p in fs.entries && fs.entries[p] == old(fs.entries)[p]
    ensures ok ==> IsDir(fs.entries, driver)
    ensures ok && !IsDir(old(fs.entries), driver) ==>
              forall r :: payload + r in old(fs.entries) ==>
                driver + r in fs.entries && fs.entries[driver + r] == old(fs.entries)[payload + r]
  {
    if IsDir(fs.entries, driver) {
      return true;
    }
    ghost var t := fs.entries;
    ok := fs.CopyFolder(payload, driver);
    if ok {
      CopyTreeKeeps(t, payload, driver);
      assert payload + [] == payload && driver + [] == driver;
    }
  }

  /** `installer.py`: locate SteamVR and its settings, check for the
    * payload folder, copy it unless the driver folder exists, then set the
    * flag. */
  method RunInstaller(fs: FileSystem, inputs: Inputs) returns (o: Outcome)
    requires fs.Valid()
    modifies fs
    ensures fs.Valid()
    ensures var l := Locate(old(fs.entries), inputs, false);
            && (l.Halt? ==> o == Stopped(l.why) && fs.entries == old(fs.entries))
            && (l.Go? && !IsDir(old(fs.entries), PayloadPath(inputs.cwd)) ==>
                  o == Stopped(PayloadMissing) && fs.entries == old(fs.entries))
    ensures o == Stopped(CopyFailed) ==> fs.entries == old(fs.entries)
    ensures var l := Locate(old(fs.entries), inputs, false);
            l.Go? ==> forall p :: p in old(fs.entries) && p != l.value.config ==>
                        p in fs.entries && fs.entries[p] == old(fs.entries)[p]
    ensures var l := Locate(old(fs.entries), inputs, false);
            l.Go? && o == Finished ==> IsDir(fs.entries, DriverPath(l.value.steamVr)) && FlagSet(fs.entries, l.value.config)
    ensures var l := Locate(old(fs.entries), inputs, false);
            l.Go? && IsDir(old(fs.entries), PayloadPath(inputs.cwd)) && IsDir(old(fs.entries), DriverPath(l.value.steamVr))
            && FlagSet(old(fs.entries), l.value.config) ==>
              o == Finished && fs.entries == old(fs.entries)
    ensures var l := Locate(old(fs.entries), inputs, false);
            l.Go? && !IsDir(old(fs.entries), DriverPath(l.value.steamVr)) && o == Finished ==>
              forall r :: PayloadPath(inputs.cwd) + r in old(fs.entries) ==>
                DriverPath(l.value.steamVr) + r in fs.entries
                && fs.entries[DriverPath(l.value.steamVr) + r] == old(fs.entries)[PayloadPath(inputs.cwd) + r]
  {
    var located := Locate(fs.entries, inputs, false);
    LocateMeaning(fs.entries, inputs, false);
    if located.Halt? {
      return Stopped(located.why);
    }
    var Located(steamVr, config, settings) := located.value;
    var payload := PayloadPath(inputs.cwd);
    if !IsDir(fs.entries, payload) {
      return Stopped(PayloadMissing);
    }
    var driver := DriverPath(steamVr);
    ghost var t := fs.entries;
    if driver !in t {
      NotBelowAbsent(t, driver, config);
    }
    var copied := CopyDriver(fs, payload, driver);
    if !copied {
      return Stopped(CopyFailed);
    }
    o := ActivateFlag(fs, config, settings);
  }

  /** `install.py`'s move step: unless the driver folder is a directory,
    * the payload is moved into the drivers folder, or becomes the drivers
    * folder when there is none. */
  method MoveDriver(fs: FileSystem, payload: Path, steamVr: string) returns (ok: bool)
    requires fs.Valid() && |payload| >= 1 && payload[|payload| - 1] == PAYLOAD
    modifies fs
    ensures fs.Valid()
    ensures IsDir(old(fs.entries), DriverPath(steamVr)) ==> ok && fs.entries == old(fs.entries)
    ensures !ok ==> fs.entries == old(fs.entries)
    ensures !IsDir(old(fs.entries), DriverPath(steamVr)) && payload !in old(fs.entries) ==> !ok
    ensures !IsDir(old(fs.entries), DriverPath(steamVr)) && IsDir(old(fs.entries), payload) ==>
              var target := if IsDir(old(fs.entries), DriversPath(steamVr)) then DriverPath(steamVr) else DriversPath(steamVr);
              |target| >= 2 && CanCreate(old(fs.entries), target) && !(payload <= target) ==> ok
    ensures forall p :: p in old(fs.entries) && !(payload <= p) ==> p in fs.entries && fs.entries[p] == old(fs.entries)[p]
    ensures ok && !IsDir(old(fs.entries), DriverPath(steamVr)) ==>
              var target := if IsDir(old(fs.entries), DriversPath(steamVr)) then DriverPath(steamVr) else DriversPath(steamVr);
              forall r :: payload + r in old(fs.entries) ==>
                target + r in fs.entries && fs.entries[target + r] == old(fs.entries)[payload + r]
  {
    var driver := DriverPath(steamVr);
    if IsDir(fs.entries, driver) {
      return true;
    }
    ghost var t := fs.entries;
    DriverInDrivers(steamVr);
    ok := fs.MoveFolder(payload, DriversPath(steamVr));
    if ok {
      MoveKeeps(t, payload, DriversPath(steamVr));
    }
  }

  /** `install.py`: locate SteamVR (with its check inverted) and the
    * settings, move the payload unless the driver folder exists, then set
    * the flag. There is no check for the payload before the move. */
  method RunMoveInstaller(fs: FileSystem, inputs: Inputs) returns (o: Outcome)
    requires fs.Valid()
    modifies fs
    ensures fs.Valid()
    ensures var l := Locate(old(fs.entries), inputs, true);
            l.Halt? ==> o == Stopped(l.why) && fs.entries == old(fs.entries)
    ensures o == Stopped(MoveFailed) ==> fs.entries == old(fs.entries)
    ensures var l := Locate(old(fs.entries), inputs, true);
            l.Go? && !IsDir(old(fs.entries), DriverPath(l.value.steamVr)) && PayloadPath(inputs.cwd) !in old(fs.entries) ==>
              o == Stopped(MoveFailed)
    ensures var l := Locate(old(fs.entries), inputs, true);
            l.Go? && !IsDir(old(fs.entries), DriverPath(l.value.steamVr)) && IsDir(old(fs.entries), PayloadPath(inputs.cwd)) ==>
              var target := if IsDir(old(fs.entries), DriversPath(l.value.steamVr)) then DriverPath(l.value.steamVr)
                            else DriversPath(l.value.steamVr);
              |target| >= 2 && CanCreate(old(fs.entries), target) && !(PayloadPath(inputs.cwd) <= target) ==>
                o != Stopped(MoveFailed)
    ensures var l := Locate(old(fs.entries), inputs, true);
            l.Go? ==> forall p :: p in old(fs.entries) && !(PayloadPath(inputs.cwd) <= p) && p != l.value.config ==>
                        p in fs.entries && fs.entries[p] == old(fs.entries)[p]
    ensures var l := Locate(old(fs.entries), inputs, true);
            l.Go? && IsDir(old(fs.entries), DriverPath(l.value.steamVr)) && FlagSet(old(fs.entries), l.value.config) ==>
              o == Finished && fs.entries == old(fs.entries)
    ensures var l := Locate(old(fs.entries), inputs, true);
            l.Go? && o == Finished && !(PayloadPath(inputs.cwd) <= l.value.config) ==> FlagSet(fs.entries, l.value.config)
    ensures var l := Locate(old(fs.entries), inputs, true);
            l.Go? && !IsDir(old(fs.entries), DriverPath(l.value.steamVr)) && o == Finished ==>
              var target := if IsDir(old(fs.entries), DriversPath(l.value.steamVr)) then DriverPath(l.value.steamVr)
                            else DriversPath(l.value.steamVr);
              forall r :: PayloadPath(inputs.cwd) + r in old(fs.entries) && target + r != l.value.config ==>
                target + r in fs.entries && fs.entries[target + r] == old(fs.entries)[PayloadPath(inputs.cwd) + r]
  {
    var located := Locate(fs.entries, inputs, true);
    LocateMeaning(fs.entries, inputs, true);
    if located.Halt? {
      return Stopped(located.why);
    }
    var Located(steamVr, config, settings) := located.value;
    var payload := PayloadPath(inputs.cwd);
    var moved := MoveDriver(fs, payload, steamVr);
    if !moved {
      return Stopped(MoveFailed);
    }
    o := ActivateFlag(fs, config, settings);
  }

  /** `uninstaller.py`: locate SteamVR and its settings (which are read and
    * never written), then remove the driver folder if it is a directory. */
  method RunUninstaller(fs: FileSystem, inputs: Inputs) returns (o: Outcome)
    requires fs.Valid()
    modifies fs
    ensures fs.Valid()
    ensures var l := Locate(old(fs.entries), inputs, false);
            l.Halt? ==> o == Stopped(l.why) && fs.entries == old(fs.entries)
    ensures var l := Locate(old(fs.entries), inputs, false);
            l.Go? ==> o == Finished
    ensures var l := Locate(old(fs.entries), inputs, false);
            l.Go? && !IsDir(old(fs.entries), DriverPath(l.value.steamVr)) ==> fs.entries == old(fs.entries)
    ensures var l := Locate(old(fs.entries), inputs, false);
            l.Go? && IsDir(old(fs.entries), DriverPath(l.value.steamVr)) ==>
              forall p :: (p in fs.entries <==> p in old(fs.entries) && !(DriverPath(l.value.steamVr) <= p))
                          && (p in fs.entries ==> fs.entries[p] == old(fs.entries)[p])
  {
    var located := Locate(fs.entries, inputs, false);
    if located.Halt? {
      return Stopped(located.why);
    }
    var driver := DriverPath(located.value.steamVr);
    if IsDir(fs.entries, driver) {
      ghost var t := fs.entries;
      fs.RemoveFolder(driver);
      forall p
        ensures (p in fs.entries <==> p in t && !(driver <= p)) && (p in fs.entries ==> fs.entries[p] == t[p])
      {
        RemovedEntry(t, driver, p);
      }
    }
    return Finished;
  }
}
