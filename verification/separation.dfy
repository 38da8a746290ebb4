/** Picking the vocal and instrumental stems among the wav files Demucs
    wrote. Files are identified by their position in the enumeration, which
    is what Python's `is` comparison on the path objects amounts to. */
module DemucsStems {
  import opened Wrappers
  import opened Text

  datatype PickError =
    | NoWavFiles     // RuntimeError("Demucs CLI produced no wav files")
    | StemsNotFound  // RuntimeError("Couldn't find expected stems in Demucs output")

  /** Positions of the chosen vocal and instrumental files. */
  datatype StemChoice = StemChoice(vocal: nat, inst: nat)

  /** `p.name.lower().startswith("vocals")`. */
  predicate IsVocalName(name: string) {
    StartsWith(Lower(name), "vocals")
  }

  /** `"no_vocals" in p.name.lower() or "accompaniment" in p.name.lower()`. */
  predicate IsInstName(name: string) {
    Contains(Lower(name), "no_vocals") || Contains(Lower(name), "accompaniment")
  }

  /** File `i` may serve as the instrumental: it is not the vocal file and
      its name says it is an accompaniment. */
  predicate InstCandidate(names: seq<string>, vocal: Option<nat>, i: int) {
    0 <= i < |names| && vocal != Some(i) && IsInstName(names[i])
  }

  /** The first vocal-named file. */
  function FindVocal(names: seq<string>): (v: Option<nat>)
    ensures v.None? <==> forall i :: 0 <= i < |names| ==> !IsVocalName(names[i])
    ensures v.Some? ==> v.value < |names| && IsVocalName(names[v.value])
    ensures v.Some? ==> forall i :: 0 <= i < v.value ==> !IsVocalName(names[i])
  {
    FindFirst(names, n => IsVocalName(n))
  }

  /** The first instrumental candidate other than the vocal file, at or
      after position `from`. */
  function FindInst(names: seq<string>, vocal: Option<nat>, from: nat := 0): (k: Option<nat>)
    requires from <= |names|
    ensures k.None? <==> forall i :: from <= i < |names| ==> !InstCandidate(names, vocal, i)
    ensures k.Some? ==> from <= k.value && InstCandidate(names, vocal, k.value)
    ensures k.Some? ==> forall i :: from <= i < k.value ==> !InstCandidate(names, vocal, i)
    decreases |names| - from
  {
    if from == |names| then None
    else if InstCandidate(names, vocal, from) then Some(from)
    else FindInst(names, vocal, from + 1)
  }

  /** The stem-picking rule that ends `run_demucs` (demucs_loader.py). */
  function PickStems(names: seq<string>): (r: Result<StemChoice, PickError>)
    ensures r == Err(NoWavFiles) <==> |names| == 0
    ensures r.Ok? ==> r.value.vocal < |names| && r.value.inst < |names| && r.value.vocal != r.value.inst
    ensures r.Ok? ==> Some(r.value.vocal) == FindVocal(names)
    ensures r.Ok? && FindInst(names, FindVocal(names)).Some? ==> Some(r.value.inst) == FindInst(names, FindVocal(names))
    ensures r.Ok? && FindInst(names, FindVocal(names)).None? ==> |names| == 2
    ensures r == Err(StemsNotFound) <==>
              |names| > 0 &&
              (FindVocal(names).None? || (FindInst(names, FindVocal(names)).None? && |names| != 2))
  {
    if |names| == 0 then Err(NoWavFiles)
    else
      var vocal := FindVocal(names);
      var inst := FindInst(names, vocal);
      var inst' := if inst.None? && vocal.Some? && |names| == 2 then Some(1 - vocal.value) else inst;
      if vocal.None? || inst'.None? then Err(StemsNotFound)
      else Ok(StemChoice(vocal.value, inst'.value))
  }

  /** On success the chosen vocal is a vocal-named file that no earlier file
      beats, and the instrumental is the first accompaniment-named file other
      than it, or, among exactly two files, simply the other one. */
  lemma PickStemsMeaning(names: seq<string>)
    requires PickStems(names).Ok?
    ensures var c := PickStems(names).value;
            IsVocalName(names[c.vocal]) && (forall i :: 0 <= i < c.vocal ==> !IsVocalName(names[i]))
    ensures var c := PickStems(names).value;
            (IsInstName(names[c.inst]) && forall i :: 0 <= i < c.inst && i != c.vocal ==> !IsInstName(names[i]))
            || (|names| == 2 && forall i :: 0 <= i < 2 && i != c.vocal ==> !IsInstName(names[i]))
  {
    var c := PickStems(names).value;
    var vocal := FindVocal(names);
    var inst := FindInst(names, vocal);
    if inst.Some? {
      forall i | 0 <= i < c.inst && i != c.vocal ensures !IsInstName(names[i]) {
        assert !InstCandidate(names, vocal, i);
      }
    } else {
      forall i | 0 <= i < 2 && i != c.vocal ensures !IsInstName(names[i]) {
        assert !InstCandidate(names, vocal, i);
      }
    }
  }

  /** The usual two-stem output: the vocal file and the `no_vocals` file,
      whatever order the directory walk lists them in. */
  lemma TwoStemsEitherOrder()
    ensures PickStems(["no_vocals.wav", "vocals.wav"]) == Ok(StemChoice(1, 0))
    ensures PickStems(["vocals.wav", "no_vocals.wav"]) == Ok(StemChoice(0, 1))
  {
    var a := ["no_vocals.wav", "vocals.wav"];
    var b := ["vocals.wav", "no_vocals.wav"];
    assert Lower("no_vocals.wav") == "no_vocals.wav";
    assert Lower("vocals.wav") == "vocals.wav";
    assert OccursAt("no_vocals.wav", "no_vocals", 0);
    assert !IsVocalName("no_vocals.wav") by {
      assert "no_vocals.wav"[..6][0] == 'n';
    }
    assert IsVocalName("vocals.wav");
    assert FindVocal(a) == Some(1);
    assert InstCandidate(a, Some(1), 0);
    assert FindVocal(b) == Some(0);
    assert InstCandidate(b, Some(0), 1);
  }
}

/** Locating the stems Ultimate Vocal Remover wrote (mvsep_loader.py). The
    environment and the subprocess are inputs: the `UVR_PY` variable, what
    `shutil.which("uvr.py")` returns, which paths exist, whether the run
    succeeds and the wav files it leaves, in enumeration order. */
module UvrStems {
  import opened Wrappers
  import opened Text

  /** The last position of `c` in `s`, or -1: `s.rfind(c)`. */
  function RFind(s: string, c: char): (i: int)
    ensures -1 <= i < |s|
    ensures i >= 0 ==> s[i] == c
    ensures forall j :: i < j < |s| ==> s[j] != c
  {
    if |s| == 0 then -1
    else if s[|s| - 1] == c then |s| - 1
    else RFind(s[..|s| - 1], c)
  }

  /** `Path(path).name`: the final component, everything after the last '/'. */
  function PathName(path: string): (name: string)
    ensures '/' !in name
    ensures |name| <= |path| && name == path[|path| - |name|..]
    ensures |name| < |path| ==> path[|path| - |name| - 1] == '/'
  {
    path[RFind(path, '/') + 1..]
  }

  /** A path without '/' is its own final component. */
  lemma BareName(path: string)
    requires '/' !in path
    ensures PathName(path) == path
  {}

  /** `Path(path).stem`: the final component without its last suffix. A
      leading dot (a hidden file) or a trailing dot does not start a
      suffix. */
  function PathStem(path: string): (stem: string)
    ensures var name := PathName(path);
            stem == name || (|stem| > 0 && |stem| < |name| - 1 && name[|stem|] == '.')
    ensures var name := PathName(path); stem == name[..|stem|]
    ensures var name := PathName(path); stem != name ==> '.' !in name[|stem| + 1..]
    ensures var name := PathName(path); stem != name <==> 0 < RFind(name, '.') < |name| - 1
  {
    var name := PathName(path);
    var i := RFind(name, '.');
    if 0 < i < |name| - 1 then name[..i] else name
  }

  /** The last dot, when neither first nor last, ends the stem. */
  lemma StemBeforeDot(path: string, i: nat)
    requires 0 < i < |PathName(path)| - 1
    requires PathName(path)[i] == '.' && '.' !in PathName(path)[i + 1..]
    ensures PathStem(path) == PathName(path)[..i]
  {
    assert RFind(PathName(path), '.') == i;
  }

  /** The stem of a name without '/' ends at its last dot, when that dot is
      neither first nor last. */
  lemma StemOfBareName(name: string, i: nat)
    requires '/' !in name
    requires 0 < i < |name| - 1 && name[i] == '.' && '.' !in name[i + 1..]
    ensures PathStem(name) == name[..i]
  {
    BareName(name);
    StemBeforeDot(name, i);
  }

  /** The final component is what follows a '/' with none after it. */
  lemma NameAfterSlash(path: string, i: nat)
    requires i < |path| && path[i] == '/' && '/' !in path[i + 1..]
    ensures PathName(path) == path[i + 1..]
  {
    assert RFind(path, '/') == i;
  }

  /** `key.lower() in p.stem.lower()`. */
  predicate StemMatches(name: string, key: string) {
    Contains(Lower(PathStem(name)), Lower(key))
  }

  /** `_find_stem(directory, key)`: the first wav whose stem contains the key,
      ignoring case. */
  function FindStem(names: seq<string>, key: string): (r: Option<nat>)
    ensures r.None? <==> forall i :: 0 <= i < |names| ==> !StemMatches(names[i], key)
    ensures r.Some? ==> r.value < |names| && StemMatches(names[r.value], key)
    ensures r.Some? ==> forall i :: 0 <= i < r.value ==> !StemMatches(names[i], key)
  {
    FindFirst(names, n => StemMatches(n, key))
  }

  datatype UvrError =
    | ExecutableNotFound  // FileNotFoundError("uvr.py not found. ...")
    | ExecutionFailed     // RuntimeError("UVR execution failed")
    | StemsMissing        // RuntimeError("UVR did not produce expected stems")

  /** What `run_uvr` observes of the world. */
  datatype UvrEnv = UvrEnv(
    uvrPy: Option<string>,     // os.environ.get("UVR_PY")
    which: Option<string>,     // shutil.which("uvr.py")
    existing: set<string>,     // paths for which Path(..).exists() holds
    runSucceeds: bool,         // subprocess.run(cmd, check=True) returns
    outputs: seq<string>)      // the paths of the wav files found under the output directory

  /** `os.environ.get("UVR_PY") or shutil.which("uvr.py")`: an empty
      variable counts as unset. There is no usable path (`not uvr_exe`)
      exactly when neither source gives a non-empty one, and a usable path
      always comes from one of the two. */
  function Executable(env: UvrEnv): (exe: Option<string>)
    ensures env.uvrPy.Some? && env.uvrPy.value != "" ==> exe == env.uvrPy
    ensures (env.uvrPy.None? || env.uvrPy.value == "") ==> exe == env.which
    ensures (exe.None? || exe.value == "")
            <==> (env.uvrPy.None? || env.uvrPy.value == "") && (env.which.None? || env.which.value == "")
    ensures exe.Some? ==> exe == env.uvrPy || exe == env.which
  {
    if env.uvrPy.Some? && env.uvrPy.value != "" then env.uvrPy else env.which
  }

  /** The executable is usable: named, non-empty and present. */
  predicate ExecutableFound(env: UvrEnv) {
    var exe := Executable(env);
    exe.Some? && exe.value != "" && exe.value in env.existing
  }

  /** `run_uvr`: the positions in `env.outputs` of the vocal and the
      instrumental stem. */
  function RunUvr(env: UvrEnv): (r: Result<(nat, nat), UvrError>)
    ensures r == Err(ExecutableNotFound) <==> !ExecutableFound(env)
    ensures r == Err(ExecutionFailed) <==> ExecutableFound(env) && !env.runSucceeds
    ensures r == Err(StemsMissing) <==>
              ExecutableFound(env) && env.runSucceeds &&
              ((forall i :: 0 <= i < |env.outputs| ==> !StemMatches(env.outputs[i], "vocals")) ||
               (forall i :: 0 <= i < |env.outputs| ==> !StemMatches(env.outputs[i], "instrumental")))
    ensures r.Ok? ==> r.value.0 < |env.outputs| && StemMatches(env.outputs[r.value.0], "vocals")
    ensures r.Ok? ==> r.value.1 < |env.outputs| && StemMatches(env.outputs[r.value.1], "instrumental")
  {
    if !ExecutableFound(env) then Err(ExecutableNotFound)
    else if !env.runSucceeds then Err(ExecutionFailed)
    else
      var vocal := FindStem(env.outputs, "vocals");
      var inst := FindStem(env.outputs, "instrumental");
      if vocal.None? || inst.None? then Err(StemsMissing)
      else Ok((vocal.value, inst.value))
  }

  /** A string without capitals is its own lower case. */
  lemma LowerCaseFixed(s: string)
    requires forall i :: 0 <= i < |s| ==> !('A' <= s[i] <= 'Z')
    ensures Lower(s) == s
  {}

  /** A bare file name matches a lower-case key that occurs in the
      lower-case part before its last dot. */
  lemma MatchInBareName(name: string, key: string, i: nat, k: int)
    requires '/' !in name
    requires 0 < i < |name| - 1 && name[i] == '.' && '.' !in name[i + 1..]
    requires forall j :: 0 <= j < i ==> !('A' <= name[j] <= 'Z')
    requires forall j :: 0 <= j < |key| ==> !('A' <= key[j] <= 'Z')
    requires 0 <= k && k + |key| <= i && name[k..k + |key|] == key
    ensures StemMatches(name, key)
  {
    assert OccursAt(name[..i], key, k) by {
      assert name[..i][k..k + |key|] == name[k..k + |key|];
    }
    StemOfBareName(name, i);
    LowerCaseFixed(name[..i]);
    LowerCaseFixed(key);
  }

  /** A stem shorter than the key never matches it. */
  lemma ShortStemMisses(path: string, key: string)
    requires |PathStem(path)| < |key|
    ensures !StemMatches(path, key)
  {}

  /** Between two outputs, the first that matches is chosen. */
  lemma FindStemOfTwo(names: seq<string>, key: string)
    requires |names| == 2 && (StemMatches(names[0], key) || StemMatches(names[1], key))
    ensures FindStem(names, key) == if StemMatches(names[0], key) then Some(0) else Some(1)
  {
    FindFirstOfTwo(names, n => StemMatches(n, key));
  }

  /** Matching is by substring: a stem named "x_no_vocals" is taken for the
      vocals, and wins when it is listed first. The outputs arrive as a
      parameter so that the verifier does not unfold the string functions
      on the literals. */
  lemma SubstringMatch(outputs: seq<string>, key: string)
    requires outputs == ["x_no_vocals.wav", "x_vocals.wav"] && key == "vocals"
    ensures StemMatches(outputs[0], key)
    ensures FindStem(outputs, key) == Some(0)
  {
    NoVocalsMatches(outputs[0], key);
    FindStemOfTwo(outputs, key);
  }

  lemma NoVocalsMatches(name: string, key: string)
    requires name == "x_no_vocals.wav" && key == "vocals"
    ensures StemMatches(name, key)
  {
    MatchInBareName(name, key, 11, 5);
  }

  /** Only the file name is matched, never the directories above it: a wav
      inside a directory called "vocals" is not taken for the vocals. */
  lemma DirectoriesIgnored(outputs: seq<string>, key: string)
    requires outputs == ["vocals/s.wav", "s_vocals.wav"] && key == "vocals"
    ensures !StemMatches(outputs[0], key)
    ensures FindStem(outputs, key) == Some(1)
  {
    NestedMisses(outputs[0], key);
    SVocalsMatches(outputs[1], key);
    FindStemOfTwo(outputs, key);
  }

  /** The stem of "vocals/s.wav" is "s", too short to hold the key. */
  lemma NestedMisses(path: string, key: string)
    requires path == "vocals/s.wav" && key == "vocals"
    ensures !StemMatches(path, key)
  {
    NameAfterSlash(path, 6);
    StemBeforeDot(path, 1);
    ShortStemMisses(path, key);
  }

  lemma SVocalsMatches(name: string, key: string)
    requires name == "s_vocals.wav" && key == "vocals"
    ensures StemMatches(name, key)
  {
    MatchInBareName(name, key, 8, 2);
  }
}

/** The choice between the UVR and the Demucs stems and the confidence that
    goes with it (separation_manager.py). The two separators' outcomes and
    the RMS levels of the instrumental stems are inputs. */
module SeparationManager {
  import opened Wrappers

  /** `1e-6`, the floor of the denominator in `compare_stems`. */
  const MinLevel: real := 0.000001

  /** The threshold at which the UVR stems are preferred. */
  const PreferUvrScore: real := 0.5

  function Abs(x: real): real {
    if x < 0.0 then -x else x
  }

  function Max3(a: real, b: real, c: real): (m: real)
    ensures m >= a && m >= b && m >= c
    ensures m == a || m == b || m == c
  {
    if a >= b && a >= c then a else if b >= c then b else c
  }

  /** `compare_stems`: each argument is the RMS level of an instrumental
      stem, or None when that file does not exist. */
  function CompareStems(level1: Option<real>, level2: Option<real>): (score: real)
    ensures level1.None? || level2.None? ==> score == 0.0
  {
    if level1.None? || level2.None? then 0.0
    else
      var a := level1.value;
      var b := level2.value;
      1.0 - Abs(a - b) / Max3(a, b, MinLevel)
  }

  /** For non-negative levels the score lies in [0, 1], does not depend on
      the argument order, and is 1 exactly when the levels are equal. */
  lemma CompareStemsRange(a: real, b: real)
    requires a >= 0.0 && b >= 0.0
    ensures 0.0 <= CompareStems(Some(a), Some(b)) <= 1.0
    ensures CompareStems(Some(a), Some(b)) == CompareStems(Some(b), Some(a))
    ensures CompareStems(Some(a), Some(b)) == 1.0 <==> a == b
  {
    var m := Max3(a, b, MinLevel);
    var d := Abs(a - b);
    assert 0.0 <= d <= m;
    RatioInUnit(d, m);
    assert Max3(a, b, MinLevel) == Max3(b, a, MinLevel);
  }

  lemma RatioInUnit(d: real, m: real)
    requires 0.0 <= d <= m && m > 0.0
    ensures 0.0 <= d / m <= 1.0
    ensures d / m == 0.0 <==> d == 0.0
  {
    assert (d / m) * m == d;
  }

  datatype StemPair = StemPair(vocal: string, inst: string)

  datatype Separation = Separation(stems: StemPair, confidence: real)

  datatype SeparationError = NoSeparationMethod  // RuntimeError("No separation method available")

  /** The similarity score: computed only when both separators produced
      stems, and 0.0 otherwise. */
  function Score(uvr: Option<StemPair>, demucs: Option<StemPair>,
                 uvrLevel: Option<real>, demucsLevel: Option<real>): (s: real)
    ensures uvr.None? || demucs.None? ==> s == 0.0
  {
    if uvr.Some? && demucs.Some? then CompareStems(uvrLevel, demucsLevel) else 0.0
  }

  /** `separate_and_score`, up to the copy of the chosen stems. */
  function SeparateAndScore(uvr: Option<StemPair>, demucs: Option<StemPair>,
                            uvrLevel: Option<real>, demucsLevel: Option<real>): (r: Result<Separation, SeparationError>)
    ensures r.Err? <==> uvr.None? && demucs.None?
    ensures demucs.None? && uvr.Some? ==> r == Ok(Separation(uvr.value, 0.0))
    ensures demucs.Some? ==> r.Ok? && r.value.confidence == Score(uvr, demucs, uvrLevel, demucsLevel)
    ensures demucs.Some? && uvr.Some? && Score(uvr, demucs, uvrLevel, demucsLevel) >= PreferUvrScore ==>
              r.Ok? && r.value.stems == uvr.value
    ensures demucs.Some? && (uvr.None? || Score(uvr, demucs, uvrLevel, demucsLevel) < PreferUvrScore) ==>
              r.Ok? && r.value.stems == demucs.value
  {
    var score := Score(uvr, demucs, uvrLevel, demucsLevel);
    if demucs.None? then
      if uvr.None? then Err(NoSeparationMethod)
      else Ok(Separation(uvr.value, 0.0))
    else if score >= PreferUvrScore && uvr.Some? then Ok(Separation(uvr.value, score))
    else Ok(Separation(demucs.value, score))
  }

  /** The result always comes from one of the two separators, and with
      non-negative levels the confidence lies in [0, 1]. */
  lemma SeparationSound(uvr: Option<StemPair>, demucs: Option<StemPair>,
                        uvrLevel: Option<real>, demucsLevel: Option<real>)
    requires uvrLevel.Some? ==> uvrLevel.value >= 0.0
    requires demucsLevel.Some? ==> demucsLevel.value >= 0.0
    ensures var r := SeparateAndScore(uvr, demucs, uvrLevel, demucsLevel);
            r.Ok? ==> (Some(r.value.stems) == uvr || Some(r.value.stems) == demucs)
                      && 0.0 <= r.value.confidence <= 1.0
  {
    if uvrLevel.Some? && demucsLevel.Some? {
      CompareStemsRange(uvrLevel.value, demucsLevel.value);
    }
  }
}
