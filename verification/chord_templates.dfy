/** The chord-template table of chords.py: for each of the twelve roots and
    each of the nine chord qualities, a 12-entry pitch-class vector holding
    1 at the root plus each interval (mod 12) and 0 elsewhere, keyed by the
    root name followed by the quality's suffix. */
module ChordTemplates {

  /** `NOTE_NAMES`: the twelve pitch classes from C, sharps only. */
  const NoteNames: seq<string> := ["C", "C#", "D", "D#", "E", "F", "F#", "G", "G#", "A", "A#", "B"]

  /** One entry of `CHORD_INTERVALS`: a name suffix and its semitone steps
      above the root. */
  datatype Quality = Quality(suffix: string, steps: seq<nat>)

  /** `CHORD_INTERVALS`, in the dictionary's insertion (and iteration) order. */
  const Qualities: seq<Quality> := [
    Quality("", [0, 4, 7]),
    Quality("m", [0, 3, 7]),
    Quality("6", [0, 4, 7, 9]),
    Quality("maj7", [0, 4, 7, 11]),
    Quality("7", [0, 4, 7, 10]),
    Quality("m7", [0, 3, 7, 10]),
    Quality("maj9", [0, 4, 7, 11, 2]),
    Quality("9", [0, 4, 7, 10, 2]),
    Quality("m9", [0, 3, 7, 10, 2])
  ]

  const PitchClasses: nat := 12

  type Vector = seq<int>

  // ---------------------------------------------------------------------
  // One template
  // ---------------------------------------------------------------------

  /** Pitch class `p` is `root + step (mod 12)` for some step. */
  predicate Hits(root: nat, steps: seq<nat>, p: nat) {
    exists k :: 0 <= k < |steps| && (root + steps[k]) % PitchClasses == p
  }

  /** The template as a set: 1 exactly at the pitch classes the steps reach
      from the root. */
  function Template(root: nat, steps: seq<nat>): (v: Vector)
    ensures |v| == PitchClasses
    ensures forall p :: 0 <= p < PitchClasses ==> v[p] == if Hits(root, steps, p) then 1 else 0
  {
    seq(PitchClasses, p requires 0 <= p => if Hits(root, steps, p) then 1 else 0)
  }

  /** `vec = [0] * 12; for step in steps: vec[(root_idx + step) % 12] = 1`. */
  method BuildTemplate(root: nat, steps: seq<nat>) returns (vec: Vector)
    ensures vec == Template(root, steps)
  {
    vec := seq(PitchClasses, p => 0);
    var i := 0;
    while i < |steps|
      invariant 0 <= i <= |steps|
      invariant vec == Template(root, steps[..i])
    {
      vec := vec[(root + steps[i]) % PitchClasses := 1];
      TemplateExtend(root, steps, i);
      i := i + 1;
    }
    assert steps[..|steps|] == steps;
  }

  /** Adding one more step to a template sets exactly that step's pitch class. */
  lemma TemplateExtend(root: nat, steps: seq<nat>, i: nat)
    requires i < |steps|
    ensures Template(root, steps[..i + 1]) == Template(root, steps[..i])[(root + steps[i]) % PitchClasses := 1]
  {
    var before := steps[..i];
    var after := steps[..i + 1];
    forall p | 0 <= p < PitchClasses
      ensures Hits(root, after, p) <==> Hits(root, before, p) || p == (root + steps[i]) % PitchClasses
    {
      if Hits(root, after, p) {
        var k :| 0 <= k < |after| && (root + after[k]) % PitchClasses == p;
        if k < i {
          assert before[k] == after[k];
        }
      }
      if Hits(root, before, p) {
        var k :| 0 <= k < |before| && (root + before[k]) % PitchClasses == p;
        assert after[k] == before[k];
      }
      if p == (root + steps[i]) % PitchClasses {
        assert after[i] == steps[i];
      }
    }
  }

  /** Every entry is 0 or 1. */
  lemma TemplateIsBinary(root: nat, steps: seq<nat>)
    ensures forall p :: 0 <= p < PitchClasses ==> Template(root, steps)[p] == 0 || Template(root, steps)[p] == 1
  {
  }

  /** The root is set whenever the steps include 0. */
  lemma RootIsSet(root: nat, steps: seq<nat>)
    requires 0 in steps
    ensures Template(root, steps)[root % PitchClasses] == 1
  {
    var k :| 0 <= k < |steps| && steps[k] == 0;
    assert (root + steps[k]) % PitchClasses == root % PitchClasses;
  }

  // ---------------------------------------------------------------------
  // Counting the ones
  // ---------------------------------------------------------------------

  /** The number of entries equal to 1. */
  function Ones(v: Vector): (n: nat)
    ensures n <= |v|
  {
    if |v| == 0 then 0 else (if v[0] == 1 then 1 else 0) + Ones(v[1..])
  }

  /** Setting a 0 entry to 1 adds one to the count. */
  lemma {:induction false} OnesUpdate(v: Vector, p: nat)
    requires p < |v| && v[p] == 0
    ensures Ones(v[p := 1]) == Ones(v) + 1
    decreases |v|
  {
    var w := v[p := 1];
    if p > 0 {
      assert w[1..] == v[1..][p - 1 := 1];
      OnesUpdate(v[1..], p - 1);
    } else {
      assert w[1..] == v[1..];
    }
  }

  function AllZero(n: nat): (v: Vector)
    ensures |v| == n && forall p :: 0 <= p < n ==> v[p] == 0
  {
    seq(n, p => 0)
  }

  lemma {:induction false} OnesOfZeros(n: nat)
    ensures Ones(AllZero(n)) == 0
    decreases n
  {
    if n > 0 {
      assert AllZero(n)[1..] == AllZero(n - 1);
      OnesOfZeros(n - 1);
    }
  }

  /** The steps land on pairwise different pitch classes. */
  predicate DistinctClasses(steps: seq<nat>) {
    forall i, j :: 0 <= i < j < |steps| ==> steps[i] % PitchClasses != steps[j] % PitchClasses
  }

  lemma ShiftKeepsDistinct(root: nat, a: nat, b: nat)
    requires a % PitchClasses != b % PitchClasses
    ensures (root + a) % PitchClasses != (root + b) % PitchClasses
  {
    var m := PitchClasses;
    assert root + a == (root + a) / m * m + (root + a) % m;
    assert root + b == (root + b) / m * m + (root + b) % m;
    assert a == a / m * m + a % m;
    assert b == b / m * m + b % m;
  }

  /** A template has as many ones as its steps reach distinct pitch classes. */
  lemma {:induction false} OnesCountSteps(root: nat, steps: seq<nat>)
    requires DistinctClasses(steps)
    ensures Ones(Template(root, steps)) == |steps|
    decreases |steps|
  {
    if |steps| == 0 {
      assert Template(root, steps) == AllZero(PitchClasses);
      OnesOfZeros(PitchClasses);
    } else {
      var i := |steps| - 1;
      var before := steps[..i];
      assert DistinctClasses(before);
      OnesCountSteps(root, before);
      var q := (root + steps[i]) % PitchClasses;
      if Hits(root, before, q) {
        var k :| 0 <= k < |before| && (root + before[k]) % PitchClasses == q;
        ShiftKeepsDistinct(root, steps[k], steps[i]);
        assert false;
      }
      TemplateExtend(root, steps, i);
      assert steps[..i + 1] == steps;
      OnesUpdate(Template(root, before), q);
    }
  }

  /** Steps below 12 that are pairwise different reach different pitch classes. */
  lemma StepsAreDistinct(steps: seq<nat>)
    requires forall j :: 0 <= j < |steps| ==> steps[j] < PitchClasses
    requires forall i, j :: 0 <= i < j < |steps| ==> steps[i] != steps[j]
    ensures DistinctClasses(steps)
  {
  }

  /** Triads have three ones, sixth and seventh chords four, ninth chords five. */
  lemma QualityOnes(root: nat, k: nat)
    requires k < |Qualities|
    ensures Ones(Template(root, Qualities[k].steps)) == |Qualities[k].steps|
    ensures |Qualities[k].steps| == if k < 2 then 3 else if k < 6 then 4 else 5
  {
    StepsAreDistinct(Qualities[k].steps);
    OnesCountSteps(root, Qualities[k].steps);
  }

  // ---------------------------------------------------------------------
  // Transposition
  // ---------------------------------------------------------------------

  lemma ModSuccessor(a: nat, p: nat)
    requires p < PitchClasses
    ensures (a + 1) % PitchClasses == p <==> a % PitchClasses == (p + PitchClasses - 1) % PitchClasses
  {
  }

  /** Raising the root by a semitone rotates the template by one place:
      entry `p` of the new template is entry `p - 1` (mod 12) of the old. */
  lemma Transpose(root: nat, steps: seq<nat>, p: nat)
    requires p < PitchClasses
    ensures Template(root + 1, steps)[p] == Template(root, steps)[(p + PitchClasses - 1) % PitchClasses]
  {
    var prev := (p + PitchClasses - 1) % PitchClasses;
    forall k | 0 <= k < |steps|
      ensures (root + 1 + steps[k]) % PitchClasses == p <==> (root + steps[k]) % PitchClasses == prev
    {
      ModSuccessor(root + steps[k], p);
    }
  }

  /** Roots are read mod 12, so the template of root 12 is that of root 0:
      transposing eleven times from C and once more wraps round to C. */
  lemma TemplateRootMod(root: nat, steps: seq<nat>)
    ensures Template(root, steps) == Template(root % PitchClasses, steps)
  {
    forall p | 0 <= p < PitchClasses ensures Hits(root, steps, p) <==> Hits(root % PitchClasses, steps, p) {
      forall k | 0 <= k < |steps|
        ensures (root + steps[k]) % PitchClasses == (root % PitchClasses + steps[k]) % PitchClasses
      {
        ModOfSum(root, steps[k]);
      }
    }
  }

  lemma ModOfSum(a: nat, b: nat)
    ensures (a + b) % PitchClasses == (a % PitchClasses + b) % PitchClasses
  {
    var m := PitchClasses;
    assert a == a / m * m + a % m;
    assert a + b == a / m * m + (a % m + b);
    ModMultiple(a / m, a % m + b);
  }

  lemma {:induction false} ModMultiple(q: nat, x: nat)
    ensures (q * PitchClasses + x) % PitchClasses == x % PitchClasses
    decreases q
  {
    if q > 0 {
      ModMultiple(q - 1, x);
      assert q * PitchClasses + x == (q - 1) * PitchClasses + x + PitchClasses;
    }
  }

  // ---------------------------------------------------------------------
  // Names
  // ---------------------------------------------------------------------

  /** `name + suffix` for root `r` and quality `k`. */
  function Name(r: nat, k: nat): string
    requires r < |NoteNames| && k < |Qualities|
  {
    NoteNames[r] + Qualities[k].suffix
  }

  /** How many leading characters of a key name the root: two when the
      second is a sharp sign, one otherwise. */
  function RootLength(s: string): nat {
    if |s| >= 2 && s[1] == '#' then 2 else 1
  }

  lemma NoteNameShapes()
    ensures forall r :: 0 <= r < |NoteNames| ==>
              (|NoteNames[r]| == 1 && NoteNames[r][0] != '#') || (|NoteNames[r]| == 2 && NoteNames[r][1] == '#')
    ensures forall k :: 0 <= k < |Qualities| ==> Qualities[k].suffix == [] || Qualities[k].suffix[0] != '#'
  {
  }

  /** A key splits back into its root and its suffix. */
  lemma NameSplits(r: nat, k: nat)
    requires r < |NoteNames| && k < |Qualities|
    ensures RootLength(Name(r, k)) == |NoteNames[r]|
    ensures Name(r, k)[..|NoteNames[r]|] == NoteNames[r]
    ensures Name(r, k)[|NoteNames[r]|..] == Qualities[k].suffix
  {
    NoteNameShapes();
  }

  lemma NoteNamesDistinct()
    ensures forall i, j :: 0 <= i < j < |NoteNames| ==> NoteNames[i] != NoteNames[j]
  {
  }

  lemma SuffixesDistinct()
    ensures forall i, j :: 0 <= i < j < |Qualities| ==> Qualities[i].suffix != Qualities[j].suffix
  {
  }

  /** No two (root, quality) pairs share a key. */
  lemma NameInjective(r1: nat, k1: nat, r2: nat, k2: nat)
    requires r1 < |NoteNames| && k1 < |Qualities|
    requires r2 < |NoteNames| && k2 < |Qualities|
    requires Name(r1, k1) == Name(r2, k2)
    ensures r1 == r2 && k1 == k2
  {
    NameSplits(r1, k1);
    NameSplits(r2, k2);
    NoteNamesDistinct();
    SuffixesDistinct();
  }

  // ---------------------------------------------------------------------
  // The dictionary
  // ---------------------------------------------------------------------

  const TemplateCount: nat := |NoteNames| * |Qualities|

  /** The key of the `i`-th assignment of `_build_chord_templates`, in loop
      order: root-major, qualities in dict order. */
  function KeyOf(i: nat): string
    requires i < TemplateCount
  {
    Name(i / |Qualities|, i % |Qualities|)
  }

  /** The template of the `i`-th assignment. */
  function ValueOf(i: nat): Vector
    requires i < TemplateCount
  {
    Template(i / |Qualities|, Qualities[i % |Qualities|].steps)
  }

  /** Different assignments use different keys, so none overwrites another. */
  lemma KeysDistinct(i: nat, j: nat)
    requires i < TemplateCount && j < TemplateCount && i != j
    ensures KeyOf(i) != KeyOf(j)
  {
    var q := |Qualities|;
    assert i == i / q * q + i % q;
    assert j == j / q * q + j % q;
    if KeyOf(i) == KeyOf(j) {
      NameInjective(i / q, i % q, j / q, j % q);
    }
  }

  /** The assignment that put `key` into the first `n`. */
  lemma PrefixKey(n: nat, key: string) returns (i: nat)
    requires n <= TemplateCount && key in Prefix(n)
    ensures i < n && key == KeyOf(i)
  {
    i :| 0 <= i < n && key == KeyOf(i);
  }

  /** The dict after the first `n` assignments. */
  function Prefix(n: nat): (m: map<string, Vector>)
    requires n <= TemplateCount
    ensures forall i :: 0 <= i < n ==> KeyOf(i) in m && m[KeyOf(i)] == ValueOf(i)
  {
    assert forall i, j :: 0 <= i < n && 0 <= j < n && KeyOf(i) == KeyOf(j) ==> i == j by {
      forall i, j | 0 <= i < n && 0 <= j < n && i != j ensures KeyOf(i) != KeyOf(j) {
        KeysDistinct(i, j);
      }
    }
    map i | 0 <= i < n :: KeyOf(i) := ValueOf(i)
  }

  /** `_build_chord_templates()`: all 108 assignments. */
  function ChordTemplateMap(): map<string, Vector> {
    Prefix(TemplateCount)
  }

  /** The key of the next assignment is not yet in the dict. */
  lemma PrefixFresh(n: nat)
    requires n < TemplateCount
    ensures KeyOf(n) !in Prefix(n)
  {
    if KeyOf(n) in Prefix(n) {
      var i :| 0 <= i < n && KeyOf(n) == KeyOf(i);
      KeysDistinct(i, n);
    }
  }

  /** An entry after the next assignment is that assignment or an earlier
      entry. */
  lemma PrefixStepEntry(n: nat, key: string)
    requires n < TemplateCount && key in Prefix(n + 1)
    ensures key in Prefix(n)[KeyOf(n) := ValueOf(n)]
    ensures Prefix(n + 1)[key] == Prefix(n)[KeyOf(n) := ValueOf(n)][key]
  {
    var i :| 0 <= i < n + 1 && key == KeyOf(i);
    if i < n {
      KeysDistinct(i, n);
      assert Prefix(n)[KeyOf(i)] == ValueOf(i);
    }
  }

  /** An earlier entry survives the next assignment. */
  lemma PrefixKeepsEntry(n: nat, key: string)
    requires n < TemplateCount && key in Prefix(n)
    ensures key in Prefix(n + 1)
  {
    var i :| 0 <= i < n && key == KeyOf(i);
    assert Prefix(n + 1)[KeyOf(i)] == ValueOf(i);
  }

  /** One more assignment adds exactly one new key. */
  lemma PrefixStep(n: nat)
    requires n < TemplateCount
    ensures Prefix(n + 1) == Prefix(n)[KeyOf(n) := ValueOf(n)]
    ensures KeyOf(n) !in Prefix(n)
  {
    PrefixFresh(n);
    var after := Prefix(n + 1);
    var updated := Prefix(n)[KeyOf(n) := ValueOf(n)];
    forall key | key in after ensures key in updated && after[key] == updated[key] {
      PrefixStepEntry(n, key);
    }
    forall key | key in Prefix(n) ensures key in after {
      PrefixKeepsEntry(n, key);
    }
    assert KeyOf(n) in after;
    assert after.Keys == updated.Keys;
  }

  lemma PrefixEmpty()
    ensures |Prefix(0)| == 0
  {
    assert Prefix(0) == map[];
  }

  lemma {:induction false} PrefixSize(n: nat)
    requires n <= TemplateCount
    ensures |Prefix(n)| == n
    decreases n
  {
    if n == 0 {
      PrefixEmpty();
    } else {
      PrefixSize(n - 1);
      PrefixStep(n - 1);
      var m := Prefix(n - 1);
      assert |m[KeyOf(n - 1) := ValueOf(n - 1)]| == |m| + 1;
    }
  }

  /** Assigning root `r` and quality `k` is the next assignment in loop order. */
  lemma BuildStep(r: nat, k: nat, n: nat, before: map<string, Vector>, vec: Vector)
    requires r < |NoteNames| && k < |Qualities| && n == r * |Qualities| + k
    requires before == Prefix(n)
    requires vec == Template(r, Qualities[k].steps)
    ensures n < TemplateCount
    ensures before[Name(r, k) := vec] == Prefix(n + 1)
  {
    assert n / |Qualities| == r && n % |Qualities| == k;
    assert KeyOf(n) == Name(r, k) && ValueOf(n) == vec;
    PrefixStep(n);
  }

  /** The nested loops of `_build_chord_templates`. */
  method BuildChordTemplates() returns (templates: map<string, Vector>)
    ensures templates == ChordTemplateMap()
  {
    templates := map[];
    assert templates == Prefix(0);
    var r, n := 0, 0;
    while r < |NoteNames|
      invariant 0 <= r <= |NoteNames| && n == r * |Qualities|
      invariant templates == Prefix(n)
    {
      templates := AddRoot(templates, r, n);
      r, n := r + 1, n + |Qualities|;
    }
  }

  /** The inner loop for root `r`, entered after `n` assignments: one
      assignment per quality, in dict order. */
  method AddRoot(before: map<string, Vector>, r: nat, n: nat) returns (templates: map<string, Vector>)
    requires r < |NoteNames| && n == r * |Qualities|
    requires before == Prefix(n)
    ensures templates == Prefix(n + |Qualities|)
  {
    templates := before;
    var k, m := 0, n;
    while k < |Qualities|
      invariant 0 <= k <= |Qualities| && m == n + k
      invariant templates == Prefix(m)
    {
      templates := AddQuality(templates, r, k, m);
      k, m := k + 1, m + 1;
    }
  }

  /** One assignment `templates[NOTE_NAMES[r] + suffix] = vec`, the `n`-th. */
  method AddQuality(before: map<string, Vector>, r: nat, k: nat, n: nat) returns (templates: map<string, Vector>)
    requires r < |NoteNames| && k < |Qualities| && n == r * |Qualities| + k
    requires before == Prefix(n)
    ensures templates == Prefix(n + 1)
  {
    var vec := BuildTemplate(r, Qualities[k].steps);
    BuildStep(r, k, n, before, vec);
    templates := before[Name(r, k) := vec];
  }

  /** The template keyed `NOTE_NAMES[r] + suffix` is the template of root
      `r` and that suffix's steps. */
  lemma ChordTemplateMapContents(r: nat, k: nat)
    requires r < |NoteNames| && k < |Qualities|
    ensures Name(r, k) in ChordTemplateMap()
    ensures ChordTemplateMap()[Name(r, k)] == Template(r, Qualities[k].steps)
  {
    var i := r * |Qualities| + k;
    assert i / |Qualities| == r && i % |Qualities| == k;
    assert KeyOf(i) == Name(r, k);
  }

  /** Every interval list of `CHORD_INTERVALS` starts at the root. */
  lemma QualityHasRoot(k: nat)
    requires k < |Qualities|
    ensures |Qualities[k].steps| > 0 && Qualities[k].steps[0] == 0
    ensures 0 in Qualities[k].steps
  {
    assert Qualities[k].steps[0] == 0;
  }

  /** The template of any root and any quality of the table has the root's
      pitch class set. */
  lemma QualityTemplateHasRoot(r: nat, k: nat)
    requires r < PitchClasses && k < |Qualities|
    ensures Template(r, Qualities[k].steps)[r] == 1
  {
    QualityHasRoot(k);
    RootIsSet(r, Qualities[k].steps);
    assert r % PitchClasses == r;
  }

  /** Every template in the dictionary has its root's pitch class set. */
  lemma EveryTemplateHasRoot(r: nat, k: nat)
    requires r < |NoteNames| && k < |Qualities|
    ensures Name(r, k) in ChordTemplateMap()
    ensures ChordTemplateMap()[Name(r, k)][r] == 1
  {
    ChordTemplateMapContents(r, k);
    QualityTemplateHasRoot(r, k);
  }

  /** Every key of the dictionary names a root whose pitch class is set in
      that key's template. */
  lemma EveryKeyHasRoot(name: string)
    requires name in ChordTemplateMap()
    ensures exists r, k :: 0 <= r < |NoteNames| && 0 <= k < |Qualities| && name == Name(r, k)
                           && ChordTemplateMap()[name][r] == 1
  {
    ChordTemplateKeys(name);
    var r, k :| 0 <= r < |NoteNames| && 0 <= k < |Qualities| && name == Name(r, k);
    EveryTemplateHasRoot(r, k);
  }

  /** There are 12 x 9 = 108 templates: no key is assigned twice. */
  lemma ChordTemplateMapSize()
    ensures |ChordTemplateMap()| == 108
  {
    assert TemplateCount == 108;
    PrefixSize(108);
    assert ChordTemplateMap() == Prefix(108);
  }

  /** Every key of the map is some root name followed by some suffix. */
  lemma ChordTemplateKeys(name: string)
    requires name in ChordTemplateMap()
    ensures exists r, k :: 0 <= r < |NoteNames| && 0 <= k < |Qualities| && name == Name(r, k)
  {
    assert ChordTemplateMap() == Prefix(TemplateCount);
    var i := PrefixKey(TemplateCount, name);
    var r, k := i / |Qualities|, i % |Qualities|;
    RootOfIndex(i);
    assert r < |NoteNames| && k < |Qualities| && name == Name(r, k);
  }

  /** The `i`-th assignment's root is one of the note names. */
  lemma RootOfIndex(i: nat)
    requires i < TemplateCount
    ensures i / |Qualities| < |NoteNames|
  {
    var q := |Qualities|;
    assert i == i / q * q + i % q;
  }
}

/** The numpy twin of the template builder in music_analysis.py: its own
    copies of the note and interval tables, and templates as float vectors
    filled by one fancy-indexed assignment. */
module NumpyTemplates {
  import ChordTemplates

  /** music_analysis.py's `NOTE_NAMES`. */
  const NoteNames: seq<string> := ["C", "C#", "D", "D#", "E", "F", "F#", "G", "G#", "A", "A#", "B"]

  /** music_analysis.py's `CHORD_INTERVALS`, in dict order. */
  const Qualities: seq<ChordTemplates.Quality> := [
    ChordTemplates.Quality("", [0, 4, 7]),
    ChordTemplates.Quality("m", [0, 3, 7]),
    ChordTemplates.Quality("6", [0, 4, 7, 9]),
    ChordTemplates.Quality("maj7", [0, 4, 7, 11]),
    ChordTemplates.Quality("7", [0, 4, 7, 10]),
    ChordTemplates.Quality("m7", [0, 3, 7, 10]),
    ChordTemplates.Quality("maj9", [0, 4, 7, 11, 2]),
    ChordTemplates.Quality("9", [0, 4, 7, 10, 2]),
    ChordTemplates.Quality("m9", [0, 3, 7, 10, 2])
  ]

  type FloatVector = seq<real>

  /** The two modules carry the same tables. */
  lemma TablesAgree()
    ensures NoteNames == ChordTemplates.NoteNames
    ensures Qualities == ChordTemplates.Qualities
  {
  }

  /** `(i + np.array(steps)) % 12`. */
  function IndexArray(i: nat, steps: seq<nat>): (idx: seq<nat>)
    ensures |idx| == |steps|
    ensures forall j :: 0 <= j < |idx| ==> idx[j] < 12
  {
    seq(|steps|, j requires 0 <= j < |steps| => (i + steps[j]) % 12)
  }

  /** `vec[idx] = value`: every position listed in `idx` receives `value`;
      repeated positions are harmless since they all receive the same value. */
  function FancyAssign(vec: FloatVector, idx: seq<nat>, value: real): (r: FloatVector)
    requires forall j :: 0 <= j < |idx| ==> idx[j] < |vec|
    ensures |r| == |vec|
  {
    seq(|vec|, p requires 0 <= p < |vec| => if p in idx then value else vec[p])
  }

  /** The fancy-indexed assignment is the same as assigning the listed
      positions one after the other. */
  lemma {:induction false} FancyAssignSequential(vec: FloatVector, idx: seq<nat>, value: real)
    requires forall j :: 0 <= j < |idx| ==> idx[j] < |vec|
    ensures |idx| > 0 ==>
              FancyAssign(vec, idx, value) == FancyAssign(vec, idx[..|idx| - 1], value)[idx[|idx| - 1] := value]
    ensures |idx| == 0 ==> FancyAssign(vec, idx, value) == vec
  {
    if |idx| > 0 {
      var n := |idx| - 1;
      var before := idx[..n];
      forall p | 0 <= p < |vec| ensures p in idx <==> p in before || p == idx[n] {
        assert idx == before + [idx[n]];
      }
    }
  }

  /** `vec = np.zeros(12); vec[(i + np.array(steps)) % 12] = 1`. */
  function NpTemplate(i: nat, steps: seq<nat>): (v: FloatVector)
    ensures |v| == 12
  {
    FancyAssign(seq(12, p => 0.0), IndexArray(i, steps), 1.0)
  }

  /** The float template is the chords.py template, entry for entry. */
  lemma NpTemplateMatches(i: nat, steps: seq<nat>)
    ensures forall p :: 0 <= p < 12 ==> NpTemplate(i, steps)[p] == ChordTemplates.Template(i, steps)[p] as real
  {
    var idx := IndexArray(i, steps);
    forall p | 0 <= p < 12 ensures p in idx <==> ChordTemplates.Hits(i, steps, p) {
      if p in idx {
        var j :| 0 <= j < |idx| && idx[j] == p;
        assert (i + steps[j]) % ChordTemplates.PitchClasses == p;
      }
      if ChordTemplates.Hits(i, steps, p) {
        var k :| 0 <= k < |steps| && (i + steps[k]) % ChordTemplates.PitchClasses == p;
        assert idx[k] == p;
      }
    }
  }

  const TemplateCount: nat := |NoteNames| * |Qualities|

  function NpKey(n: nat): string
    requires n < TemplateCount
  {
    NoteNames[n / |Qualities|] + Qualities[n % |Qualities|].suffix
  }

  function NpValue(n: nat): FloatVector
    requires n < TemplateCount
  {
    NpTemplate(n / |Qualities|, Qualities[n % |Qualities|].steps)
  }

  lemma NpKeyIsKey(n: nat)
    requires n < TemplateCount
    ensures n < ChordTemplates.TemplateCount && NpKey(n) == ChordTemplates.KeyOf(n)
  {
    TablesAgree();
  }

  /** The numpy dict after the first `n` assignments. */
  function NpPrefix(n: nat): (m: map<string, FloatVector>)
    requires n <= TemplateCount
    ensures forall i :: 0 <= i < n ==> NpKey(i) in m && m[NpKey(i)] == NpValue(i)
  {
    assert forall a, b :: 0 <= a < n && 0 <= b < n && NpKey(a) == NpKey(b) ==> a == b by {
      forall a, b | 0 <= a < n && 0 <= b < n && a != b ensures NpKey(a) != NpKey(b) {
        NpKeyIsKey(a);
        NpKeyIsKey(b);
        ChordTemplates.KeysDistinct(a, b);
      }
    }
    map i | 0 <= i < n :: NpKey(i) := NpValue(i)
  }

  /** `_build_templates()`: all 108 assignments; no key repeats, so the
      loop's dict holds every one of them. */
  function NpTemplateMap(): map<string, FloatVector> {
    NpPrefix(TemplateCount)
  }

  /** The assignment that put `key` into the numpy dict. */
  lemma NpKeyIndex(key: string) returns (n: nat)
    requires key in NpTemplateMap()
    ensures n < TemplateCount && key == NpKey(n)
    ensures NpTemplateMap()[key] == NpValue(n)
  {
    assert TemplateCount == 108;
    assert NpTemplateMap() == NpPrefix(108);
    n := NpPrefixKey(108, key);
  }

  lemma NpPrefixKey(m: nat, key: string) returns (n: nat)
    requires m <= TemplateCount && key in NpPrefix(m)
    ensures n < m && key == NpKey(n)
    ensures NpPrefix(m)[key] == NpValue(n)
  {
    n :| 0 <= n < m && key == NpKey(n);
  }

  /** Both builders produce the same keys. */
  lemma SameKeys(key: string)
    ensures key in NpTemplateMap() <==> key in ChordTemplates.ChordTemplateMap()
  {
    if key in NpTemplateMap() {
      NpKeyInChordMap(key);
    }
    if key in ChordTemplates.ChordTemplateMap() {
      ChordKeyInNpMap(key);
    }
  }

  lemma NpKeyInChordMap(key: string)
    requires key in NpTemplateMap()
    ensures key in ChordTemplates.ChordTemplateMap()
  {
    var n := NpKeyIndex(key);
    NpKeyIsKey(n);
    assert ChordTemplates.TemplateCount == 108;
    assert ChordTemplates.ChordTemplateMap() == ChordTemplates.Prefix(108);
  }

  lemma ChordKeyInNpMap(key: string)
    requires key in ChordTemplates.ChordTemplateMap()
    ensures key in NpTemplateMap()
  {
    assert ChordTemplates.TemplateCount == 108;
    assert ChordTemplates.ChordTemplateMap() == ChordTemplates.Prefix(108);
    var n := ChordTemplates.PrefixKey(108, key);
    assert TemplateCount == 108;
    NpKeyIsKey(n);
    assert NpTemplateMap() == NpPrefix(108);
  }

  lemma ChordEntry(n: nat)
    requires n < ChordTemplates.TemplateCount
    ensures ChordTemplates.KeyOf(n) in ChordTemplates.ChordTemplateMap()
    ensures ChordTemplates.ChordTemplateMap()[ChordTemplates.KeyOf(n)] == ChordTemplates.ValueOf(n)
  {
    assert ChordTemplates.TemplateCount == 108;
    assert ChordTemplates.ChordTemplateMap() == ChordTemplates.Prefix(108);
  }

  lemma NpValueMatches(n: nat)
    requires n < TemplateCount
    ensures n < ChordTemplates.TemplateCount
    ensures forall p :: 0 <= p < 12 ==> NpValue(n)[p] == ChordTemplates.ValueOf(n)[p] as real
  {
    var r := n / |Qualities|;
    var k := n % |Qualities|;
    assert r == n / |ChordTemplates.Qualities| && k == n % |ChordTemplates.Qualities|;
    assert Qualities[k] == ChordTemplates.Qualities[k];
    NpTemplateMatches(r, Qualities[k].steps);
  }

  /** Each float template equals the integer template under the same key. */
  lemma SameTemplates(key: string)
    requires key in NpTemplateMap()
    ensures key in ChordTemplates.ChordTemplateMap()
    ensures forall p :: 0 <= p < 12 ==>
              NpTemplateMap()[key][p] == ChordTemplates.ChordTemplateMap()[key][p] as real
  {
    NpKeyInChordMap(key);
    var n := NpKeyIndex(key);
    NpKeyIsKey(n);
    ChordEntry(n);
    NpValueMatches(n);
  }
}
