# Ultimate Chord Reader: a Dafny model of its core

Ultimate Chord Reader turns a song into a one-line-per-bar chord chart with
lyrics. It separates the song into stems, detects the beats and the tempo,
recognises chords against binary chroma templates and transcribes the lyrics.
This project models the deterministic core of that pipeline as pure Dafny
functions and proves properties about them. The core consists of:

- **the chart formatter** `format_chart` (module `Chart`, with the two test
  charts in `ChartExamples`). It groups the beats four to a bar. It snaps every
  chord onset and lyric start to the bar of its nearest beat, but only when
  that beat is strictly within 0.10 s. Each bar keeps at most three chord
  labels, with no adjacent repeats. Each bar is rendered as
  `chords<TAB>lyrics` under a fixed header.
- **the tempo tail** of `get_bpm_from_drums` (module `Tempo`). It rejects
  fewer than two beats. It then computes 60 over the median inter-beat
  interval and folds that into [60, 160] by halving or doubling.
- **the two chord-template builders**: `_build_chord_templates` in chords.py
  (module `ChordTemplates`) and its numpy twin `_build_templates` in
  music_analysis.py (module `NumpyTemplates`). Each builds 108 pitch-class
  vectors keyed by root name plus quality suffix.
- **the stem pickers** for the Demucs output (`DemucsStems`) and for Ultimate
  Vocal Remover (`UvrStems`).
- **the decision table** `separate_and_score` with `compare_stems`
  (`SeparationManager`).

`Text` models the Python string operations these use: `rstrip`, `join`,
`lower`, `startswith` and `in`. `Split` on '\n' is the basis of
`SplitLines`, which models the `splitlines()` the tests apply to the chart. `Wrappers` holds
`Option` and `Result`: `None` and raised exceptions become `None` and `Err`
values.

Timestamps, BPM values and RMS levels are exact `real`s. File paths are
strings, or positions in the enumeration order the directory walk produced.
A path's final component (`Path.name`) is the text after its last '/', and
a stem is taken from that component only, so directory names never match.

Some behaviours of the code that the model keeps:

- **Snapping tolerance.** An onset exactly 0.10 s from its nearest beat is
  dropped, because the comparison is strict.
- **Carry-over.** A bar shows only the chords whose onsets snap into it. A
  chord still sounding from the previous bar is not repeated, so the first
  label of a bar is the first chord snapped into it.
- **Lyric timing.** Lyric starts are snapped exactly like chord onsets, with
  the same 0.10 s tolerance.
- **Bar length.** A bar is always four beats. The time signature only
  appears in the header.
- **Bar range.** The bar lines run from bar 0 to the bar of the last beat.
- **Tempo.** The tempo is 60 over the median inter-beat interval, folded by
  octaves. No interval is discarded as an outlier.

## Model

| member | source | states |
|---|---|---|
| Chart.BeatGrid | ultimate_chord_reader.py:143 | a missing or empty beat list becomes the single beat 0.0, any other list is used as given, so the grid is never empty |
| Chart.NearestBeat | ultimate_chord_reader.py:148 | the chosen beat is no farther from the time than any beat and strictly nearer than every earlier beat (`min` keeps the first of equally near beats) |
| Chart.NearestIsUnique | ultimate_chord_reader.py:148 | at most one beat index satisfies the nearest-beat rule, so the snapped bar is determined |
| Chart.SnapToBar | ultimate_chord_reader.py:147-149 | the result is the bar (index div 4) of the nearest beat when that beat lies strictly within 0.10 s of the time, and None otherwise |
| Chart.SnapToBarMeaning | ultimate_chord_reader.py:147-149 | a time snaps iff some beat, not only the nearest, lies strictly within 0.10 s of it, and the bar it snaps to is one of the rendered bars |
| Chart.AdmitAll | ultimate_chord_reader.py:154-158 | a bar's chord list holds at most MAX_CHANGES_PER_BAR + 1 = 3 labels, is empty iff no chord snapped to the bar, and never has two equal neighbours |
| Chart.AdmitAllIsFirstDistinct | ultimate_chord_reader.py:154-158 | a bar shows exactly the first three of its snapped chord names once immediate repeats are removed, so a name that differs from the last label is always added while the bar holds fewer than three |
| Chart.AdmitGrows | ultimate_chord_reader.py:156-158 | one chord either leaves the bar's list unchanged or appends exactly its name |
| Chart.AdmitAllIsSubsequence | ultimate_chord_reader.py:154-158 | a bar's chord list is a subsequence, in input order, of the chord names snapped to that bar |
| Chart.AdmitAllKeepsFirst | ultimate_chord_reader.py:156-158 | the first chord snapped to a bar is always shown, in first place |
| Chart.AdmitAllSaturates | ultimate_chord_reader.py:157-158 | once a bar holds three labels, further chords snapped to it change nothing |
| Chart.AdmitAllKeepsShortRuns | ultimate_chord_reader.py:156-158 | up to three snapped names without adjacent repeats are shown exactly as given |
| Chart.AdmitAllFrom | ultimate_chord_reader.py:158 | every shown label is one of the names snapped to the bar |
| Chart.ChordTableByBar | ultimate_chord_reader.py:151-158 | the dictionary built by the chord loop holds, for every bar, exactly the admission of the chords snapped to that bar in input order; chords of other bars never touch it |
| Chart.LyricTableByBar | ultimate_chord_reader.py:152-163 | the dictionary built by the lyric loop holds, for every bar, exactly the texts of the segments snapped to it, in input order |
| Chart.ChordsOnlyWhereSnapped | ultimate_chord_reader.py:154-158 | no carry-over: a bar's chord list is empty iff no chord onset snapped to that bar |
| Chart.LyricsPartitioned | ultimate_chord_reader.py:160-177 | the rendered bars' lyric lists together hold every snapped lyric text exactly once and no unsnapped one (multiset equality) |
| Chart.BarLines | ultimate_chord_reader.py:143-177 | there are (len(beats) - 1) div 4 + 1 bar lines, and line b renders the admitted chords and the lyric texts snapped to bar b |
| Chart.BarLineShapes | ultimate_chord_reader.py:175 | a bar with neither chords nor lyrics renders as ""; a bar without lyrics renders as its stripped labels; a lyric column ending in a visible character stays whole after the tab |
| Chart.RStripThroughBlanks | ultimate_chord_reader.py:175 | right-stripping ignores any trailing run of whitespace |
| Chart.BarLineHasNoNewline | ultimate_chord_reader.py:175 | a bar line holds no newline when none of its labels and texts does |
| Chart.BarLinesHaveNoNewline | ultimate_chord_reader.py:174-177 | when no chord name or lyric text holds a newline, no bar line does |
| Chart.FormatChartLines | ultimate_chord_reader.py:135-178 | when no chord name or lyric text holds a newline, splitting the chart at newlines gives the header's lines followed by exactly the bar lines, one per bar |
| Chart.ChartEndsWith | ultimate_chord_reader.py:174-178 | when the bar lines are some lines plus a final empty one, the chart's `splitlines()` ends with exactly those lines |
| Chart.DisclaimerStripped | ultimate_chord_reader.py:166 | the header's first entry is `DISCLAIMER` (lines 81-85) with only its final newline stripped |
| ChartExamples.BasicMerge | tests/test_basic.py:15-34 | the first test's beats, chords and lyrics render as exactly the bar lines "C G\thello world" and "" |
| ChartExamples.BasicLastLine | tests/test_basic.py:15-36 | whatever the header texts, the first test's chart split into lines ends with "C G\thello world" |
| ChartExamples.NoCarryOver | tests/test_basic.py:39-57 | the second test's inputs render as exactly the bar lines "C\tfoo", "\tbar" and "": no chord is carried into the second bar |
| ChartExamples.CarryLastLines | tests/test_basic.py:39-61 | whatever the header texts, the second test's chart split into lines ends with "C\tfoo" then "\tbar"; the trailing empty bar line is dropped by `splitlines()` |
| ChartExamples.LastOfTwoBars | ultimate_chord_reader.py:174-178 | a chart whose bar lines are one line and an empty one has that line as its last line |
| ChartExamples.LastOfThreeBars | ultimate_chord_reader.py:174-178 | a chart whose bar lines are two lines and an empty one ends with those two lines |
| ChartExamples.ToleranceIsStrict | ultimate_chord_reader.py:149 | an onset at 0.1 against the beat at 0.0, exactly the tolerance away, is dropped; one at 0.09 is kept in bar 0 |
| ChartExamples.TieGoesToEarlierBeat | ultimate_chord_reader.py:148 | 0.8125, equally near the beats 0.75 (bar 0) and 0.875 (bar 1), goes to the earlier bar |
| ChartExamples.FiveChordsShowThree | ultimate_chord_reader.py:157-158 | five distinct chords in one bar show only the first three |
| ChartExamples.RepeatsCollapse | ultimate_chord_reader.py:156 | a repeated chord is collapsed, but the same chord after a change is shown again |
| Text.RStrip | ultimate_chord_reader.py:175 | the result is the longest prefix of the text not ending in whitespace: everything removed is whitespace |
| Text.JoinSplit | ultimate_chord_reader.py:178 | joining the pieces of a split with the separator gives the text back |
| Text.SplitJoin | ultimate_chord_reader.py:178 | splitting a join recovers the pieces when none of them holds the separator |
| Text.SplitLinesDropsLast | tests/test_basic.py:35 | `splitlines()` drops exactly the empty piece after a final newline |
| Tempo.Diffs | bpm_drums.py:92 | `np.diff`: one fewer element than the beats, element i is beat i+1 minus beat i |
| Tempo.IncreasingIffGapsPositive | bpm_drums.py:92 | the beat times are strictly increasing iff every inter-beat difference is positive |
| Tempo.Sort | bpm_drums.py:93 | the sorted copy that the median is read from is ordered and a permutation of the input |
| Tempo.SortedUnique | bpm_drums.py:93 | two ordered permutations of the same values are equal, so the median does not depend on how the values were sorted |
| Tempo.Median | bpm_drums.py:93 | `np.median` lies between the smallest and the largest difference |
| Tempo.Middle | bpm_drums.py:93 | the result lies between the two middle elements of the sorted differences (one and the same element for an odd count); the body takes the middle element or, for an even count, the average of the two, as `np.median` does |
| Tempo.MedianBounds | bpm_drums.py:93 | any bounds on all differences bound the median |
| Tempo.MedianPermutationInvariant | bpm_drums.py:93 | reordering the differences does not change the median |
| Tempo.RawBpm | bpm_drums.py:93 | the raw BPM is positive and times the median interval gives 60 s |
| Tempo.HalveInto | bpm_drums.py:95-96 | halving leaves a value of at most 160 unchanged and brings a larger one into (80, 160] |
| Tempo.DoubleInto | bpm_drums.py:97-98 | doubling leaves a value of at least 60 unchanged and brings a smaller positive one into [60, 120) |
| Tempo.OctaveFold | bpm_drums.py:95-98 | any positive BPM folds into [60, 160], and a BPM already there is unchanged |
| Tempo.FoldIdempotent | bpm_drums.py:95-98 | folding twice equals folding once |
| Tempo.HalvingIsOctaveShift | bpm_drums.py:95-96 | the halving loop divides by 2^n, with n >= 1 iff the BPM exceeds 160 |
| Tempo.DoublingIsOctaveShift | bpm_drums.py:97-98 | the doubling loop multiplies by 2^n, with n >= 1 iff the BPM is below 60 |
| Tempo.FoldIsOctaveShift | bpm_drums.py:95-98 | above 160 the result is raw / 2^n and below 60 raw × 2^n for some n >= 1: only halvings or only doublings occur |
| Tempo.FoldIntoWindow | bpm_drums.py:95-98 | the two while loops terminate and compute the octave fold, which lies in [60, 160] |
| Tempo.GetBpm | bpm_drums.py:88-100 | the result is an error iff there are fewer than two beats or the median interval is zero; otherwise it is the folded 60 / median, in [60, 160], returned with the beat list unchanged |
| Tempo.IncreasingBeatsGiveTempo | bpm_drums.py:88-93 | strictly increasing beat times give a positive median interval, so the computation succeeds |
| ChordTemplates.Template | chords.py:43-45 | a template has 12 entries, and entry p is 1 iff p ≡ root + step (mod 12) for some step of the quality, otherwise 0 |
| ChordTemplates.BuildTemplate | chords.py:43-45 | the loop that sets `vec[(root_idx + step) % 12] = 1` step by step builds that template |
| ChordTemplates.TemplateExtend | chords.py:44-45 | setting one more step's pitch class extends the template of the earlier steps |
| ChordTemplates.TemplateIsBinary | chords.py:43-45 | every entry is 0 or 1 |
| ChordTemplates.RootIsSet | chords.py:25-45 | when the interval list contains 0, the root's pitch class is set |
| ChordTemplates.QualityHasRoot | chords.py:25-35 | every interval list of the table starts with 0, the root |
| ChordTemplates.QualityTemplateHasRoot | chords.py:41-45 | for every root and every quality of the table, the template has the root's pitch class set |
| ChordTemplates.EveryTemplateHasRoot | chords.py:41-46 | every (root, quality) key is in the dictionary and its template has the root's pitch class set |
| ChordTemplates.EveryKeyHasRoot | chords.py:41-46 | every key of the dictionary names a root whose pitch class is set in that key's template |
| ChordTemplates.OnesCountSteps | chords.py:44-45 | intervals that are distinct mod 12 set exactly as many entries as there are intervals |
| ChordTemplates.QualityOnes | chords.py:25-45 | each template has 3 ones for triads, 4 for sixth and seventh chords and 5 for ninth chords |
| ChordTemplates.Transpose | chords.py:41-45 | the template for root r+1 is the template for root r rotated by one pitch class |
| ChordTemplates.TemplateRootMod | chords.py:45 | only the root's pitch class mod 12 matters |
| ChordTemplates.NameSplits | chords.py:46 | every key splits back into its note name and its suffix |
| ChordTemplates.NameInjective | chords.py:41-46 | no two (root, suffix) pairs give the same key |
| ChordTemplates.KeysDistinct | chords.py:41-46 | the 108 keys written in loop order are pairwise distinct, so no entry overwrites another |
| ChordTemplates.PrefixSize | chords.py:40-46 | after n insertions the dictionary holds exactly n entries |
| ChordTemplates.BuildChordTemplates | chords.py:38-47 | the nested loops build the dictionary of every (root, quality) key mapped to its template |
| ChordTemplates.AddRoot | chords.py:42-46 | one pass of the inner loop adds the nine templates of one root |
| ChordTemplates.ChordTemplateMapContents | chords.py:41-46 | the dictionary maps NOTE_NAMES[r] + suffix to the template of root r and that quality's intervals |
| ChordTemplates.ChordTemplateMapSize | chords.py:10-46 | the dictionary has exactly 12 × 9 = 108 entries |
| ChordTemplates.ChordTemplateKeys | chords.py:41-46 | every key is some note name followed by some suffix |
| NumpyTemplates.TablesAgree | music_analysis.py:17-28 | the note names and the interval lists are those of chords.py, in the same order |
| NumpyTemplates.IndexArray | music_analysis.py:35 | `(i + np.array(steps)) % 12` has one index per step, each below 12 |
| NumpyTemplates.FancyAssignSequential | music_analysis.py:35 | fancy-index assignment of one value equals assigning the indices one after another |
| NumpyTemplates.NpTemplateMatches | music_analysis.py:34-35 | the float template agrees entry by entry with the chords.py integer template |
| NumpyTemplates.SameKeys | music_analysis.py:30-37 | a name is a key of the numpy dictionary iff it is a key of the chords.py dictionary |
| NumpyTemplates.SameTemplates | music_analysis.py:30-37 | for every key the two builders' vectors agree entry by entry |
| DemucsStems.FindVocal | models/demucs_loader.py:125 | the vocal stem is the first file whose lowercased name starts with "vocals", and None iff there is none |
| DemucsStems.FindInst | models/demucs_loader.py:126-130 | the instrumental candidate is the first file other than the vocal whose lowercased name contains "no_vocals" or "accompaniment", and None iff there is none |
| DemucsStems.PickStems | models/demucs_loader.py:121-139 | no wav files is its own error; success picks two distinct files, the first vocal and the first candidate (or, among exactly two files, the other one); the stems-missing error occurs exactly when neither rule resolves both |
| DemucsStems.PickStemsMeaning | models/demucs_loader.py:125-133 | on success the vocal is vocal-named with none before it, and the instrumental is accompaniment-named with none before it, or is the other of exactly two files |
| DemucsStems.TwoStemsEitherOrder | models/demucs_loader.py:125-133 | "vocals.wav" and "no_vocals.wav" are picked correctly in either enumeration order |
| UvrStems.PathName | models/mvsep_loader.py:21 | `Path.name`: the final component holds no '/', is a suffix of the path, and is preceded by a '/' whenever it is shorter than the path |
| UvrStems.PathStem | models/mvsep_loader.py:21 | `Path.stem`: of the final component (`Path.name`), the part before the last dot, with no dot after that one, exactly when that dot is neither the component's first nor its last character; otherwise the whole component |
| UvrStems.NameAfterSlash | models/mvsep_loader.py:21 | the final component is what follows the last '/' |
| UvrStems.StemOfBareName | models/mvsep_loader.py:21 | for a name without '/', the stem ends at the last dot when that dot is neither first nor last |
| UvrStems.FindStem | models/mvsep_loader.py:19-23 | the result is the first file whose stem contains the key case-insensitively, and None iff there is none |
| UvrStems.Executable | models/mvsep_loader.py:31-32 | there is no usable path (`not uvr_exe`) exactly when neither `UVR_PY` nor the `which` lookup gives a non-empty one; `UVR_PY` wins when set and non-empty, and a path always comes from one of the two |
| UvrStems.RunUvr | models/mvsep_loader.py:26-56 | executable-not-found iff no executable path exists; execution-failed iff the run fails; stems-missing iff no "vocals" or no "instrumental" stem was written; on success the stems match those keys |
| UvrStems.SubstringMatch | models/mvsep_loader.py:21 | matching is by substring: "x_no_vocals" matches the key "vocals" and wins when listed first |
| UvrStems.DirectoriesIgnored | models/mvsep_loader.py:21 | only the final component is matched: "vocals/s.wav" does not match "vocals", so "s_vocals.wav" listed after it is chosen |
| UvrStems.MatchInBareName | models/mvsep_loader.py:21 | a lower-case key occurring before the last dot of a lower-case bare name makes it match |
| UvrStems.FindStemOfTwo | models/mvsep_loader.py:20-23 | between two outputs where one matches, the first match is chosen |
| SeparationManager.Max3 | models/separation_manager.py:33 | `max` of three values is one of them and no smaller than any |
| SeparationManager.CompareStems | models/separation_manager.py:27-33 | the similarity is 0.0 when either file is missing |
| SeparationManager.CompareStemsRange | models/separation_manager.py:27-33 | for non-negative RMS levels the similarity lies in [0, 1], is symmetric, and is 1 iff the levels are equal |
| SeparationManager.Score | models/separation_manager.py:53-56 | the score is 0.0 unless both instrumental stems are present |
| SeparationManager.SeparateAndScore | models/separation_manager.py:36-68 | an error iff both methods failed; Demucs missing gives the UVR stems with confidence 0.0; otherwise the confidence is the score, with UVR chosen iff it succeeded and the score is at least 0.5 |
| SeparationManager.SeparationSound | models/separation_manager.py:53-68 | with non-negative levels the confidence always lies in [0, 1] and the chosen stems come from a method that succeeded |

## Left out

- Process setup is not modelled: environment and PATH patching, ffmpeg linking and dependency installation. These are side effects on the running process.
- File I/O is not modelled: secure deletion, the `process_file` pipeline, the interactive CLI, copying stems to a stable place and temporary directories. They hold no logic beyond sequencing.
- The BPM fallback chain in `process_file` is not modelled. It only sequences external detectors.
- The signature-reflection shims `run_separation` and `safe_analyze` are not modelled. They adapt calls to external functions.
- Chart.FormatChart: the `{bpm:.1f}` and `{confidence:.1f}` renderings are taken as given strings (`bpmText`, `confidenceText`), because floating-point formatting is out of scope. The numpy `ndarray` squeeze of `bpm` goes with them.
- The confidence average over `exp` of the log-probabilities is not modelled. It is floating-point numerics outside the formatter.
- Audio analysis is not modelled: drum separation, beat tracking, chroma extraction, cosine-similarity chord matching, key estimation, `_rms`, transcription, and the Demucs Python-API path. Their results enter the model only as inputs (beat times, chord events, lyric segments, RMS levels, file lists).
- Debug prints are not modelled: those in `run_demucs`, and the `Demucs unavailable: {exc}` message `separate_and_score` prints when Demucs fails (models/separation_manager.py:50). They have no effect on the result.
- The `rglob` enumeration order is an input sequence. DemucsStems identifies files by their position in it, which matches the `is` comparison on the path objects.
- Text.SplitLines: only '\n' is treated as a line break. Python's `splitlines()` also breaks at '\r', '\x0b', '\x0c', '\x1c'-'\x1e', '\x85', U+2028 and U+2029. The chart's own separators are '\n'. Chart.NewlineFree, which Chart.ChartEndsWith, ChartExamples.BasicLastLine and ChartExamples.CarryLastLines require, excludes only '\n' from chord names and lyric texts; their statements about `splitlines()` hold for the source only when those texts also contain none of the other break characters listed here.
- UvrStems.PathName: only '/' separates components. Trailing slashes, '.' and '..' components and Windows `\` separators are not normalised; the paths `rglob` yields under an output directory have none of them.
- Text.Lower: only ASCII letters are lowered. The keys compared against ("vocals", "no_vocals", "accompaniment", "instrumental") are ASCII, and no non-ASCII character lowers to one of their letters except the Kelvin sign and dotted capital I, which this leaves unmodelled.
- Chart.SnapToBar: beat times, onsets, the distances and the 0.10 tolerance are Python floats in the source and exact reals here. A distance that rounds below 0.10 (4.1 - 4.0 is 0.09999999999999964 in floats) snaps in the source but not in the model, and real distances that are equal may differ in floats, which changes the winner of a tie.
- Tempo.GetBpm: float overflow is not modelled. A positive median interval below about 3.3e-307 makes `60.0 / median` infinite in the source, and the halving loop then never ends; the model returns the folded exact value instead.
- ChordTemplates.ChordTemplateMap: a Dafny map has no iteration order, so the insertion order of the dictionary (roots in `NOTE_NAMES` order, qualities in table order) is not part of it. The order is kept by ChordTemplates.KeyOf, the key written at each insertion index. The chord matching that iterates the dictionary and keeps the first of equally scoring chords (chords.py:84-90) relies on that order and is not modelled.
- NumpyTemplates.NpTemplateMap: the same holds for the numpy dictionary. Its order is kept by NumpyTemplates.NpKey, and the tie-breaking loop that iterates it (music_analysis.py:55-58) is not modelled.
- Tempo.GetBpm: requires that the median interval is not negative. With a negative median the doubling loop of the source never ends, so there is no result to model.
- Tempo.Median: `np.median` of floats is modelled over exact reals, so the average of the two middle values is exact. The same holds for every BPM, RMS and score computation, which are free of rounding in the model.
- SeparationManager.CompareStems: the 1e-6 floor is an exact real, and the RMS levels are inputs (None for a missing file) rather than read from audio.
