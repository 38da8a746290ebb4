/** The bar-quantising chart formatter `format_chart` of
    ultimate_chord_reader.py: beats are grouped four to a bar, every chord
    onset and lyric start is snapped to the bar of its nearest beat (or
    dropped when no beat lies strictly within 0.10 s), each bar keeps at most
    three chord labels without adjacent repeats, and the chart is one
    tab-separated line per bar under a fixed header.

    Timestamps are exact reals. The header's BPM and confidence figures are
    taken as already-formatted text. */
module Chart {
  import opened Wrappers
  import opened Text

  /** `MAX_CHANGES_PER_BAR`: chord changes shown in a bar beyond its first label. */
  const MaxChangesPerBar: nat := 2

  /** The most labels one bar's chord list can hold. */
  const MaxLabelsPerBar: nat := MaxChangesPerBar + 1

  /** Beats per bar: the formatter always uses `i // 4`, whatever the time signature. */
  const BeatsPerBar: nat := 4

  /** An event snaps to a beat only when strictly closer than this many seconds. */
  const SnapTolerance: real := 0.10

  /** `DISCLAIMER`: three lines, each ending in a newline. */
  const Disclaimer: string := DisclaimerText + "\n"

  /** `DISCLAIMER.rstrip()`, the first entry of the chart header (see
      `DisclaimerStripped`). */
  const DisclaimerText: string :=
    "ULTIMATE CHORD READER uses automated stem separation and AI analysis.\n"
    + "All audio files and stems are automatically deleted immediately after processing.\n"
    + "Results are best-effort guesses; verify before public use."

  /** A chord analyser event `(name, onset, score)`; the score is not used. */
  datatype ChordEvent = ChordEvent(name: string, onset: real, score: real)

  /** A transcriber segment `(start, end, text, p)`; only start and text are used. */
  datatype LyricSegment = LyricSegment(start: real, end: real, text: string, logProb: real)

  /** `list(beat_times or [0.0])`: a missing or empty beat list becomes the
      single beat at 0.0, so the grid is never empty. */
  function BeatGrid(beatTimes: Option<seq<real>>): (g: seq<real>)
    ensures |g| >= 1
    ensures beatTimes.None? || beatTimes.value == [] ==> g == [0.0]
    ensures beatTimes.Some? && beatTimes.value != [] ==> g == beatTimes.value
  {
    match beatTimes
    case Some(ts) => if |ts| == 0 then [0.0] else ts
    case None => [0.0]
  }

  /** `bar_of_beat[i]`. */
  function BarOfBeat(i: nat): nat {
    i / BeatsPerBar
  }

  /** `last_bar + 1`: the number of rendered bar lines. */
  function BarCount(beats: seq<real>): nat
    requires |beats| >= 1
  {
    BarOfBeat(|beats| - 1) + 1
  }

  /** `abs(a - b)`. */
  function Dist(a: real, b: real): real {
    if a >= b then a - b else b - a
  }

  /** Beat `k` is the one `min(range(len(beats)), key=...)` picks for time `t`:
      no beat is closer, and every earlier beat is strictly farther, since
      `min` keeps the first of equally close candidates. */
  predicate IsNearest(beats: seq<real>, t: real, k: int) {
    && 0 <= k < |beats|
    && (forall j :: 0 <= j < |beats| ==> Dist(beats[k], t) <= Dist(beats[j], t))
    && (forall j :: 0 <= j < k ==> Dist(beats[k], t) < Dist(beats[j], t))
  }

  /** The scan `min` performs over the first `n` beats. */
  function NearestAmong(beats: seq<real>, t: real, n: nat): (i: nat)
    requires 1 <= n <= |beats|
    ensures i < n
    ensures forall j :: 0 <= j < n ==> Dist(beats[i], t) <= Dist(beats[j], t)
    ensures forall j :: 0 <= j < i ==> Dist(beats[i], t) < Dist(beats[j], t)
    decreases n
  {
    if n == 1 then 0
    else
      var best := NearestAmong(beats, t, n - 1);
      if Dist(beats[n - 1], t) < Dist(beats[best], t) then n - 1 else best
  }

  /** The index `ts_to_bar` looks at. */
  function NearestBeat(beats: seq<real>, t: real): (i: nat)
    requires |beats| >= 1
    ensures IsNearest(beats, t, i)
  {
    NearestAmong(beats, t, |beats|)
  }

  /** The nearest beat is unique once ties go to the lowest index. */
  lemma NearestIsUnique(beats: seq<real>, t: real, i: int, j: int)
    requires IsNearest(beats, t, i) && IsNearest(beats, t, j)
    ensures i == j
  {
    assert Dist(beats[i], t) <= Dist(beats[j], t);
    assert Dist(beats[j], t) <= Dist(beats[i], t);
  }

  /** `ts_to_bar(t)`: the bar of the nearest beat, or None unless that beat
      lies strictly within the tolerance. */
  function SnapToBar(beats: seq<real>, t: real): (r: Option<nat>)
    requires |beats| >= 1
    ensures forall k :: IsNearest(beats, t, k) ==>
              r == if Dist(beats[k], t) < SnapTolerance then Some(BarOfBeat(k)) else None
  {
    var i := NearestBeat(beats, t);
    if Dist(beats[i], t) < SnapTolerance then Some(BarOfBeat(i)) else None
  }

  /** A time snaps exactly when some beat, not only the nearest, lies
      strictly within the tolerance, and it then lands on a rendered bar. */
  lemma SnapToBarMeaning(beats: seq<real>, t: real)
    requires |beats| >= 1
    ensures SnapToBar(beats, t).Some? <==> exists k :: 0 <= k < |beats| && Dist(beats[k], t) < SnapTolerance
    ensures SnapToBar(beats, t).Some? ==> SnapToBar(beats, t).value < BarCount(beats)
  {
    var i := NearestBeat(beats, t);
    if SnapToBar(beats, t).Some? {
      assert Dist(beats[i], t) < SnapTolerance;
      assert i <= |beats| - 1;
      BarOfBeatMonotone(i, |beats| - 1);
    } else {
      forall k | 0 <= k < |beats| ensures Dist(beats[k], t) >= SnapTolerance {
        assert Dist(beats[i], t) <= Dist(beats[k], t);
      }
    }
  }

  /** Later beats never belong to earlier bars. */
  lemma BarOfBeatMonotone(i: nat, j: nat)
    requires i <= j
    ensures BarOfBeat(i) <= BarOfBeat(j)
  {
  }

  /** A `defaultdict(list)` from bar index to labels or texts. */
  type Table = map<nat, seq<string>>

  /** `table[b]` on a `defaultdict(list)`. */
  function Lookup(m: Table, b: nat): seq<string> {
    if b in m then m[b] else []
  }

  /** What one snapped chord does to its bar's list: it is appended only
      when it differs from the bar's last label and the bar is not full. */
  function Admit(labels: seq<string>, name: string): seq<string> {
    if (labels == [] || labels[|labels| - 1] != name) && |labels| < MaxLabelsPerBar
    then labels + [name]
    else labels
  }

  /** `chords_by_bar` after the chord loop: every chord event, in input
      order, snapped and admitted to its bar's list. */
  function ChordTable(beats: seq<real>, chords: seq<ChordEvent>): Table
    requires |beats| >= 1
    decreases |chords|
  {
    if |chords| == 0 then map[]
    else
      var m := ChordTable(beats, chords[..|chords| - 1]);
      var c := chords[|chords| - 1];
      match SnapToBar(beats, c.onset)
      case None => m
      case Some(b) => m[b := Admit(Lookup(m, b), c.name)]
  }

  /** `lyrics_by_bar` after the lyric loop: every snapped segment's text
      appended to its bar's list. */
  function LyricTable(beats: seq<real>, lyrics: seq<LyricSegment>): Table
    requires |beats| >= 1
    decreases |lyrics|
  {
    if |lyrics| == 0 then map[]
    else
      var m := LyricTable(beats, lyrics[..|lyrics| - 1]);
      var l := lyrics[|lyrics| - 1];
      match SnapToBar(beats, l.start)
      case None => m
      case Some(b) => m[b := Lookup(m, b) + [l.text]]
  }

  // Per-bar reference definitions: the events that snap to one bar,
  // independently of the dictionaries above.

  /** The names of the chords whose onset snaps to bar `b`, in input order. */
  function SnappedNames(beats: seq<real>, chords: seq<ChordEvent>, b: nat): seq<string>
    requires |beats| >= 1
    decreases |chords|
  {
    if |chords| == 0 then []
    else
      var c := chords[|chords| - 1];
      SnappedNames(beats, chords[..|chords| - 1], b)
        + (if SnapToBar(beats, c.onset) == Some(b) then [c.name] else [])
  }

  /** The texts of the lyric segments whose start snaps to bar `b`, in input order. */
  function SnappedTexts(beats: seq<real>, lyrics: seq<LyricSegment>, b: nat): seq<string>
    requires |beats| >= 1
    decreases |lyrics|
  {
    if |lyrics| == 0 then []
    else
      var l := lyrics[|lyrics| - 1];
      SnappedTexts(beats, lyrics[..|lyrics| - 1], b)
        + (if SnapToBar(beats, l.start) == Some(b) then [l.text] else [])
  }

  /** The texts of every lyric segment that snaps to some bar, in input order. */
  function AllSnappedTexts(beats: seq<real>, lyrics: seq<LyricSegment>): seq<string>
    requires |beats| >= 1
    decreases |lyrics|
  {
    if |lyrics| == 0 then []
    else
      var l := lyrics[|lyrics| - 1];
      AllSnappedTexts(beats, lyrics[..|lyrics| - 1])
        + (if SnapToBar(beats, l.start).Some? then [l.text] else [])
  }

  /** No two neighbouring labels are equal. */
  predicate NoAdjacentRepeats(labels: seq<string>) {
    forall i :: 0 <= i < |labels| - 1 ==> labels[i] != labels[i + 1]
  }

  /** `a` is `b` with some elements left out, order kept. */
  predicate IsSubsequence<T(==)>(a: seq<T>, b: seq<T>)
    decreases |b|
  {
    || a == []
    || (&& b != []
        && (|| IsSubsequence(a, b[..|b| - 1])
            || (a[|a| - 1] == b[|b| - 1] && IsSubsequence(a[..|a| - 1], b[..|b| - 1]))))
  }

  /** The list a bar ends with when `names` are the chords snapped to it. */
  function AdmitAll(names: seq<string>): (labels: seq<string>)
    ensures |labels| <= MaxLabelsPerBar
    ensures labels == [] <==> names == []
    ensures NoAdjacentRepeats(labels)
    decreases |names|
  {
    if |names| == 0 then []
    else Admit(AdmitAll(names[..|names| - 1]), names[|names| - 1])
  }

  /** The rendered line of one bar: chord labels and lyric texts each joined
      by a space, the two columns separated by a tab, trailing blanks removed. */
  function BarLine(labels: seq<string>, texts: seq<string>): string {
    RStrip(Join(" ", labels) + "\t" + Join(" ", texts))
  }

  /** The bar lines: one per bar from bar 0 to the bar of the last beat. */
  function BarLines(beats: seq<real>, chords: seq<ChordEvent>, lyrics: seq<LyricSegment>): (lines: seq<string>)
    requires |beats| >= 1
    ensures |lines| == (|beats| - 1) / BeatsPerBar + 1
    ensures forall b :: 0 <= b < |lines| ==>
              lines[b] == BarLine(AdmitAll(SnappedNames(beats, chords, b)), SnappedTexts(beats, lyrics, b))
  {
    var ct := ChordTable(beats, chords);
    var lt := LyricTable(beats, lyrics);
    var lines := seq(BarCount(beats), b requires 0 <= b => BarLine(Lookup(ct, b), Lookup(lt, b)));
    assert forall b :: 0 <= b < |lines| ==>
      lines[b] == BarLine(AdmitAll(SnappedNames(beats, chords, b)), SnappedTexts(beats, lyrics, b)) by {
      forall b | 0 <= b < |lines|
        ensures lines[b] == BarLine(AdmitAll(SnappedNames(beats, chords, b)), SnappedTexts(beats, lyrics, b))
      {
        ChordTableByBar(beats, chords, b);
        LyricTableByBar(beats, lyrics, b);
      }
    }
    lines
  }

  /** The header entries above the bar lines; `bpmText` and `confidenceText`
      stand for the `.1f` renderings of the two numbers. */
  function Header(title: string, bpmText: string, key: string, timeSig: string, confidenceText: string): seq<string> {
    [ DisclaimerText, "",
      "Title: " + title,
      "BPM: " + bpmText,
      "Key: " + key,
      "Time Signature: " + timeSig,
      "Lyric Transcription Confidence: " + confidenceText + "%", "" ]
  }

  /** `format_chart(...)`: header entries and bar lines joined by newlines. */
  function FormatChart(title: string, bpmText: string, key: string, timeSig: string,
                       lyrics: seq<LyricSegment>, chords: seq<ChordEvent>,
                       confidenceText: string, beatTimes: Option<seq<real>>): string
  {
    Join("\n", Header(title, bpmText, key, timeSig, confidenceText)
                 + BarLines(BeatGrid(beatTimes), chords, lyrics))
  }

  // ---------------------------------------------------------------------
  // Tables against the per-bar reference
  // ---------------------------------------------------------------------

  /** Bar `b`'s chord list is exactly what admitting, in input order, the
      chords snapped to `b` produces; other bars' chords never touch it. */
  lemma {:induction false} ChordTableByBar(beats: seq<real>, chords: seq<ChordEvent>, b: nat)
    requires |beats| >= 1
    ensures Lookup(ChordTable(beats, chords), b) == AdmitAll(SnappedNames(beats, chords, b))
    decreases |chords|
  {
    if |chords| > 0 {
      var prefix := chords[..|chords| - 1];
      ChordTableByBar(beats, prefix, b);
      var c := chords[|chords| - 1];
      var names := SnappedNames(beats, chords, b);
      if SnapToBar(beats, c.onset) == Some(b) {
        assert names == SnappedNames(beats, prefix, b) + [c.name];
        assert names[..|names| - 1] == SnappedNames(beats, prefix, b);
      } else {
        assert names == SnappedNames(beats, prefix, b);
      }
    }
  }

  /** Bar `b`'s lyric list is exactly the texts of the segments snapped to
      `b`, in input order. */
  lemma {:induction false} LyricTableByBar(beats: seq<real>, lyrics: seq<LyricSegment>, b: nat)
    requires |beats| >= 1
    ensures Lookup(LyricTable(beats, lyrics), b) == SnappedTexts(beats, lyrics, b)
    decreases |lyrics|
  {
    if |lyrics| > 0 {
      LyricTableByBar(beats, lyrics[..|lyrics| - 1], b);
    }
  }

  // ---------------------------------------------------------------------
  // The admission rule
  // ---------------------------------------------------------------------

  /** Admission keeps what the bar already had and adds at most the new name. */
  lemma AdmitGrows(labels: seq<string>, name: string)
    ensures Admit(labels, name) == labels || Admit(labels, name) == labels + [name]
  {
  }

  /** A bar's list is a subsequence, in input order, of the chords snapped to it. */
  lemma {:induction false} AdmitAllIsSubsequence(names: seq<string>)
    ensures IsSubsequence(AdmitAll(names), names)
    decreases |names|
  {
    if |names| > 0 {
      var prev := names[..|names| - 1];
      var labels := AdmitAll(names);
      AdmitAllIsSubsequence(prev);
      if labels == AdmitAll(prev) {
        assert names[..|names| - 1] == prev;
      } else {
        assert labels == AdmitAll(prev) + [names[|names| - 1]];
        assert labels[..|labels| - 1] == AdmitAll(prev);
      }
    }
  }

  /** The first chord snapped to a bar is always shown, first. */
  lemma {:induction false} AdmitAllKeepsFirst(names: seq<string>)
    requires names != []
    ensures AdmitAll(names)[0] == names[0]
    decreases |names|
  {
    if |names| > 1 {
      var prev := names[..|names| - 1];
      AdmitAllKeepsFirst(prev);
      assert prev[0] == names[0];
    }
  }

  /** Once a bar holds three labels, later chords snapped to it are ignored. */
  lemma {:induction false} AdmitAllSaturates(names: seq<string>, later: seq<string>)
    requires |AdmitAll(names)| == MaxLabelsPerBar
    ensures AdmitAll(names + later) == AdmitAll(names)
    decreases |later|
  {
    if |later| == 0 {
      assert names + later == names;
    } else {
      var prev := later[..|later| - 1];
      AdmitAllSaturates(names, prev);
      assert (names + later)[..|names + later| - 1] == names + prev;
    }
  }

  /** A run of at most three labels without adjacent repeats is shown as is. */
  lemma {:induction false} AdmitAllKeepsShortRuns(names: seq<string>)
    requires |names| <= MaxLabelsPerBar
    requires NoAdjacentRepeats(names)
    ensures AdmitAll(names) == names
    decreases |names|
  {
    if |names| > 0 {
      var prev := names[..|names| - 1];
      assert NoAdjacentRepeats(prev);
      AdmitAllKeepsShortRuns(prev);
      if |prev| > 0 {
        assert prev[|prev| - 1] == names[|names| - 2];
      }
    }
  }

  /** The names with every immediate repeat removed: position `i` is kept
      when it is the first or differs from the name just before it. */
  function Dedup(names: seq<string>): seq<string>
    decreases |names|
  {
    if |names| == 0 then []
    else
      var n := |names|;
      Dedup(names[..n - 1]) + (if n == 1 || names[n - 2] != names[n - 1] then [names[n - 1]] else [])
  }

  /** At most the first `n` elements of `s`. */
  function FirstUpTo(s: seq<string>, n: nat): (r: seq<string>)
    ensures |r| <= n
    ensures r <= s
    ensures |s| <= n ==> r == s
  {
    if |s| <= n then s else s[..n]
  }

  /** Removing repeats keeps the final name and empties only the empty list. */
  lemma {:induction false} DedupLast(names: seq<string>)
    ensures Dedup(names) == [] <==> names == []
    ensures names != [] ==> Dedup(names)[|Dedup(names)| - 1] == names[|names| - 1]
    decreases |names|
  {
    if |names| > 1 {
      DedupLast(names[..|names| - 1]);
    }
  }

  /** A bar shows exactly the first three of its snapped chord names once
      immediate repeats are removed: a differing name is always added while
      the bar holds fewer than three. */
  lemma {:induction false} AdmitAllIsFirstDistinct(names: seq<string>)
    ensures AdmitAll(names) == FirstUpTo(Dedup(names), MaxLabelsPerBar)
    decreases |names|
  {
    if |names| > 0 {
      var prev := names[..|names| - 1];
      var x := names[|names| - 1];
      var d := Dedup(prev);
      AdmitAllIsFirstDistinct(prev);
      DedupLast(prev);
      var extra := if |names| == 1 || names[|names| - 2] != x then [x] else [];
      assert Dedup(names) == d + extra;
      if |d| < MaxLabelsPerBar {
        assert AdmitAll(prev) == d;
        if prev != [] {
          assert prev[|prev| - 1] == names[|names| - 2];
        }
      } else {
        assert AdmitAll(prev) == d[..MaxLabelsPerBar];
        assert (d + extra)[..MaxLabelsPerBar] == d[..MaxLabelsPerBar];
      }
    }
  }

  /** There is no carry-over chord: a bar shows a chord exactly when some
      chord onset snapped to it. */
  lemma ChordsOnlyWhereSnapped(beats: seq<real>, chords: seq<ChordEvent>, b: nat)
    requires |beats| >= 1
    ensures Lookup(ChordTable(beats, chords), b) == [] <==> SnappedNames(beats, chords, b) == []
  {
    ChordTableByBar(beats, chords, b);
  }

  // ---------------------------------------------------------------------
  // Every snapped lyric lands in exactly one rendered bar
  // ---------------------------------------------------------------------

  /** All elements of the lists, in order. */
  function Flatten<T>(xss: seq<seq<T>>): seq<T>
  {
    if |xss| == 0 then [] else xss[0] + Flatten(xss[1..])
  }

  /** Appending to one list adds exactly that element to the flattening. */
  lemma {:induction false} FlattenAppendAt<T>(xss: seq<seq<T>>, v: nat, x: T)
    requires v < |xss|
    ensures multiset(Flatten(xss[v := xss[v] + [x]])) == multiset(Flatten(xss)) + multiset{x}
    decreases |xss|
  {
    var yss := xss[v := xss[v] + [x]];
    if v == 0 {
      assert yss[1..] == xss[1..];
    } else {
      assert yss[1..] == xss[1..][v - 1 := xss[v] + [x]];
      FlattenAppendAt(xss[1..], v - 1, x);
    }
  }

  /** The per-bar lyric lists of bars `0 .. n-1`. */
  function LyricColumns(beats: seq<real>, lyrics: seq<LyricSegment>, n: nat): seq<seq<string>>
    requires |beats| >= 1
  {
    seq(n, b requires 0 <= b => SnappedTexts(beats, lyrics, b))
  }

  /** Taken together, the rendered bars' lyric lists hold every snapped
      lyric text once and nothing else; unsnapped segments appear nowhere. */
  lemma {:induction false} LyricsPartitioned(beats: seq<real>, lyrics: seq<LyricSegment>)
    requires |beats| >= 1
    ensures multiset(Flatten(LyricColumns(beats, lyrics, BarCount(beats))))
            == multiset(AllSnappedTexts(beats, lyrics))
    decreases |lyrics|
  {
    var n := BarCount(beats);
    if |lyrics| == 0 {
      assert forall b :: 0 <= b < n ==> LyricColumns(beats, lyrics, n)[b] == [];
      EmptyColumnsFlatten(LyricColumns(beats, lyrics, n));
    } else {
      var prev := lyrics[..|lyrics| - 1];
      var l := lyrics[|lyrics| - 1];
      LyricsPartitioned(beats, prev);
      var before := LyricColumns(beats, prev, n);
      var after := LyricColumns(beats, lyrics, n);
      assert AllSnappedTexts(beats, lyrics)
        == AllSnappedTexts(beats, prev) + (if SnapToBar(beats, l.start).Some? then [l.text] else []);
      match SnapToBar(beats, l.start)
      case None =>
        forall b | 0 <= b < n ensures after[b] == before[b] {
          assert SnappedTexts(beats, lyrics, b) == SnappedTexts(beats, prev, b) + [];
        }
        assert after == before;
      case Some(v) =>
        forall b | 0 <= b < n ensures after[b] == before[v := before[v] + [l.text]][b] {
          if b == v {
            assert SnappedTexts(beats, lyrics, b) == SnappedTexts(beats, prev, b) + [l.text];
          } else {
            assert SnappedTexts(beats, lyrics, b) == SnappedTexts(beats, prev, b) + [];
          }
        }
        assert after == before[v := before[v] + [l.text]];
        SnapToBarMeaning(beats, l.start);
        FlattenAppendAt(before, v, l.text);
    }
  }

  /** Lists that are all empty flatten to nothing. */
  lemma {:induction false} EmptyColumnsFlatten<T>(xss: seq<seq<T>>)
    requires forall i :: 0 <= i < |xss| ==> xss[i] == []
    ensures Flatten(xss) == []
    decreases |xss|
  {
    if |xss| > 0 {
      EmptyColumnsFlatten(xss[1..]);
    }
  }

  // ---------------------------------------------------------------------
  // Rendering
  // ---------------------------------------------------------------------

  /** A bar with neither chords nor lyrics renders as the empty line; a bar
      with only chords renders as its labels; a lyric column that ends in a
      visible character is kept whole behind the tab. */
  lemma BarLineShapes(labels: seq<string>, texts: seq<string>)
    ensures labels == [] && texts == [] ==> BarLine(labels, texts) == ""
    ensures texts == [] ==> BarLine(labels, texts) == RStrip(Join(" ", labels))
    ensures var lyric := Join(" ", texts);
            lyric != [] && !IsSpace(lyric[|lyric| - 1]) ==>
            BarLine(labels, texts) == Join(" ", labels) + "\t" + lyric
  {
    var s := Join(" ", labels) + "\t" + Join(" ", texts);
    if texts == [] {
      assert s == Join(" ", labels) + "\t";
      RStripThroughBlanks(Join(" ", labels), "\t");
    }
  }

  /** Right-stripping ignores a trailing run of blanks. */
  lemma {:induction false} RStripThroughBlanks(s: string, blanks: string)
    requires forall i :: 0 <= i < |blanks| ==> IsSpace(blanks[i])
    ensures RStrip(s + blanks) == RStrip(s)
    decreases |blanks|
  {
    if |blanks| == 0 {
      assert s + blanks == s;
    } else {
      var shorter := blanks[..|blanks| - 1];
      assert (s + blanks)[..|s + blanks| - 1] == s + shorter;
      RStripThroughBlanks(s, shorter);
    }
  }

  /** A rendered bar line holds no newline when its labels and texts hold none. */
  lemma BarLineHasNoNewline(labels: seq<string>, texts: seq<string>)
    requires forall i :: 0 <= i < |labels| ==> '\n' !in labels[i]
    requires forall i :: 0 <= i < |texts| ==> '\n' !in texts[i]
    ensures '\n' !in BarLine(labels, texts)
  {
    JoinAvoids(" ", labels, '\n');
    JoinAvoids(" ", texts, '\n');
    var s := Join(" ", labels) + "\t" + Join(" ", texts);
    var r := BarLine(labels, texts);
    assert forall i :: 0 <= i < |r| ==> r[i] == s[i];
  }

  /** Every chord name and lyric text reaching the bar lines is newline-free. */
  predicate NewlineFree(chords: seq<ChordEvent>, lyrics: seq<LyricSegment>) {
    && (forall i :: 0 <= i < |chords| ==> '\n' !in chords[i].name)
    && (forall i :: 0 <= i < |lyrics| ==> '\n' !in lyrics[i].text)
  }

  /** The chord names snapped to a bar are newline-free when all names are. */
  lemma {:induction false} SnappedNamesNewlineFree(beats: seq<real>, chords: seq<ChordEvent>, b: nat)
    requires |beats| >= 1
    requires forall j :: 0 <= j < |chords| ==> '\n' !in chords[j].name
    ensures forall i :: 0 <= i < |SnappedNames(beats, chords, b)| ==> '\n' !in SnappedNames(beats, chords, b)[i]
    decreases |chords|
  {
    if |chords| > 0 {
      var prev := chords[..|chords| - 1];
      SnappedNamesNewlineFree(beats, prev, b);
      var c := chords[|chords| - 1];
      assert SnappedNames(beats, chords, b)
        == SnappedNames(beats, prev, b) + (if SnapToBar(beats, c.onset) == Some(b) then [c.name] else []);
    }
  }

  /** The lyric texts snapped to a bar are newline-free when all texts are. */
  lemma {:induction false} SnappedTextsNewlineFree(beats: seq<real>, lyrics: seq<LyricSegment>, b: nat)
    requires |beats| >= 1
    requires forall j :: 0 <= j < |lyrics| ==> '\n' !in lyrics[j].text
    ensures forall i :: 0 <= i < |SnappedTexts(beats, lyrics, b)| ==> '\n' !in SnappedTexts(beats, lyrics, b)[i]
    decreases |lyrics|
  {
    if |lyrics| > 0 {
      var prev := lyrics[..|lyrics| - 1];
      SnappedTextsNewlineFree(beats, prev, b);
      var l := lyrics[|lyrics| - 1];
      assert SnappedTexts(beats, lyrics, b)
        == SnappedTexts(beats, prev, b) + (if SnapToBar(beats, l.start) == Some(b) then [l.text] else []);
    }
  }

  /** Admitted labels are among the names offered. */
  lemma {:induction false} AdmitAllFrom(names: seq<string>)
    ensures forall i :: 0 <= i < |AdmitAll(names)| ==> AdmitAll(names)[i] in names
    decreases |names|
  {
    if |names| > 0 {
      var prev := names[..|names| - 1];
      AdmitAllFrom(prev);
      assert forall x :: x in prev ==> x in names;
    }
  }

  /** The bar lines are newline-free when the inputs are. */
  lemma BarLinesHaveNoNewline(beats: seq<real>, chords: seq<ChordEvent>, lyrics: seq<LyricSegment>)
    requires |beats| >= 1
    requires NewlineFree(chords, lyrics)
    ensures forall b :: 0 <= b < |BarLines(beats, chords, lyrics)| ==> '\n' !in BarLines(beats, chords, lyrics)[b]
  {
    var lines := BarLines(beats, chords, lyrics);
    forall b | 0 <= b < |lines| ensures '\n' !in lines[b] {
      var names := SnappedNames(beats, chords, b);
      var labels := AdmitAll(names);
      var texts := SnappedTexts(beats, lyrics, b);
      SnappedNamesNewlineFree(beats, chords, b);
      SnappedTextsNewlineFree(beats, lyrics, b);
      AdmitAllFrom(names);
      BarLineHasNoNewline(labels, texts);
    }
  }

  /** The lines of `format_chart`: when no chord name or lyric text holds a
      newline, splitting the chart at newlines gives the header's lines
      followed by exactly the bar lines, one per bar. */
  lemma FormatChartLines(title: string, bpmText: string, key: string, timeSig: string,
                         lyrics: seq<LyricSegment>, chords: seq<ChordEvent>,
                         confidenceText: string, beatTimes: Option<seq<real>>)
    requires NewlineFree(chords, lyrics)
    ensures Split(FormatChart(title, bpmText, key, timeSig, lyrics, chords, confidenceText, beatTimes), '\n')
            == Split(Join("\n", Header(title, bpmText, key, timeSig, confidenceText)), '\n')
               + BarLines(BeatGrid(beatTimes), chords, lyrics)
  {
    BarLinesHaveNoNewline(BeatGrid(beatTimes), chords, lyrics);
    SplitJoinedTail(Header(title, bpmText, key, timeSig, confidenceText), BarLines(BeatGrid(beatTimes), chords, lyrics), '\n');
  }

  /** When the bar lines are `shown` followed by one empty line, the chart's
      lines end with `shown`: the empty piece after the final newline is no
      line. */
  lemma ChartEndsWith(title: string, bpmText: string, key: string, timeSig: string,
                      lyrics: seq<LyricSegment>, chords: seq<ChordEvent>,
                      confidenceText: string, beatTimes: Option<seq<real>>, shown: seq<string>)
    requires NewlineFree(chords, lyrics)
    requires BarLines(BeatGrid(beatTimes), chords, lyrics) == shown + [""]
    ensures var lines := SplitLines(FormatChart(title, bpmText, key, timeSig, lyrics, chords, confidenceText, beatTimes));
            |shown| <= |lines| && lines[|lines| - |shown|..] == shown
  {
    BarLinesHaveNoNewline(BeatGrid(beatTimes), chords, lyrics);
    JoinedLinesEndWith(Header(title, bpmText, key, timeSig, confidenceText), BarLines(BeatGrid(beatTimes), chords, lyrics), shown);
  }

  /** The header's first entry is `DISCLAIMER.rstrip()`: only the final
      newline is stripped. */
  lemma DisclaimerStripped()
    ensures RStrip(Disclaimer) == DisclaimerText
  {
    assert Disclaimer[..|Disclaimer| - 1] == DisclaimerText;
  }
}
