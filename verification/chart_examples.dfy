/** The chart formatter on the two charts of tests/test_basic.py and on
    small inputs that exercise the snapping boundary, the nearest-beat tie
    rule, the chord cap and the collapsing of repeated labels. */
module ChartExamples {
  import opened Wrappers
  import opened Text
  import opened Chart

  const FiveBeats: seq<real> := [0.0, 1.0, 2.0, 3.0, 4.0]
  const NineBeats: seq<real> := [0.0, 1.0, 2.0, 3.0, 4.0, 5.0, 6.0, 7.0, 8.0]

  const BasicChords: seq<ChordEvent> := [ChordEvent("C", 0.0, 0.9), ChordEvent("G", 2.0, 0.9)]
  const BasicLyrics: seq<LyricSegment> := [LyricSegment(0.0, 1.0, "hello", 0.9), LyricSegment(2.0, 3.0, "world", 0.9)]

  /** On a grid with one beat per second from 0.0, a time exactly on beat
      `k` snaps to that beat's bar. */
  lemma SnapsOnSecondGrid(beats: seq<real>, k: nat)
    requires forall j :: 0 <= j < |beats| ==> beats[j] == j as real
    requires k < |beats|
    ensures SnapToBar(beats, k as real) == Some(BarOfBeat(k))
  {
    assert IsNearest(beats, k as real, k);
  }

  lemma BasicSnapsOnBeats()
    ensures SnapToBar(FiveBeats, 0.0) == Some(0)
    ensures SnapToBar(FiveBeats, 2.0) == Some(0)
  {
    SnapsOnSecondGrid(FiveBeats, 0);
    SnapsOnSecondGrid(FiveBeats, 2);
  }

  /** The per-bar names of two chord events, one event at a time. */
  lemma NamesOfTwo(beats: seq<real>, c0: ChordEvent, c1: ChordEvent, b: nat)
    requires |beats| >= 1
    ensures SnappedNames(beats, [c0, c1], b)
            == (if SnapToBar(beats, c0.onset) == Some(b) then [c0.name] else [])
               + (if SnapToBar(beats, c1.onset) == Some(b) then [c1.name] else [])
  {
    assert [c0, c1][..1] == [c0];
    assert [c0][..0] == [];
    assert SnappedNames(beats, [c0], b)
           == SnappedNames(beats, [], b) + (if SnapToBar(beats, c0.onset) == Some(b) then [c0.name] else []);
  }

  /** The per-bar texts of two lyric segments, one segment at a time. */
  lemma TextsOfTwo(beats: seq<real>, l0: LyricSegment, l1: LyricSegment, b: nat)
    requires |beats| >= 1
    ensures SnappedTexts(beats, [l0, l1], b)
            == (if SnapToBar(beats, l0.start) == Some(b) then [l0.text] else [])
               + (if SnapToBar(beats, l1.start) == Some(b) then [l1.text] else [])
  {
    assert [l0, l1][..1] == [l0];
    assert [l0][..0] == [];
    assert SnappedTexts(beats, [l0], b)
           == SnappedTexts(beats, [], b) + (if SnapToBar(beats, l0.start) == Some(b) then [l0.text] else []);
  }

  lemma BasicChordsByBar()
    ensures SnappedNames(FiveBeats, BasicChords, 0) == ["C", "G"]
    ensures SnappedNames(FiveBeats, BasicChords, 1) == []
  {
    BasicSnapsOnBeats();
    NamesOfTwo(FiveBeats, BasicChords[0], BasicChords[1], 0);
    NamesOfTwo(FiveBeats, BasicChords[0], BasicChords[1], 1);
  }

  lemma BasicLyricsByBar()
    ensures SnappedTexts(FiveBeats, BasicLyrics, 0) == ["hello", "world"]
    ensures SnappedTexts(FiveBeats, BasicLyrics, 1) == []
  {
    BasicSnapsOnBeats();
    TextsOfTwo(FiveBeats, BasicLyrics[0], BasicLyrics[1], 0);
    TextsOfTwo(FiveBeats, BasicLyrics[0], BasicLyrics[1], 1);
  }

  /** Any five-beat grid whose first bar receives chords C, G and lyrics
      "hello", "world" and whose second bar receives nothing renders as
      "C G\thello world" and "". */
  lemma TwoBarLines(beats: seq<real>, chords: seq<ChordEvent>, lyrics: seq<LyricSegment>)
    requires |beats| == 5
    requires SnappedNames(beats, chords, 0) == ["C", "G"]
    requires SnappedNames(beats, chords, 1) == []
    requires SnappedTexts(beats, lyrics, 0) == ["hello", "world"]
    requires SnappedTexts(beats, lyrics, 1) == []
    ensures BarLines(beats, chords, lyrics) == ["C G\thello world"] + [""]
  {
    BasicFirstBar();
    TwoBars(beats, chords, lyrics, "C G\thello world");
  }

  /** Five beats make two bars; when the second is empty, the bar lines are
      the first bar's line and "". */
  lemma TwoBars(beats: seq<real>, chords: seq<ChordEvent>, lyrics: seq<LyricSegment>, first: string)
    requires |beats| == 5
    requires BarLine(AdmitAll(SnappedNames(beats, chords, 0)), SnappedTexts(beats, lyrics, 0)) == first
    requires SnappedNames(beats, chords, 1) == [] && SnappedTexts(beats, lyrics, 1) == []
    ensures BarLines(beats, chords, lyrics) == [first] + [""]
  {
    EmptyBarLine();
    TwoLines(BarLines(beats, chords, lyrics), first);
  }

  lemma BasicFirstBar()
    ensures BarLine(AdmitAll(["C", "G"]), ["hello", "world"]) == "C G\thello world"
  {
    AdmitAllKeepsShortRuns(["C", "G"]);
    BasicFirstLine();
  }

  lemma BasicFirstLine()
    ensures BarLine(["C", "G"], ["hello", "world"]) == "C G\thello world"
  {
    assert Join(" ", ["C", "G"]) == "C G";
    assert Join(" ", ["hello", "world"]) == "hello world";
    assert "C G" + "\t" + "hello world" == "C G\thello world";
    assert RStrip("C G\thello world") == "C G\thello world";
  }

  /** A bar with neither chords nor lyrics renders as "". */
  lemma EmptyBarLine()
    ensures BarLine(AdmitAll([]), []) == ""
  {
    assert Join(" ", []) + "\t" + Join(" ", []) == "\t";
    assert "\t"[..0] == [];
  }

  lemma BasicNewlineFree()
    ensures NewlineFree(BasicChords, BasicLyrics)
  {
  }

  /** The beats, chords and lyrics of tests/test_basic.py
      `test_format_chart_basic` give the bar lines "C G\thello world" and "". */
  lemma BasicMerge(beatTimes: Option<seq<real>>, chords: seq<ChordEvent>, lyrics: seq<LyricSegment>)
    // The inputs arrive as parameters pinned by `requires`, so the verifier
    // does not unfold the constant lists while checking the contract.
    requires beatTimes == Some(FiveBeats) && chords == BasicChords && lyrics == BasicLyrics
    ensures NewlineFree(chords, lyrics)
    ensures BarLines(BeatGrid(beatTimes), chords, lyrics) == ["C G\thello world"] + [""]
  {
    BasicChordsByBar();
    BasicLyricsByBar();
    var beats := BeatGrid(beatTimes);
    assert beats == FiveBeats;
    TwoBarLines(beats, chords, lyrics);
    BasicNewlineFree();
  }

  /** Two lines, the second one empty, are `[a] + [""]`. */
  lemma TwoLines(lines: seq<string>, a: string)
    requires |lines| == 2 && lines[0] == a && lines[1] == ""
    ensures lines == [a] + [""]
  {
  }

  /** Three lines, the third one empty, are `[a, b] + [""]`. */
  lemma ThreeLines(lines: seq<string>, a: string, b: string)
    requires |lines| == 3 && lines[0] == a && lines[1] == b && lines[2] == ""
    ensures lines == [a, b] + [""]
  {
  }

  /** Lines ending with `[a]` end in `a`. */
  lemma LastLineIs(lines: seq<string>, a: string)
    requires 1 <= |lines| && lines[|lines| - 1..] == [a]
    ensures lines[|lines| - 1] == a
  {
    assert lines[|lines| - 1..][0] == a;
  }

  /** Lines ending with `[a, b]` end in `a` then `b`. */
  lemma LastTwoLinesAre(lines: seq<string>, a: string, b: string)
    requires 2 <= |lines| && lines[|lines| - 2..] == [a, b]
    ensures lines[|lines| - 2] == a && lines[|lines| - 1] == b
  {
    assert lines[|lines| - 2..][0] == a;
    assert lines[|lines| - 2..][1] == b;
  }

  /** A chart of two bars, the second one empty, ends with the first bar's line. */
  lemma LastOfTwoBars(title: string, bpmText: string, key: string, timeSig: string,
                      lyrics: seq<LyricSegment>, chords: seq<ChordEvent>,
                      confidenceText: string, beatTimes: Option<seq<real>>, first: string)
    requires NewlineFree(chords, lyrics)
    requires BarLines(BeatGrid(beatTimes), chords, lyrics) == [first] + [""]
    ensures var lines := SplitLines(FormatChart(title, bpmText, key, timeSig, lyrics, chords, confidenceText, beatTimes));
            |lines| >= 1 && lines[|lines| - 1] == first
  {
    ChartEndsWith(title, bpmText, key, timeSig, lyrics, chords, confidenceText, beatTimes, [first]);
    LastLineIs(SplitLines(FormatChart(title, bpmText, key, timeSig, lyrics, chords, confidenceText, beatTimes)), first);
  }

  /** A chart of three bars, the third one empty, ends with the first two bars' lines. */
  lemma LastOfThreeBars(title: string, bpmText: string, key: string, timeSig: string,
                        lyrics: seq<LyricSegment>, chords: seq<ChordEvent>,
                        confidenceText: string, beatTimes: Option<seq<real>>, first: string, second: string)
    requires NewlineFree(chords, lyrics)
    requires BarLines(BeatGrid(beatTimes), chords, lyrics) == [first, second] + [""]
    ensures var lines := SplitLines(FormatChart(title, bpmText, key, timeSig, lyrics, chords, confidenceText, beatTimes));
            |lines| >= 2 && lines[|lines| - 2] == first && lines[|lines| - 1] == second
  {
    ChartEndsWith(title, bpmText, key, timeSig, lyrics, chords, confidenceText, beatTimes, [first, second]);
    LastTwoLinesAre(SplitLines(FormatChart(title, bpmText, key, timeSig, lyrics, chords, confidenceText, beatTimes)), first, second);
  }

  /** tests/test_basic.py `test_format_chart_basic`: whatever the title, BPM, key, time
      signature and confidence texts, the chart's last line is
      "C G\thello world". */
  lemma BasicLastLine(title: string, bpmText: string, key: string, timeSig: string, confidenceText: string,
                      beatTimes: Option<seq<real>>, chords: seq<ChordEvent>, lyrics: seq<LyricSegment>)
    // The inputs arrive as parameters pinned by `requires`, so the verifier
    // does not unfold the constant lists while checking the contract.
    requires beatTimes == Some(FiveBeats) && chords == BasicChords && lyrics == BasicLyrics
    ensures var lines := SplitLines(FormatChart(title, bpmText, key, timeSig, lyrics, chords, confidenceText, beatTimes));
            |lines| >= 1 && lines[|lines| - 1] == "C G\thello world"
  {
    BasicMerge(beatTimes, chords, lyrics);
    LastOfTwoBars(title, bpmText, key, timeSig, lyrics, chords, confidenceText, beatTimes, "C G\thello world");
  }

  const CarryChords: seq<ChordEvent> := [ChordEvent("C", 0.0, 0.9)]
  const CarryLyrics: seq<LyricSegment> := [LyricSegment(0.0, 1.0, "foo", 0.9), LyricSegment(5.0, 6.0, "bar", 0.9)]

  lemma CarrySnapsOnBeats()
    ensures SnapToBar(NineBeats, 0.0) == Some(0)
    ensures SnapToBar(NineBeats, 5.0) == Some(1)
  {
    SnapsOnSecondGrid(NineBeats, 0);
    SnapsOnSecondGrid(NineBeats, 5);
  }

  lemma CarryChordsByBar()
    ensures SnappedNames(NineBeats, CarryChords, 0) == ["C"]
    ensures SnappedNames(NineBeats, CarryChords, 1) == []
    ensures SnappedNames(NineBeats, CarryChords, 2) == []
  {
    CarrySnapsOnBeats();
    assert CarryChords[..0] == [];
  }

  lemma CarryLyricsByBar()
    ensures SnappedTexts(NineBeats, CarryLyrics, 0) == ["foo"]
    ensures SnappedTexts(NineBeats, CarryLyrics, 1) == ["bar"]
    ensures SnappedTexts(NineBeats, CarryLyrics, 2) == []
  {
    CarrySnapsOnBeats();
    TextsOfTwo(NineBeats, CarryLyrics[0], CarryLyrics[1], 0);
    TextsOfTwo(NineBeats, CarryLyrics[0], CarryLyrics[1], 1);
    TextsOfTwo(NineBeats, CarryLyrics[0], CarryLyrics[1], 2);
  }

  /** Any nine-beat grid whose first bar receives chord C and lyric "foo",
      whose second bar receives only lyric "bar" and whose third bar receives
      nothing renders as "C\tfoo", "\tbar" and "". */
  lemma ThreeBarLines(beats: seq<real>, chords: seq<ChordEvent>, lyrics: seq<LyricSegment>)
    requires |beats| == 9
    requires SnappedNames(beats, chords, 0) == ["C"]
    requires SnappedNames(beats, chords, 1) == []
    requires SnappedNames(beats, chords, 2) == []
    requires SnappedTexts(beats, lyrics, 0) == ["foo"]
    requires SnappedTexts(beats, lyrics, 1) == ["bar"]
    requires SnappedTexts(beats, lyrics, 2) == []
    ensures BarLines(beats, chords, lyrics) == ["C\tfoo", "\tbar"] + [""]
  {
    CarryFirstLine();
    LyricOnlyLine();
    ThreeBars(beats, chords, lyrics, "C\tfoo", "\tbar");
  }

  /** Nine beats make three bars; when the third is empty, the bar lines are
      the first two bars' lines and "". */
  lemma ThreeBars(beats: seq<real>, chords: seq<ChordEvent>, lyrics: seq<LyricSegment>, first: string, second: string)
    requires |beats| == 9
    requires BarLine(AdmitAll(SnappedNames(beats, chords, 0)), SnappedTexts(beats, lyrics, 0)) == first
    requires BarLine(AdmitAll(SnappedNames(beats, chords, 1)), SnappedTexts(beats, lyrics, 1)) == second
    requires SnappedNames(beats, chords, 2) == [] && SnappedTexts(beats, lyrics, 2) == []
    ensures BarLines(beats, chords, lyrics) == [first, second] + [""]
  {
    EmptyBarLine();
    ThreeLines(BarLines(beats, chords, lyrics), first, second);
  }

  lemma CarryFirstLine()
    ensures BarLine(AdmitAll(["C"]), ["foo"]) == "C\tfoo"
  {
    AdmitAllKeepsShortRuns(["C"]);
    assert "C" + "\t" + "foo" == "C\tfoo";
    assert RStrip("C\tfoo") == "C\tfoo";
  }

  lemma LyricOnlyLine()
    ensures BarLine(AdmitAll([]), ["bar"]) == "\tbar"
  {
    assert "" + "\t" + "bar" == "\tbar";
    assert RStrip("\tbar") == "\tbar";
  }

  lemma CarryNewlineFree()
    ensures NewlineFree(CarryChords, CarryLyrics)
  {
  }

  /** The inputs of tests/test_basic.py `test_carryover_hidden`: "C" starts
      the first bar, the second bar shows only its lyric (no chord is carried
      into it) and the third bar, the lone ninth beat, is empty. */
  lemma NoCarryOver(beatTimes: Option<seq<real>>, chords: seq<ChordEvent>, lyrics: seq<LyricSegment>)
    // The inputs arrive as parameters pinned by `requires`, so the verifier
    // does not unfold the constant lists while checking the contract.
    requires beatTimes == Some(NineBeats) && chords == CarryChords && lyrics == CarryLyrics
    ensures NewlineFree(chords, lyrics)
    ensures BarLines(BeatGrid(beatTimes), chords, lyrics) == ["C\tfoo", "\tbar"] + [""]
  {
    CarryChordsByBar();
    CarryLyricsByBar();
    var beats := BeatGrid(beatTimes);
    assert beats == NineBeats;
    ThreeBarLines(beats, chords, lyrics);
    CarryNewlineFree();
  }

  /** tests/test_basic.py `test_carryover_hidden`: whatever the header
      texts, the chart's last two lines are "C\tfoo" and "\tbar"; the
      trailing empty bar line is no line of `splitlines()`. */
  lemma CarryLastLines(title: string, bpmText: string, key: string, timeSig: string, confidenceText: string,
                       beatTimes: Option<seq<real>>, chords: seq<ChordEvent>, lyrics: seq<LyricSegment>)
    // The inputs arrive as parameters pinned by `requires`, so the verifier
    // does not unfold the constant lists while checking the contract.
    requires beatTimes == Some(NineBeats) && chords == CarryChords && lyrics == CarryLyrics
    ensures var lines := SplitLines(FormatChart(title, bpmText, key, timeSig, lyrics, chords, confidenceText, beatTimes));
            |lines| >= 2 && lines[|lines| - 2] == "C\tfoo" && lines[|lines| - 1] == "\tbar"
  {
    NoCarryOver(beatTimes, chords, lyrics);
    LastOfThreeBars(title, bpmText, key, timeSig, lyrics, chords, confidenceText, beatTimes, "C\tfoo", "\tbar");
  }

  /** An onset exactly 0.10 s from its nearest beat is dropped; one 0.09 s
      away is kept. Both distances are measured from the beat at 0.0, where
      the float difference is the onset itself. */
  lemma ToleranceIsStrict()
    ensures SnapToBar(FiveBeats, 0.1) == None
    ensures SnapToBar(FiveBeats, 0.09) == Some(0)
  {
    assert IsNearest(FiveBeats, 0.1, 0);
    assert IsNearest(FiveBeats, 0.09, 0);
  }

  /** An onset halfway between the last beat of bar 0 and the first beat of
      bar 1 goes to the lower index, hence the earlier bar. The beats and the
      onset are dyadic, so the two distances are equal in floats too. */
  lemma TieGoesToEarlierBeat()
    ensures SnapToBar([0.0, 0.25, 0.5, 0.75, 0.875], 0.8125) == Some(0)
  {
    assert IsNearest([0.0, 0.25, 0.5, 0.75, 0.875], 0.8125, 3);
  }

  /** Five distinct chords in one bar: only the first three are shown. */
  lemma FiveChordsShowThree()
    ensures AdmitAll(["C", "F", "G", "Am", "E"]) == ["C", "F", "G"]
  {
    var names := ["C", "F", "G", "Am", "E"];
    assert names[..3] == ["C", "F", "G"];
    AdmitAllKeepsShortRuns(["C", "F", "G"]);
    AdmitAllSaturates(["C", "F", "G"], ["Am", "E"]);
    assert ["C", "F", "G"] + ["Am", "E"] == names;
  }

  /** A repeated chord is collapsed, but the same chord after a change is shown again. */
  lemma RepeatsCollapse()
    ensures AdmitAll(["C", "C", "G", "C"]) == ["C", "G", "C"]
  {
    var names := ["C", "C", "G", "C"];
    assert names[..3] == ["C", "C", "G"];
    assert names[..3][..2] == ["C", "C"];
    assert names[..3][..2][..1] == ["C"];
    assert ["C"][..0] == [];
    assert AdmitAll(["C"]) == ["C"];
    assert AdmitAll(["C", "C"]) == ["C"];
    assert AdmitAll(["C", "C", "G"]) == ["C", "G"];
  }
}
