/** The pure tail of the drum-track tempo estimate: at least two beats are
    needed, the raw tempo is 60 over the median inter-beat interval, and it
    is folded into the 60..160 BPM window by halving and then doubling.
    Python floats are modelled as `real`. */
module Tempo {
  import opened Wrappers

  /** Lower and upper edges of the BPM window. */
  const MinBpm: real := 60.0
  const MaxBpm: real := 160.0

  // ---------------------------------------------------------------------
  // Inter-beat intervals
  // ---------------------------------------------------------------------

  /** `np.diff(xs)`: the gap between each element and the next. */
  function Diffs(xs: seq<real>): (d: seq<real>)
    ensures |d| == if |xs| == 0 then 0 else |xs| - 1
    ensures forall i :: 0 <= i < |d| ==> d[i] == xs[i + 1] - xs[i]
  {
    if |xs| < 2 then [] else [xs[1] - xs[0]] + Diffs(xs[1..])
  }

  predicate StrictlyIncreasing(xs: seq<real>) {
    forall i, j :: 0 <= i < j < |xs| ==> xs[i] < xs[j]
  }

  /** Beat times rise strictly exactly when every gap is positive. */
  lemma {:induction false} IncreasingIffGapsPositive(xs: seq<real>)
    ensures StrictlyIncreasing(xs) <==> forall i :: 0 <= i < |Diffs(xs)| ==> Diffs(xs)[i] > 0.0
    decreases |xs|
  {
    var d := Diffs(xs);
    if |xs| >= 2 && forall i :: 0 <= i < |d| ==> d[i] > 0.0 {
      IncreasingIffGapsPositive(xs[1..]);
      assert forall i :: 0 <= i < |Diffs(xs[1..])| ==> Diffs(xs[1..])[i] == d[i + 1];
      assert StrictlyIncreasing(xs[1..]);
      forall i, j | 0 <= i < j < |xs| ensures xs[i] < xs[j] {
        if i == 0 {
          assert xs[0] < xs[1];
          if j > 1 {
            assert xs[1..][0] < xs[1..][j - 1];
          }
        } else {
          assert xs[1..][i - 1] < xs[1..][j - 1];
        }
      }
      assert StrictlyIncreasing(xs);
    } else if |xs| >= 2 {
      var i :| 0 <= i < |d| && d[i] <= 0.0;
      assert xs[i + 1] <= xs[i];
    }
  }

  // ---------------------------------------------------------------------
  // The numpy median
  // ---------------------------------------------------------------------

  predicate Sorted(s: seq<real>) {
    forall i, j :: 0 <= i < j < |s| ==> s[i] <= s[j]
  }

  function Insert(x: real, s: seq<real>): (r: seq<real>)
    requires Sorted(s)
    ensures Sorted(r)
    ensures multiset(r) == multiset(s) + multiset{x}
  {
    if |s| == 0 then [x]
    else if x <= s[0] then
      ConsSorted(x, s);
      [x] + s
    else
      SortedTail(s);
      var rest := Insert(x, s[1..]);
      TailMultiset(s);
      assert forall k :: 0 <= k < |rest| ==> s[0] <= rest[k] by {
        forall k | 0 <= k < |rest| ensures s[0] <= rest[k] {
          assert rest[k] in multiset(rest);
          if rest[k] != x {
            HeadIsLeast(s, rest[k]);
          }
        }
      }
      ConsSorted(s[0], rest);
      [s[0]] + rest
  }

  lemma ConsSorted(h: real, t: seq<real>)
    requires Sorted(t)
    requires forall k :: 0 <= k < |t| ==> h <= t[k]
    ensures Sorted([h] + t)
  {
  }

  /** The values of `s` in ascending order. */
  function Sort(s: seq<real>): (r: seq<real>)
    ensures Sorted(r)
    ensures multiset(r) == multiset(s)
  {
    if |s| == 0 then []
    else
      assert s == [s[0]] + s[1..];
      Insert(s[0], Sort(s[1..]))
  }

  /** Two sorted arrangements of the same values are the same sequence. */
  lemma {:induction false} SortedUnique(a: seq<real>, b: seq<real>)
    requires Sorted(a) && Sorted(b)
    requires multiset(a) == multiset(b)
    ensures a == b
    decreases |a|
  {
    assert |a| == |multiset(a)| == |b|;
    if |a| > 0 {
      HeadIsLeast(a, b[0]);
      HeadIsLeast(b, a[0]);
      assert a[0] == b[0];
      TailMultiset(a);
      TailMultiset(b);
      SortedTail(a);
      SortedTail(b);
      SortedUnique(a[1..], b[1..]);
      ConsEqual(a, b);
    }
  }

  lemma SortedTail(s: seq<real>)
    requires Sorted(s) && |s| > 0
    ensures Sorted(s[1..])
  {
    forall i, j | 0 <= i < j < |s| - 1 ensures s[1..][i] <= s[1..][j] {
      assert s[i + 1] <= s[j + 1];
    }
  }

  lemma ConsEqual(a: seq<real>, b: seq<real>)
    requires |a| > 0 && |b| > 0 && a[0] == b[0] && a[1..] == b[1..]
    ensures a == b
  {
    assert a == [a[0]] + a[1..];
    assert b == [b[0]] + b[1..];
  }

  lemma HeadIsLeast(s: seq<real>, x: real)
    requires Sorted(s) && x in multiset(s)
    ensures |s| > 0 && s[0] <= x
  {
    var i :| 0 <= i < |s| && s[i] == x;
  }

  lemma TailMultiset(s: seq<real>)
    requires |s| > 0
    ensures multiset(s[1..]) == multiset(s) - multiset{s[0]}
  {
    assert s == [s[0]] + s[1..];
  }

  /** `np.median(xs)`: the middle value of the sorted data, or the mean of
      the two middle values when the count is even. */
  function Median(xs: seq<real>): (m: real)
    requires |xs| >= 1
    ensures exists i :: 0 <= i < |xs| && xs[i] <= m
    ensures exists j :: 0 <= j < |xs| && m <= xs[j]
  {
    var s := Sort(xs);
    assert |s| == |multiset(s)| == |xs|;
    assert s[|s| / 2] in multiset(xs);
    assert s[(|s| - 1) / 2] in multiset(xs);
    Middle(s)
  }

  /** The middle of sorted data: the central element, or the mean of the
      two central elements. */
  function Middle(s: seq<real>): (m: real)
    requires |s| >= 1 && Sorted(s)
    ensures s[(|s| - 1) / 2] <= m <= s[|s| / 2]
  {
    var n := |s|;
    if n % 2 == 1 then s[n / 2] else (s[n / 2 - 1] + s[n / 2]) / 2.0
  }

  /** The median lies between any common lower and upper bound of the data. */
  lemma MedianBounds(xs: seq<real>, lo: real, hi: real)
    requires |xs| >= 1
    requires forall i :: 0 <= i < |xs| ==> lo <= xs[i] <= hi
    ensures lo <= Median(xs) <= hi
  {
    var s := Sort(xs);
    assert |s| == |multiset(s)| == |xs|;
    forall k | 0 <= k < |s| ensures lo <= s[k] <= hi {
      assert s[k] in multiset(xs);
    }
  }

  /** The median depends only on the values, not on their order. */
  lemma MedianPermutationInvariant(a: seq<real>, b: seq<real>)
    requires |a| >= 1
    requires multiset(a) == multiset(b)
    ensures |b| >= 1 && Median(a) == Median(b)
  {
    assert |a| == |multiset(a)| == |b|;
    SortedUnique(Sort(a), Sort(b));
    assert Sort(a) == Sort(b);
  }

  // ---------------------------------------------------------------------
  // Octave folding
  // ---------------------------------------------------------------------

  function Pow2(n: nat): (p: real)
    ensures p >= 1.0
  {
    if n == 0 then 1.0 else 2.0 * Pow2(n - 1)
  }

  lemma FloorHalves(y: real)
    requires y >= 1.0
    ensures (y / 2.0).Floor < y.Floor
  {
    if y < 2.0 {
      assert (y / 2.0).Floor == 0;
    } else {
      assert (y / 2.0).Floor as real <= y / 2.0 <= y - 1.0 < y.Floor as real;
    }
  }

  lemma RatioAboveOne(a: real, x: real)
    requires 0.0 < x < a
    ensures a / x > 1.0
  {
    var q := a / x;
    assert q * x == a;
  }

  /** Doubling a tempo below the window shrinks the whole number of
      doublings still needed. */
  lemma DoublingProgress(x: real)
    requires 0.0 < x < MinBpm
    ensures (MinBpm / (2.0 * x)).Floor < (MinBpm / x).Floor
  {
    RatioAboveOne(MinBpm, x);
    FloorHalves(MinBpm / x);
    HalfThenDivide(MinBpm, x);
  }

  lemma HalfThenDivide(x: real, p: real)
    requires p > 0.0
    ensures (x / 2.0) / p == x / (2.0 * p)
  {
  }

  lemma DoubleThenMultiply(x: real, p: real)
    ensures (2.0 * x) * p == x * (2.0 * p)
  {
  }

  /** `while bpm > 160: bpm /= 2.0`. */
  function HalveInto(x: real): (r: real)
    ensures x <= MaxBpm ==> r == x
    ensures x > MaxBpm ==> MaxBpm / 2.0 < r <= MaxBpm
    decreases x.Floor
  {
    if x > MaxBpm then
      FloorHalves(x);
      HalveInto(x / 2.0)
    else x
  }

  /** `while bpm < 60: bpm *= 2.0`, for a positive tempo (a negative one
      would double forever). */
  function DoubleInto(x: real): (r: real)
    requires x > 0.0
    ensures x >= MinBpm ==> r == x
    ensures x < MinBpm ==> MinBpm <= r < 2.0 * MinBpm
    decreases (MinBpm / x).Floor
  {
    if x < MinBpm then
      DoublingProgress(x);
      DoubleInto(2.0 * x)
    else x
  }

  /** The two loops of `get_bpm_from_drums` in sequence. */
  function OctaveFold(x: real): (r: real)
    requires x > 0.0
    ensures MinBpm <= r <= MaxBpm
    ensures MinBpm <= x <= MaxBpm ==> r == x
    ensures x > MaxBpm ==> MaxBpm / 2.0 < r
    ensures x < MinBpm ==> r < 2.0 * MinBpm
  {
    DoubleInto(HalveInto(x))
  }

  /** Folding an already folded tempo changes nothing. */
  lemma FoldIdempotent(x: real)
    requires x > 0.0
    ensures OctaveFold(OctaveFold(x)) == OctaveFold(x)
  {
  }

  /** Halving divides by a power of two, and at least once exactly when the
      tempo is above the window. */
  lemma {:induction false} HalvingIsOctaveShift(x: real)
    ensures exists n: nat :: HalveInto(x) == x / Pow2(n) && (n >= 1 <==> x > MaxBpm)
    decreases x.Floor
  {
    if x > MaxBpm {
      FloorHalves(x);
      HalvingIsOctaveShift(x / 2.0);
      var n: nat :| HalveInto(x / 2.0) == (x / 2.0) / Pow2(n) && (n >= 1 <==> x / 2.0 > MaxBpm);
      HalfThenDivide(x, Pow2(n));
      assert HalveInto(x) == x / Pow2(n + 1);
    } else {
      assert HalveInto(x) == x / Pow2(0);
    }
  }

  /** Doubling multiplies by a power of two, and at least once exactly when
      the tempo is below the window. */
  lemma {:induction false} DoublingIsOctaveShift(x: real)
    requires x > 0.0
    ensures exists n: nat :: DoubleInto(x) == x * Pow2(n) && (n >= 1 <==> x < MinBpm)
    decreases (MinBpm / x).Floor
  {
    if x < MinBpm {
      DoublingProgress(x);
      DoublingIsOctaveShift(2.0 * x);
      var n: nat :| DoubleInto(2.0 * x) == (2.0 * x) * Pow2(n) && (n >= 1 <==> 2.0 * x < MinBpm);
      DoubleThenMultiply(x, Pow2(n));
      assert DoubleInto(x) == x * Pow2(n + 1);
    } else {
      assert DoubleInto(x) == x * Pow2(0);
    }
  }

  /** Above the window the fold only halves; below it only doubles. */
  lemma FoldIsOctaveShift(x: real)
    requires x > 0.0
    ensures x > MaxBpm ==> exists n: nat :: n >= 1 && OctaveFold(x) == x / Pow2(n)
    ensures x < MinBpm ==> exists n: nat :: n >= 1 && OctaveFold(x) == x * Pow2(n)
  {
    HalvingIsOctaveShift(x);
    DoublingIsOctaveShift(HalveInto(x));
  }

  // ---------------------------------------------------------------------
  // get_bpm_from_drums
  // ---------------------------------------------------------------------

  datatype TempoError =
    | InsufficientBeats   // RuntimeError("Insufficient beats detected")
    | ZeroMedianInterval  // ZeroDivisionError from 60.0 / 0.0

  /** The `(bpm, beat_times)` pair the estimate returns. */
  datatype TempoReading = TempoReading(bpm: real, beats: seq<real>)

  /** The tail of `get_bpm_from_drums` after beat tracking. A negative
      median interval would make the doubling loop run forever, so it is
      excluded. */
  method GetBpm(beatTimes: seq<real>) returns (r: Result<TempoReading, TempoError>)
    requires |beatTimes| < 2 || Median(Diffs(beatTimes)) >= 0.0
    ensures r == Err(InsufficientBeats) <==> |beatTimes| < 2
    ensures r == Err(ZeroMedianInterval) <==> |beatTimes| >= 2 && Median(Diffs(beatTimes)) == 0.0
    ensures r.Ok? ==> r.value.beats == beatTimes
    ensures r.Ok? ==> |beatTimes| >= 2 && Median(Diffs(beatTimes)) > 0.0
    ensures r.Ok? ==> r.value.bpm == OctaveFold(RawBpm(Median(Diffs(beatTimes))))
    ensures r.Ok? ==> MinBpm <= r.value.bpm <= MaxBpm
  {
    if |beatTimes| < 2 {
      return Err(InsufficientBeats);
    }
    var interval := Median(Diffs(beatTimes));
    if interval == 0.0 {
      return Err(ZeroMedianInterval);
    }
    var bpm := FoldIntoWindow(RawBpm(interval));
    return Ok(TempoReading(bpm, beatTimes));
  }

  /** `60.0 / interval`: beats per minute for a beat every `interval`
      seconds. */
  function RawBpm(interval: real): (bpm: real)
    requires interval > 0.0
    ensures bpm > 0.0
    ensures bpm * interval == 60.0
  {
    assert (60.0 / interval) * interval == 60.0;
    60.0 / interval
  }

  /** The two loops `while bpm > 160: bpm /= 2.0` and
      `while bpm < 60: bpm *= 2.0`. */
  method FoldIntoWindow(raw: real) returns (bpm: real)
    requires raw > 0.0
    ensures bpm == OctaveFold(raw)
    ensures MinBpm <= bpm <= MaxBpm
  {
    bpm := raw;
    while bpm > MaxBpm
      invariant bpm > 0.0
      invariant HalveInto(bpm) == HalveInto(raw)
      decreases bpm.Floor
    {
      FloorHalves(bpm);
      bpm := bpm / 2.0;
    }
    var halved := bpm;
    while bpm < MinBpm
      invariant bpm > 0.0
      invariant DoubleInto(bpm) == DoubleInto(halved)
      decreases (MinBpm / bpm).Floor
    {
      DoublingProgress(bpm);
      bpm := bpm * 2.0;
    }
  }

  /** Strictly increasing beat times always give a tempo. */
  lemma IncreasingBeatsGiveTempo(beatTimes: seq<real>)
    requires |beatTimes| >= 2 && StrictlyIncreasing(beatTimes)
    ensures Median(Diffs(beatTimes)) > 0.0
  {
    IncreasingIffGapsPositive(beatTimes);
  }
}
