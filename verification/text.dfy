/** The Python string operations the chart formatter and the stem pickers
    use: `str.rstrip()`, `sep.join(...)`, `str.lower()`, `str.startswith`
    and `in` on strings. `Split` on '\n' is the basis of `SplitLines`, which
    models the `splitlines()` the tests apply to the chart. */
module Text {

  /** Python's `str.isspace()` for one character: the ASCII blanks, the
      separators U+001C..U+001F, U+0085 and the Unicode space characters. */
  predicate IsSpace(c: char) {
    || c == ' ' || c == '\t' || c == '\n' || c == '\r'
    || c == '\U{000B}' || c == '\U{000C}'
    || ('\U{001C}' <= c <= '\U{001F}')
    || c == '\U{0085}' || c == '\U{00A0}' || c == '\U{1680}'
    || ('\U{2000}' <= c <= '\U{200A}')
    || c == '\U{2028}' || c == '\U{2029}' || c == '\U{202F}'
    || c == '\U{205F}' || c == '\U{3000}'
  }

  /** `s.rstrip()`: the longest prefix of `s` that does not end in whitespace. */
  function RStrip(s: string): (r: string)
    ensures |r| <= |s| && r == s[..|r|]
    ensures forall i :: |r| <= i < |s| ==> IsSpace(s[i])
    ensures r == [] || !IsSpace(r[|r| - 1])
  {
    if |s| > 0 && IsSpace(s[|s| - 1]) then RStrip(s[..|s| - 1]) else s
  }

  /** `sep.join(xs)`. */
  function Join(sep: string, xs: seq<string>): string
  {
    if |xs| == 0 then ""
    else if |xs| == 1 then xs[0]
    else xs[0] + sep + Join(sep, xs[1..])
  }

  /** `s.split(c)` for a one-character separator: the maximal runs between
      separators, so there is always one more piece than separators. */
  function Split(s: string, c: char): (r: seq<string>)
    ensures |r| >= 1
    ensures forall i :: 0 <= i < |r| ==> c !in r[i]
  {
    if |s| == 0 then [""]
    else
      var rest := Split(s[1..], c);
      if s[0] == c then [""] + rest
      else [[s[0]] + rest[0]] + rest[1..]
  }

  /** `s.splitlines()` for text whose only line break is '\n': the pieces
      between newlines, without the empty piece after a final newline. */
  function SplitLines(s: string): seq<string>
  {
    var pieces := Split(s, '\n');
    if pieces[|pieces| - 1] == "" then pieces[..|pieces| - 1] else pieces
  }

  /** When the pieces end with an empty one, `SplitLines` drops exactly it. */
  lemma SplitLinesDropsLast(s: string, lines: seq<string>)
    requires Split(s, '\n') == lines + [""]
    ensures SplitLines(s) == lines
  {
    assert (lines + [""])[..|lines|] == lines;
  }

  /** `str.lower()` restricted to ASCII letters. */
  function LowerChar(c: char): char {
    if 'A' <= c <= 'Z' then (c as int + 32) as char else c
  }

  function Lower(s: string): (r: string)
    ensures |r| == |s|
    ensures forall i :: 0 <= i < |s| ==> r[i] == LowerChar(s[i])
  {
    seq(|s|, i requires 0 <= i < |s| => LowerChar(s[i]))
  }

  /** `s.startswith(prefix)`. */
  predicate StartsWith(s: string, prefix: string) {
    |prefix| <= |s| && s[..|prefix|] == prefix
  }

  /** `needle` occurs in `s` starting at index `i`. */
  predicate OccursAt(s: string, needle: string, i: int) {
    0 <= i && i + |needle| <= |s| && s[i..i + |needle|] == needle
  }

  /** `needle in s` for strings. */
  function Contains(s: string, needle: string): (b: bool)
    ensures b <==> exists i :: OccursAt(s, needle, i)
  {
    if |needle| > |s| then false
    else if s[..|needle|] == needle then (assert OccursAt(s, needle, 0); true)
    else
      var b := Contains(s[1..], needle);
      assert forall i :: OccursAt(s[1..], needle, i) <==> OccursAt(s, needle, i + 1) by {
        forall i ensures OccursAt(s[1..], needle, i) <==> OccursAt(s, needle, i + 1) {
          if 0 <= i && i + |needle| <= |s[1..]| {
            assert s[1..][i..i + |needle|] == s[i + 1..i + 1 + |needle|];
          }
        }
      }
      assert !OccursAt(s, needle, 0);
      assert forall i :: OccursAt(s, needle, i) && i >= 1 ==> OccursAt(s[1..], needle, i - 1);
      b
  }

  /** Joining the pieces of a split with the separator gives back the text. */
  lemma {:induction false} JoinSplit(s: string, c: char)
    ensures Join([c], Split(s, c)) == s
    decreases |s|
  {
    if |s| > 0 {
      var rest := Split(s[1..], c);
      JoinSplit(s[1..], c);
      if s[0] == c {
        assert Join([c], [""] + rest) == "" + [c] + Join([c], rest);
      } else if |rest| == 1 {
        assert Split(s, c) == [[s[0]] + rest[0]];
      } else {
        var head := [s[0]] + rest[0];
        assert Split(s, c) == [head] + rest[1..];
        assert Join([c], [head] + rest[1..]) == head + [c] + Join([c], rest[1..]);
        assert Join([c], rest) == rest[0] + [c] + Join([c], rest[1..]);
        assert s == [s[0]] + s[1..];
      }
    }
  }

  /** A text without the separator is a single piece. */
  lemma {:induction false} SplitWithoutSeparator(s: string, c: char)
    requires c !in s
    ensures Split(s, c) == [s]
    decreases |s|
  {
    if |s| > 0 {
      SplitWithoutSeparator(s[1..], c);
      assert s == [s[0]] + s[1..];
    }
  }

  /** Splitting a text that starts with character `x`. */
  lemma SplitCons(x: char, t: string, c: char)
    ensures Split([x] + t, c) == if x == c then [""] + Split(t, c)
                                 else [[x] + Split(t, c)[0]] + Split(t, c)[1..]
  {
    assert ([x] + t)[1..] == t;
  }

  /** A separator splits the text into the pieces of each side. */
  lemma {:induction false} SplitAround(a: string, b: string, c: char)
    ensures Split(a + [c] + b, c) == Split(a, c) + Split(b, c)
    decreases |a|
  {
    if |a| == 0 {
      assert a + [c] + b == [c] + b;
      SplitCons(c, b, c);
    } else {
      var t := a[1..];
      assert a == [a[0]] + t;
      assert a + [c] + b == [a[0]] + (t + [c] + b);
      SplitAround(t, b, c);
      SplitCons(a[0], t + [c] + b, c);
      SplitCons(a[0], t, c);
      var restA := Split(t, c);
      var restB := Split(b, c);
      if a[0] == c {
        PrependAppend("", restA, restB);
      } else {
        ExtendFirstAppend([a[0]], restA, restB);
      }
    }
  }

  lemma PrependAppend(p: string, xs: seq<string>, ys: seq<string>)
    ensures [p] + (xs + ys) == ([p] + xs) + ys
  {
  }

  /** Prefixing the first piece of a list commutes with appending more pieces. */
  lemma ExtendFirstAppend(p: string, xs: seq<string>, ys: seq<string>)
    requires |xs| >= 1
    ensures [p + (xs + ys)[0]] + (xs + ys)[1..] == ([p + xs[0]] + xs[1..]) + ys
  {
    assert (xs + ys)[1..] == xs[1..] + ys;
  }

  /** Joining two non-empty lists is joining each and then the two results. */
  lemma {:induction false} JoinAppend(sep: string, xs: seq<string>, ys: seq<string>)
    requires |xs| >= 1 && |ys| >= 1
    ensures Join(sep, xs + ys) == Join(sep, xs) + sep + Join(sep, ys)
    decreases |xs|
  {
    if |xs| == 1 {
      assert (xs + ys)[1..] == ys;
    } else {
      assert (xs + ys)[1..] == xs[1..] + ys;
      JoinAppend(sep, xs[1..], ys);
    }
  }

  /** Splitting a join undoes it when no piece holds the separator. */
  lemma {:induction false} SplitJoin(xs: seq<string>, c: char)
    requires |xs| >= 1
    requires forall i :: 0 <= i < |xs| ==> c !in xs[i]
    ensures Split(Join([c], xs), c) == xs
    decreases |xs|
  {
    SplitWithoutSeparator(xs[0], c);
    if |xs| > 1 {
      SplitJoin(xs[1..], c);
      SplitAround(xs[0], Join([c], xs[1..]), c);
      assert xs == [xs[0]] + xs[1..];
    }
  }

  /** Splitting a join at its separator recovers the trailing pieces
      that hold no separator, whatever the leading pieces hold. */
  lemma SplitJoinedTail(head: seq<string>, tail: seq<string>, c: char)
    requires |head| >= 1 && |tail| >= 1
    requires forall i :: 0 <= i < |tail| ==> c !in tail[i]
    ensures Split(Join([c], head + tail), c) == Split(Join([c], head), c) + tail
  {
    JoinAppend([c], head, tail);
    SplitJoin(tail, c);
    SplitAround(Join([c], head), Join([c], tail), c);
  }

  /** Lines joined by newlines, the last one empty, end with the others. */
  lemma JoinedLinesEndWith(head: seq<string>, tail: seq<string>, shown: seq<string>)
    requires |head| >= 1
    requires forall i :: 0 <= i < |tail| ==> '\n' !in tail[i]
    requires tail == shown + [""]
    ensures var lines := SplitLines(Join("\n", head + tail));
            |shown| <= |lines| && lines[|lines| - |shown|..] == shown
  {
    var pieces := Split(Join("\n", head), '\n');
    SplitJoinedTail(head, tail, '\n');
    assert pieces + tail == (pieces + shown) + [""];
    SplitLinesDropsLast(Join("\n", head + tail), pieces + shown);
    assert (pieces + shown)[|pieces|..] == shown;
  }

  /** A join of separator-free pieces with a separator-free glue is
      separator-free. */
  lemma {:induction false} JoinAvoids(sep: string, xs: seq<string>, c: char)
    requires c !in sep
    requires forall i :: 0 <= i < |xs| ==> c !in xs[i]
    ensures c !in Join(sep, xs)
    decreases |xs|
  {
    if |xs| > 1 {
      JoinAvoids(sep, xs[1..], c);
    }
  }
}
