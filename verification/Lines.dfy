/** Python's `splitlines` and `strip`, over any element type (bytes or characters). */
module Lines {

  /** The elements that end a line; `cr` directly followed by `lf` is one line end. */
  datatype LineEnds<T(==)> = LineEnds(all: set<T>, cr: T, lf: T) {
    predicate Valid() {
      cr in all && lf in all && cr != lf
    }
  }

  // ---------- line ends and white space of Python's `str` ----------

  function TextLineEnds(): LineEnds<char> {
    LineEnds({'\n', '\r', '\U{b}', '\U{c}', '\U{1c}', '\U{1d}', '\U{1e}', '\U{85}', '\U{2028}', '\U{2029}'}, '\r', '\n')
  }

  function TextSpace(): set<char> {
    {'\t', '\n', '\U{b}', '\U{c}', '\r', '\U{1c}', '\U{1d}', '\U{1e}', '\U{1f}', ' ', '\U{85}', '\U{a0}', '\U{1680}',
     '\U{2000}', '\U{2001}', '\U{2002}', '\U{2003}', '\U{2004}', '\U{2005}', '\U{2006}', '\U{2007}', '\U{2008}',
     '\U{2009}', '\U{200a}', '\U{2028}', '\U{2029}', '\U{202f}', '\U{205f}', '\U{3000}'}
  }

  /** The same sets, by ranges of code points. */
  lemma TextSetsAre(c: char)
    ensures c in TextLineEnds().all <==>
              || '\n' <= c <= '\r' || '\U{1c}' <= c <= '\U{1e}' || c == '\U{85}' || '\U{2028}' <= c <= '\U{2029}'
    ensures c in TextSpace() <==>
              || c in TextLineEnds().all || c == '\t' || c == '\U{1f}' || c == ' ' || c == '\U{a0}' || c == '\U{1680}'
              || '\U{2000}' <= c <= '\U{200a}' || c == '\U{202f}' || c == '\U{205f}' || c == '\U{3000}'
  {
  }

  // ---------- lines ----------

  /** Index of the first line-ending element, or |s|. */
  function FirstEnd<T(==)>(s: seq<T>, ends: set<T>): (n: nat)
    ensures n <= |s|
    ensures n < |s| ==> s[n] in ends
    ensures forall i | 0 <= i < n :: s[i] !in ends
  {
    if s == [] || s[0] in ends then 0 else 1 + FirstEnd(s[1..], ends)
  }

  function EndWidth<T(==)>(s: seq<T>, n: nat, ends: LineEnds<T>): (w: nat)
    requires n < |s|
    ensures 1 <= w <= |s| - n
  {
    if s[n] == ends.cr && n + 1 < |s| && s[n + 1] == ends.lf then 2 else 1
  }

  /** `splitlines()`: no empty last line after a final line end. */
  function SplitLines<T(==)>(s: seq<T>, ends: LineEnds<T>): (lines: seq<seq<T>>)
    decreases |s|
  {
    if s == [] then []
    else
      var n := FirstEnd(s, ends.all);
      if n == |s| then [s] else [s[..n]] + SplitLines(s[n + EndWidth(s, n, ends)..], ends)
  }

  /** Cutting a text just past a line feed cuts no line in two. */
  lemma {:induction false} SplitLinesAppend<T>(a: seq<T>, b: seq<T>, ends: LineEnds<T>)
    requires ends.Valid()
    requires a == [] || a[|a| - 1] == ends.lf
    ensures SplitLines(a + b, ends) == SplitLines(a, ends) + SplitLines(b, ends)
    decreases |a|
  {
    if a == [] {
      assert a + b == b;
      assert SplitLines(a, ends) == [];
    } else {
      var n := FirstEnd(a, ends.all);
      FirstLineAppend(a, [], n, ends);
      FirstLineAppend(a, b, n, ends);
      var rest := a[n + EndWidth(a, n, ends)..];
      assert a + [] == a && rest + [] == rest;
      assert rest == [] || rest[|rest| - 1] == a[|a| - 1];
      SplitLinesAppend(rest, b, ends);
      Associate(a[..n], SplitLines(rest, ends), SplitLines(b, ends));
    }
  }

  lemma Associate<T>(x: T, r: seq<T>, b: seq<T>)
    ensures [x] + (r + b) == ([x] + r) + b
  {
  }

  /** The first line of a text that has a line end. */
  lemma SplitFirstLine<T>(s: seq<T>, n: nat, ends: LineEnds<T>)
    requires n == FirstEnd(s, ends.all) && n < |s|
    ensures SplitLines(s, ends) == [s[..n]] + SplitLines(s[n + EndWidth(s, n, ends)..], ends)
  {
  }

  /** `line` begins at `start` and has no line end in it; the next one begins behind its line end, or there is none. */
  ghost predicate IsLine<T>(s: seq<T>, ends: LineEnds<T>, line: seq<T>, start: nat, next: nat) {
    var end := start + |line|;
    && start < next <= |s| && end <= next && line == s[start..end]
    && (forall k | 0 <= k < |line| :: line[k] !in ends.all)
    && (if end == |s| then next == |s|
        else s[end] in ends.all
             && next == end + if s[end] == ends.cr && end + 1 < |s| && s[end + 1] == ends.lf then 2 else 1)
  }

  /** From `start` on the text consists of these lines, each directly behind the line end of the one before. */
  ghost predicate CutFrom<T>(s: seq<T>, ends: LineEnds<T>, lines: seq<seq<T>>, start: nat)
    decreases |lines|
  {
    if lines == [] then start == |s|
    else exists next: nat :: IsLine(s, ends, lines[0], start, next) && CutFrom(s, ends, lines[1..], next)
  }

  /** `splitlines` cuts the text at every line end and nowhere else. */
  lemma {:induction false} SplitLinesCuts<T>(s: seq<T>, ends: LineEnds<T>, start: nat)
    requires start <= |s|
    ensures CutFrom(s, ends, SplitLines(s[start..], ends), start)
    decreases |s| - start
  {
    hide IsLine, SplitLines;
    if start == |s| {
      NoLinesLeft(s, ends, start);
    } else {
      var width := FirstLine(s, ends, start);
      var next := start + width;
      SplitLinesCuts(s, ends, next);
      var lines := SplitLines(s[start..], ends);
      assert IsLine(s, ends, lines[0], start, next) && lines[1..] == SplitLines(s[next..], ends);
    }
  }

  lemma NoLinesLeft<T>(s: seq<T>, ends: LineEnds<T>, start: nat)
    requires start == |s|
    ensures SplitLines(s[start..], ends) == []
  {
  }

  lemma FirstLine<T>(s: seq<T>, ends: LineEnds<T>, start: nat) returns (width: nat)
    requires start < |s|
    ensures 0 < width <= |s| - start
    ensures var lines := SplitLines(s[start..], ends);
            && lines != [] && IsLine(s, ends, lines[0], start, start + width)
            && lines[1..] == SplitLines(s[start + width..], ends)
  {
    hide SplitLines, IsLine, EndWidth;
    var rest := s[start..];
    var n := FirstEnd(rest, ends.all);
    if n == |rest| {
      width := n;
      LastLine(s, ends, start);
    } else {
      SplitFirstLine(rest, n, ends);
      EndedLine(s, ends, start, n);
      width := n + EndWidth(rest, n, ends);
      assert rest[width..] == s[start + width..];
    }
  }

  lemma LastLine<T>(s: seq<T>, ends: LineEnds<T>, start: nat)
    requires start < |s| && FirstEnd(s[start..], ends.all) == |s| - start
    ensures SplitLines(s[start..], ends) == [s[start..]] && SplitLines(s[|s|..], ends) == []
    ensures IsLine(s, ends, s[start..], start, |s|)
  {
  }

  lemma EndedLine<T>(s: seq<T>, ends: LineEnds<T>, start: nat, n: nat)
    requires start <= |s| && n == FirstEnd(s[start..], ends.all) && n < |s| - start
    ensures IsLine(s, ends, s[start..][..n], start, start + n + EndWidth(s[start..], n, ends))
  {
    var rest := s[start..];
    assert rest[..n] == s[start..start + n];
    assert rest[n] == s[start + n] && (n + 1 < |rest| ==> rest[n + 1] == s[start + n + 1]);
  }

  /** Every line lies somewhere in the text. */
  lemma {:induction false} LineLies<T>(s: seq<T>, ends: LineEnds<T>, lines: seq<seq<T>>, start: nat, r: nat)
    returns (at: nat, next: nat)
    requires CutFrom(s, ends, lines, start) && r < |lines|
    ensures IsLine(s, ends, lines[r], at, next)
    decreases r
  {
    hide IsLine;
    var behind: nat :| IsLine(s, ends, lines[0], start, behind) && CutFrom(s, ends, lines[1..], behind);
    if r == 0 {
      at, next := start, behind;
    } else {
      at, next := LineLies(s, ends, lines[1..], behind, r - 1);
    }
  }

  lemma FirstLineAppend<T>(a: seq<T>, b: seq<T>, n: nat, ends: LineEnds<T>)
    requires ends.Valid()
    requires a != [] && a[|a| - 1] == ends.lf && n == FirstEnd(a, ends.all)
    ensures n < |a|
    ensures SplitLines(a + b, ends) == [a[..n]] + SplitLines(a[n + EndWidth(a, n, ends)..] + b, ends)
  {
    hide FirstEnd;
    FirstEndUnique(a + b, n, ends.all);
    var w := EndWidth(a, n, ends);
    assert EndWidth(a + b, n, ends) == w;
    SliceAppend(a, b, n, n + w);
  }

  lemma SliceAppend<T>(a: seq<T>, b: seq<T>, n: nat, m: nat)
    requires n <= |a| && m <= |a|
    ensures (a + b)[..n] == a[..n] && (a + b)[m..] == a[m..] + b
  {
  }

  lemma {:induction false} FirstEndUnique<T>(s: seq<T>, n: nat, ends: set<T>)
    requires n < |s| && s[n] in ends
    requires forall i | 0 <= i < n :: s[i] !in ends
    ensures FirstEnd(s, ends) == n
  {
  }

  /** `rstrip()` with `space` the elements to drop. */
  function RStrip<T(==)>(s: seq<T>, space: set<T>): (r: seq<T>)
    ensures r <= s
    ensures r != [] ==> r[|r| - 1] !in space
    ensures forall i | |r| <= i < |s| :: s[i] in space
  {
    if s != [] && s[|s| - 1] in space then RStrip(s[..|s| - 1], space) else s
  }

  /** `lstrip()`. */
  function LStrip<T(==)>(s: seq<T>, space: set<T>): (r: seq<T>)
    ensures |r| <= |s| && r == s[|s| - |r|..]
    ensures r != [] ==> r[0] !in space
    ensures forall i | 0 <= i < |s| - |r| :: s[i] in space
  {
    if s != [] && s[0] in space then LStrip(s[1..], space) else s
  }

  /** `r` is what is left of `s` without the elements of `space` at both ends. */
  ghost predicate Stripped<T>(s: seq<T>, r: seq<T>, space: set<T>) {
    exists i, j ::
      && 0 <= i <= j <= |s| && r == s[i..j]
      && (forall k | 0 <= k < i || j <= k < |s| :: s[k] in space)
  }

  /** `strip()`. */
  function Strip<T(==)>(s: seq<T>, space: set<T>): (r: seq<T>)
    ensures r != [] ==> r[0] !in space && r[|r| - 1] !in space
    ensures r == [] <==> forall i | 0 <= i < |s| :: s[i] in space
  {
    LStrip(RStrip(s, space), space)
  }

  lemma IsStripped<T>(s: seq<T>, front: seq<T>, r: seq<T>, space: set<T>)
    requires front <= s && forall k | |front| <= k < |s| :: s[k] in space
    requires |r| <= |front| && r == front[|front| - |r|..] && forall k | 0 <= k < |front| - |r| :: front[k] in space
    ensures Stripped(s, r, space)
  {
    var i, j := |front| - |r|, |front|;
    assert r == s[i..j];
    forall k | 0 <= k < i || j <= k < |s|
      ensures s[k] in space
    {
      if k < i {
        assert s[k] == front[k];
      }
    }
  }

  lemma StripStrips<T>(s: seq<T>, space: set<T>)
    ensures Stripped(s, Strip(s, space), space)
  {
    hide RStrip, LStrip, Stripped;
    var front := RStrip(s, space);
    var r := LStrip(front, space);
    IsStripped(s, front, r, space);
  }

  // ---------- slices ----------

  lemma CutSlice<T>(s: seq<T>, i: nat, j: nat)
    requires i <= j <= |s|
    ensures s[i..] == s[i..j] + s[j..]
    ensures s[i..][..j - i] == s[i..j]
  {
  }

  /** A slice lies within any prefix that reaches as far. */
  lemma SliceOfPrefix<T>(s: seq<T>, n: nat, i: nat, j: nat)
    requires i <= j <= n <= |s|
    ensures s[..n][i..j] == s[i..j]
  {
  }
}
