/** `_codex_baseline`: a backward search in doubling blocks for the last recorded counter. */
module CodexBaseline {
  import opened Wrappers
  import opened Lines
  import opened JsonlTail
  import opened CodexUsage

  const MAX_BASELINE_BYTES := 32 * 1024 * 1024
  const BASELINE_BLOCK_BYTES := 64 * 1024

  /** The counter of one line, None when it does not parse or carries none. */
  type LineReader = Bytes -> Option<Counter>

  /** `split(b"\n")`: one more part than there are newlines. */
  function Split(s: Bytes): (parts: seq<Bytes>)
    ensures parts != []
  {
    if s == [] then [[]] else Prefix(s[0], Split(s[1..]))
  }

  function Prefix(b: byte, parts: seq<Bytes>): (parts': seq<Bytes>)
    requires parts != []
    ensures parts' != []
  {
    if b == LF then [[]] + parts else [[b] + parts[0]] + parts[1..]
  }

  /** An empty line never parses. */
  function CounterOf(line: Bytes, loads: LineReader): (counter: Option<Counter>) {
    if line == [] then None else loads(line)
  }

  /** The counter of the last line that has one. */
  function LastParsed(lines: seq<Bytes>, loads: LineReader): (last: Option<Counter>) {
    if lines == [] then None
    else
      var later := LastParsed(lines[1..], loads);
      if later.Some? then later else CounterOf(lines[0], loads)
  }

  /** `found` is what the last of the lines that parse to a counter parses to; None if none does. */
  ghost predicate IsLast(lines: seq<Bytes>, loads: LineReader, found: Option<Counter>) {
    if found.Some? then
      exists i :: && 0 <= i < |lines| && lines[i] != [] && loads(lines[i]) == found
                  && forall j | i < j < |lines| :: lines[j] != [] ==> loads(lines[j]).None?
    else forall j | 0 <= j < |lines| :: lines[j] != [] ==> loads(lines[j]).None?
  }

  lemma {:induction false} LastParsedIsLast(lines: seq<Bytes>, loads: LineReader)
    ensures IsLast(lines, loads, LastParsed(lines, loads))
    decreases |lines|
  {
    if lines != [] {
      var rest := lines[1..];
      LastParsedIsLast(rest, loads);
      var later := LastParsed(rest, loads);
      if later.Some? {
        var i :| 0 <= i < |rest| && rest[i] != [] && loads(rest[i]) == later
                 && forall j | i < j < |rest| :: rest[j] != [] ==> loads(rest[j]).None?;
        assert lines[i + 1] == rest[i];
      } else {
        assert forall j | 0 < j < |lines| :: lines[j] == rest[j - 1];
      }
    }
  }

  function WindowStart(size: nat): nat {
    if size > MAX_BASELINE_BYTES then size - MAX_BASELINE_BYTES else 0
  }

  /** The lines a search of `f` may use: all, or those that begin after a newline inside the window. */
  function Candidates(f: Bytes): (lines: seq<Bytes>) {
    var lower := WindowStart(|f|);
    if lower == 0 then Split(f) else Split(f[lower..])[1..]
  }

  /** The simple form: search the candidate lines of the first `size` bytes. */
  function Search(f: Bytes, loads: LineReader): (counter: Option<Counter>) {
    LastParsed(Candidates(f), loads)
  }

  // ---------- splitting a concatenation ----------

  /** `b"\n".join(parts)`. */
  function Unsplit(parts: seq<Bytes>): (data: Bytes) {
    if parts == [] then [] else if |parts| == 1 then parts[0] else parts[0] + [LF] + Unsplit(parts[1..])
  }

  lemma PrefixJoins(b: byte, parts: seq<Bytes>)
    requires parts != [] && forall part | part in parts :: LF !in part
    ensures Unsplit(Prefix(b, parts)) == [b] + Unsplit(parts) && forall part | part in Prefix(b, parts) :: LF !in part
  {
    var parts' := Prefix(b, parts);
    if b == LF {
      assert parts'[1..] == parts;
    } else if |parts| > 1 {
      assert parts'[1..] == parts[1..];
    }
  }

  /** The parts joined again give the text, and none of them has a newline in it. */
  lemma {:induction false} SplitJoins(s: Bytes)
    ensures Unsplit(Split(s)) == s && forall part | part in Split(s) :: LF !in part
    decreases |s|
  {
    if s != [] {
      SplitJoins(s[1..]);
      PrefixJoins(s[0], Split(s[1..]));
      assert s == [s[0]] + s[1..];
    }
  }

  lemma {:induction false} SplitCut(a: Bytes, b: Bytes)
    ensures Split(a + b) == Split(a + Split(b)[0]) + Split(b)[1..]
    decreases |a|
  {
    var p := Split(b)[0];
    if a == [] {
      assert a + b == b && a + p == p;
      FirstPartIsALine(b);
    } else {
      SplitCut(a[1..], b);
      assert (a + b)[1..] == a[1..] + b && (a + p)[1..] == a[1..] + p;
      assert (a + b)[0] == a[0] == (a + p)[0];
      PrefixAppend(a[0], Split(a[1..] + p), Split(b)[1..]);
    }
  }

  lemma PrefixAppend(b: byte, parts: seq<Bytes>, more: seq<Bytes>)
    requires parts != []
    ensures Prefix(b, parts + more) == Prefix(b, parts) + more
  {
  }

  lemma {:induction false} FirstPartIsALine(b: Bytes)
    ensures |Split(b)[0]| <= |b| && Split(Split(b)[0]) == [Split(b)[0]]
    decreases |b|
  {
    if b != [] && b[0] != LF {
      FirstPartIsALine(b[1..]);
      var p := Split(b)[0];
      assert p[1..] == Split(b[1..])[0] && p[0] == b[0];
    }
  }

  lemma {:induction false} LastParsedAppend(a: seq<Bytes>, b: seq<Bytes>, loads: LineReader)
    ensures LastParsed(a + b, loads)
         == if LastParsed(b, loads).Some? then LastParsed(b, loads) else LastParsed(a, loads)
    decreases |a|
  {
    if a == [] {
      assert a + b == b && LastParsed(a, loads) == None;
    } else {
      assert (a + b)[1..] == a[1..] + b && (a + b)[0] == a[0];
      LastParsedAppend(a[1..], b, loads);
    }
  }

  /**
    One round back: `f` begins with `block`, `rest` was split before and `pending` is its first
    part, so splitting `block + pending` yields every line part that is new.
   */
  lemma RoundSplits(block: Bytes, rest: Bytes, loads: LineReader)
    ensures Split(block + rest) == Split(block + Split(rest)[0]) + Split(rest)[1..]
    ensures Split(block + rest)[0] == Split(block + Split(rest)[0])[0]
    ensures Split(block + rest)[1..] == Split(block + Split(rest)[0])[1..] + Split(rest)[1..]
  {
    SplitCut(block, rest);
  }

  /** A line found complete while reading back is found by the search of the whole window too. */
  lemma FoundIsLast(f: Bytes, cursor: nat, loads: LineReader)
    requires WindowStart(|f|) <= cursor <= |f|
    requires LastParsed(Split(f[cursor..])[1..], loads).Some?
    ensures Search(f, loads) == LastParsed(Split(f[cursor..])[1..], loads)
  {
    var lower := WindowStart(|f|);
    var rest := f[cursor..];
    assert f[lower..] == f[lower..cursor] + rest by {
      CutSlice(f, lower, cursor);
    }
    RoundSplits(f[lower..cursor], rest, loads);
    var added := Split(f[lower..cursor] + Split(rest)[0]);
    LastParsedAppend(added, Split(rest)[1..], loads);
    LastParsedAppend(added[1..], Split(rest)[1..], loads);
    assert lower == 0 ==> f[lower..] == f;
  }

  /**
    A record cut by a block border, or by the start of the window, is never parsed in part:
    every candidate is one of the whole lines of the file.
   */
  lemma CandidatesAreWholeLines(f: Bytes)
    ensures |Candidates(f)| <= |Split(f)|
    ensures Candidates(f) == Split(f)[|Split(f)| - |Candidates(f)|..]
  {
    var lower := WindowStart(|f|);
    assert f == f[..lower] + f[lower..];
    SplitCut(f[..lower], f[lower..]);
  }

  // ---------- backward search equals forward search ----------

  /** The two searches take the same counter from every line of `f`, whatever carriage returns are in it. */
  predicate ReadAlike(f: Bytes, loads: Bytes -> Option<Entry>, back: LineReader) {
    forall line | line in Split(f) && line != [] :: back(line) == LastCounter(EventsOf(line, loads), None)
  }

  /** The text the search looks at: all, or what follows the first newline of the window. */
  function Window(f: Bytes): (text: Bytes) {
    var text := f[WindowStart(|f|)..];
    var n := FirstEnd(text, {LF});
    if WindowStart(|f|) == 0 then f else if n == |text| then [] else text[n + 1..]
  }

  lemma WindowIs(f: Bytes)
    ensures if |f| <= 33554432 then Window(f) == f
            else
              var text := f[|f| - 33554432..];
              if LF !in text then Window(f) == []
              else exists n :: 0 <= n < |text| && text[n] == LF && LF !in text[..n] && Window(f) == text[n + 1..]
  {
    if |f| > 33554432 {
      var text := f[|f| - 33554432..];
      var n := FirstEnd(text, {LF});
      assert forall b | b in text[..n] :: b != LF;
    }
  }

  lemma {:induction false} LastCounterFrom(events: seq<Event>, reference: Option<Counter>)
    ensures LastCounter(events, reference)
         == if LastCounter(events, None).Some? then LastCounter(events, None) else reference
    decreases |events|
  {
    if events != [] {
      var next := if events[0].Tokens? then Some(events[0].counter) else reference;
      LastCounterFrom(events[1..], next);
      LastCounterFrom(events[1..], if events[0].Tokens? then Some(events[0].counter) else None);
    }
  }

  lemma {:induction false} SplitWithoutLf(line: Bytes)
    requires LF !in line
    ensures Split(line) == [line]
    decreases |line|
  {
    if line != [] {
      SplitWithoutLf(line[1..]);
      assert [line[0]] + line[1..] == line;
    }
  }

  /** A newline at the end of a line only ends it, also after a carriage return. */
  lemma {:induction false} NewlineEndsLine(line: Bytes)
    requires LF !in line && line != []
    ensures SplitLines(line + [LF], BYTE_LINE_ENDS) == SplitLines(line, BYTE_LINE_ENDS)
    decreases |line|
  {
    hide SplitLines, FirstEnd;
    var ended, n := line + [LF], FirstEnd(line, BYTE_LINE_ENDS.all);
    FirstEndUnique(ended, n, BYTE_LINE_ENDS.all);
    SplitFirstLine(ended, n, BYTE_LINE_ENDS);
    NothingSplits();
    assert ended[..n] == line[..n];
    if n == |line| {
      assert ended[n + 1..] == [] && line[..n] == line;
      SplitOnlyLine(line);
    } else {
      SplitFirstLine(line, n, BYTE_LINE_ENDS);
      if n + 1 == |line| {
        assert ended[n + 2..] == line[n + 1..] == [];
      } else {
        assert line[n + 1] in line;
        assert ended[n + 1..] == line[n + 1..] + [LF];
        NewlineEndsLine(line[n + 1..]);
      }
    }
  }

  lemma NothingSplits()
    ensures SplitLines<byte>([], BYTE_LINE_ENDS) == []
  {
  }

  lemma SplitOnlyLine(line: Bytes)
    requires line != [] && FirstEnd(line, BYTE_LINE_ENDS.all) == |line|
    ensures SplitLines(line, BYTE_LINE_ENDS) == [line]
  {
  }

  lemma NewlineAddsNothing<E>(line: Bytes, loads: Bytes -> Option<E>)
    requires LF !in line
    ensures Parse(line + [LF], loads) == Parse(line, loads)
  {
    if line == [] {
      SplitFirstLine([LF], 0, BYTE_LINE_ENDS);
      assert line + [LF] == [LF];
      assert Strip<byte>([], BYTE_SPACE) == [];
    } else {
      NewlineEndsLine(line);
    }
  }

  lemma FirstPart(f: Bytes, n: nat)
    requires n < |f| && f[n] == LF && LF !in f[..n]
    ensures Split(f) == [f[..n]] + Split(f[n + 1..])
  {
    var rest := f[n..];
    assert rest[0] == LF && rest[1..] == f[n + 1..];
    assert Split(rest) == [[]] + Split(f[n + 1..]);
    CutSlice(f, 0, n);
    assert f[0..] == f && f[0..n] == f[..n];
    SplitCut(f[..n], rest);
    assert f[..n] + [] == f[..n];
    SplitWithoutLf(f[..n]);
  }

  lemma NoCounters(loads: Bytes -> Option<Entry>)
    ensures LastCounter(EventsOf([], loads), None) == None
  {
  }

  lemma {:induction false} SplitForward(f: Bytes, loads: Bytes -> Option<Entry>, back: LineReader)
    requires ReadAlike(f, loads, back)
    ensures LastParsed(Split(f), back) == LastCounter(EventsOf(f, loads), None)
    decreases |f|
  {
    hide EventsOf;
    NoCounters(loads);
    var n := FirstEnd(f, {LF});
    if n == |f| {
      SplitWithoutLf(f);
    } else {
      var line, rest := f[..n], f[n + 1..];
      FirstPart(f, n);
      assert Split(f)[0] == line && line in Split(f);
      assert forall part | part in Split(rest) :: part in Split(f);
      SplitForward(rest, loads, back);
      assert f == (line + [LF]) + rest;
      EventsOfAppend(line + [LF], rest, loads);
      assert EventsOf(line + [LF], loads) == EventsOf(line, loads) by {
        NewlineAddsNothing(line, loads);
        SameParse(line + [LF], line, loads);
      }
      LastAppend(EventsOf(line, loads), EventsOf(rest, loads), None, Unnamed);
      LastCounterFrom(EventsOf(rest, loads), LastCounter(EventsOf(line, loads), None));
      LastParsedAppend([line], Split(rest), back);
      assert LastParsed([line], back) == CounterOf(line, back);
    }
  }

  lemma SameParse(a: Bytes, b: Bytes, loads: Bytes -> Option<Entry>)
    requires Parse(a, loads) == Parse(b, loads)
    ensures EventsOf(a, loads) == EventsOf(b, loads)
  {
  }

  /** The candidates are the lines of the window, if there are any. */
  lemma WindowLines(f: Bytes, back: LineReader)
    ensures Search(f, back) == LastParsed(Split(Window(f)), back)
  {
    var text := f[WindowStart(|f|)..];
    var n := FirstEnd(text, {LF});
    if WindowStart(|f|) > 0 {
      if n == |text| {
        SplitWithoutLf(text);
        assert LastParsed([[]], back) == CounterOf([], back) == None;
      } else {
        FirstPart(text, n);
      }
    }
  }

  lemma SearchFinds(f: Bytes, back: LineReader)
    ensures IsLast(Split(Window(f)), back, Search(f, back))
  {
    WindowLines(f, back);
    LastParsedIsLast(Split(Window(f)), back);
  }

  /**
    For a file of any size, the backward search finds what the forward fold over the same text
    leaves as last counter: over the whole file within the read budget, over its window otherwise.
   */
  lemma BackwardEqualsForward(f: Bytes, loads: Bytes -> Option<Entry>, back: LineReader)
    requires ReadAlike(Window(f), loads, back)
    ensures Search(f, back) == LastCounter(EventsOf(Window(f), loads), None)
    ensures |f| <= MAX_BASELINE_BYTES ==> Window(f) == f
  {
    WindowLines(f, back);
    SplitForward(Window(f), loads, back);
  }

  /** The window begins at the start of a line. */
  lemma WindowCut(f: Bytes)
    ensures |Window(f)| <= |f| && f == f[..|f| - |Window(f)|] + Window(f)
    ensures Window(f) == [] || Window(f) == f || f[|f| - |Window(f)| - 1] == LF
  {
  }

  /** So a counter found is the last one of the whole file, whatever its size. */
  lemma FoundIsLastOfFile(f: Bytes, loads: Bytes -> Option<Entry>, back: LineReader)
    requires ReadAlike(Window(f), loads, back) && Search(f, back).Some?
    ensures Search(f, back) == LastCounter(EventsOf(f, loads), None)
  {
    hide EventsOf, Search, ReadAlike, Window;
    BackwardEqualsForward(f, loads, back);
    WindowCut(f);
    var head, text := f[..|f| - |Window(f)|], Window(f);
    if text == [] {
      NoCounters(loads);
    } else {
      EventsOfAppend(head, text, loads);
      LastAppend(EventsOf(head, loads), EventsOf(text, loads), None, Unnamed);
      LastCounterFrom(EventsOf(text, loads), LastCounter(EventsOf(head, loads), None));
    }
  }

  /** The reversed scan over the parts of one round. */
  method ScanBack(lines: seq<Bytes>, loads: LineReader) returns (found: Option<Counter>)
    ensures found == LastParsed(lines, loads) && IsLast(lines, loads, found)
  {
    LastParsedIsLast(lines, loads);
    found := None;
    var i := |lines|;
    while i > 0
      invariant 0 <= i <= |lines|
      invariant LastParsed(lines[i..], loads) == None == found
    {
      i := i - 1;
      assert lines[i..][0] == lines[i] && lines[i..][1..] == lines[i + 1..];
      found := CounterOf(lines[i], loads);
      if found.Some? {
        assert lines == lines[..i] + lines[i..];
        LastParsedAppend(lines[..i], lines[i..], loads);
        return;
      }
    }
    assert lines[0..] == lines;
  }

  /** The parts of `f[cursor..]` that the search has looked at; at the start of the file, all. */
  function Done(f: Bytes, cursor: nat): (lines: seq<Bytes>)
    requires cursor <= |f|
  {
    if cursor > 0 then Split(f[cursor..])[1..] else Split(f)
  }

  /** Everything from `cursor` on was searched in vain, except the part kept in `pending`. */
  ghost predicate Searched(f: Bytes, cursor: nat, pending: Bytes, loads: LineReader)
    requires cursor <= |f|
  {
    && (cursor > 0 ==> pending == Split(f[cursor..])[0])
    && LastParsed(Done(f, cursor), loads) == None
  }

  /** What one more round, from `before` back to `cursor`, finds. */
  lemma RoundSearches(f: Bytes, cursor: nat, before: nat, pending: Bytes, loads: LineReader)
    requires WindowStart(|f|) <= cursor < before <= |f| && Searched(f, before, pending, loads)
    ensures
      var lines := Split(f[cursor..before] + pending);
      var found := LastParsed(if cursor > 0 then lines[1..] else lines, loads);
      if found.Some? then found == Search(f, loads)
      else Searched(f, cursor, if cursor > 0 then lines[0] else [], loads)
  {
    var rest := f[before..];
    CutSlice(f, cursor, before);
    RoundSplits(f[cursor..before], rest, loads);
    var lines := Split(f[cursor..before] + pending);
    LastParsedAppend(lines[1..], Split(rest)[1..], loads);
    LastParsedAppend(lines, Split(rest)[1..], loads);
    if cursor > 0 {
      if LastParsed(lines[1..], loads).Some? {
        FoundIsLast(f, cursor, loads);
      }
    } else {
      assert f[0..] == f;
    }
  }

  lemma PendingFits(f: Bytes, cursor: nat)
    requires cursor <= |f|
    ensures |Split(f[cursor..])[0]| <= |f| - cursor
  {
    FirstPartIsALine(f[cursor..]);
  }

  lemma SearchedAll(f: Bytes, pending: Bytes, loads: LineReader)
    requires Searched(f, WindowStart(|f|), pending, loads)
    ensures Search(f, loads) == None
  {
  }

  lemma NothingSearched(f: Bytes, loads: LineReader)
    ensures Searched(f, |f|, [], loads)
  {
  }

  /**
    `_codex_baseline`, for the size sampled by `stat` and the content then found. `failing(c)` says
    that the read at byte `c` raises OSError. Ghost results: bytes read, and bytes split in all rounds.
   */
  method FindBaseline(file: Bytes, size: nat, failing: nat -> bool, loads: LineReader)
    returns (memo: Option<Counter>, ghost bytesRead: nat, ghost bytesSplit: nat)
    ensures |file| < size ==> memo == None
    ensures |file| >= size && memo.Some? ==> memo == Search(file[..size], loads)
    ensures |file| >= size && (forall c: nat :: !failing(c)) ==> memo == Search(file[..size], loads)
    ensures |file| >= size && (memo.Some? || forall c: nat :: !failing(c)) ==>
              IsLast(Split(Window(file[..size])), loads, memo)
    ensures bytesRead <= size && bytesRead <= MAX_BASELINE_BYTES
    ensures bytesSplit <= 3 * bytesRead
  {
    hide IsLast, Window, Search, LastParsed, Searched, Split;
    memo, bytesRead, bytesSplit := None, 0, 0;
    ghost var f := if |file| >= size then file[..size] else [];
    NothingSearched(f, loads);
    SearchFinds(f, loads);
    if size == 0 {
      SearchedAll(f, [], loads);
      return;
    }
    var cursor := size;
    var lowerBound := WindowStart(size);
    var blockSize := BASELINE_BLOCK_BYTES;
    var pending: Bytes := [];
    while cursor > lowerBound
      invariant lowerBound <= cursor <= size && bytesRead == size - cursor
      invariant memo == None
      invariant |file| < size ==> cursor == size
      invariant |file| >= size ==> Searched(f, cursor, pending, loads)
      invariant |pending| <= bytesRead
      invariant cursor > lowerBound ==> bytesRead == blockSize - BASELINE_BLOCK_BYTES && bytesSplit <= 2 * bytesRead
      invariant bytesSplit <= 3 * bytesRead && blockSize >= BASELINE_BLOCK_BYTES
      decreases cursor
    {
      var count := if blockSize < cursor - lowerBound then blockSize else cursor - lowerBound;
      ghost var before := cursor;
      cursor := cursor - count;
      if failing(cursor) {
        return;
      }
      var block := From(file, cursor);
      block := if |block| < count then block else block[..count];
      bytesRead := bytesRead + count;
      if |block| != count {
        return;
      }
      CutSlice(file, cursor, before);
      SliceOfPrefix(file, size, cursor, before);
      RoundSearches(f, cursor, before, pending, loads);
      var lines := Split(block + pending);
      bytesSplit := bytesSplit + |block + pending|;
      if cursor > 0 {
        pending, lines := lines[0], lines[1..];
      } else {
        pending := [];
      }
      memo := ScanBack(lines, loads);
      if memo.Some? {
        return;
      }
      PendingFits(f, cursor);
      blockSize := blockSize * 2;
    }
    if |file| >= size {
      SearchedAll(f, pending, loads);
    }
  }
}
