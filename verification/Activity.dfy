/** Telling visible activity from no-op redraws of a terminal (pty_session.py:92-133, 1898-1941). */
module Activity {
  import opened Wrappers
  import opened Lines

  const MAX_CURSOR_CELLS := 2

  /** The glyphs a TUI draws as its own cursor. */
  function CursorGlyphs(): set<char> {
    {' ', '_', '|', '\U{2588}', '\U{2589}', '\U{258a}', '\U{258b}', '\U{258c}', '\U{258d}', '\U{258e}', '\U{258f}',
     '\U{2590}', '\U{2581}', '\U{2582}', '\U{2583}', '\U{2584}', '\U{2585}', '\U{2586}', '\U{2587}',
     '\U{2502}', '\U{2503}', '\U{25ae}', '\U{25af}', '\U{a0}'}
  }

  /** Blank, underscore, vertical bars, the block elements and their like. */
  lemma GlyphsAre(c: char)
    ensures c in CursorGlyphs() <==>
              || c in " _|" || c == '\U{a0}' || '\U{2581}' <= c <= '\U{2590}' || '\U{2502}' <= c <= '\U{2503}'
              || '\U{25ae}' <= c <= '\U{25af}'
  {
  }

  // ---------- the screen as a grid of cells ----------

  /** The lines of a capture without trailing white space. */
  function Rows(text: string): (rows: seq<string>) {
    var lines := SplitLines(text, TextLineEnds());
    seq(|lines|, i requires 0 <= i < |lines| => RStrip(lines[i], TextSpace()))
  }

  lemma RowIs(line: string, c: nat)
    ensures var row := RStrip(line, TextSpace());
            && |row| <= |line| && row == line[..|row|]
            && (c < |row| <==> exists d :: c <= d < |line| && line[d] !in TextSpace())
  {
    var row := RStrip(line, TextSpace());
    if c < |row| {
      assert line[|row| - 1] == row[|row| - 1];
    }
  }

  /**
    What a capture shows: cell (r, c) is character c of its line r, unless only white space follows from
    there on; all the rest of the unbounded grid is blank. Line r begins at `start` in the capture.
   */
  lemma CellsShown(text: string, r: nat, c: nat) returns (start: nat)
    ensures var lines := SplitLines(text, TextLineEnds());
            && CutFrom(text, TextLineEnds(), lines, 0)
            && Cell(Rows(text), r, c)
               == (if r < |lines| && exists d :: c <= d < |lines[r]| && lines[r][d] !in TextSpace()
                   then lines[r][c] else ' ')
            && (r < |lines| && c < |lines[r]| ==> start + c < |text| && lines[r][c] == text[start + c])
  {
    hide SplitLines, RStrip, TextSpace, TextLineEnds;
    SplitLinesCuts(text, TextLineEnds(), 0);
    assert text[0..] == text;
    var lines := SplitLines(text, TextLineEnds());
    start := 0;
    if r < |lines| {
      RowIs(lines[r], c);
      var next;
      start, next := LineLies(text, TextLineEnds(), lines, 0, r);
    }
  }

  /** An unbounded grid: blank right of every row and below the last one. */
  function Cell(rows: seq<string>, r: nat, c: nat): char {
    if r < |rows| && c < |rows[r]| then rows[r][c] else ' '
  }

  predicate Differ(a: seq<string>, b: seq<string>, r: nat, c: nat) {
    Cell(a, r, c) != Cell(b, r, c)
  }

  /** All differences lie in one row, in at most two adjacent cells, between cursor glyphs; and there is one. */
  ghost predicate BlinkAt(a: seq<string>, b: seq<string>, r: nat, c: nat) {
    && Differ(a, b, r, c)
    && forall i: nat, j: nat | Differ(a, b, i, j) ::
         && i == r && c <= j < c + 2
         && Cell(a, i, j) in CursorGlyphs() && Cell(b, i, j) in CursorGlyphs()
  }

  ghost predicate Blink(a: seq<string>, b: seq<string>) {
    exists r: nat, c: nat :: BlinkAt(a, b, r, c)
  }

  /** The cell as it reads with every cursor glyph blanked. */
  function Blanked(rows: seq<string>, r: nat, c: nat): char {
    if Cell(rows, r, c) in CursorGlyphs() then ' ' else Cell(rows, r, c)
  }

  /** Two captures show the same screen, but for cursor glyphs and line ends. */
  ghost predicate SameButCursor(before: string, after: string) {
    forall r: nat, c: nat :: Blanked(Rows(before), r, c) == Blanked(Rows(after), r, c)
  }

  lemma BlinkChangesOnlyCursor(before: string, after: string)
    requires Blink(Rows(before), Rows(after))
    ensures SameButCursor(before, after)
  {
  }

  /** Some visible character changed: not a cursor blink. */
  lemma VisibleChangeIsNoBlink(before: string, after: string, r: nat, c: nat)
    requires Blanked(Rows(before), r, c) != Blanked(Rows(after), r, c)
    ensures !Blink(Rows(before), Rows(after)) && before != after
  {
  }

  // ---------- `is_cursor_blink` ----------

  predicate Trimmed(rows: seq<string>) {
    forall r | 0 <= r < |rows| :: rows[r] == "" || rows[r][|rows[r]| - 1] != ' '
  }

  lemma RowsAreTrimmed(text: string)
    ensures Trimmed(Rows(text))
  {
  }

  /** Popping empty rows off the end. */
  method DropBlankRows(rows: seq<string>) returns (kept: seq<string>)
    ensures kept <= rows && forall r | |kept| <= r < |rows| :: rows[r] == ""
  {
    kept := rows;
    while kept != [] && kept[|kept| - 1] == ""
      invariant kept <= rows && forall r | |kept| <= r < |rows| :: rows[r] == ""
    {
      kept := kept[..|kept| - 1];
    }
  }

  function Padded<T>(s: seq<T>, length: nat, fill: T): (p: seq<T>)
    requires |s| <= length
    ensures |p| == length && s <= p && forall i | |s| <= i < length :: p[i] == fill
  {
    s + seq(length - |s|, _ => fill)
  }

  /** The places where two lists of one length differ, in order. */
  method ChangedAt<T(==)>(a: seq<T>, b: seq<T>) returns (changed: seq<nat>)
    requires |a| == |b|
    ensures forall i :: i in changed <==> 0 <= i < |a| && a[i] != b[i]
    ensures forall x, y | 0 <= x < y < |changed| :: changed[x] < changed[y]
  {
    changed := [];
    for i := 0 to |a|
      invariant forall k :: k in changed <==> 0 <= k < i && a[k] != b[k]
      invariant forall x, y | 0 <= x < y < |changed| :: changed[x] < changed[y]
    {
      if a[i] != b[i] {
        assert forall x | 0 <= x < |changed| :: changed[x] in changed;
        changed := changed + [i];
      }
    }
  }

  /** Trimmed rows differ exactly where their cells do. */
  lemma RowsDiffer(a: seq<string>, b: seq<string>, r: nat) returns (c: nat)
    requires Trimmed(a) && Trimmed(b) && r < |a| == |b| && a[r] != b[r]
    ensures Differ(a, b, r, c)
  {
    if |a[r]| > |b[r]| {
      c := |a[r]| - 1;
    } else if |b[r]| > |a[r]| {
      c := |b[r]| - 1;
    } else {
      c :| 0 <= c < |a[r]| && a[r][c] != b[r][c];
    }
  }

  lemma SameCellsSameBlink(a: seq<string>, b: seq<string>, a': seq<string>, b': seq<string>)
    requires forall r: nat, c: nat :: Cell(a, r, c) == Cell(a', r, c)
    requires forall r: nat, c: nat :: Cell(b, r, c) == Cell(b', r, c)
    ensures Blink(a, b) <==> Blink(a', b')
  {
    hide Cell, CursorGlyphs;
    forall r: nat, c: nat
      ensures Differ(a, b, r, c) == Differ(a', b', r, c)
    {
    }
    forall r: nat, c: nat
      ensures BlinkAt(a, b, r, c) == BlinkAt(a', b', r, c)
    {
    }
  }

  /** No changed row, or two of them: not a blink. */
  lemma OneRowOnly(a: seq<string>, b: seq<string>, changed: seq<nat>)
    requires Trimmed(a) && Trimmed(b) && |a| == |b| && |changed| != 1
    requires forall i :: i in changed <==> 0 <= i < |a| && a[i] != b[i]
    requires forall x, y | 0 <= x < y < |changed| :: changed[x] < changed[y]
    ensures !Blink(a, b)
  {
    forall r: nat, c: nat
      ensures !BlinkAt(a, b, r, c)
    {
      if Differ(a, b, r, c) {
        assert r in changed;
        var x := if changed[0] == r then 1 else 0;
        assert changed[x] in changed && changed[x] != r;
        var c' := RowsDiffer(a, b, changed[x]);
        assert Differ(a, b, changed[x], c');
      }
    }
  }

  /** One changed row: a blink exactly if its changed cells are few, adjacent, and cursor glyphs. */
  lemma OneRow(a: seq<string>, b: seq<string>, r: nat, la: string, lb: string, cells: seq<nat>)
    requires r < |a| == |b| && |la| == |lb| && forall i | 0 <= i < |a| && i != r :: a[i] == b[i]
    requires forall c: nat :: Cell(a, r, c) == if c < |la| then la[c] else ' '
    requires forall c: nat :: Cell(b, r, c) == if c < |lb| then lb[c] else ' '
    requires forall c :: c in cells <==> 0 <= c < |la| && la[c] != lb[c]
    requires forall x, y | 0 <= x < y < |cells| :: cells[x] < cells[y]
    ensures Blink(a, b) <==>
            && cells != [] && cells[|cells| - 1] - cells[0] < MAX_CURSOR_CELLS
            && forall c | c in cells :: la[c] in CursorGlyphs() && lb[c] in CursorGlyphs()
  {
    hide CursorGlyphs;
    forall i: nat, c: nat
      ensures Differ(a, b, i, c) <==> i == r && c in cells
    {
      if i != r {
        assert i < |a| ==> a[i] == b[i];
      }
    }
    hide Cell;
    if cells == [] {
      assert forall i: nat, c: nat :: !BlinkAt(a, b, i, c);
    } else {
      var last := cells[|cells| - 1];
      assert cells[0] in cells && last in cells;
      assert Differ(a, b, r, cells[0]) && Differ(a, b, r, last);
      assert Blink(a, b) <==> BlinkAt(a, b, r, cells[0]) by {
        forall i: nat, c: nat | BlinkAt(a, b, i, c)
          ensures i == r && c == cells[0]
        {
          assert c in cells;
        }
      }
      forall c: nat
        ensures c in cells ==> cells[0] <= c <= last && Differ(a, b, r, c)
      {
      }
    }
  }

  method AllGlyphs(la: string, lb: string, cells: seq<nat>) returns (all: bool)
    requires |la| == |lb| && forall c | c in cells :: c < |la|
    ensures all <==> forall c | c in cells :: la[c] in CursorGlyphs() && lb[c] in CursorGlyphs()
  {
    hide CursorGlyphs;
    assert forall i | 0 <= i < |cells| :: cells[i] in cells;
    for k := 0 to |cells|
      invariant forall i | 0 <= i < |cells| :: cells[i] < |la|
      invariant forall i | 0 <= i < k :: la[cells[i]] in CursorGlyphs() && lb[cells[i]] in CursorGlyphs()
    {
      assert cells[k] in cells;
      if la[cells[k]] !in CursorGlyphs() || lb[cells[k]] !in CursorGlyphs() {
        return false;
      }
    }
    return true;
  }

  /** `is_cursor_blink` from the two lists of rows on: trimmed, and of any heights. */
  method BlinkRows(rowsA: seq<string>, rowsB: seq<string>) returns (blink: bool)
    requires Trimmed(rowsA) && Trimmed(rowsB)
    ensures blink <==> Blink(rowsA, rowsB)
  {
    hide CursorGlyphs, Blink;
    var a := DropBlankRows(rowsA);
    var b := DropBlankRows(rowsB);
    var height := if |a| > |b| then |a| else |b|;
    a := Padded(a, height, "");
    b := Padded(b, height, "");
    SameCellsSameBlink(rowsA, rowsB, a, b);
    var changed := ChangedAt(a, b);
    if |changed| != 1 {
      OneRowOnly(a, b, changed);
      return false;
    }
    var r := changed[0];
    assert r in changed;
    var width := if |a[r]| > |b[r]| then |a[r]| else |b[r]|;
    var la, lb := Padded(a[r], width, ' '), Padded(b[r], width, ' ');
    var cells := ChangedAt(la, lb);
    OneRow(a, b, r, la, lb, cells);
    if cells == [] || |cells| > MAX_CURSOR_CELLS || cells[|cells| - 1] - cells[0] >= MAX_CURSOR_CELLS {
      FewCells(cells);
      return false;
    }
    blink := AllGlyphs(la, lb, cells);
  }

  lemma FewCells(cells: seq<nat>)
    requires forall x, y | 0 <= x < y < |cells| :: cells[x] < cells[y]
    ensures |cells| > MAX_CURSOR_CELLS ==> cells[|cells| - 1] - cells[0] >= MAX_CURSOR_CELLS
  {
    if |cells| > MAX_CURSOR_CELLS {
      assert cells[0] < cells[1] <= cells[|cells| - 2] < cells[|cells| - 1];
    }
  }

  method IsCursorBlink(before: Option<string>, after: Option<string>) returns (blink: bool)
    ensures blink <==> before.Some? && after.Some? && Blink(Rows(before.value), Rows(after.value))
  {
    hide Rows;
    if before.None? || after.None? {
      return false;
    }
    if before.value == after.value {
      assert !Blink(Rows(before.value), Rows(after.value));
      return false;
    }
    RowsAreTrimmed(before.value);
    RowsAreTrimmed(after.value);
    blink := BlinkRows(Rows(before.value), Rows(after.value));
  }

  // ---------- sampling the screen ----------

  /** Times of `time.monotonic()`, counted from 1; 0 is "never", the initial value of the fields. */
  datatype Marks = Marks(lastOutput: nat, sampled: nat, lastChange: nat, screen: Option<string>)

  /** A capture counts as activity unless it succeeded and shows at most a moved cursor. */
  ghost predicate Counts(screen: Option<string>, text: Option<string>) {
    text.None? || (screen != text && !(screen.Some? && Blink(Rows(screen.value), Rows(text.value))))
  }

  ghost function Sampled(m: Marks, outputAt: nat, text: Option<string>): Marks {
    m.(sampled := outputAt, screen := text,
       lastChange := if Counts(m.screen, text) && outputAt > m.lastChange then outputAt else m.lastChange)
  }

  /** The moment from which `activity_idle_seconds` measures; None when the PTY never printed. */
  function IdleSince(m: Marks): Option<nat> {
    if m.lastOutput == 0 then None
    else if m.lastChange == 0 || (m.lastOutput > m.sampled && !(m.sampled > m.lastChange)) then
      Some(if m.lastOutput > m.lastChange then m.lastOutput else m.lastChange)
    else Some(m.lastChange)
  }

  /**
    The session and the screen it really shows. `sampling` is the output time that a capture under
    way will classify, `counted` the text of the last capture that was counted.
   */
  datatype World = World(marks: Marks, truth: string, sampling: Option<nat>, counted: Option<string>)

  datatype Action =
    | Output(gap: nat, truth: string)    // bytes arrive, later than any before, and may redraw the screen
    | Begin                              // `_sample_screen` up to its await
    | Capture(ok: bool)                  // the capture and the rest of `_sample_screen`

  function Started(now: nat, truth: string): World {
    World(Marks(now, 0, now, None), truth, None, None)
  }

  function Captured(w: World, ok: bool): Option<string> {
    if ok then Some(w.truth) else None
  }

  ghost function Next(w: World, a: Action): World {
    match a
    case Output(gap, truth) => w.(marks := w.marks.(lastOutput := w.marks.lastOutput + 1 + gap), truth := truth)
    case Begin =>
      if w.sampling.None? && w.marks.lastOutput > w.marks.sampled then w.(sampling := Some(w.marks.lastOutput)) else w
    case Capture(ok) =>
      if w.sampling.None? then w
      else
        var text := Captured(w, ok);
        w.(marks := Sampled(w.marks, w.sampling.value, text), sampling := None,
           counted := if Counts(w.marks.screen, text) then text else w.counted)
  }

  /** Marks that the sampler can produce. */
  predicate Sound(m: Marks) {
    0 < m.lastChange <= m.lastOutput && m.sampled <= m.lastOutput && (m.sampled > 0 ==> m.lastChange <= m.sampled)
  }

  ghost predicate Inv(w: World) {
    var m := w.marks;
    && Sound(m)
    && (m.sampled == 0 ==> m.screen.None?)
    && (w.sampling.Some? ==> m.sampled < w.sampling.value <= m.lastOutput && m.lastChange <= w.sampling.value)
    && (m.screen.Some? ==> w.counted.Some? && SameButCursor(w.counted.value, m.screen.value))
    && (m.screen.Some? && m.sampled == m.lastOutput ==> m.screen.value == w.truth)
  }

  lemma StartedInv(now: nat, truth: string)
    requires now > 0
    ensures Inv(Started(now, truth))
  {
  }

  lemma SameButCursorTransitive(a: string, b: string, c: string)
    requires SameButCursor(a, b) && SameButCursor(b, c)
    ensures SameButCursor(a, c)
  {
    hide Blanked, Rows;
  }

  /** A capture that does not count shows the previous screen, but for the cursor. */
  lemma UncountedIsSame(screen: Option<string>, text: Option<string>)
    requires !Counts(screen, text)
    ensures screen.Some? && text.Some? && SameButCursor(screen.value, text.value)
  {
  }

  lemma StepKeepsInv(w: World, a: Action)
    requires Inv(w)
    ensures Inv(Next(w, a))
  {
  }

  lemma SameAsItself(text: string)
    ensures SameButCursor(text, text)
  {
  }

  ghost function Run(w: World, actions: seq<Action>): World
    decreases |actions|
  {
    if actions == [] then w else Run(Next(w, actions[0]), actions[1..])
  }

  /** No capture of the run counts as activity. */
  ghost predicate Quiet(w: World, actions: seq<Action>)
    decreases |actions|
  {
    actions == [] ||
    (&& (actions[0].Capture? && w.sampling.Some? ==> !Counts(w.marks.screen, Captured(w, actions[0].ok)))
     && Quiet(Next(w, actions[0]), actions[1..]))
  }

  lemma {:induction false} RunKeepsInv(w: World, actions: seq<Action>)
    requires Inv(w)
    ensures Inv(Run(w, actions))
    decreases |actions|
  {
    hide Inv, Next;
    if actions != [] {
      StepKeepsInv(w, actions[0]);
      RunKeepsInv(Next(w, actions[0]), actions[1..]);
    }
  }

  /** Over any run whose samples are classified as no activity, the screen is constant but for the cursor. */
  lemma {:induction false} QuietRunKeepsScreen(w: World, actions: seq<Action>)
    requires Quiet(w, actions)
    ensures var w' := Run(w, actions);
            && w'.marks.lastChange == w.marks.lastChange
            && (w.marks.screen.None? ==> w'.marks.screen.None?)
            && (w.marks.screen.Some? ==>
                  w'.marks.screen.Some? && SameButCursor(w.marks.screen.value, w'.marks.screen.value))
    decreases |actions|
  {
    hide SameButCursor, Counts;
    if actions == [] {
      if w.marks.screen.Some? {
        SameAsItself(w.marks.screen.value);
      }
    } else {
      var next := Next(w, actions[0]);
      if w.marks.screen.Some? {
        SameAsItself(w.marks.screen.value);
      }
      if actions[0].Capture? && w.sampling.Some? {
        UncountedIsSame(w.marks.screen, Captured(w, actions[0].ok));
      }
      QuietRunKeepsScreen(next, actions[1..]);
      if w.marks.screen.Some? {
        SameButCursorTransitive(w.marks.screen.value, next.marks.screen.value, Run(w, actions).marks.screen.value);
      }
    }
  }

  /**
    Whenever no output waits for the sampler, the screen the user sees is the one that was captured
    when activity was last counted, but for the cursor; or the last capture failed, and was counted.
   */
  lemma ClassifiedScreenIsShown(now: nat, truth: string, actions: seq<Action>)
    requires now > 0
    ensures var w := Run(Started(now, truth), actions);
            w.marks.sampled == w.marks.lastOutput ==>
              if w.marks.screen.Some? then w.counted.Some? && SameButCursor(w.counted.value, w.truth)
              else w.marks.lastChange == w.marks.sampled
  {
    StartedInv(now, truth);
    RunKeepsInv(Started(now, truth), actions);
    FailureCounts(Started(now, truth), actions);
  }

  /** After a failed capture, idle time starts over. */
  lemma {:induction false} FailureCounts(w: World, actions: seq<Action>)
    requires Inv(w) && (w.marks.screen.None? && w.marks.sampled > 0 ==> w.marks.lastChange == w.marks.sampled)
    ensures var m := Run(w, actions).marks;
            m.screen.None? && m.sampled > 0 ==> m.lastChange == m.sampled
    decreases |actions|
  {
    if actions != [] {
      StepKeepsInv(w, actions[0]);
      FailureCounts(Next(w, actions[0]), actions[1..]);
    }
  }

  /**
    After a no-op sample, and until a change is counted, idle time is measured from the last counted
    change, however many unclassified bytes keep arriving.
   */
  lemma {:induction false} NoOpSampleHolds(w: World, actions: seq<Action>)
    requires Inv(w) && w.marks.sampled > w.marks.lastChange && Quiet(w, actions)
    ensures IdleSince(Run(w, actions).marks) == Some(w.marks.lastChange)
    decreases |actions|
  {
    hide Counts, SameButCursor;
    if actions != [] {
      StepKeepsInv(w, actions[0]);
      NoOpSampleHolds(Next(w, actions[0]), actions[1..]);
    }
  }

  /** Every capture that does not count puts the session into that state. */
  lemma NoOpSampleBegins(w: World, ok: bool)
    requires Inv(w) && w.sampling.Some? && !Counts(w.marks.screen, Captured(w, ok))
    ensures var m := Next(w, Capture(ok)).marks;
            m.sampled > m.lastChange == w.marks.lastChange
  {
  }

  /** In every other state all output counts at once: idle time is measured from the latest output. */
  lemma OtherwiseOutputCounts(now: nat, truth: string, actions: seq<Action>)
    requires now > 0
    ensures var m := Run(Started(now, truth), actions).marks;
            IdleSince(m) == Some(if m.sampled > m.lastChange then m.lastChange else m.lastOutput)
  {
    StartedInv(now, truth);
    RunKeepsInv(Started(now, truth), actions);
  }

  /** With output to classify and no capture under way, one sample brings the marks up to date. */
  lemma SampleCatchesUp(w: World, ok: bool)
    requires Inv(w) && w.sampling.None?
    ensures var w' := Run(w, [Begin, Capture(ok)]);
            && w'.marks.sampled == w'.marks.lastOutput == w.marks.lastOutput && w'.sampling.None?
            && (w.marks.lastOutput > w.marks.sampled ==> w'.marks.screen == if ok then Some(w.truth) else None)
  {
    hide Counts;
    var begun := Next(w, Begin);
    assert [Begin, Capture(ok)][1..] == [Capture(ok)] && [Capture(ok)][1..] == [];
    assert Run(begun, [Capture(ok)]) == Run(Next(begun, Capture(ok)), []);
    assert Run(w, [Begin, Capture(ok)]) == Next(begun, Capture(ok));
  }

  /** A capture counts if it failed, is the first, or differs from the last one in more than a cursor blink. */
  lemma CaptureIsDecided(w: World, ok: bool)
    requires Inv(w) && w.sampling.Some?
    ensures var last := Next(w, Capture(ok)).marks.lastChange;
            if !ok || w.marks.screen.None? then last == w.sampling.value
            else if w.marks.screen.value == w.truth || Blink(Rows(w.marks.screen.value), Rows(w.truth)) then
              last == w.marks.lastChange
            else last == w.sampling.value
  {
    hide Blink, Rows;
  }

  // ---------- the session ----------

  class Monitor {
    var lastOutputAt: nat
    var screenSampledOutputAt: nat
    var lastScreenChangeAt: nat
    var screenText: Option<string>

    function View(): Marks
      reads this
    {
      Marks(lastOutputAt, screenSampledOutputAt, lastScreenChangeAt, screenText)
    }

    constructor (now: nat)
      requires now > 0
      ensures Sound(View()) && View() == Marks(now, 0, now, None)
    {
      lastOutputAt, screenSampledOutputAt, lastScreenChangeAt, screenText := now, 0, now, None;
    }

    /** Output restarts idle time at once, unless the latest sample was a no-op. */
    method HandleOutput(now: nat)
      requires Sound(View()) && now > lastOutputAt
      modifies this
      ensures Sound(View()) && View() == old(View()).(lastOutput := now)
      ensures IdleSince(View()) == Some(if screenSampledOutputAt > lastScreenChangeAt then lastScreenChangeAt else now)
    {
      lastOutputAt := now;
    }

    /** `_sample_screen` up to its await: with nothing to classify, idle time runs from the last change. */
    method BeginSample() returns (outputAt: Option<nat>)
      requires Sound(View())
      ensures outputAt.Some? ==> outputAt.value == lastOutputAt > screenSampledOutputAt
      ensures outputAt.None? ==> lastOutputAt == screenSampledOutputAt && IdleSince(View()) == Some(lastScreenChangeAt)
    {
      if lastOutputAt <= screenSampledOutputAt {
        return None;
      }
      return Some(lastOutputAt);
    }

    /** `_sample_screen` from its await on. */
    method EndSample(outputAt: nat, text: Option<string>)
      requires Sound(View()) && screenSampledOutputAt < outputAt <= lastOutputAt && lastScreenChangeAt <= outputAt
      modifies this
      ensures Sound(View()) && View() == Sampled(old(View()), outputAt, text)
      ensures lastScreenChangeAt
           == if old(screenText).Some? && text.Some?
                 && (old(screenText) == text || Blink(Rows(old(screenText).value), Rows(text.value)))
              then old(lastScreenChangeAt) else outputAt
      ensures screenText == text && screenSampledOutputAt == outputAt && lastOutputAt == old(lastOutputAt)
    {
      screenSampledOutputAt := outputAt;
      var counts := text.None?;
      if !counts && text != screenText {
        var blink := IsCursorBlink(screenText, text);
        counts := !blink;
      }
      if counts && outputAt > lastScreenChangeAt {
        lastScreenChangeAt := outputAt;
      }
      screenText := text;
    }

    /** `activity_idle_seconds` before rounding: never negative, None when nothing was printed. */
    method IdleFor(now: nat) returns (idle: Option<nat>)
      ensures idle == if IdleSince(View()).None? then None
                      else if now > IdleSince(View()).value then Some(now - IdleSince(View()).value) else Some(0)
    {
      if lastOutputAt == 0 {
        return None;
      }
      var pending := lastOutputAt > screenSampledOutputAt;
      var lastSampleWasNoop := screenSampledOutputAt > lastScreenChangeAt;
      var last := lastScreenChangeAt;
      if lastScreenChangeAt == 0 || (pending && !lastSampleWasNoop) {
        last := if lastOutputAt > lastScreenChangeAt then lastOutputAt else lastScreenChangeAt;
      }
      return Some(if now > last then now - last else 0);
    }
  }
}
