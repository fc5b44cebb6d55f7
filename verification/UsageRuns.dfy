/** One transcript under many polls: byte cursor, counter memo and last-named model (usage_watcher.py). */
module UsageRuns {
  import opened Wrappers
  import opened Lines
  import opened JsonlTail
  import opened CodexUsage

  datatype Path = Path(text: string)
  type Loader = Bytes -> Option<Entry>

  /** What the watcher keeps for one transcript; None is a key absent from `_offsets`, or an unknown counter. */
  datatype FileState = FileState(offset: Option<nat>, memo: Option<Counter>, model: Name)

  function Unseen(): FileState {
    FileState(None, None, Unnamed)
  }

  /**
    One transcript as one poll meets it: the size sampled by `stat` (0 when that fails), then the
    content at the later moment of the read, which other processes may have changed in between.
   */
  datatype Sighting = Sighting(path: Path, size: nat, file: Bytes, readable: bool, crash: bool)

  // ---------- one transcript, one poll ----------

  /** A file first seen after the baseline, or seen shorter than its cursor, starts from a known zero. */
  function Entered(st: FileState, s: Sighting): (e: FileState)
    ensures e.offset.Some? && e.offset.value <= s.size
  {
    var base := if st.offset.None? then FileState(Some(0), Some(Zero()), st.model) else st;
    if s.size < base.offset.value then FileState(Some(0), Some(Zero()), Unnamed) else base
  }

  predicate Skipped(st: FileState, s: Sighting) {
    s.size == st.offset.GetOr(0)
  }

  /** The complete lines past `offset` that the read returns. */
  function Consumed(s: Sighting, offset: nat): (data: Bytes) {
    if s.readable && !s.crash then From(s.file, offset)[..LineEnd(From(s.file, offset))] else []
  }

  function Poll(st: FileState, s: Sighting, loads: Loader): (st': FileState) {
    if Skipped(st, s) then (if st.offset.None? then st.(memo := Some(Zero())) else st)
    else
      var e := Entered(st, s);
      var data := Consumed(s, e.offset.value);
      var events := EventsOf(data, loads);
      FileState(Some(e.offset.value + |data|), LastCounter(events, e.memo), LastModel(events, e.model))
  }

  /** The records one poll of one transcript parses. */
  function PollRead(st: FileState, s: Sighting, loads: Loader): (records: seq<Entry>) {
    if Skipped(st, s) then [] else Parse(Consumed(s, Entered(st, s).offset.value), loads)
  }

  /** What one poll of one transcript charges. */
  function PollOwed(st: FileState, s: Sighting, loads: Loader, who: Who): (owed: nat) {
    var e := Entered(st, s);
    if Skipped(st, s) || e.memo.None? then 0
    else Owed(EventsOf(Consumed(s, e.offset.value), loads), e.memo.value, e.model, who)
  }

  /**
    A poll in terms of the records it read: it charges each counter step to the model named last before it,
    and keeps the last counter shown and the last model named.
   */
  lemma PollByEntry(st: FileState, s: Sighting, loads: Loader, who: Who)
    requires !Skipped(st, s)
    ensures var e, records := Entered(st, s), PollRead(st, s, loads);
            && PollOwed(st, s, loads, who)
               == (if e.memo.None? then 0 else StepsTo(records, |records|, e.memo.value, e.model, who))
            && Poll(st, s, loads).memo == CounterBefore(records, |records|, e.memo)
            && Poll(st, s, loads).model == ModelBefore(records, |records|, e.model)
  {
    hide Parse, Events, Owed, StepsTo, CounterBefore, ModelBefore, LastCounter, LastModel, Consumed;
    var e, records := Entered(st, s), PollRead(st, s, loads);
    assert records[..|records|] == records;
    ScanByEntry(records, |records|, e.memo, e.model);
    if e.memo.Some? {
      OwedByEntry(records, |records|, e.memo.value, e.model, who);
    }
  }

  // ---------- one transcript, many polls ----------

  function Run(st: FileState, polls: seq<Sighting>, loads: Loader): (st': FileState)
    decreases |polls|
  {
    if polls == [] then st else Run(Poll(st, polls[0], loads), polls[1..], loads)
  }

  /** The records parsed by all polls, in order. */
  function RunRead(st: FileState, polls: seq<Sighting>, loads: Loader): (records: seq<Entry>)
    decreases |polls|
  {
    if polls == [] then [] else PollRead(st, polls[0], loads) + RunRead(Poll(st, polls[0], loads), polls[1..], loads)
  }

  function RunOwed(st: FileState, polls: seq<Sighting>, loads: Loader, who: Who): (owed: nat)
    decreases |polls|
  {
    if polls == [] then 0
    else PollOwed(st, polls[0], loads, who) + RunOwed(Poll(st, polls[0], loads), polls[1..], loads, who)
  }

  /** The CLI only ever appends, at any moment: before a `stat`, or between it and the read. */
  predicate AppendOnly(before: Bytes, polls: seq<Sighting>)
    decreases |polls|
  {
    polls != [] ==> before <= polls[0].file && AppendOnly(polls[0].file, polls[1..])
  }

  /** A size below the cursor is taken for a truncation. */
  predicate Resets(st: FileState, s: Sighting) {
    s.size < st.offset.GetOr(0)
  }

  /** No sampled size is below the cursor. */
  predicate Believed(st: FileState, polls: seq<Sighting>, loads: Loader)
    decreases |polls|
  {
    polls != [] ==> !Resets(st, polls[0]) && Believed(Poll(st, polls[0], loads), polls[1..], loads)
  }

  /** Each `stat` succeeds: its size lies between the content of the poll before and that of its own read. */
  predicate StatsSucceed(before: Bytes, polls: seq<Sighting>)
    decreases |polls|
  {
    polls != [] ==> |before| <= polls[0].size <= |polls[0].file| && StatsSucceed(polls[0].file, polls[1..])
  }

  function LastFile(before: Bytes, polls: seq<Sighting>): (file: Bytes)
    decreases |polls|
  {
    if polls == [] then before else LastFile(polls[0].file, polls[1..])
  }

  /** `c` is where a reader of complete lines that started at `o` may stand. */
  predicate LineCursor(file: Bytes, o: nat, c: nat) {
    o <= c <= |file| && (c == o || file[c - 1] == LF)
  }

  lemma NoEvents(loads: Loader)
    ensures EventsOf([], loads) == []
  {
  }

  lemma NoLines(loads: Loader)
    ensures Parse([], loads) == []
  {
  }

  lemma {:induction false} AppendOnlyGrows(before: Bytes, polls: seq<Sighting>)
    requires AppendOnly(before, polls)
    ensures before <= LastFile(before, polls)
    decreases |polls|
  {
    if polls != [] {
      AppendOnlyGrows(polls[0].file, polls[1..]);
    }
  }

  /** What `st'` and `owed` must be when a poll that stood at `o` moved on to `c`. */
  ghost predicate Advanced(st: FileState, file: Bytes, st': FileState, loads: Loader)
    requires st.offset.Some?
  {
    && st'.offset.Some? && LineCursor(file, st.offset.value, st'.offset.value)
    && st'.memo == LastCounter(EventsOf(file[st.offset.value..st'.offset.value], loads), st.memo)
    && st'.model == LastModel(EventsOf(file[st.offset.value..st'.offset.value], loads), st.model)
  }

  lemma Stays(st: FileState, file: Bytes, loads: Loader)
    requires st.offset.Some? && st.offset.value <= |file|
    ensures Advanced(st, file, st, loads)
    ensures EventsOf(file[st.offset.value..st.offset.value], loads) == []
  {
  }

  lemma ConsumedIsCut(s: Sighting, o: nat)
    requires o <= |s.file|
    ensures LineCursor(s.file, o, o + |Consumed(s, o)|)
    ensures Consumed(s, o) == s.file[o..o + |Consumed(s, o)|]
  {
  }

  /** What a poll at or before the sampled size reads. */
  function PollData(st: FileState, s: Sighting): (data: Bytes) {
    if Skipped(st, s) then [] else Consumed(s, st.offset.GetOr(0))
  }

  lemma PollReads(st: FileState, s: Sighting, loads: Loader, who: Who)
    requires st.offset.Some? && st.offset.value <= s.size
    ensures
      var data := PollData(st, s);
      var events := EventsOf(data, loads);
      && Poll(st, s, loads)
         == FileState(Some(st.offset.value + |data|), LastCounter(events, st.memo), LastModel(events, st.model))
      && PollOwed(st, s, loads, who) == (if st.memo.None? then 0 else Owed(events, st.memo.value, st.model, who))
      && PollRead(st, s, loads) == Parse(data, loads)
  {
    hide EventsOf, Parse;
    assert Entered(st, s) == st;
    NoEvents(loads);
    NoLines(loads);
  }

  /** A poll moves the cursor over exactly the lines it charges. */
  lemma OnePoll(st: FileState, s: Sighting, loads: Loader, who: Who)
    requires st.offset.Some? && st.offset.value <= |s.file| && !Resets(st, s)
    ensures Advanced(st, s.file, Poll(st, s, loads), loads)
    ensures PollOwed(st, s, loads, who)
         == if st.memo.None? then 0
            else Owed(EventsOf(s.file[st.offset.value..Poll(st, s, loads).offset.value], loads),
                      st.memo.value, st.model, who)
    ensures PollRead(st, s, loads) == Parse(s.file[st.offset.value..Poll(st, s, loads).offset.value], loads)
  {
    hide EventsOf, Parse;
    var o := st.offset.value;
    PollReads(st, s, loads, who);
    ConsumedIsCut(s, o);
    assert s.file[o..o] == [];
    assert PollData(st, s) == s.file[o..o + |PollData(st, s)|];
  }

  /** The lines read up to `c` and those read from `c` on are the lines read. */
  lemma CutEvents(earlier: Bytes, file: Bytes, o: nat, c: nat, e: nat, loads: Loader)
    requires earlier <= file && LineCursor(earlier, o, c) && LineCursor(file, c, e)
    ensures LineCursor(file, o, e)
    ensures Parse(file[o..e], loads) == Parse(earlier[o..c], loads) + Parse(file[c..e], loads)
    ensures EventsOf(file[o..e], loads) == EventsOf(earlier[o..c], loads) + EventsOf(file[c..e], loads)
  {
    hide EventsOf, Parse;
    assert earlier[o..c] == file[o..c];
    assert file[o..c] + file[c..e] == file[o..e];
    EventsOfAppend(file[o..c], file[c..e], loads);
    ParseAppend(file[o..c], file[c..e], loads);
  }

  /**
    Exactly-once lines: over any schedule of polls of an append-only file the cursor stands where it
    was or just past a newline, and the records parsed by all polls together are those of the lines
    in between, each once and in order. Memo and model are those of one pass over them.
   */
  lemma {:induction false} RunReadsEachLineOnce(st: FileState, before: Bytes, polls: seq<Sighting>, loads: Loader)
    requires st.offset.Some? && st.offset.value <= |before|
    requires AppendOnly(before, polls) && Believed(st, polls, loads)
    ensures Advanced(st, LastFile(before, polls), Run(st, polls, loads), loads)
    ensures RunRead(st, polls, loads)
         == Parse(LastFile(before, polls)[st.offset.value..Run(st, polls, loads).offset.value], loads)
    decreases |polls|
  {
    hide EventsOf, Parse, Poll, PollRead;
    if polls == [] {
      Stays(st, before, loads);
      NoLines(loads);
      assert before[st.offset.value..st.offset.value] == [];
    } else {
      var mid, end := Poll(st, polls[0], loads), Run(st, polls, loads);
      OnePoll(st, polls[0], loads, Everyone(Input));
      RunReadsEachLineOnce(mid, polls[0].file, polls[1..], loads);
      var earlier, file := polls[0].file, LastFile(before, polls);
      AppendOnlyGrows(earlier, polls[1..]);
      var o, c, e := st.offset.value, mid.offset.value, end.offset.value;
      CutEvents(earlier, file, o, c, e, loads);
      LastAppend(EventsOf(earlier[o..c], loads), EventsOf(file[c..e], loads), st.memo, st.model);
    }
  }

  /**
    Schedule-independent billing: with a known baseline, what any schedule of polls charges to a
    model (and in all) is one fold over the complete lines the run went past.
   */
  lemma {:induction false} RunOwesTheFold(st: FileState, before: Bytes, polls: seq<Sighting>, loads: Loader, who: Who)
    requires st.offset.Some? && st.offset.value <= |before| && st.memo.Some?
    requires AppendOnly(before, polls) && Believed(st, polls, loads)
    ensures Run(st, polls, loads).offset.Some?
    ensures LineCursor(LastFile(before, polls), st.offset.value, Run(st, polls, loads).offset.value)
    ensures RunOwed(st, polls, loads, who)
         == Owed(EventsOf(LastFile(before, polls)[st.offset.value..Run(st, polls, loads).offset.value], loads),
                 st.memo.value, st.model, who)
    decreases |polls|
  {
    hide EventsOf, Parse, PollRead, RunRead;
    RunReadsEachLineOnce(st, before, polls, loads);
    if polls == [] {
      Stays(st, before, loads);
    } else {
      var mid, end := Poll(st, polls[0], loads), Run(st, polls, loads);
      OnePoll(st, polls[0], loads, who);
      RunOwesTheFold(mid, polls[0].file, polls[1..], loads, who);
      var earlier, file := polls[0].file, LastFile(before, polls);
      AppendOnlyGrows(earlier, polls[1..]);
      var o, c, e := st.offset.value, mid.offset.value, end.offset.value;
      CutEvents(earlier, file, o, c, e, loads);
      OwedAppend(EventsOf(earlier[o..c], loads), EventsOf(file[c..e], loads), st.memo.value, st.model, who);
    }
  }

  /** The last poll of a run met an unchanging, readable file. */
  predicate EndsQuiet(polls: seq<Sighting>) {
    polls != [] &&
    var last := polls[|polls| - 1];
    last.size == |last.file| && last.readable && !last.crash
  }

  lemma QuietPoll(st: FileState, s: Sighting, loads: Loader)
    requires st.offset.Some? && st.offset.value <= |s.file| && s.size == |s.file| && s.readable && !s.crash
    ensures Poll(st, s, loads).offset == Some(st.offset.value + LineEnd(s.file[st.offset.value..]))
  {
    hide EventsOf;
    assert s.file[|s.file|..] == [];
  }

  lemma {:induction false} QuietPollCatchesUp(st: FileState, before: Bytes, polls: seq<Sighting>, loads: Loader)
    requires st.offset.Some? && st.offset.value <= |before|
    requires AppendOnly(before, polls) && Believed(st, polls, loads) && EndsQuiet(polls)
    ensures st.offset.value <= |LastFile(before, polls)|
    ensures Run(st, polls, loads).offset == Some(st.offset.value + LineEnd(LastFile(before, polls)[st.offset.value..]))
    decreases |polls|
  {
    hide EventsOf, Poll, LineEnd, Parse, PollRead, RunRead;
    var s, rest := polls[0], polls[1..];
    var mid := Poll(st, s, loads);
    if rest == [] {
      QuietPoll(st, s, loads);
    } else {
      OnePoll(st, s, loads, Everyone(Input));
      assert rest[|rest| - 1] == polls[|polls| - 1];
      QuietPollCatchesUp(mid, s.file, rest, loads);
      AppendOnlyGrows(s.file, rest);
      LineEndResume(LastFile(before, polls), st.offset.value, mid.offset.value);
    }
  }

  /** The complete lines of `file` from byte `o` on. */
  function CompleteLines(file: Bytes, o: nat): (data: Bytes)
    requires o <= |file|
  {
    file[o..o + LineEnd(file[o..])]
  }

  /**
    A schedule that ends with a poll of the resting file leaves a state, has charged a bill and has
    read records that depend on the file alone: those of one pass over its complete lines.
   */
  lemma QuietRunSettles(st: FileState, before: Bytes, polls: seq<Sighting>, loads: Loader, who: Who)
    requires st.offset.Some? && st.offset.value <= |before| && st.memo.Some?
    requires AppendOnly(before, polls) && Believed(st, polls, loads) && EndsQuiet(polls)
    ensures st.offset.value <= |LastFile(before, polls)|
    ensures var data := CompleteLines(LastFile(before, polls), st.offset.value);
            var events := EventsOf(data, loads);
            && Run(st, polls, loads)
               == FileState(Some(st.offset.value + |data|), LastCounter(events, st.memo), LastModel(events, st.model))
            && RunOwed(st, polls, loads, who) == Owed(events, st.memo.value, st.model, who)
            && RunRead(st, polls, loads) == Parse(data, loads)
  {
    hide EventsOf, Parse, Run, RunOwed, RunRead, Owed, AppendOnly, LastFile;
    QuietPollCatchesUp(st, before, polls, loads);
    RunReadsEachLineOnce(st, before, polls, loads);
    RunOwesTheFold(st, before, polls, loads, who);
  }

  /** So the order and number of polls do not matter. */
  lemma ScheduleIndependent(st: FileState, before: Bytes, p: seq<Sighting>, q: seq<Sighting>, loads: Loader, who: Who)
    requires st.offset.Some? && st.offset.value <= |before| && st.memo.Some?
    requires AppendOnly(before, p) && AppendOnly(before, q) && Believed(st, p, loads) && Believed(st, q, loads)
    requires EndsQuiet(p) && EndsQuiet(q) && LastFile(before, p) == LastFile(before, q)
    ensures Run(st, p, loads) == Run(st, q, loads)
    ensures RunOwed(st, p, loads, who) == RunOwed(st, q, loads, who)
  {
    hide *;
    QuietRunSettles(st, before, p, loads, who);
    QuietRunSettles(st, before, q, loads, who);
  }

  /** With monotone counters everything billed by any schedule adds up to last counter minus baseline. */
  lemma RunTelescopes(st: FileState, before: Bytes, polls: seq<Sighting>, loads: Loader, kind: Kind)
    requires st.offset.Some? && st.offset.value <= |before| && st.memo.Some?
    requires AppendOnly(before, polls) && Believed(st, polls, loads)
    requires Monotone(EventsOf(From(LastFile(before, polls), st.offset.value), loads), st.memo.value, kind)
    ensures Run(st, polls, loads).memo.Some?
    ensures st.memo.value.Of(kind) + RunOwed(st, polls, loads, Everyone(kind))
            == Run(st, polls, loads).memo.value.Of(kind)
  {
    hide EventsOf, Parse, RunRead, Run, RunOwed, Monotone;
    RunReadsEachLineOnce(st, before, polls, loads);
    RunOwesTheFold(st, before, polls, loads, Everyone(kind));
    var o, c, file := st.offset.value, Run(st, polls, loads).offset.value, LastFile(before, polls);
    CutSlice(file, o, c);
    EventsOfAppend(file[o..c], file[c..], loads);
    MonotonePrefix(EventsOf(file[o..c], loads), EventsOf(file[c..], loads), st.memo.value, kind);
    MonotoneTelescopes(EventsOf(file[o..c], loads), st.memo.value, st.model, kind);
  }

  lemma {:induction false} MonotonePrefix(a: seq<Event>, b: seq<Event>, reference: Counter, kind: Kind)
    requires Monotone(a + b, reference, kind)
    ensures Monotone(a, reference, kind)
    ensures Monotone(b, LastCounter(a, Some(reference)).value, kind)
    decreases |a|
  {
    if a == [] {
      assert a + b == b;
    } else {
      assert (a + b)[1..] == a[1..] + b && (a + b)[0] == a[0];
      MonotonePrefix(a[1..], b, CounterAfter(a[0], reference), kind);
    }
  }

  // ---------- an unknown baseline ----------

  /** The first counter the events show. */
  function FirstCounter(events: seq<Event>): (first: Option<Counter>) {
    if events == [] then None
    else if events[0].Tokens? then Some(events[0].counter) else FirstCounter(events[1..])
  }

  /** The counters never go down from the first one shown. */
  predicate MonotoneFromFirst(events: seq<Event>, kind: Kind) {
    FirstCounter(events).Some? ==> Monotone(events, FirstCounter(events).value, kind)
  }

  lemma {:induction false} FirstCounterAppend(a: seq<Event>, b: seq<Event>)
    ensures FirstCounter(a + b) == if FirstCounter(a).Some? then FirstCounter(a) else FirstCounter(b)
    ensures FirstCounter(a).None? <==> LastCounter(a, None).None?
    decreases |a|
  {
    if a == [] {
      assert a + b == b;
    } else {
      assert (a + b)[1..] == a[1..] + b && (a + b)[0] == a[0];
      FirstCounterAppend(a[1..], b);
    }
  }

  lemma {:induction false} MonotoneAtLeast(events: seq<Event>, reference: Counter, kind: Kind)
    requires Monotone(events, reference, kind)
    ensures reference.Of(kind) <= LastCounter(events, Some(reference)).value.Of(kind)
    decreases |events|
  {
    if events != [] {
      MonotoneAtLeast(events[1..], CounterAfter(events[0], reference), kind);
    }
  }

  lemma {:induction false} LastIgnoresReference(events: seq<Event>, reference: Option<Counter>)
    requires FirstCounter(events).Some?
    ensures LastCounter(events, reference) == LastCounter(events, FirstCounter(events))
    decreases |events|
  {
    if !events[0].Tokens? {
      LastIgnoresReference(events[1..], reference);
    }
  }

  /** The number of polls until one has read a counter, and at most all. */
  function FirstKnown(st: FileState, polls: seq<Sighting>, loads: Loader): (n: nat)
    ensures n <= |polls|
    decreases |polls|
  {
    if polls == [] || st.memo.Some? then 0 else 1 + FirstKnown(Poll(st, polls[0], loads), polls[1..], loads)
  }

  /**
    An unknown baseline never bills history: nothing is billed up to the end of the first pass
    that read a counter, and from there on the bill is exact.
   */
  lemma {:induction false} UnknownBaselineSeeds(st: FileState, before: Bytes, polls: seq<Sighting>, loads: Loader,
                                                who: Who)
    requires st.offset.Some? && st.offset.value <= |before| && st.memo.None?
    requires AppendOnly(before, polls) && Believed(st, polls, loads)
    ensures var n := FirstKnown(st, polls, loads);
            && RunOwed(st, polls[..n], loads, who) == 0
            && RunOwed(st, polls, loads, who) == RunOwed(Run(st, polls[..n], loads), polls[n..], loads, who)
            && (n < |polls| ==> Run(st, polls[..n], loads).memo.Some?)
    decreases |polls|
  {
    hide EventsOf, Poll, PollOwed, PollRead, Parse;
    var n := FirstKnown(st, polls, loads);
    if polls == [] {
      assert polls[..n] == [] && polls[n..] == [];
    } else {
      OnePoll(st, polls[0], loads, who);
      var mid, rest := Poll(st, polls[0], loads), polls[1..];
      var m := FirstKnown(mid, rest, loads);
      assert polls[..n][0] == polls[0] && polls[..n][1..] == rest[..m] && polls[n..] == rest[m..];
      if mid.memo.None? {
        UnknownBaselineSeeds(mid, polls[0].file, rest, loads, who);
      } else {
        assert m == 0 && rest[..0] == [] && rest[0..] == rest;
      }
    }
  }

  /**
    ... so with monotone counters the whole bill of any schedule is at most last counter minus first
    counter read.
   */
  lemma UnknownBaselineBillsNoHistory(st: FileState, before: Bytes, polls: seq<Sighting>, loads: Loader, kind: Kind)
    requires st.offset.Some? && st.offset.value <= |before| && st.memo.None?
    requires AppendOnly(before, polls) && Believed(st, polls, loads)
    requires MonotoneFromFirst(EventsOf(From(LastFile(before, polls), st.offset.value), loads), kind)
    ensures var end, file := Run(st, polls, loads), LastFile(before, polls);
            && end.offset.Some? && LineCursor(file, st.offset.value, end.offset.value)
            && var first := FirstCounter(EventsOf(file[st.offset.value..end.offset.value], loads));
               if first.None? then end.memo.None? && RunOwed(st, polls, loads, Everyone(kind)) == 0
               else end.memo.Some?
                    && first.value.Of(kind) + RunOwed(st, polls, loads, Everyone(kind)) <= end.memo.value.Of(kind)
  {
    hide EventsOf, RunOwed, Run, Parse, RunRead, Monotone, FirstCounter, LastCounter;
    RunReadsEachLineOnce(st, before, polls, loads);
    var o, c, file := st.offset.value, Run(st, polls, loads).offset.value, LastFile(before, polls);
    CutSlice(file, o, c);
    EventsOfAppend(file[o..c], file[c..], loads);
    var a, b := EventsOf(file[o..c], loads), EventsOf(file[c..], loads);
    FirstCounterAppend(a, b);
    if FirstCounter(a).Some? {
      MonotonePrefix(a, b, FirstCounter(a).value, kind);
    }
    UnknownBaselineBounded(st, before, polls, loads, kind);
  }

  lemma {:induction false} UnknownBaselineBounded(st: FileState, before: Bytes, polls: seq<Sighting>, loads: Loader,
                                                  kind: Kind)
    requires st.offset.Some? && st.offset.value <= |before| && st.memo.None?
    requires AppendOnly(before, polls) && Believed(st, polls, loads)
    requires Advanced(st, LastFile(before, polls), Run(st, polls, loads), loads)
    requires var read := LastFile(before, polls)[st.offset.value..Run(st, polls, loads).offset.value];
             MonotoneFromFirst(EventsOf(read, loads), kind)
    ensures var read := LastFile(before, polls)[st.offset.value..Run(st, polls, loads).offset.value];
            var first := FirstCounter(EventsOf(read, loads));
            var last := Run(st, polls, loads).memo;
            if first.None? then last.None? && RunOwed(st, polls, loads, Everyone(kind)) == 0
            else last.Some? && first.value.Of(kind) + RunOwed(st, polls, loads, Everyone(kind)) <= last.value.Of(kind)
    decreases |polls|
  {
    hide EventsOf;
    var file, end := LastFile(before, polls), Run(st, polls, loads);
    var o, e := st.offset.value, end.offset.value;
    if polls == [] {
      Stays(st, before, loads);
    } else {
      var mid, earlier := Poll(st, polls[0], loads), polls[0].file;
      OnePoll(st, polls[0], loads, Everyone(kind));
      RunReadsEachLineOnce(mid, earlier, polls[1..], loads);
      AppendOnlyGrows(earlier, polls[1..]);
      var c := mid.offset.value;
      CutEvents(earlier, file, o, c, e, loads);
      var a, b := EventsOf(earlier[o..c], loads), EventsOf(file[c..e], loads);
      FirstCounterAppend(a, b);
      if mid.memo.None? {
        assert FirstCounter(a).None?;
        MonotoneWithoutCounters(a, b, kind);
        UnknownBaselineBounded(mid, earlier, polls[1..], loads, kind);
      } else {
        var first := FirstCounter(a).value;
        MonotonePrefix(a, b, first, kind);
        LastIgnoresReference(a, None);
        MonotoneAtLeast(a, first, kind);
        RunOwesTheFold(mid, earlier, polls[1..], loads, Everyone(kind));
        MonotoneTelescopes(b, mid.memo.value, mid.model, kind);
      }
    }
  }

  lemma {:induction false} MonotoneWithoutCounters(a: seq<Event>, b: seq<Event>, kind: Kind)
    requires MonotoneFromFirst(a + b, kind) && FirstCounter(a).None?
    ensures MonotoneFromFirst(b, kind)
    decreases |a|
  {
    if a == [] {
      assert a + b == b;
    } else {
      assert (a + b)[1..] == a[1..] + b && (a + b)[0] == a[0];
      MonotoneWithoutCounters(a[1..], b, kind);
    }
  }

  // ---------- first sight, truncation ----------

  /** A transcript first seen after the baseline is billed whole, from a known zero, whatever `stat` says. */
  lemma {:induction false} NewFileBilledWhole(st: FileState, polls: seq<Sighting>, loads: Loader, who: Who)
    requires st.offset.None?
    ensures RunOwed(st, polls, loads, who) == RunOwed(FileState(Some(0), Some(Zero()), st.model), polls, loads, who)
    decreases |polls|
  {
    hide EventsOf;
    if polls != [] && Skipped(st, polls[0]) {
      NewFileBilledWhole(Poll(st, polls[0], loads), polls[1..], loads, who);
    }
  }

  /** A `stat` that succeeds on a file that only grows is never taken for a truncation. */
  lemma {:induction false} SuccessIsBelieved(st: FileState, before: Bytes, polls: seq<Sighting>, loads: Loader)
    requires st.offset.GetOr(0) <= |before| && AppendOnly(before, polls) && StatsSucceed(before, polls)
    ensures Believed(st, polls, loads)
    decreases |polls|
  {
    hide EventsOf;
    if polls != [] {
      SuccessIsBelieved(Poll(st, polls[0], loads), polls[0].file, polls[1..], loads);
    }
  }

  /**
    An observed truncation restarts from zero: the whole content is read again and billed against
    a zero counter, under no model, whatever was known before.
   */
  lemma TruncationRestarts(st: FileState, s: Sighting, loads: Loader, who: Who)
    requires st.offset.Some? && s.size < st.offset.value && s.readable && !s.crash
    ensures var events := EventsOf(s.file[..LineEnd(s.file)], loads);
            && Poll(st, s, loads).offset == Some(LineEnd(s.file))
            && PollOwed(st, s, loads, who) == Owed(events, Zero(), Unnamed, who)
  {
  }
}
