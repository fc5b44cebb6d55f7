/** `UsageWatcher`: all transcripts of one session (usage_watcher.py:307-429). */
module UsageWatcher {
  import opened Wrappers
  import opened JsonlTail
  import opened CodexUsage
  import opened UsageRuns
  import CodexBaseline

  type Tables = map<Path, FileState>

  function Look(t: Tables, path: Path): FileState {
    if path in t then t[path] else Unseen()
  }

  /** The tables after a series of sightings, in the order the passes met them. */
  function TablesAfter(t: Tables, seen: seq<Sighting>, loads: Loader): (t': Tables)
    decreases |seen|
  {
    if seen == [] then t
    else TablesAfter(t[seen[0].path := Poll(Look(t, seen[0].path), seen[0], loads)], seen[1..], loads)
  }

  /** What a series of sightings charges, over all transcripts. */
  function TablesOwed(t: Tables, seen: seq<Sighting>, loads: Loader, who: Who): (owed: nat)
    decreases |seen|
  {
    if seen == [] then 0
    else
      PollOwed(Look(t, seen[0].path), seen[0], loads, who)
      + TablesOwed(t[seen[0].path := Poll(Look(t, seen[0].path), seen[0], loads)], seen[1..], loads, who)
  }

  /** The sightings of one transcript, in order. */
  function Only(seen: seq<Sighting>, path: Path): (own: seq<Sighting>) {
    if seen == [] then []
    else if seen[0].path == path then [seen[0]] + Only(seen[1..], path)
    else Only(seen[1..], path)
  }

  function Without(seen: seq<Sighting>, path: Path): (others: seq<Sighting>)
    ensures |others| <= |seen|
  {
    if seen == [] then []
    else if seen[0].path != path then [seen[0]] + Without(seen[1..], path)
    else Without(seen[1..], path)
  }

  ghost predicate SameExcept(t: Tables, u: Tables, path: Path) {
    forall q :: q != path ==> Look(t, q) == Look(u, q)
  }

  lemma SameExceptUpdate(t: Tables, u: Tables, path: Path, p: Path, st: FileState)
    requires SameExcept(t, u, path)
    ensures SameExcept(t[p := st], u[p := st], path)
  {
    var t', u' := t[p := st], u[p := st];
    forall q {:trigger Look(t', q)} | q != path
      ensures Look(t', q) == Look(u', q)
    {
      assert Look(t, q) == Look(u, q);
    }
  }

  /**
    Transcripts do not disturb each other: taking out the sightings of one transcript takes out
    exactly what that transcript owes on its own, and each state is that of its own run.
   */
  lemma {:induction false} TranscriptsIndependent(t: Tables, u: Tables, seen: seq<Sighting>, path: Path,
                                                  loads: Loader, who: Who)
    requires SameExcept(t, u, path)
    ensures TablesOwed(t, seen, loads, who)
         == RunOwed(Look(t, path), Only(seen, path), loads, who) + TablesOwed(u, Without(seen, path), loads, who)
    ensures Look(TablesAfter(t, seen, loads), path) == Run(Look(t, path), Only(seen, path), loads)
    ensures SameExcept(TablesAfter(t, seen, loads), TablesAfter(u, Without(seen, path), loads), path)
    decreases |seen|
  {
    hide Poll, PollOwed;
    if seen != [] {
      var s := seen[0];
      var t' := t[s.path := Poll(Look(t, s.path), s, loads)];
      if s.path == path {
        TranscriptsIndependent(t', u, seen[1..], path, loads, who);
        assert Only(seen, path)[0] == s && Only(seen, path)[1..] == Only(seen[1..], path);
      } else {
        var u' := u[s.path := Poll(Look(u, s.path), s, loads)];
        assert Look(t, s.path) == Look(u, s.path) && Look(t', path) == Look(t, path);
        SameExceptUpdate(t, u, path, s.path, Poll(Look(t, s.path), s, loads));
        TranscriptsIndependent(t', u', seen[1..], path, loads, who);
        assert Without(seen, path)[0] == s && Without(seen, path)[1..] == Without(seen[1..], path);
      }
    }
  }

  /** The table of shares for one transcript, merged under the configured model. */
  ghost predicate BillsTables(byModel: Shares, t: Tables, seen: seq<Sighting>, loads: Loader, configured: Name) {
    && (forall kind :: Sum(byModel, kind) == TablesOwed(t, seen, loads, Everyone(kind)))
    && (forall key, kind :: Share(byModel, key).Of(kind) == TablesOwed(t, seen, loads, Model(kind, key, configured)))
  }

  lemma {:induction false} TablesOneMore(t: Tables, seen: seq<Sighting>, s: Sighting, loads: Loader, who: Who)
    ensures TablesOwed(t, seen + [s], loads, who)
         == TablesOwed(t, seen, loads, who) + PollOwed(Look(TablesAfter(t, seen, loads), s.path), s, loads, who)
    ensures TablesAfter(t, seen + [s], loads)
         == TablesAfter(t, seen, loads)[s.path := Poll(Look(TablesAfter(t, seen, loads), s.path), s, loads)]
    decreases |seen|
  {
    hide Poll, PollOwed;
    if seen == [] {
      assert [] + [s] == [s] && [s][1..] == [];
    } else {
      assert (seen + [s])[0] == seen[0] && (seen + [s])[1..] == seen[1..] + [s];
      TablesOneMore(t[seen[0].path := Poll(Look(t, seen[0].path), seen[0], loads)], seen[1..], s, loads, who);
    }
  }

  /** `f` ends at a line end, and the baseline search reads the lines it looks at as the polls would. */
  predicate WholeBaseline(f: Bytes, loads: Loader, back: CodexBaseline.LineReader) {
    (f == [] || f[|f| - 1] == LF) && CodexBaseline.ReadAlike(CodexBaseline.Window(f), loads, back)
  }

  /**
    Baseline and polls together: a transcript seeded by the backward search over its first bytes
    `f`, then polled under any schedule, is billed exactly its last counter minus the one found.
    History is never billed and nothing appended is missed. If `f` ends at a line end, that is the
    last counter of the whole transcript, also where the search did not read all of `f`.
   */
  lemma BilledSinceBaseline(f: Bytes, polls: seq<Sighting>, loads: Loader, back: CodexBaseline.LineReader, kind: Kind)
    requires CodexBaseline.Search(f, back).Some? && AppendOnly(f, polls)
    requires Believed(FileState(Some(|f|), CodexBaseline.Search(f, back), Unnamed), polls, loads)
    requires Monotone(EventsOf(From(LastFile(f, polls), |f|), loads), CodexBaseline.Search(f, back).value, kind)
    ensures var st := FileState(Some(|f|), CodexBaseline.Search(f, back), Unnamed);
            var end, file := Run(st, polls, loads).offset, LastFile(f, polls);
            && end.Some? && |f| <= end.value <= |file|
            && var last := LastCounter(EventsOf(file[|f|..end.value], loads), st.memo);
               && last.Some?
               && st.memo.value.Of(kind) + RunOwed(st, polls, loads, Everyone(kind)) == last.value.Of(kind)
               && (WholeBaseline(f, loads, back) ==> last == LastCounter(EventsOf(file[..end.value], loads), None))
  {
    hide EventsOf, CodexBaseline.Search, CodexBaseline.ReadAlike, RunOwed, Run, CodexBaseline.Window;
    var st := FileState(Some(|f|), CodexBaseline.Search(f, back), Unnamed);
    RunReadsEachLineOnce(st, f, polls, loads);
    RunTelescopes(st, f, polls, loads, kind);
    AppendOnlyGrows(f, polls);
    var c, file := Run(st, polls, loads).offset.value, LastFile(f, polls);
    if WholeBaseline(f, loads, back) {
      CodexBaseline.FoundIsLastOfFile(f, loads, back);
      assert file[..c] == f + file[|f|..c];
      EventsOfAppend(f, file[|f|..c], loads);
      LastAppend(EventsOf(f, loads), EventsOf(file[|f|..c], loads), None, Unnamed);
    }
  }

  /** A table that holds what one poll charges to every raw model name. */
  ghost predicate ChargesPoll(delta: Shares, st: FileState, s: Sighting, loads: Loader) {
    && (forall kind :: Sum(delta, kind) == PollOwed(st, s, loads, Everyone(kind)))
    && (forall key, kind :: Share(delta, key).Of(kind) == PollOwed(st, s, loads, Model(kind, key, Unnamed)))
  }

  lemma ReadIsConsumed(s: Sighting, offset: nat, loads: Loader)
    requires !s.crash
    ensures var data := From(if s.readable then s.file else [], offset);
            data[..LineEnd(data)] == Consumed(s, offset)
  {
  }

  lemma ChargesNothing(st: FileState, s: Sighting, loads: Loader)
    requires Skipped(st, s) || s.crash
    ensures ChargesPoll(map[], st, s, loads)
  {
  }

  lemma CrashReadsNothing(st: FileState, s: Sighting, loads: Loader)
    requires s.crash && !Skipped(st, s)
    ensures Poll(st, s, loads) == Entered(st, s)
  {
  }

  lemma ChargesEvents(delta: Shares, st: FileState, s: Sighting, loads: Loader)
    requires !Skipped(st, s)
    requires var e := Entered(st, s);
             if e.memo.None? then delta == map[]
             else Bills(delta, EventsOf(Consumed(s, e.offset.value), loads), e.memo.value, e.model)
    ensures ChargesPoll(delta, st, s, loads)
  {
    hide EventsOf, Owed, Entered;
  }

  /** What `key` receives when the raw names of `m` are replaced by the configured one where absent. */
  function Merged(m: Shares, key: Name, kind: Kind, configured: Name): int {
    (if key != Unnamed then Share(m, key).Of(kind) else 0)
    + (if key == configured then Share(m, Unnamed).Of(kind) else 0)
  }

  lemma PollMerges(delta: Shares, st: FileState, s: Sighting, loads: Loader, kind: Kind, key: Name, configured: Name)
    requires ChargesPoll(delta, st, s, loads)
    ensures Merged(delta, key, kind, configured) == PollOwed(st, s, loads, Model(kind, key, configured))
  {
    hide EventsOf, Consumed;
    var e := Entered(st, s);
    if e.memo.Some? {
      ChargeMerges(EventsOf(Consumed(s, e.offset.value), loads), e.memo.value, e.model, kind, key, configured);
    }
  }

  lemma MergeOne(total: Shares, rest: Shares, k: Name, key: Name, kind: Kind, configured: Name)
    requires k in rest
    ensures Share(AddShare(total, Charge(k, configured), rest[k]), key).Of(kind)
            + Merged(rest - {k}, key, kind, configured)
         == Share(total, key).Of(kind) + Merged(rest, key, kind, configured)
  {
  }

  /** The inner loop of `collect_by_model`: add one transcript's shares to the report. */
  method MergeShares(report: Shares, delta: Shares, configured: Name) returns (total: Shares)
    ensures forall kind :: Sum(total, kind) == Sum(report, kind) + Sum(delta, kind)
    ensures forall key, kind ::
              Share(total, key).Of(kind) == Share(report, key).Of(kind) + Merged(delta, key, kind, configured)
  {
    total := report;
    var rest := delta;
    while rest != map[]
      invariant forall kind :: Sum(total, kind) + Sum(rest, kind) == Sum(report, kind) + Sum(delta, kind)
      invariant forall key, kind ::
                  Share(total, key).Of(kind) + Merged(rest, key, kind, configured)
                  == Share(report, key).Of(kind) + Merged(delta, key, kind, configured)
      decreases |rest|
    {
      var k :| k in rest;
      ghost var total0, rest0 := total, rest;
      total := AddShare(total, Charge(k, configured), rest[k]);
      rest := rest - {k};
      assert rest.Keys == rest0.Keys - {k};
      forall kind
        ensures Sum(total, kind) + Sum(rest, kind) == Sum(total0, kind) + Sum(rest0, kind)
      {
        SumAdd(total0, Charge(k, configured), rest0[k], kind);
        SumWithout(rest0, k, kind);
      }
      forall key, kind
        ensures Share(total, key).Of(kind) + Merged(rest, key, kind, configured)
             == Share(total0, key).Of(kind) + Merged(rest0, key, kind, configured)
      {
        MergeOne(total0, rest0, k, key, kind, configured);
      }
    }
  }

  /** The loop of `collect`. */
  method SumShares(byModel: Shares) returns (totals: Counter)
    ensures forall kind :: totals.Of(kind) == Sum(byModel, kind)
  {
    var rest := byModel;
    totals := Zero();
    while rest != map[]
      invariant forall kind :: totals.Of(kind) + Sum(rest, kind) == Sum(byModel, kind)
      decreases |rest|
    {
      var k :| k in rest;
      SumWithout(rest, k, Input);
      SumWithout(rest, k, Output);
      assert (rest - {k}).Keys == rest.Keys - {k};
      totals := totals.Plus(rest[k]);
      rest := rest - {k};
    }
  }

  lemma MergedBills(report: Shares, byModel: Shares, delta: Shares, t: Tables, seen: seq<Sighting>, s: Sighting,
                    loads: Loader, configured: Name)
    requires BillsTables(report, t, seen, loads, configured)
    requires ChargesPoll(delta, Look(TablesAfter(t, seen, loads), s.path), s, loads)
    requires forall kind :: Sum(byModel, kind) == Sum(report, kind) + Sum(delta, kind)
    requires forall key, kind ::
               Share(byModel, key).Of(kind) == Share(report, key).Of(kind) + Merged(delta, key, kind, configured)
    ensures BillsTables(byModel, t, seen + [s], loads, configured)
  {
    hide TablesOwed, TablesAfter, Merged, ChargesPoll, PollOwed;
    var st := Look(TablesAfter(t, seen, loads), s.path);
    forall kind
      ensures Sum(byModel, kind) == TablesOwed(t, seen + [s], loads, Everyone(kind))
    {
      TablesOneMore(t, seen, s, loads, Everyone(kind));
      PollSum(delta, st, s, loads, kind);
    }
    forall key, kind
      ensures Share(byModel, key).Of(kind) == TablesOwed(t, seen + [s], loads, Model(kind, key, configured))
    {
      TablesOneMore(t, seen, s, loads, Model(kind, key, configured));
      PollMerges(delta, st, s, loads, kind, key, configured);
    }
  }

  lemma PollSum(delta: Shares, st: FileState, s: Sighting, loads: Loader, kind: Kind)
    requires ChargesPoll(delta, st, s, loads)
    ensures Sum(delta, kind) == PollOwed(st, s, loads, Everyone(kind))
  {
    hide PollOwed;
  }

  class Watcher {
    const configured: Name
    const loads: Loader
    const baselineLoads: CodexBaseline.LineReader

    var offsets: map<Path, nat>
    var memo: map<Path, Option<Counter>>
    var models: map<Path, Name>

    constructor (configured: Name, loads: Loader, baselineLoads: CodexBaseline.LineReader)
      ensures this.configured == configured && this.loads == loads && this.baselineLoads == baselineLoads
      ensures View() == map[]
    {
      this.configured, this.loads, this.baselineLoads := configured, loads, baselineLoads;
      offsets, memo, models := map[], map[], map[];
    }

    ghost function Of(path: Path): FileState
      reads this
    {
      FileState(if path in offsets then Some(offsets[path]) else None,
                if path in memo then memo[path] else None,
                if path in models then models[path] else Unnamed)
    }

    ghost function View(): (t: Tables)
      reads this
      ensures forall path :: Look(t, path) == Of(path)
    {
      map path | path in offsets.Keys + memo.Keys + models.Keys :: Of(path)
    }

    /** `baseline`: mark what is on disk as billed; `failing` as in `FindBaseline`. */
    method Baseline(files: seq<Sighting>, failing: nat -> bool)
      requires forall i, j | 0 <= i < j < |files| :: files[i].path != files[j].path
      modifies this
      ensures forall path :: (forall i | 0 <= i < |files| :: files[i].path != path) ==> Of(path) == old(Of(path))
      ensures forall i | 0 <= i < |files| ::
                && Of(files[i].path).offset == Some(files[i].size)
                && Of(files[i].path).model == old(Of(files[i].path).model)
                && (Of(files[i].path).memo.Some? ==>
                      && files[i].size <= |files[i].file|
                      && Of(files[i].path).memo == CodexBaseline.Search(files[i].file[..files[i].size], baselineLoads))
                && (files[i].size <= |files[i].file| && (forall c: nat :: !failing(c)) ==>
                      Of(files[i].path).memo == CodexBaseline.Search(files[i].file[..files[i].size], baselineLoads))
    {
      for n := 0 to |files|
        invariant forall path :: (forall i | 0 <= i < n :: files[i].path != path) ==> Of(path) == old(Of(path))
        invariant forall i | 0 <= i < n ::
                && Of(files[i].path).offset == Some(files[i].size)
                && Of(files[i].path).model == old(Of(files[i].path).model)
                && (Of(files[i].path).memo.Some? ==>
                      && files[i].size <= |files[i].file|
                      && Of(files[i].path).memo == CodexBaseline.Search(files[i].file[..files[i].size], baselineLoads))
                && (files[i].size <= |files[i].file| && (forall c: nat :: !failing(c)) ==>
                      Of(files[i].path).memo == CodexBaseline.Search(files[i].file[..files[i].size], baselineLoads))
      {
        var f := files[n];
        offsets := offsets[f.path := f.size];
        var found, _, _ := CodexBaseline.FindBaseline(f.file, f.size, failing, baselineLoads);
        memo := memo[f.path := found];
      }
    }

    /** One turn of the loop in `collect_by_model`, up to the merge of its shares. */
    method PollFile(s: Sighting) returns (delta: Shares)
      modifies this
      ensures Of(s.path) == Poll(old(Of(s.path)), s, loads)
      ensures forall p | p != s.path :: Of(p) == old(Of(p))
      ensures ChargesPoll(delta, old(Of(s.path)), s, loads)
    {
      hide Consumed, EventsOf, Bills, LineEnd;
      delta := map[];
      ghost var before := Of(s.path);
      var offset: nat := 0;
      if s.path in offsets {
        offset := offsets[s.path];
      } else {
        memo := memo[s.path := Some(Zero())];
      }
      if s.size < offset {
        offset := 0;
        memo := memo[s.path := Some(Zero())];
        models := models - {s.path};
      } else if s.size == offset {
        ChargesNothing(before, s, loads);
        return;
      }
      var cursor := offset;
      if !s.crash {
        delta, cursor := Delta(s, offset, before);
      } else {
        ChargesNothing(before, s, loads);
        CrashReadsNothing(before, s, loads);
      }
      offsets := offsets[s.path := if cursor > offset then cursor else offset];
    }

    /** `_codex_delta` on the watcher's own tables. */
    method Delta(s: Sighting, offset: nat, ghost before: FileState) returns (delta: Shares, cursor: nat)
      requires !s.crash && !Skipped(before, s) && Of(s.path).(offset := Some(offset)) == Entered(before, s)
      modifies this`memo, this`models
      ensures cursor >= offset && FileState(Some(cursor), Of(s.path).memo, Of(s.path).model) == Poll(before, s, loads)
      ensures memo == if Of(s.path).memo.Some? then old(memo)[s.path := Of(s.path).memo] else old(memo)
      ensures models == old(models)[s.path := Of(s.path).model]
      ensures ChargesPoll(delta, before, s, loads)
    {
      hide Consumed, Entered, Parse, Events, Bills, LineEnd;
      var entries;
      entries, cursor := ReadRecords(if s.readable then Some(s.file) else None, offset, true, loads);
      ReadIsConsumed(s, offset, loads);
      var events, _ := CodexScan(entries);
      var known := if s.path in memo then memo[s.path] else None;
      var named := if s.path in models then models[s.path] else Unnamed;
      var previous, model;
      delta, previous, model := CodexDelta(events, known, named);
      ChargesEvents(delta, before, s, loads);
      if previous.Some? {
        memo := memo[s.path := previous];
      }
      models := models[s.path := model];
    }

    /** The tables `t` say what the watcher keeps. */
    ghost predicate Represents(t: Tables)
      reads this
    {
      forall path :: Look(t, path) == Of(path)
    }

    /** `collect_by_model`: the shares by charged model, and the advanced cursors. */
    method CollectByModel(seen: seq<Sighting>) returns (byModel: Shares)
      modifies this
      ensures Represents(TablesAfter(old(View()), seen, loads))
      ensures BillsTables(byModel, old(View()), seen, loads, configured)
    {
      byModel := map[];
      ghost var t := View();
      for i := 0 to |seen|
        invariant Represents(TablesAfter(t, seen[..i], loads))
        invariant BillsTables(byModel, t, seen[..i], loads, configured)
      {
        ghost var before := Look(TablesAfter(t, seen[..i], loads), seen[i].path);
        var delta := PollFile(seen[i]);
        ghost var report := byModel;
        byModel := MergeShares(byModel, delta, configured);
        assert seen[..i + 1] == seen[..i] + [seen[i]];
        MergedBills(report, byModel, delta, t, seen[..i], seen[i], loads, configured);
        TablesOneMore(t, seen[..i], seen[i], loads, Everyone(Input));
      }
      assert seen[..|seen|] == seen;
    }

    /** `collect`: the same summed over models. */
    method Collect(seen: seq<Sighting>) returns (totals: Counter)
      modifies this
      ensures Represents(TablesAfter(old(View()), seen, loads))
      ensures forall kind :: totals.Of(kind) == TablesOwed(old(View()), seen, loads, Everyone(kind))
    {
      var byModel := CollectByModel(seen);
      totals := SumShares(byModel);
    }
  }
}
