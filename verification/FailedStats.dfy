/**
  What a transcript is billed when `stat` fails (usage_watcher.py:348-353, 381-389): `_size` reports 0,
  which a poll takes for a truncation. The file itself only grows.
 */
module FailedStats {
  import opened Wrappers
  import opened Lines
  import opened JsonlTail
  import opened CodexUsage
  import opened UsageRuns

  /** The first `c` bytes, or all. */
  function Head(file: Bytes, c: nat): (data: Bytes) {
    if c <= |file| then file[..c] else file
  }

  /** What the lines up to `c` charge from a zero counter and no model. */
  function Passed(file: Bytes, c: nat, loads: Loader, who: Who): (owed: nat) {
    Owed(EventsOf(Head(file, c), loads), Zero(), Unnamed, who)
  }

  /** What the lines charge again that a cursor had passed when a poll put it back to the start. */
  function Rebilled(st: FileState, polls: seq<Sighting>, loads: Loader, who: Who): (sum: nat)
    decreases |polls|
  {
    if polls == [] then 0
    else
      (if Resets(st, polls[0]) then Passed(polls[0].file, st.offset.GetOr(0), loads, who) else 0)
      + Rebilled(Poll(st, polls[0], loads), polls[1..], loads, who)
  }

  /** No poll put back a cursor that had passed lines which charge `who`. */
  predicate Harmless(st: FileState, polls: seq<Sighting>, loads: Loader, who: Who)
    decreases |polls|
  {
    polls == [] ||
    (&& (Resets(st, polls[0]) ==> Passed(polls[0].file, st.offset.GetOr(0), loads, who) == 0)
     && Harmless(Poll(st, polls[0], loads), polls[1..], loads, who))
  }

  lemma {:induction false} HarmlessIff(st: FileState, polls: seq<Sighting>, loads: Loader, who: Who)
    ensures Rebilled(st, polls, loads, who) == 0 <==> Harmless(st, polls, loads, who)
    decreases |polls|
  {
    hide Poll, Passed;
    if polls != [] {
      HarmlessIff(Poll(st, polls[0], loads), polls[1..], loads, who);
    }
  }

  /** The counters that polls dropped when they put the cursor back. */
  function Forgotten(st: FileState, polls: seq<Sighting>, loads: Loader, kind: Kind): (sum: nat)
    decreases |polls|
  {
    if polls == [] then 0
    else
      (if Resets(st, polls[0]) then st.memo.GetOr(Zero()).Of(kind) else 0)
      + Forgotten(Poll(st, polls[0], loads), polls[1..], loads, kind)
  }

  /** How many polls come before the first that puts the cursor back; all, if none does. */
  function FirstReset(st: FileState, polls: seq<Sighting>, loads: Loader): (k: nat)
    ensures k <= |polls| && (k == |polls| <==> Believed(st, polls, loads))
    decreases |polls|
  {
    if polls == [] || Resets(st, polls[0]) then 0 else 1 + FirstReset(Poll(st, polls[0], loads), polls[1..], loads)
  }

  /** The bill from the first such poll on: all lines from zero, and those charged yet again. */
  function Again(st: FileState, before: Bytes, polls: seq<Sighting>, loads: Loader, who: Who): (owed: nat) {
    var k := FirstReset(st, polls, loads);
    if k == |polls| then 0
    else
      Passed(LastFile(before, polls), Run(st, polls, loads).offset.GetOr(0), loads, who)
      + Rebilled(Run(st, polls[..k + 1], loads), polls[k + 1..], loads, who)
  }

  // ---------- counter, model and cursor of one pass from the start ----------

  /** The state is that of one pass over the lines up to the cursor, from zero. */
  predicate Standing(st: FileState, file: Bytes, loads: Loader) {
    && st.offset.Some? && LineCursor(file, 0, st.offset.value)
    && st.memo == LastCounter(EventsOf(file[..st.offset.value], loads), Some(Zero()))
    && st.model == LastModel(EventsOf(file[..st.offset.value], loads), Unnamed)
  }

  lemma HasCursor(st: FileState, file: Bytes, loads: Loader)
    requires Standing(st, file, loads)
    ensures st.offset.Some? && st.offset.value <= |file| && st.memo.Some?
  {
  }

  lemma PrefixStays(before: Bytes, file: Bytes, st: FileState, loads: Loader, who: Who)
    requires before <= file && Standing(st, before, loads)
    ensures Standing(st, file, loads) && st.offset.value <= |before|
    ensures Passed(before, st.offset.value, loads, who) == Passed(file, st.offset.value, loads, who)
  {
    hide EventsOf, Owed;
    assert before[..st.offset.value] == file[..st.offset.value];
  }

  /** A believed poll owes what the lines it passed owe after the earlier ones. */
  lemma StandingAdvances(st: FileState, s: Sighting, loads: Loader, who: Who)
    requires Standing(st, s.file, loads) && !Resets(st, s)
    ensures Standing(Poll(st, s, loads), s.file, loads)
    ensures PollOwed(st, s, loads, who) + Passed(s.file, st.offset.value, loads, who)
         == Passed(s.file, Poll(st, s, loads).offset.value, loads, who)
  {
    hide EventsOf, Poll, PollOwed, PollRead, Parse, Owed;
    OnePoll(st, s, loads, who);
    var o, c := st.offset.value, Poll(st, s, loads).offset.value;
    var a, b := EventsOf(s.file[..o], loads), EventsOf(s.file[o..c], loads);
    assert s.file[..c] == s.file[..o] + s.file[o..c];
    EventsOfAppend(s.file[..o], s.file[o..c], loads);
    LastAppend(a, b, Some(Zero()), Unnamed);
    OwedAppend(a, b, Zero(), Unnamed, who);
  }

  /** A poll that puts the cursor back starts one pass from zero, whatever was known before. */
  lemma ResetStands(st: FileState, s: Sighting, loads: Loader, who: Who)
    requires Resets(st, s)
    ensures Standing(Poll(st, s, loads), s.file, loads)
    ensures PollOwed(st, s, loads, who) == Passed(s.file, Poll(st, s, loads).offset.value, loads, who)
  {
    hide EventsOf, Owed, Consumed;
    ConsumedIsCut(s, 0);
    var c := |Consumed(s, 0)|;
    assert s.file[0..c] == s.file[..c];
  }

  lemma {:induction false} StandingRun(st: FileState, before: Bytes, polls: seq<Sighting>, loads: Loader, who: Who)
    requires Standing(st, before, loads) && AppendOnly(before, polls)
    ensures Standing(Run(st, polls, loads), LastFile(before, polls), loads)
    ensures RunOwed(st, polls, loads, who) + Passed(before, st.offset.value, loads, who)
         == Passed(LastFile(before, polls), Run(st, polls, loads).offset.value, loads, who)
            + Rebilled(st, polls, loads, who)
    decreases |polls|
  {
    hide Poll, PollOwed, Passed, Standing;
    if polls != [] {
      var s := polls[0];
      PrefixStays(before, s.file, st, loads, who);
      if Resets(st, s) {
        ResetStands(st, s, loads, who);
      } else {
        StandingAdvances(st, s, loads, who);
      }
      StandingRun(Poll(st, s, loads), s.file, polls[1..], loads, who);
    }
  }

  lemma OnePollRun(st: FileState, s: Sighting, loads: Loader, who: Who)
    ensures Run(st, [s], loads) == Poll(st, s, loads) && RunOwed(st, [s], loads, who) == PollOwed(st, s, loads, who)
  {
    hide Poll, PollOwed;
    assert [s][1..] == [];
  }

  /** What is charged again, and what is forgotten, begins at the first poll that puts the cursor back. */
  lemma {:induction false} ResetsSplit(st: FileState, polls: seq<Sighting>, loads: Loader, who: Who)
    ensures var k := FirstReset(st, polls, loads);
            if k == |polls| then Rebilled(st, polls, loads, who) == Forgotten(st, polls, loads, who.kind) == 0
            else
              var mid, next := Run(st, polls[..k], loads), Run(st, polls[..k + 1], loads);
              && Rebilled(st, polls, loads, who)
                 == Passed(polls[k].file, mid.offset.GetOr(0), loads, who) + Rebilled(next, polls[k + 1..], loads, who)
              && Forgotten(st, polls, loads, who.kind)
                 == mid.memo.GetOr(Zero()).Of(who.kind) + Forgotten(next, polls[k + 1..], loads, who.kind)
    decreases |polls|
  {
    hide Poll, Resets, Passed;
    var k := FirstReset(st, polls, loads);
    if polls == [] {
    } else if Resets(st, polls[0]) {
      assert polls[..0] == [] && polls[..1] == [polls[0]];
      OnePollRun(st, polls[0], loads, who);
      assert Run(st, polls[..k], loads) == st;
    } else {
      var mid, rest := Poll(st, polls[0], loads), polls[1..];
      ResetsSplit(mid, rest, loads, who);
      if k < |polls| {
        assert polls[..k][0] == polls[0] && polls[..k][1..] == rest[..k - 1];
        assert polls[..k + 1][0] == polls[0] && polls[..k + 1][1..] == rest[..k] && polls[k + 1..] == rest[k..];
      }
    }
  }

  // ---------- any run, whatever `stat` said ----------

  /**
    The bill of any schedule, from any state, per model and in all: up to the first poll that puts the
    cursor back it is that of a run whose sizes are believed; from there on every line is charged from
    zero, counter and model known before being dropped, and each later such poll charges the lines
    passed by then once more.
   */
  lemma {:induction false} BillOfAnyRun(st: FileState, before: Bytes, polls: seq<Sighting>, loads: Loader, who: Who)
    requires AppendOnly(before, polls)
    ensures var k := FirstReset(st, polls, loads);
            && Believed(st, polls[..k], loads)
            && RunOwed(st, polls, loads, who)
               == RunOwed(st, polls[..k], loads, who) + Again(st, before, polls, loads, who)
            && (k < |polls| ==> Standing(Run(st, polls[..k + 1], loads), polls[k].file, loads))
            && (k < |polls| ==> Standing(Run(st, polls, loads), LastFile(before, polls), loads))
    decreases |polls|
  {
    hide Poll, PollOwed, Passed, Standing, Resets;
    var k := FirstReset(st, polls, loads);
    if polls == [] {
      assert polls[..k] == [];
    } else {
      var s, rest := polls[0], polls[1..];
      var mid := Poll(st, s, loads);
      if Resets(st, s) {
        assert polls[..0] == [] && polls[..1] == [s];
        assert Run(st, [s], loads) == mid by {
          OnePollRun(st, s, loads, who);
        }
        ResetStands(st, s, loads, who);
        StandingRun(mid, s.file, rest, loads, who);
        HasCursor(Run(st, polls, loads), LastFile(before, polls), loads);
      } else {
        BillOfAnyRun(mid, s.file, rest, loads, who);
        assert polls[..k][0] == s && polls[..k][1..] == rest[..k - 1];
        if k < |polls| {
          assert polls[..k + 1][0] == s && polls[..k + 1][1..] == rest[..k] && polls[k + 1..] == rest[k..];
        }
      }
    }
  }

  // ---------- a run that ends at rest ----------

  lemma PollInFile(st: FileState, s: Sighting, loads: Loader)
    requires st.offset.Some? && st.offset.value <= |s.file|
    ensures Poll(st, s, loads).offset.Some? && Poll(st, s, loads).offset.value <= |s.file|
  {
    hide EventsOf, Consumed;
    ConsumedIsCut(s, st.offset.value);
    ConsumedIsCut(s, 0);
  }

  /** Whatever `stat` said before, the last poll of the resting file leaves no line end ahead. */
  lemma {:induction false} QuietRunRests(st: FileState, before: Bytes, polls: seq<Sighting>, loads: Loader)
    requires st.offset.Some? && st.offset.value <= |before| && AppendOnly(before, polls) && EndsQuiet(polls)
    ensures var end, file := Run(st, polls, loads), LastFile(before, polls);
            end.offset.Some? && end.offset.value <= |file| && LF !in file[end.offset.value..]
    decreases |polls|
  {
    hide EventsOf, Poll, LineEnd;
    var s, rest := polls[0], polls[1..];
    PollInFile(st, s, loads);
    if rest == [] {
      QuietPoll(st, s, loads);
      NoLineEndAhead(s.file, st.offset.value);
    } else {
      assert rest[|rest| - 1] == polls[|polls| - 1];
      QuietRunRests(Poll(st, s, loads), s.file, rest, loads);
    }
  }

  lemma NoLineEndAhead(file: Bytes, o: nat)
    requires o <= |file|
    ensures LF !in file[o + LineEnd(file[o..])..]
  {
    var n := LineEnd(file[o..]);
    assert forall i | o + n <= i < |file| :: file[i] == file[o..][i - o];
  }

  lemma RestsAtLineEnd(file: Bytes, e: nat)
    requires LineCursor(file, 0, e) && LF !in file[e..]
    ensures e == LineEnd(file) && CompleteLines(file, 0) == file[..e]
  {
    assert file[0..] == file;
  }

  lemma LineEndAfter(file: Bytes, o: nat)
    requires LineCursor(file, 0, o)
    ensures o <= LineEnd(file) && CompleteLines(file, o) == file[o..LineEnd(file)]
    ensures LineCursor(file, o, LineEnd(file))
  {
    assert file[0..] == file;
    LineEndResume(file, 0, o);
  }

  /** What the lines up to `e` charge is what those up to the cursor charge, plus the rest of one pass. */
  lemma PassedSplits(st: FileState, file: Bytes, e: nat, loads: Loader, who: Who)
    requires Standing(st, file, loads) && LineCursor(file, st.offset.value, e)
    ensures st.memo.Some?
    ensures Passed(file, e, loads, who)
         == Passed(file, st.offset.value, loads, who)
            + Owed(EventsOf(file[st.offset.value..e], loads), st.memo.value, st.model, who)
  {
    hide EventsOf, Owed;
    var o := st.offset.value;
    assert file[..e] == file[..o] + file[o..e];
    EventsOfAppend(file[..o], file[o..e], loads);
    OwedAppend(EventsOf(file[..o], loads), EventsOf(file[o..e], loads), Zero(), Unnamed, who);
  }

  /**
    What failed stats cost: over any schedule that ends at rest, each model is billed the one fold over
    the lines past its cursor, and once more all that the lines passed by then owe it for every poll
    that put the cursor back. It is the fold exactly if these lines never owed it anything.
   */
  lemma FailedStatsBillAgain(st: FileState, before: Bytes, polls: seq<Sighting>, loads: Loader, who: Who)
    requires Standing(st, before, loads) && AppendOnly(before, polls) && EndsQuiet(polls)
    ensures st.memo.Some? && st.offset.value <= |LastFile(before, polls)|
    ensures var fold := Owed(EventsOf(CompleteLines(LastFile(before, polls), st.offset.value), loads),
                             st.memo.value, st.model, who);
            && RunOwed(st, polls, loads, who) == fold + Rebilled(st, polls, loads, who)
            && (RunOwed(st, polls, loads, who) == fold <==> Harmless(st, polls, loads, who))
  {
    hide EventsOf, Owed, Run, RunOwed, LineEnd, AppendOnly, LastFile, Rebilled, Harmless, Standing, Passed,
         CompleteLines;
    var file := LastFile(before, polls);
    HasCursor(st, before, loads);
    AppendOnlyGrows(before, polls);
    PrefixStays(before, file, st, loads, who);
    StandingRun(st, before, polls, loads, who);
    QuietRunRests(st, before, polls, loads);
    var e := Run(st, polls, loads).offset.value;
    CursorAtLineEnd(Run(st, polls, loads), file, loads);
    CursorAtLineEnd(st, file, loads);
    RestsAtLineEnd(file, e);
    LineEndAfter(file, st.offset.value);
    PassedSplits(st, file, e, loads, who);
    HarmlessIff(st, polls, loads, who);
  }

  lemma CursorAtLineEnd(st: FileState, file: Bytes, loads: Loader)
    requires Standing(st, file, loads)
    ensures LineCursor(file, 0, st.offset.value)
  {
  }

  lemma {:induction false} PrefixGrows(before: Bytes, polls: seq<Sighting>, k: nat)
    requires AppendOnly(before, polls) && k <= |polls|
    ensures AppendOnly(before, polls[..k]) && LastFile(before, polls[..k]) <= LastFile(before, polls)
    ensures AppendOnly(LastFile(before, polls[..k]), polls[k..])
    ensures LastFile(LastFile(before, polls[..k]), polls[k..]) == LastFile(before, polls)
    decreases k
  {
    AppendOnlyGrows(before, polls);
    if k == 0 {
      assert polls[..0] == [] && polls[0..] == polls;
    } else {
      PrefixGrows(polls[0].file, polls[1..], k - 1);
      assert polls[..k][0] == polls[0] && polls[..k][1..] == polls[1..][..k - 1] && polls[k..] == polls[1..][k - 1..];
    }
  }

  /** A believed run and what it leaves unread make up the fold over the complete lines. */
  lemma FoldSplits(st: FileState, before: Bytes, polls: seq<Sighting>, file: Bytes, loads: Loader, who: Who)
    requires st.offset.Some? && st.offset.value <= |before| && st.memo.Some?
    requires AppendOnly(before, polls) && Believed(st, polls, loads) && LastFile(before, polls) <= file
    ensures var mid := Run(st, polls, loads);
            && mid.offset.Some? && mid.offset.value <= |file| && mid.memo.Some?
            && LineCursor(file, st.offset.value, mid.offset.value)
            && var read, ahead := file[st.offset.value..mid.offset.value], CompleteLines(file, mid.offset.value);
               && CompleteLines(file, st.offset.value) == read + ahead && (read == [] || read[|read| - 1] == LF)
               && mid.memo == LastCounter(EventsOf(read, loads), st.memo)
               && RunOwed(st, polls, loads, who) == Owed(EventsOf(read, loads), st.memo.value, st.model, who)
               && Owed(EventsOf(CompleteLines(file, st.offset.value), loads), st.memo.value, st.model, who)
                  == RunOwed(st, polls, loads, who) + Owed(EventsOf(ahead, loads), mid.memo.value, mid.model, who)
  {
    hide EventsOf, Owed, Run, RunOwed, RunRead, Parse, AppendOnly, Believed, LineEnd, LastFile;
    RunReadsEachLineOnce(st, before, polls, loads);
    RunOwesTheFold(st, before, polls, loads, who);
    var o, c := st.offset.value, Run(st, polls, loads).offset.value;
    assert LastFile(before, polls)[o..c] == file[o..c];
    LineEndResume(file, o, c);
    var read, ahead := file[o..c], CompleteLines(file, c);
    assert CompleteLines(file, o) == read + ahead;
    EventsOfAppend(read, ahead, loads);
    OwedAppend(EventsOf(read, loads), EventsOf(ahead, loads), st.memo.value, st.model, who);
  }

  /** Where the cursor stands when a poll meets the file. */
  lemma CursorBeforeReset(st: FileState, before: Bytes, polls: seq<Sighting>, k: nat, loads: Loader)
    requires st.offset.Some? && st.offset.value <= |before| && AppendOnly(before, polls) && k < |polls|
    requires Believed(st, polls[..k], loads)
    ensures Run(st, polls[..k], loads).offset.Some?
    ensures Run(st, polls[..k], loads).offset.value <= |polls[k].file|
    ensures polls[k].file <= LastFile(before, polls)
  {
    hide EventsOf, Run, RunRead, Parse, Believed;
    PrefixGrows(before, polls, k);
    RunReadsEachLineOnce(st, before, polls[..k], loads);
    assert polls[k..][0] == polls[k];
    AppendOnlyGrows(polls[k].file, polls[k..][1..]);
  }

  /** From the counter and model of one pass, billing all again adds what was billed before. */
  lemma AllAgain(mid: FileState, end: FileState, early: Bytes, file: Bytes, loads: Loader, who: Who)
    requires Standing(mid, file, loads) && Standing(end, file, loads) && LF !in file[end.offset.value..]
    requires mid.offset.value <= |early| && early <= file
    ensures mid.memo.Some?
    ensures Passed(file, end.offset.value, loads, who)
         == Passed(early, mid.offset.value, loads, who)
            + Owed(EventsOf(CompleteLines(file, mid.offset.value), loads), mid.memo.value, mid.model, who)
  {
    hide EventsOf, Owed, LineEnd, CompleteLines, Standing, Passed;
    HasCursor(mid, file, loads);
    HasCursor(end, file, loads);
    CursorAtLineEnd(mid, file, loads);
    CursorAtLineEnd(end, file, loads);
    RestsAtLineEnd(file, end.offset.value);
    LineEndAfter(file, mid.offset.value);
    PassedSplits(mid, file, end.offset.value, loads, who);
    SamePassed(early, file, mid.offset.value, loads, who);
  }

  lemma SamePassed(early: Bytes, file: Bytes, c: nat, loads: Loader, who: Who)
    requires c <= |early| && early <= file
    ensures Passed(early, c, loads, who) == Passed(file, c, loads, who)
  {
    hide EventsOf, Owed;
    assert early[..c] == file[..c];
  }

  /**
    From any known counter, model and cursor, also one inside a line: the bill of a schedule that ends
    at rest is the fold, per model and in all, if and only if no poll put the cursor back or what was
    billed from the first one that did is what was then left to bill. If counter and model were by then
    those of one pass from the start, that is so exactly if no cursor was put back past lines that owe.
   */
  lemma KnownBaselineStillRight(st: FileState, before: Bytes, polls: seq<Sighting>, loads: Loader, who: Who)
    requires st.offset.Some? && st.offset.value <= |before| && st.memo.Some?
    requires AppendOnly(before, polls) && EndsQuiet(polls)
    ensures var file, k := LastFile(before, polls), FirstReset(st, polls, loads);
            var mid := Run(st, polls[..k], loads);
            && st.offset.value <= |file| && mid.offset.Some? && mid.offset.value <= |file| && mid.memo.Some?
            && var fold := Owed(EventsOf(CompleteLines(file, st.offset.value), loads), st.memo.value, st.model, who);
               var ahead := EventsOf(CompleteLines(file, mid.offset.value), loads);
               var unpaid := Owed(ahead, mid.memo.value, mid.model, who);
               var owed := RunOwed(st, polls, loads, who);
               && (owed == fold <==> Believed(st, polls, loads) || Again(st, before, polls, loads, who) == unpaid)
               && (Standing(mid, file, loads) ==>
                     && owed == fold + Rebilled(st, polls, loads, who)
                     && (owed == fold <==> Harmless(st, polls, loads, who)))
  {
    hide EventsOf, Owed, Run, RunOwed, AppendOnly, Believed, LineEnd, LastFile, CompleteLines, Standing, Rebilled,
         Passed, Harmless;
    var k, file := FirstReset(st, polls, loads), LastFile(before, polls);
    var mid := Run(st, polls[..k], loads);
    BillOfAnyRun(st, before, polls, loads, who);
    ResetsSplit(st, polls, loads, who);
    HarmlessIff(st, polls, loads, who);
    PrefixGrows(before, polls, k);
    FoldSplits(st, before, polls[..k], file, loads, who);
    if k == |polls| {
      QuietRunSettles(st, before, polls, loads, who);
    } else if Standing(mid, file, loads) {
      QuietRunRests(st, before, polls, loads);
      CursorBeforeReset(st, before, polls, k, loads);
      AllAgain(mid, Run(st, polls, loads), polls[k].file, file, loads, who);
    }
  }

  // ---------- counters that never go down ----------

  /** The counters of `file` never go down over its complete lines. */
  predicate MonotoneFile(file: Bytes, loads: Loader, kind: Kind) {
    Monotone(EventsOf(CompleteLines(file, 0), loads), Zero(), kind)
  }

  /** The last counter of the complete lines of `file`, 0 if there is none. */
  function History(file: Bytes, loads: Loader, kind: Kind): (tokens: nat) {
    LastCounter(EventsOf(CompleteLines(file, 0), loads), Some(Zero())).value.Of(kind)
  }

  lemma MonotoneHead(file: Bytes, c: nat, later: Bytes, loads: Loader, kind: Kind)
    requires LineCursor(file, 0, c) && file <= later && MonotoneFile(later, loads, kind)
    ensures Monotone(EventsOf(file[..c], loads), Zero(), kind)
  {
    hide EventsOf, Monotone;
    var e := LineEnd(later);
    assert later[0..] == later && later[0..e] == later[..e];
    assert c <= e && file[..c] == later[..c] && later[..e] == later[..c] + later[c..e];
    EventsOfAppend(later[..c], later[c..e], loads);
    MonotonePrefix(EventsOf(later[..c], loads), EventsOf(later[c..e], loads), Zero(), kind);
  }

  /** Then the lines passed charge in all what the counter has reached. */
  lemma PassedIsCounter(st: FileState, file: Bytes, later: Bytes, loads: Loader, kind: Kind)
    requires Standing(st, file, loads) && file <= later && MonotoneFile(later, loads, kind)
    ensures st.memo.Some? && Passed(file, st.offset.value, loads, Everyone(kind)) == st.memo.value.Of(kind)
  {
    hide EventsOf, Owed, Monotone, MonotoneFile;
    MonotoneHead(file, st.offset.value, later, loads, kind);
    MonotoneTelescopes(EventsOf(file[..st.offset.value], loads), Zero(), Unnamed, kind);
  }

  /** ... and the lines charged again are the counters forgotten on the way. */
  lemma {:induction false} RebilledIsForgotten(st: FileState, before: Bytes, polls: seq<Sighting>, loads: Loader,
                                               kind: Kind)
    requires Standing(st, before, loads) && AppendOnly(before, polls)
    requires MonotoneFile(LastFile(before, polls), loads, kind)
    ensures Rebilled(st, polls, loads, Everyone(kind)) == Forgotten(st, polls, loads, kind)
    decreases |polls|
  {
    hide Poll, PollOwed, Passed, Standing, MonotoneFile;
    if polls != [] {
      var s := polls[0];
      AppendOnlyGrows(s.file, polls[1..]);
      PrefixStays(before, s.file, st, loads, Everyone(kind));
      HasCursor(st, before, loads);
      PassedIsCounter(st, s.file, LastFile(before, polls), loads, kind);
      if Resets(st, s) {
        ResetStands(st, s, loads, Everyone(kind));
      } else {
        StandingAdvances(st, s, loads, Everyone(kind));
      }
      RebilledIsForgotten(Poll(st, s, loads), s.file, polls[1..], loads, kind);
    }
  }

  /** What is billed from the first poll that puts the cursor back: the whole counter, and those forgotten later. */
  lemma AgainIsHistory(st: FileState, before: Bytes, polls: seq<Sighting>, loads: Loader, kind: Kind)
    requires AppendOnly(before, polls) && !Believed(st, polls, loads)
    requires MonotoneFile(LastFile(before, polls), loads, kind)
    ensures var k, end := FirstReset(st, polls, loads), Run(st, polls, loads);
            && k < |polls| && end.memo.Some?
            && Again(st, before, polls, loads, Everyone(kind))
               == end.memo.value.Of(kind) + Forgotten(Run(st, polls[..k + 1], loads), polls[k + 1..], loads, kind)
            && Rebilled(Run(st, polls[..k + 1], loads), polls[k + 1..], loads, Everyone(kind))
               == Forgotten(Run(st, polls[..k + 1], loads), polls[k + 1..], loads, kind)
  {
    hide EventsOf, Run, RunOwed, AppendOnly, Believed, LastFile, Passed, Standing, MonotoneFile, Rebilled, Forgotten;
    var k, file, end := FirstReset(st, polls, loads), LastFile(before, polls), Run(st, polls, loads);
    BillOfAnyRun(st, before, polls, loads, Everyone(kind));
    HasCursor(end, file, loads);
    PassedIsCounter(end, file, file, loads, kind);
    PrefixGrows(before, polls, k + 1);
    LastFileOf(before, polls, k);
    RebilledIsForgotten(Run(st, polls[..k + 1], loads), polls[k].file, polls[k + 1..], loads, kind);
  }

  lemma {:induction false} LastFileOf(before: Bytes, polls: seq<Sighting>, k: nat)
    requires k < |polls|
    ensures LastFile(before, polls[..k + 1]) == polls[k].file
    decreases k
  {
    assert polls[..k + 1][0] == polls[0] && polls[..k + 1][1..] == polls[1..][..k];
    if k > 0 {
      LastFileOf(polls[0].file, polls[1..], k - 1);
    } else {
      assert polls[1..][..0] == [];
    }
  }

  /**
    With monotone counters, from any known counter and cursor: once a poll put the cursor back, the bill
    exceeds the fold by every counter forgotten on the way and by what the whole file's counter is ahead
    of the one the lines past the cursor lead to. If these two agree it is right exactly if no counter
    but zero was forgotten.
   */
  lemma ForgottenCountersAreBilled(st: FileState, before: Bytes, polls: seq<Sighting>, loads: Loader, kind: Kind)
    requires st.offset.Some? && st.offset.value <= |before| && st.memo.Some?
    requires AppendOnly(before, polls) && EndsQuiet(polls) && MonotoneFile(LastFile(before, polls), loads, kind)
    requires Monotone(EventsOf(From(LastFile(before, polls), st.offset.value), loads), st.memo.value, kind)
    ensures st.offset.value <= |LastFile(before, polls)|
    ensures var file := LastFile(before, polls);
            var events := EventsOf(CompleteLines(file, st.offset.value), loads);
            var last := LastCounter(events, st.memo).value.Of(kind);
            var fold := Owed(events, st.memo.value, st.model, Everyone(kind));
            var owed, forgotten := RunOwed(st, polls, loads, Everyone(kind)), Forgotten(st, polls, loads, kind);
            && (Believed(st, polls, loads) ==> owed == fold && forgotten == 0)
            && (!Believed(st, polls, loads) ==> owed + last == fold + History(file, loads, kind) + forgotten)
            && (History(file, loads, kind) == last ==> owed == fold + forgotten && (owed == fold <==> forgotten == 0))
  {
    hide EventsOf, Owed, Run, RunOwed, AppendOnly, Believed, LineEnd, LastFile, CompleteLines, Again, Standing,
         MonotoneFile, Monotone, Forgotten, Rebilled;
    var k, file := FirstReset(st, polls, loads), LastFile(before, polls);
    BillOfAnyRun(st, before, polls, loads, Everyone(kind));
    ResetsSplit(st, polls, loads, Everyone(kind));
    PrefixGrows(before, polls, k);
    FoldSplits(st, before, polls[..k], file, loads, Everyone(kind));
    if k == |polls| {
      QuietRunSettles(st, before, polls, loads, Everyone(kind));
    } else {
      AgainIsHistory(st, before, polls, loads, kind);
      EndOfHistory(st, before, polls, loads, kind);
      AheadTelescopes(st, Run(st, polls[..k], loads), file, loads, kind);
    }
  }

  lemma EndOfHistory(st: FileState, before: Bytes, polls: seq<Sighting>, loads: Loader, kind: Kind)
    requires st.offset.Some? && st.offset.value <= |before| && AppendOnly(before, polls) && EndsQuiet(polls)
    requires Standing(Run(st, polls, loads), LastFile(before, polls), loads)
    ensures Run(st, polls, loads).memo.Some?
    ensures Run(st, polls, loads).memo.value.Of(kind) == History(LastFile(before, polls), loads, kind)
  {
    hide EventsOf, Run, AppendOnly, LastFile, LineEnd, CompleteLines;
    QuietRunRests(st, before, polls, loads);
    RestsAtLineEnd(LastFile(before, polls), Run(st, polls, loads).offset.value);
  }

  /** The lines between the two cursors, and those ahead of the second, telescope from the first counter. */
  lemma AheadTelescopes(st: FileState, mid: FileState, file: Bytes, loads: Loader, kind: Kind)
    requires st.offset.Some? && st.memo.Some? && mid.offset.Some? && mid.memo.Some?
    requires st.offset.value <= mid.offset.value <= |file|
    requires Monotone(EventsOf(From(file, st.offset.value), loads), st.memo.value, kind)
    requires var read := file[st.offset.value..mid.offset.value];
             && (read == [] || read[|read| - 1] == LF)
             && CompleteLines(file, st.offset.value) == read + CompleteLines(file, mid.offset.value)
             && mid.memo == LastCounter(EventsOf(read, loads), st.memo)
    ensures var ahead := EventsOf(CompleteLines(file, mid.offset.value), loads);
            mid.memo.value.Of(kind) + Owed(ahead, mid.memo.value, mid.model, Everyone(kind))
            == LastCounter(EventsOf(CompleteLines(file, st.offset.value), loads), st.memo).value.Of(kind)
  {
    hide EventsOf, Owed, LineEnd, Monotone;
    var o, c := st.offset.value, mid.offset.value;
    var read, ahead := file[o..c], CompleteLines(file, c);
    var rest := file[c + |ahead|..];
    assert From(file, o) == (read + ahead) + rest;
    LineEndIsEnd(file, o);
    EventsOfAppend(read + ahead, rest, loads);
    EventsOfAppend(read, ahead, loads);
    MonotonePrefix(EventsOf(read + ahead, loads), EventsOf(rest, loads), st.memo.value, kind);
    MonotonePrefix(EventsOf(read, loads), EventsOf(ahead, loads), st.memo.value, kind);
    LastAppend(EventsOf(read, loads), EventsOf(ahead, loads), st.memo, st.model);
    MonotoneTelescopes(EventsOf(ahead, loads), mid.memo.value, mid.model, kind);
  }

  lemma LineEndIsEnd(file: Bytes, o: nat)
    requires o <= |file|
    ensures var lines := CompleteLines(file, o);
            lines == [] || lines[|lines| - 1] == LF
  {
  }

  // ---------- an unknown baseline ----------

  /** What the source promises of an unknown baseline: the bill is at most last counter minus first one read past it. */
  predicate BillsNoHistory(file: Bytes, o: nat, end: FileState, owed: nat, loads: Loader, kind: Kind) {
    end.offset.Some? &&
    var first := FirstRead(file, o, end.offset.value, loads);
    if first.None? then owed == 0 else end.memo.Some? && first.value.Of(kind) + owed <= end.memo.value.Of(kind)
  }

  /** The first counter of the lines from `o` up to `c`. */
  function FirstRead(file: Bytes, o: nat, c: nat, loads: Loader): (first: Option<Counter>) {
    if o <= c <= |file| then FirstCounter(EventsOf(file[o..c], loads)) else None
  }

  /**
    When that promise holds over any schedule, whatever `stat` said: if no poll put the cursor back, or
    if before the first one that did nothing had been billed, at the end the first counter read past the
    baseline (the last one, if none was read) is zero, and no later one put back a cursor past lines that
    owe anything.
   */
  lemma UnknownBaselineIff(st: FileState, before: Bytes, polls: seq<Sighting>, loads: Loader, kind: Kind)
    requires st.offset.Some? && st.offset.value <= |before| && st.memo.None? && AppendOnly(before, polls)
    requires MonotoneFromFirst(EventsOf(From(LastFile(before, polls), st.offset.value), loads), kind)
    requires Believed(st, polls, loads) || MonotoneFile(LastFile(before, polls), loads, kind)
    ensures Run(st, polls, loads).offset.Some?
    ensures var k, file, end := FirstReset(st, polls, loads), LastFile(before, polls), Run(st, polls, loads);
            var first := FirstRead(file, st.offset.value, end.offset.value, loads);
            (BillsNoHistory(file, st.offset.value, end, RunOwed(st, polls, loads, Everyone(kind)), loads, kind)
             <==> || Believed(st, polls, loads)
                  || (&& (if first.Some? then first else end.memo).GetOr(Zero()).Of(kind) == 0
                      && RunOwed(st, polls[..k], loads, Everyone(kind)) == 0
                      && Harmless(Run(st, polls[..k + 1], loads), polls[k + 1..], loads, Everyone(kind))))
  {
    hide *;
    var k, file, end := FirstReset(st, polls, loads), LastFile(before, polls), Run(st, polls, loads);
    var who := Everyone(kind);
    if Believed(st, polls, loads) {
      BelievedBillsNoHistory(st, before, polls, loads, kind);
    } else {
      BillOfAnyRun(st, before, polls, loads, who);
      AgainIsHistory(st, before, polls, loads, kind);
      HasCursor(end, file, loads);
      var later, rest := Run(st, polls[..k + 1], loads), polls[k + 1..];
      HarmlessIff(later, rest, loads, who);
      ResetBillsHistory(file, st.offset.value, end, RunOwed(st, polls[..k], loads, who),
                        Rebilled(later, rest, loads, who), loads, kind);
    }
  }

  lemma BelievedBillsNoHistory(st: FileState, before: Bytes, polls: seq<Sighting>, loads: Loader, kind: Kind)
    requires st.offset.Some? && st.offset.value <= |before| && st.memo.None? && AppendOnly(before, polls)
    requires MonotoneFromFirst(EventsOf(From(LastFile(before, polls), st.offset.value), loads), kind)
    requires Believed(st, polls, loads)
    ensures Run(st, polls, loads).offset.Some?
    ensures BillsNoHistory(LastFile(before, polls), st.offset.value, Run(st, polls, loads),
                           RunOwed(st, polls, loads, Everyone(kind)), loads, kind)
  {
    hide EventsOf, Run, RunOwed, AppendOnly, Believed, LastFile, FirstCounter, MonotoneFromFirst;
    UnknownBaselineBillsNoHistory(st, before, polls, loads, kind);
  }

  lemma ResetBillsHistory(file: Bytes, o: nat, end: FileState, earlier: nat, later: nat, loads: Loader, kind: Kind)
    requires end.offset.Some? && end.memo.Some?
    ensures var first := FirstRead(file, o, end.offset.value, loads);
            BillsNoHistory(file, o, end, earlier + (end.memo.value.Of(kind) + later), loads, kind)
            <==> (if first.Some? then first else end.memo).GetOr(Zero()).Of(kind) == 0 && earlier == 0 && later == 0
  {
    hide FirstRead;
  }

  // ---------- one poll ----------

  /**
    One poll of a file with nothing due, because its lines were all read or its counter is unknown: the
    whole history is billed if its size is below the cursor, and nothing is billed exactly if the size
    is believed or the last counter is zero.
   */
  lemma FailedStatBillsHistory(st: FileState, s: Sighting, loads: Loader, kind: Kind)
    requires st.offset.Some? && (st.memo.None? || st.offset.value == LineEnd(s.file))
    requires s.readable && !s.crash && MonotoneFile(s.file, loads, kind)
    ensures PollOwed(st, s, loads, Everyone(kind))
         == if s.size < st.offset.value then History(s.file, loads, kind) else 0
    ensures PollOwed(st, s, loads, Everyone(kind)) == 0
            <==> s.size >= st.offset.value || History(s.file, loads, kind) == 0
  {
    hide EventsOf, Monotone;
    if Resets(st, s) {
      assert s.file[0..] == s.file;
      MonotoneTelescopes(EventsOf(CompleteLines(s.file, 0), loads), Zero(), Unnamed, kind);
    } else {
      PollReads(st, s, loads, Everyone(kind));
      if st.memo.Some? {
        NothingAhead(s.file);
        NoEvents(loads);
      }
    }
  }

  /** So one failed `stat` charges a whole history that is not even known: here a single line that shows 5. */
  lemma UnknownHistoryCharged(path: Path, loads: Loader, kind: Kind)
    requires loads([65]) == Some(Entry(Unnamed, Some(Counter(5, 5))))
    ensures var st := FileState(Some(2), None, Unnamed);
            && PollOwed(st, Sighting(path, 0, [65, LF], true, false), loads, Everyone(kind)) == 5
            && PollOwed(st, Sighting(path, 2, [65, LF], true, false), loads, Everyone(kind)) == 0
  {
    hide Poll, PollOwed, EventsOf;
    var file := [65, LF];
    assert file[0..] == file && CompleteLines(file, 0) == file;
    OneLine(file, loads);
    OneCounter(Counter(5, 5), kind);
    FailedStatBillsHistory(FileState(Some(2), None, Unnamed), Sighting(path, 0, file, true, false), loads, kind);
    FailedStatBillsHistory(FileState(Some(2), None, Unnamed), Sighting(path, 2, file, true, false), loads, kind);
  }

  lemma OneLine(file: Bytes, loads: Loader)
    requires file == [65, LF] && loads([65]) == Some(Entry(Unnamed, Some(Counter(5, 5))))
    ensures EventsOf(file, loads) == [Tokens(Counter(5, 5))]
  {
    hide Strip;
    assert file[..1] == [65] && file[2..] == [];
    SplitFirstLine(file, 1, BYTE_LINE_ENDS);
    assert SplitLines<byte>([], BYTE_LINE_ENDS) == [];
    OneCharacter();
    var e := Entry(Unnamed, Some(Counter(5, 5)));
    assert RecordOf([65], loads) == [e];
    assert Records([[65]], loads) == [e] + Records([], loads);
    assert Events([e]) == [Tokens(e.counter.value)] + Events([]);
  }

  lemma OneCounter(counter: Counter, kind: Kind)
    ensures Monotone([Tokens(counter)], Zero(), kind)
    ensures LastCounter([Tokens(counter)], Some(Zero())) == Some(counter)
  {
  }

  lemma OneCharacter()
    ensures Strip<byte>([65], BYTE_SPACE) == [65]
  {
  }

  lemma NothingAhead(file: Bytes)
    ensures LineEnd(From(file, LineEnd(file))) == 0
  {
    var rest := From(file, LineEnd(file));
    assert forall i | 0 <= i < |rest| :: rest[i] == file[LineEnd(file) + i];
  }

  /**
    When the read fails together with the `stat`, nothing is billed but everything is forgotten: the
    next successful poll bills the history.
   */
  lemma FailedReadForgets(st: FileState, s: Sighting, later: Sighting, loads: Loader, kind: Kind)
    requires st.offset.Some? && s.size < st.offset.value && (!s.readable || s.crash)
    requires later.size > 0 && later.readable && !later.crash && MonotoneFile(later.file, loads, kind)
    ensures PollOwed(st, s, loads, Everyone(kind)) == 0
    ensures Poll(st, s, loads) == FileState(Some(0), Some(Zero()), Unnamed)
    ensures PollOwed(Poll(st, s, loads), later, loads, Everyone(kind)) == History(later.file, loads, kind)
  {
    hide EventsOf;
    NoEvents(loads);
    assert later.file[0..] == later.file;
    MonotoneTelescopes(EventsOf(CompleteLines(later.file, 0), loads), Zero(), Unnamed, kind);
  }
}
