/**
  When automatic input may proceed, and what an undisturbed `send_input` achieves (pty_session.py:1608-1775):
  the paste latch is closed exactly while some injection's paste was not seen consumed, and waiting,
  partial writes and a lost Enter only delay a delivery.
 */
module InputProgress {
  import opened Wrappers
  import opened JsonlTail
  import opened TerminalInput

  // ---------- who holds the latch ----------

  /** The paste of this injection was seen consumed. */
  ghost predicate SeenConsumed(log: seq<Event>, id: Id) {
    exists p :: 0 <= p < |log| && log[p].Consumed? && log[p].owner == id
  }

  /** Every injection that set the latch was seen consumed. */
  ghost predicate AllConsumed(s: State) {
    forall i | i in s.latched :: SeenConsumed(s.log, i)
  }

  /** Who latched is past the queue, and over once consumed; the lock holder latched if it is past its preflight. */
  ghost predicate CallsOk(s: State) {
    && (forall i | i in s.latched :: i in s.injections && !s.injections[i].stage.Queued?)
    && (forall i | i in s.injections && SeenConsumed(s.log, i) :: s.injections[i].stage.Done?)
    && (s.codex && s.holder.Some? && s.holder.value in s.injections ==>
          (s.holder.value in s.latched <==> Latched(s.injections[s.holder.value].stage)))
  }

  /** The latch is closed exactly while a paste is unconsumed, and while the lock is held it is the holder's. */
  ghost predicate LatchOk(s: State) {
    && (s.codex ==> (s.uncertain <==> !AllConsumed(s)))
    && (s.codex && s.holder.Some? ==> forall i | i in s.latched :: i == s.holder.value || SeenConsumed(s.log, i))
  }

  ghost predicate Ledger(s: State) {
    CallsOk(s) && LatchOk(s)
  }

  /** The latch, and what was consumed, are as before. */
  ghost predicate SameLatch(s: State, s': State) {
    && s'.codex == s.codex && s'.uncertain == s.uncertain && s'.latched == s.latched
    && (forall i :: SeenConsumed(s'.log, i) <==> SeenConsumed(s.log, i))
  }

  /** A change of one call and perhaps of the lock that leaves the latch alone. */
  lemma CallKeepsLedger(s: State, s': State, id: Id, r: Reading)
    requires Inv(s, r) && Ledger(s) && SameLatch(s, s') && id in s.injections && !s.injections[id].stage.Done?
    requires id in s'.injections && !s'.injections[id].stage.Queued?
    requires s'.injections == s.injections[id := s'.injections[id]]
    requires s.codex && s.holder == Some(id) && s'.holder == Some(id) ==>
               (Latched(s'.injections[id].stage) <==> Latched(s.injections[id].stage))
    requires s'.holder == s.holder || s'.holder.None?
             || (s'.holder == Some(id) && s.injections[id].stage.Queued? && !Latched(s'.injections[id].stage)
                 && (s.codex ==> !s.uncertain))
    ensures Ledger(s')
  {
    hide InjectionOk, EventOk, PairOk, Latched, SeenConsumed;
  }

  lemma EventAddsNothing(log: seq<Event>, e: Event)
    requires !e.Consumed?
    ensures forall i :: SeenConsumed(log + [e], i) <==> SeenConsumed(log, i)
  {
    var log' := log + [e];
    forall i
      ensures SeenConsumed(log', i) <==> SeenConsumed(log, i)
    {
      if SeenConsumed(log, i) {
        var p :| 0 <= p < |log| && log[p].Consumed? && log[p].owner == i;
        assert log'[p] == log[p];
      }
    }
  }

  lemma ConsumptionAdds(log: seq<Event>, e: Event)
    requires e.Consumed?
    ensures forall i :: SeenConsumed(log + [e], i) <==> SeenConsumed(log, i) || i == e.owner
  {
    var log' := log + [e];
    assert log'[|log|] == e;
    forall i
      ensures SeenConsumed(log', i) <==> SeenConsumed(log, i) || i == e.owner
    {
      if SeenConsumed(log, i) {
        var p :| 0 <= p < |log| && log[p].Consumed? && log[p].owner == i;
        assert log'[p] == log[p];
      }
    }
  }

  lemma FinishKeepsLedger(s: State, id: Id, ok: bool, r: Reading)
    requires Inv(s, r) && Ledger(s) && id in s.injections && !s.injections[id].stage.Done?
    ensures Ledger(Finish(s, id, ok))
  {
    hide Inv, Ledger, SeenConsumed;
    CallKeepsLedger(s, Finish(s, id, ok), id, r);
  }

  /** The paste is about to be written: the latch closes for its injection alone. */
  lemma LatchKeepsLedger(s: State, id: Id, r: Reading)
    requires Inv(s, r) && Ledger(s) && id in s.injections && s.injections[id].stage.Preflight?
    ensures Ledger(SetStage(s, id, Pasting(0)).(uncertain := true, latched := s.latched + {id}))
  {
    hide EventOk, PairOk, BytesOf, EnterCount, SeenConsumed;
    InvOf(s, id, r);
    assert s.holder == Some(id) && s.codex;
  }

  /** The paste is seen consumed: the latch opens, since no other paste is unconsumed. */
  lemma ConsumedKeepsLedger(s: State, id: Id, shown: string, r: Reading)
    requires Inv(s, r) && Ledger(s) && id in s.injections && s.injections[id].stage.AfterEnter?
    ensures Ledger(Finish(Log(s, Consumed(id, shown, s.epoch)).(uncertain := false), id, true))
  {
    hide EventOk, PairOk, BytesOf, EnterCount, SeenConsumed;
    InvOf(s, id, r);
    assert s.holder == Some(id) && s.codex;
    ConsumptionAdds(s.log, Consumed(id, shown, s.epoch));
  }

  lemma WrittenKeepsLedger(s: State, id: Id, r: Reading)
    requires Inv(s, r) && Ledger(s) && id in s.injections
    requires s.injections[id].stage.Pasting? || s.injections[id].stage.WritingReturn?
    ensures Ledger(Written(s, id))
  {
    hide Inv, Ledger, SeenConsumed;
    var inj := s.injections[id];
    if inj.stage.WritingReturn? || !inj.submit {
      FinishKeepsLedger(s, id, true, r);
    } else {
      CallKeepsLedger(s, Written(s, id), id, r);
    }
  }

  lemma WriteKeepsLedger(s: State, id: Id, result: WriteResult, r: Reading)
    requires Inv(s, r) && Ledger(s) && id in s.injections
    requires s.injections[id].stage.Pasting? || s.injections[id].stage.WritingReturn?
    ensures Ledger(NextWrite(s, id, result))
  {
    hide Inv, Ledger, SeenConsumed, BytesOf, EnterCount, InjectionOk;
    InvOf(s, id, r);
    StageBounds(s, id, r);
    var inj := s.injections[id];
    var data := if inj.stage.Pasting? then inj.payload else [CR];
    var sent := inj.stage.sent;
    if sent >= |data| {
      WrittenKeepsLedger(s, id, r);
    } else if !Fresh(s, id) || result.Broken? || (result.Accepted? && (result.n == 0 || sent + result.n > |data|)) {
      FinishKeepsLedger(s, id, false, r);
    } else if result.Accepted? {
      var stage := if inj.stage.Pasting? then Pasting(sent + result.n) else WritingReturn(sent + result.n);
      var e := Wrote(id, data[sent..sent + result.n], s.epoch);
      var s' := Log(SetStage(s, id, stage), e);
      AcceptedKeeps(s, s', id, e, r);
      WriteKeepsInv(s, s', id, e, r);
      EventAddsNothing(s.log, e);
      CallKeepsLedger(s, s', id, r);
      if sent + result.n == |data| {
        WrittenKeepsLedger(s', id, r);
      }
    }
  }

  lemma CaptureKeepsLedger(s: State, id: Id, screen: Screen, keysSent: bool, r: Reading)
    requires Inv(s, r) && Ledger(s) && id in s.injections && CodexOnly(s.injections[id].stage)
    ensures Ledger(NextCapture(s, id, screen, keysSent, r))
  {
    hide Inv, Ledger, SeenConsumed, BytesOf, EnterCount, InjectionOk;
    CodexStage(s, id, r);
    var inj := s.injections[id];
    var s' := NextCapture(s, id, screen, keysSent, r);
    if s' == s {
    } else if s' == Finish(s, id, false) {
      FinishKeepsLedger(s, id, false, r);
    } else if inj.stage.Preflight? {
      LatchKeepsLedger(s, id, r);
    } else if inj.stage.BeforeEnter? {
      EnterKeepsInv(s, id, r);
      var e := Enter(id, inj.stage.draft, inj.stage.draft, s.epoch);
      var entered := Log(SetStage(s, id, AfterEnter(inj.stage.draft, inj.stage.attempt, POLLS_PER_ENTER)), e);
      EventAddsNothing(s.log, e);
      CallKeepsLedger(s, entered, id, r);
      if !keysSent {
        FinishKeepsLedger(entered, id, false, r);
      }
    } else if inj.stage.AfterEnter? && screen.draft.Some? && r.empty(screen.draft.value) {
      ConsumedKeepsLedger(s, id, screen.draft.value, r);
    } else {
      CallKeepsLedger(s, s', id, r);
    }
  }

  lemma SubmitKeepsLedger(s: State, id: Id, payload: Bytes, bracketed: bool, submit: bool, r: Reading)
    requires Inv(s, r) && Ledger(s) && id !in s.injections
    ensures Ledger(Next(s, Submit(id, payload, bracketed, submit), r))
  {
    hide InjectionOk, PairOk, BytesOf, EnterCount;
    forall p | 0 <= p < |s.log|
      ensures !(s.log[p].Consumed? && s.log[p].owner == id)
    {
      assert EventOk(s, p, r);
    }
  }

  lemma StepKeepsLedger(s: State, a: Action, r: Reading)
    requires Inv(s, r) && Ledger(s)
    ensures Ledger(Next(s, a, r))
  {
    hide Inv, Ledger, SeenConsumed, NextWrite, NextCapture;
    match a
    case Submit(id, payload, bracketed, submit) =>
      if id !in s.injections {
        SubmitKeepsLedger(s, id, payload, bracketed, submit, r);
      }
    case Write(id, result) =>
      if id in s.injections && (s.injections[id].stage.Pasting? || s.injections[id].stage.WritingReturn?) {
        WriteKeepsLedger(s, id, result, r);
      }
    case Captured(id, screen, keysSent) =>
      if id in s.injections && CodexOnly(s.injections[id].stage) {
        CaptureKeepsLedger(s, id, screen, keysSent, r);
      }
    case Bump => NeutralKeepsLedger(s, Next(s, a, r), Bumped(s.epoch + 1));
    case OtherWrite(data) => NeutralKeepsLedger(s, Next(s, a, r), Foreign(data, s.epoch));
    case Close => CloseKeepsLedger(s);
    case Acquire(id) => LockKeepsLedger(s, a, id, r);
    case Readied(id, readiness) => LockKeepsLedger(s, a, id, r);
    case Slept(id) => LockKeepsLedger(s, a, id, r);
    case Cancel(id) =>
      if id in s.injections && !s.injections[id].stage.Done? {
        FinishKeepsLedger(s, id, false, r);
      }
  }

  lemma NeutralKeepsLedger(s: State, s': State, e: Event)
    requires Ledger(s) && !e.Consumed? && s' == s.(log := s.log + [e], epoch := s'.epoch)
    ensures Ledger(s')
  {
    hide SeenConsumed;
    EventAddsNothing(s.log, e);
  }

  lemma CloseKeepsLedger(s: State)
    requires Ledger(s)
    ensures Ledger(s.(closed := true))
  {
    hide SeenConsumed;
  }

  /** Taking the lock, becoming ready and waking up. */
  lemma LockKeepsLedger(s: State, a: Action, id: Id, r: Reading)
    requires Inv(s, r) && Ledger(s) && (a == Acquire(id) || (a.Readied? && a.id == id) || a == Slept(id))
    ensures Ledger(Next(s, a, r))
  {
    hide Inv, Ledger, SeenConsumed, BytesOf, EnterCount, InjectionOk;
    var s' := Next(s, a, r);
    if s' != s {
      if s' == Finish(s, id, false) {
        FinishKeepsLedger(s, id, false, r);
      } else {
        KindOfStage(s, id, r);
        CallKeepsLedger(s, s', id, r);
      }
    }
  }

  lemma KindOfStage(s: State, id: Id, r: Reading)
    requires Inv(s, r) && id in s.injections
    ensures var stage := s.injections[id].stage;
            (CodexOnly(stage) ==> s.codex) && (OthersOnly(stage) ==> !s.codex)
    ensures s.holder == Some(id) <==> Active(s.injections[id].stage)
  {
    hide BytesOf, EnterCount;
    InvOf(s, id, r);
  }

  lemma StartLedger(codex: bool)
    ensures Ledger(Start(codex))
  {
  }

  lemma {:induction false} RunKeepsLedger(s: State, actions: seq<Action>, r: Reading)
    requires Inv(s, r) && Ledger(s)
    ensures Inv(Run(s, actions, r), r) && Ledger(Run(s, actions, r))
    decreases |actions|
  {
    hide Inv, Ledger, Next;
    if actions != [] {
      StepKeepsInv(s, actions[0], r);
      StepKeepsLedger(s, actions[0], r);
      RunKeepsLedger(Next(s, actions[0], r), actions[1..], r);
    }
  }

  /**
    The latch neither opens early nor stays closed: after any run of a Codex session a fresh, bracketed
    injection that gets the lock goes on if and only if every injection that ever latched was seen consumed;
    otherwise it is refused, and the lock is free again.
   */
  lemma ProceedsIffConsumed(actions: seq<Action>, r: Reading, id: Id)
    requires var s := Run(Start(true), actions, r);
             id in s.injections && s.injections[id].stage.Queued? && s.injections[id].bracketed
             && s.injections[id].epoch == s.epoch && !s.closed && s.holder.None?
    ensures var s := Run(Start(true), actions, r);
            var s' := Next(s, Acquire(id), r);
            && id in s'.injections
            && (s'.injections[id].stage == AwaitingReady <==> AllConsumed(s))
            && (if AllConsumed(s) then s'.holder == Some(id)
                else s'.injections[id].stage == Done(0, 0, false) && s'.holder.None?)
  {
    hide Inv, Run, SeenConsumed, AllConsumed;
    StartInv(true, r);
    StartLedger(true);
    RunKeepsLedger(Start(true), actions, r);
    RunKeepsKind(Start(true), actions, r);
    LatchIsLedger(Run(Start(true), actions, r));
  }

  lemma LatchIsLedger(s: State)
    requires Ledger(s) && s.codex
    ensures s.uncertain <==> !AllConsumed(s)
  {
  }

  // ---------- other calls are left alone ----------

  /** The call an action is a step of; Stop, foreign writes and the end of the session are a step of none. */
  function Actor(a: Action): (id: Option<Id>) {
    if a.Bump? || a.OtherWrite? || a.Close? then None else Some(a.id)
  }

  /** No step moves a call that is not its own. */
  lemma OthersUntouched(s: State, a: Action, r: Reading, id: Id)
    requires id in s.injections && Actor(a) != Some(id)
    ensures var s' := Next(s, a, r); id in s'.injections && s'.injections[id] == s.injections[id]
  {
    hide NextWrite, NextCapture;
    match a
    case Write(actor, result) =>
      if actor in s.injections && (s.injections[actor].stage.Pasting? || s.injections[actor].stage.WritingReturn?) {
        WriteIsOwn(s, actor, result, id);
      }
    case Captured(actor, screen, keysSent) =>
      if actor in s.injections && CodexOnly(s.injections[actor].stage) {
        CaptureIsOwn(s, actor, screen, keysSent, r, id);
      }
    case _ =>
  }

  lemma WriteIsOwn(s: State, actor: Id, result: WriteResult, id: Id)
    requires actor in s.injections && (s.injections[actor].stage.Pasting? || s.injections[actor].stage.WritingReturn?)
    requires id in s.injections && id != actor
    ensures var s' := NextWrite(s, actor, result); id in s'.injections && s'.injections[id] == s.injections[id]
  {
  }

  lemma CaptureIsOwn(s: State, actor: Id, screen: Screen, keysSent: bool, r: Reading, id: Id)
    requires actor in s.injections && CodexOnly(s.injections[actor].stage) && id in s.injections && id != actor
    ensures var s' := NextCapture(s, actor, screen, keysSent, r);
            id in s'.injections && s'.injections[id] == s.injections[id]
  {
  }

  // ---------- what stops a call ----------

  /** No automatic write is logged beyond the first `n` events. */
  ghost predicate SilentFrom(log: seq<Event>, n: nat) {
    n <= |log| && forall p | n <= p < |log| :: !Auto(log[p])
  }

  lemma ClosedStep(s: State, a: Action, r: Reading)
    requires s.closed
    ensures var s' := Next(s, a, r);
            s'.closed && (s'.log == s.log || exists e :: s'.log == s.log + [e] && !Auto(e))
  {
  }

  /** Once the session is closed no injection writes any more. */
  lemma ClosedIsSilent(s: State, actions: seq<Action>, r: Reading)
    ensures SilentFrom(Run(Next(s, Close, r), actions, r).log, |s.log|)
  {
    StaysSilent(Next(s, Close, r), actions, r, |s.log|);
  }

  lemma {:induction false} StaysSilent(s: State, actions: seq<Action>, r: Reading, n: nat)
    requires s.closed && SilentFrom(s.log, n)
    ensures SilentFrom(Run(s, actions, r).log, n)
    decreases |actions|
  {
    hide Next;
    if actions != [] {
      ClosedStep(s, actions[0], r);
      StaysSilent(Next(s, actions[0], r), actions[1..], r, n);
    }
  }

  /** The call ends without success: nothing more is written, the lock is free, and the latch stays as it is. */
  ghost predicate Stops(s: State, s': State, id: Id)
    requires id in s.injections
  {
    && id in s'.injections && s'.injections[id].stage.Done? && !s'.injections[id].stage.ok
    && s' == s.(injections := s.injections[id := s'.injections[id]],
                holder := if s.holder == Some(id) then None else s.holder)
  }

  /** The screen is not what this stage of a Codex call needs. */
  predicate Conflicts(stage: Stage, screen: Screen, payload: Bytes, r: Reading) {
    screen.Unreadable? ||
    match stage
    case Preflight => !screen.ready
    case AwaitingPaste =>
      screen.draft.Some? && !r.matches(screen.draft.value, payload) && !r.empty(screen.draft.value)
    case BeforeEnter(draft, _) => screen.busy || screen.draft != Some(draft)
    case AfterEnter(draft, _, _) =>
      screen.draft.Some? && screen.draft.value != draft && !r.empty(screen.draft.value)
    case _ => false
  }

  /** A capture that conflicts, or comes after a Stop or the end of the session, stops the call before any key. */
  lemma ConflictStops(s: State, id: Id, screen: Screen, keysSent: bool, r: Reading)
    requires id in s.injections && CodexOnly(s.injections[id].stage) && !s.injections[id].stage.PasteSettling?
    ensures var inj := s.injections[id];
            inj.epoch != s.epoch || s.closed || Conflicts(inj.stage, screen, inj.payload, r) ==>
              Stops(s, Next(s, Captured(id, screen, keysSent), r), id)
  {
  }

  /** So does a foreign draft before the paste, and for Codex a composer that is not ready in time. */
  lemma UnreadyStops(s: State, id: Id, readiness: Readiness, r: Reading)
    requires id in s.injections && s.injections[id].stage == AwaitingReady
    ensures var stops := readiness.DraftConflict? || (s.codex && readiness.NotReady?)
                         || s.injections[id].epoch != s.epoch || s.closed;
            var s' := Next(s, Readied(id, readiness), r);
            if stops then Stops(s, s', id)
            else s' == SetStage(s, id, if s.codex then Preflight else if readiness.Ready? then Pasting(0) else Settling)
  {
  }

  /** A call that gets the lock too late, or unbracketed in a Codex session, is refused. */
  lemma LateStops(s: State, id: Id, r: Reading)
    requires id in s.injections && s.injections[id].stage == Queued && s.holder.None?
    requires s.injections[id].epoch != s.epoch || s.closed || (s.codex && (s.uncertain || !s.injections[id].bracketed))
    ensures Stops(s, Next(s, Acquire(id), r), id)
  {
  }

  /** A write the PTY breaks off, or that a Stop overtakes, stops the call; so does a cancellation anywhere. */
  lemma BrokenStops(s: State, id: Id, n: nat, r: Reading)
    requires id in s.injections && !s.injections[id].stage.Done?
    ensures Stops(s, Next(s, Cancel(id), r), id)
    ensures var stage := s.injections[id].stage;
            (stage.Pasting? || stage.WritingReturn?) && stage.sent < |DataOf(s.injections[id])| ==>
              && Stops(s, Next(s, Write(id, Broken), r), id)
              && (n == 0 || stage.sent + n > |DataOf(s.injections[id])| || s.injections[id].epoch != s.epoch || s.closed
                  ==> Stops(s, Next(s, Write(id, Accepted(n)), r), id))
  {
  }

  // ---------- partial writes ----------

  function DataOf(inj: Injection): Bytes
    requires inj.stage.Pasting? || inj.stage.WritingReturn?
  {
    if inj.stage.Pasting? then inj.payload else [CR]
  }

  lemma {:induction false} RunAppend(s: State, a: seq<Action>, b: seq<Action>, r: Reading)
    ensures Run(s, a + b, r) == Run(Run(s, a, r), b, r)
    decreases |a|
  {
    hide Next;
    if a == [] {
      assert a + b == b;
    } else {
      assert (a + b)[0] == a[0] && (a + b)[1..] == a[1..] + b;
      RunAppend(Next(s, a[0], r), a[1..], b, r);
    }
  }

  lemma RunOne(s: State, a: Action, r: Reading)
    ensures Run(s, [a], r) == Next(s, a, r)
  {
    hide Next;
    assert [a][1..] == [];
  }

  function Writes(id: Id, results: seq<WriteResult>): (writes: seq<Action>) {
    if results == [] then [] else [Write(id, results[0])] + Writes(id, results[1..])
  }

  /** Temporary refusals and partial writes that end when `length` bytes were taken. */
  predicate Takes(results: seq<WriteResult>, length: nat) {
    results != [] && length > 0 &&
    match results[0]
    case Broken => false
    case TryAgain => Takes(results[1..], length)
    case Accepted(n) => 0 < n <= length && if n == length then |results| == 1 else Takes(results[1..], length - n)
  }

  /** `pieces` are writes of injection `id` at one epoch that together wrote `data`. */
  ghost predicate Pieces(pieces: seq<Event>, id: Id, data: Bytes, epoch: nat) {
    && (forall p | 0 <= p < |pieces| :: pieces[p].Wrote? && pieces[p].owner == id && pieces[p].epoch == epoch)
    && BytesOf(pieces, id) == data
  }

  lemma {:induction false} BytesAppend(a: seq<Event>, b: seq<Event>, id: Id)
    ensures BytesOf(a + b, id) == BytesOf(a, id) + BytesOf(b, id)
    decreases |b|
  {
    if b == [] {
      assert a + b == a && BytesOf(b, id) == [];
    } else {
      var n := |b| - 1;
      var front, e := b[..n], b[n];
      assert b == front + [e] && a + b == (a + front) + [e];
      BytesAppend(a, front, id);
      LogGrows(a + front, e, id);
      LogGrows(front, e, id);
    }
  }

  lemma WroteMore(e: Event, pieces: seq<Event>, id: Id, data: Bytes, epoch: nat)
    requires e.Wrote? && e.owner == id && e.epoch == epoch && Pieces(pieces, id, data, epoch)
    ensures Pieces([e] + pieces, id, e.data + data, epoch)
  {
    BytesAppend([e], pieces, id);
    OneEvent(e, id);
  }

  /** Where an undisturbed write that was taken whole leads: the next wait, or the end of the call. */
  function AfterWrite(s: State, id: Id, pieces: seq<Event>): State
    requires id in s.injections && (s.injections[id].stage.Pasting? || s.injections[id].stage.WritingReturn?)
  {
    var inj := s.injections[id];
    var length := |inj.payload|;
    var wrote := s.(log := s.log + pieces);
    if inj.stage.WritingReturn? then
      SetStage(wrote, id, Done(length + 1, 0, true)).(holder := None)
    else if !inj.submit then SetStage(wrote, id, Done(length, 0, true)).(holder := None)
    else SetStage(wrote, id, if s.codex then AwaitingPaste else SubmitDelay)
  }

  lemma OneWrite(s: State, id: Id, n: nat, r: Reading) returns (e: Event)
    requires id in s.injections && (s.injections[id].stage.Pasting? || s.injections[id].stage.WritingReturn?)
    requires s.holder == Some(id) && Fresh(s, id)
    requires var inj := s.injections[id]; 0 < n && inj.stage.sent + n <= |DataOf(inj)|
    ensures var inj := s.injections[id];
            var sent := inj.stage.sent + n;
            && e == Wrote(id, DataOf(inj)[inj.stage.sent..sent], s.epoch)
            && Next(s, Write(id, Accepted(n)), r)
               == if sent == |DataOf(inj)| then AfterWrite(s, id, [e])
                  else SetStage(s.(log := s.log + [e]), id,
                                if inj.stage.Pasting? then Pasting(sent) else WritingReturn(sent))
  {
    var inj := s.injections[id];
    var sent := inj.stage.sent + n;
    e := Wrote(id, DataOf(inj)[inj.stage.sent..sent], s.epoch);
    if sent == |DataOf(inj)| {
      var stage := if inj.stage.Pasting? then Pasting(sent) else WritingReturn(sent);
      Overwrite(s.injections, id, inj.(stage := stage), AfterWrite(s, id, [e]).injections[id]);
    }
  }

  lemma Overwrite<K, V>(m: map<K, V>, k: K, a: V, b: V)
    ensures m[k := a][k := b] == m[k := b]
  {
  }

  /** However the PTY divides and delays it, an undisturbed write arrives whole and in order. */
  lemma {:induction false} WriteArrives(s: State, id: Id, results: seq<WriteResult>, r: Reading)
    returns (pieces: seq<Event>)
    requires id in s.injections && (s.injections[id].stage.Pasting? || s.injections[id].stage.WritingReturn?)
    requires s.holder == Some(id) && Fresh(s, id)
    requires var inj := s.injections[id];
             inj.stage.sent <= |DataOf(inj)| && Takes(results, |DataOf(inj)| - inj.stage.sent)
    ensures Run(s, Writes(id, results), r) == AfterWrite(s, id, pieces)
    ensures Pieces(pieces, id, DataOf(s.injections[id])[s.injections[id].stage.sent..], s.epoch)
    decreases |results|
  {
    hide Next, AfterWrite, Pieces;
    var inj := s.injections[id];
    var data, sent := DataOf(inj), inj.stage.sent;
    var rest := results[1..];
    assert Writes(id, results)[1..] == Writes(id, rest);
    match results[0]
    case TryAgain =>
      Refused(s, id, r);
      pieces := WriteArrives(s, id, rest, r);
    case Accepted(n) =>
      var e := OneWrite(s, id, n, r);
      if n == |data| - sent {
        pieces := [e];
        assert rest == [];
        LastPiece(e, id);
        assert data[sent..sent + n] == data[sent..];
      } else {
        var next := Next(s, Write(id, Accepted(n)), r);
        var more := WriteArrives(next, id, rest, r);
        pieces := [e] + more;
        WroteMore(e, more, id, data[sent + n..], s.epoch);
        assert data[sent..] == data[sent..sent + n] + data[sent + n..];
        SameEnd(s, next, id, e, more);
      }
  }

  lemma Refused(s: State, id: Id, r: Reading)
    requires id in s.injections && (s.injections[id].stage.Pasting? || s.injections[id].stage.WritingReturn?)
    requires Fresh(s, id) && s.injections[id].stage.sent < |DataOf(s.injections[id])|
    ensures Next(s, Write(id, TryAgain), r) == s
  {
  }

  lemma LastPiece(e: Event, id: Id)
    requires e.Wrote? && e.owner == id
    ensures Pieces([e], id, e.data, e.epoch)
  {
    OneEvent(e, id);
  }

  lemma OneEvent(e: Event, id: Id)
    requires e.Wrote? && e.owner == id
    ensures BytesOf([e], id) == e.data
  {
    LogGrows([], e, id);
    assert [] + [e] == [e] && BytesOf([], id) == [] && [] + e.data == e.data;
  }

  lemma SameEnd(s: State, next: State, id: Id, e: Event, more: seq<Event>)
    requires id in s.injections && (s.injections[id].stage.Pasting? || s.injections[id].stage.WritingReturn?)
    requires id in next.injections && next == SetStage(s.(log := s.log + [e]), id, next.injections[id].stage)
    requires next.injections[id].stage.Pasting? || next.injections[id].stage.WritingReturn?
    requires next.injections[id].stage.Pasting? <==> s.injections[id].stage.Pasting?
    ensures AfterWrite(next, id, more) == AfterWrite(s, id, [e] + more)
  {
    assert s.log + [e] + more == s.log + ([e] + more);
    var end := AfterWrite(s, id, [e] + more).injections[id];
    Overwrite(s.injections, id, next.injections[id], end);
  }

  // ---------- waiting for the screen ----------

  function Shows(id: Id, screens: seq<Screen>): (shows: seq<Action>) {
    if screens == [] then [] else [Captured(id, screens[0], true)] + Shows(id, screens[1..])
  }

  /** No draft, or an empty one. */
  predicate Blank(screen: Screen, payload: Bytes, r: Reading) {
    screen.Frame? && (screen.draft.Some? ==> r.empty(screen.draft.value) && !r.matches(screen.draft.value, payload))
  }

  /** Captures that do not show the paste yet leave the call waiting. */
  lemma {:induction false} NotRendered(s: State, id: Id, screens: seq<Screen>, r: Reading)
    requires id in s.injections && s.injections[id].stage == AwaitingPaste && Fresh(s, id)
    requires forall i | 0 <= i < |screens| :: Blank(screens[i], s.injections[id].payload, r)
    ensures Run(s, Shows(id, screens), r) == s
    decreases |screens|
  {
    if screens != [] {
      NotRenderedOnce(s, id, screens[0], r);
      hide Next, Blank;
      assert Shows(id, screens)[1..] == Shows(id, screens[1..]);
      NotRendered(s, id, screens[1..], r);
    }
  }

  lemma NotRenderedOnce(s: State, id: Id, screen: Screen, r: Reading)
    requires id in s.injections && s.injections[id].stage == AwaitingPaste && Fresh(s, id)
    requires Blank(screen, s.injections[id].payload, r)
    ensures Next(s, Captured(id, screen, true), r) == s
  {
  }

  /** No draft, or still the one that was submitted. */
  predicate Unsubmitted(screen: Screen, draft: string) {
    screen.Frame? && (screen.draft.Some? ==> screen.draft.value == draft)
  }

  /** Up to nine captures that still show the draft only use up the waiting time. */
  lemma {:induction false} Unacknowledged(s: State, id: Id, draft: string, attempt: nat, polls: nat,
                                          screens: seq<Screen>, r: Reading)
    requires id in s.injections && s.injections[id].stage == AfterEnter(draft, attempt, polls) && Fresh(s, id)
    requires |screens| < polls && !r.empty(draft) && forall i | 0 <= i < |screens| :: Unsubmitted(screens[i], draft)
    ensures Run(s, Shows(id, screens), r) == SetStage(s, id, AfterEnter(draft, attempt, polls - |screens|))
    decreases |screens|
  {
    if screens == [] {
      assert s.injections[id := s.injections[id]] == s.injections;
    } else {
      StillThere(s, id, draft, attempt, polls, screens[0], r);
      hide Next, Unsubmitted;
      assert Shows(id, screens)[1..] == Shows(id, screens[1..]);
      var next := SetStage(s, id, AfterEnter(draft, attempt, polls - 1));
      Unacknowledged(next, id, draft, attempt, polls - 1, screens[1..], r);
      Overwrite(s.injections, id, next.injections[id],
                s.injections[id].(stage := AfterEnter(draft, attempt, polls - |screens|)));
    }
  }

  /** The tenth such capture leads to another Enter, and after the second one to giving up with the latch closed. */
  lemma StillThere(s: State, id: Id, draft: string, attempt: nat, polls: nat, screen: Screen, r: Reading)
    requires id in s.injections && s.injections[id].stage == AfterEnter(draft, attempt, polls) && Fresh(s, id)
    requires polls > 0 && !r.empty(draft) && Unsubmitted(screen, draft)
    ensures Next(s, Captured(id, screen, true), r)
         == if polls > 1 then SetStage(s, id, AfterEnter(draft, attempt, polls - 1))
            else if attempt == 0 then SetStage(s, id, BeforeEnter(draft, 1))
            else Finish(s, id, false)
  {
  }

  // ---------- a whole delivery ----------

  /** The same screen as when the paste was recognised, and no marker of a busy program. */
  function Showing(draft: string): Screen {
    Frame(false, false, Some(draft))
  }

  /** A lost Enter is sent again: ten captures later the draft is validated once more. */
  lemma LostEnterIsRetried(s: State, id: Id, draft: string, screens: seq<Screen>, last: Screen, r: Reading)
    requires id in s.injections && s.injections[id].stage == BeforeEnter(draft, 0) && Fresh(s, id) && !r.empty(draft)
    requires |screens| == 9 && Unsubmitted(last, draft)
    requires forall i | 0 <= i < |screens| :: Unsubmitted(screens[i], draft)
    ensures Run(s, [Captured(id, Showing(draft), true)] + Shows(id, screens) + [Captured(id, last, true)], r)
         == SetStage(Log(s, Enter(id, draft, draft, s.epoch)), id, BeforeEnter(draft, 1))
  {
    hide Next, Unsubmitted;
    RunAppend(s, [Captured(id, Showing(draft), true)] + Shows(id, screens), [Captured(id, last, true)], r);
    RunAppend(s, [Captured(id, Showing(draft), true)], Shows(id, screens), r);
    RunOne(s, Captured(id, Showing(draft), true), r);
    Enters(s, id, draft, 0, r);
    var entered := SetStage(Log(s, Enter(id, draft, draft, s.epoch)), id, AfterEnter(draft, 0, 10));
    Unacknowledged(entered, id, draft, 0, 10, screens, r);
    var late := SetStage(entered, id, AfterEnter(draft, 0, 1));
    RunOne(late, Captured(id, last, true), r);
    StillThere(late, id, draft, 0, 1, last, r);
    var before := s.injections[id].(stage := BeforeEnter(draft, 1));
    Overwrite(s.injections, id, entered.injections[id], late.injections[id]);
    Overwrite(s.injections, id, late.injections[id], before);
  }

  lemma Enters(s: State, id: Id, draft: string, attempt: nat, r: Reading)
    requires id in s.injections && s.injections[id].stage == BeforeEnter(draft, attempt) && Fresh(s, id)
    ensures Next(s, Captured(id, Showing(draft), true), r)
         == SetStage(Log(s, Enter(id, draft, draft, s.epoch)), id, AfterEnter(draft, attempt, 10))
  {
  }

  /** The call of an injection from its submission to its first byte, in a Codex session. */
  function Opening(id: Id, payload: Bytes, submit: bool): seq<Action> {
    [Submit(id, payload, true, submit), Acquire(id)]
    + [Readied(id, Ready), Captured(id, Frame(true, false, None), true)]
  }

  lemma Opens(s: State, id: Id, payload: Bytes, submit: bool, r: Reading)
    requires s.codex && s.holder.None? && !s.uncertain && !s.closed && id !in s.injections
    ensures Run(s, Opening(id, payload, submit), r)
         == s.(injections := s.injections[id := Injection(s.epoch, payload, true, submit, Pasting(0))],
               holder := Some(id), uncertain := true, latched := s.latched + {id})
  {
    hide Run;
    var inj := Injection(s.epoch, payload, true, submit, Queued);
    var lock, prepare := [Submit(id, payload, true, submit), Acquire(id)],
                         [Readied(id, Ready), Captured(id, Frame(true, false, None), true)];
    RunAppend(s, lock, prepare, r);
    RunTwo(s, lock[0], lock[1], r);
    var locked := s.(injections := s.injections[id := inj.(stage := AwaitingReady)], holder := Some(id));
    Overwrite(s.injections, id, inj, inj.(stage := AwaitingReady));
    RunTwo(locked, prepare[0], prepare[1], r);
    Overwrite(s.injections, id, inj.(stage := AwaitingReady), inj.(stage := Preflight));
    Overwrite(s.injections, id, inj.(stage := Preflight), inj.(stage := Pasting(0)));
  }

  lemma RunTwo(s: State, a: Action, b: Action, r: Reading)
    ensures Run(s, [a, b], r) == Next(Next(s, a, r), b, r)
  {
    hide Next;
    assert [a, b] == [a] + [b];
    RunAppend(s, [a], [b], r);
    RunOne(s, a, r);
    RunOne(Next(s, a, r), b, r);
  }

  /** The submission of a paste that is shown after `waiting` captures and consumed after `patient` more. */
  function Submitting(id: Id, waiting: seq<Screen>, draft: string, patient: seq<Screen>, emptied: Screen)
    : (steps: seq<Action>)
  {
    Shows(id, waiting) + [Captured(id, Showing(draft), true), Slept(id)]
    + ([Captured(id, Showing(draft), true)] + Shows(id, patient) + [Captured(id, emptied, true)])
  }

  lemma Submits(s: State, id: Id, waiting: seq<Screen>, draft: string, patient: seq<Screen>, emptied: Screen,
                r: Reading)
    requires id in s.injections && s.injections[id].stage == AwaitingPaste && Fresh(s, id) && s.holder == Some(id)
    requires r.matches(draft, s.injections[id].payload) && !r.empty(draft)
    requires forall i | 0 <= i < |waiting| :: Blank(waiting[i], s.injections[id].payload, r)
    requires |patient| < 10 && forall i | 0 <= i < |patient| :: Unsubmitted(patient[i], draft)
    requires emptied.Frame? && emptied.draft.Some? && r.empty(emptied.draft.value)
    ensures Run(s, Submitting(id, waiting, draft, patient, emptied), r)
         == SetStage(s, id, Done(|s.injections[id].payload|, 1, true)).(holder := None, uncertain := false,
              log := s.log + [Enter(id, draft, draft, s.epoch), Consumed(id, emptied.draft.value, s.epoch)])
  {
    hide Run, Next, Blank, Unsubmitted;
    var inj := s.injections[id];
    var seen, enter := [Captured(id, Showing(draft), true), Slept(id)], [Captured(id, Showing(draft), true)];
    RunAppend(s, Shows(id, waiting) + seen, enter + Shows(id, patient) + [Captured(id, emptied, true)], r);
    RunAppend(s, Shows(id, waiting), seen, r);
    NotRendered(s, id, waiting, r);
    RunTwo(s, seen[0], seen[1], r);
    Recognised(s, id, draft, r);
    var ready := SetStage(s, id, BeforeEnter(draft, 0));
    RunAppend(ready, enter + Shows(id, patient), [Captured(id, emptied, true)], r);
    RunAppend(ready, enter, Shows(id, patient), r);
    RunOne(ready, enter[0], r);
    Enters(ready, id, draft, 0, r);
    var entered := SetStage(Log(ready, Enter(id, draft, draft, s.epoch)), id, AfterEnter(draft, 0, 10));
    Unacknowledged(entered, id, draft, 0, 10, patient, r);
    var last := SetStage(entered, id, AfterEnter(draft, 0, 10 - |patient|));
    RunOne(last, Captured(id, emptied, true), r);
    Consumes(last, id, emptied, r);
    var done := inj.(stage := Done(|inj.payload|, 1, true));
    Overwrite(s.injections, id, ready.injections[id], entered.injections[id]);
    Overwrite(s.injections, id, entered.injections[id], last.injections[id]);
    Overwrite(s.injections, id, last.injections[id], done);
    assert s.log + [Enter(id, draft, draft, s.epoch)] + [Consumed(id, emptied.draft.value, s.epoch)]
        == s.log + [Enter(id, draft, draft, s.epoch), Consumed(id, emptied.draft.value, s.epoch)];
  }

  lemma Recognised(s: State, id: Id, draft: string, r: Reading)
    requires id in s.injections && s.injections[id].stage == AwaitingPaste && Fresh(s, id)
    requires r.matches(draft, s.injections[id].payload)
    ensures Next(Next(s, Captured(id, Showing(draft), true), r), Slept(id), r) == SetStage(s, id, BeforeEnter(draft, 0))
  {
    var inj := s.injections[id];
    Overwrite(s.injections, id, inj.(stage := PasteSettling(draft)), inj.(stage := BeforeEnter(draft, 0)));
  }

  lemma Consumes(s: State, id: Id, emptied: Screen, r: Reading)
    requires id in s.injections && s.injections[id].stage.AfterEnter? && Fresh(s, id) && s.holder == Some(id)
    requires emptied.Frame? && emptied.draft.Some? && r.empty(emptied.draft.value)
    ensures Next(s, Captured(id, emptied, true), r)
         == SetStage(s, id, Done(|s.injections[id].payload|, s.injections[id].stage.attempt + 1, true))
              .(holder := None, uncertain := false, log := s.log + [Consumed(id, emptied.draft.value, s.epoch)])
  {
  }

  /**
    An undisturbed `send_input` delivers: from a free lock and an open latch, whatever the PTY divides and
    delays, however long the paste takes to show and the Enter to work, the call ends well, its whole payload
    and one Enter written, the paste seen consumed, and lock and latch open again.
   */
  lemma CodexDelivers(s: State, id: Id, payload: Bytes, results: seq<WriteResult>, waiting: seq<Screen>, draft: string,
                      patient: seq<Screen>, emptied: Screen, r: Reading) returns (pieces: seq<Event>)
    requires s.codex && s.holder.None? && !s.uncertain && !s.closed && id !in s.injections && Takes(results, |payload|)
    requires r.matches(draft, payload) && !r.empty(draft)
    requires forall i | 0 <= i < |waiting| :: Blank(waiting[i], payload, r)
    requires |patient| < 10 && forall i | 0 <= i < |patient| :: Unsubmitted(patient[i], draft)
    requires emptied.Frame? && emptied.draft.Some? && r.empty(emptied.draft.value)
    ensures Pieces(pieces, id, payload, s.epoch)
    ensures Run(s, Opening(id, payload, true) + Writes(id, results)
                   + Submitting(id, waiting, draft, patient, emptied), r)
         == s.(injections := s.injections[id := Injection(s.epoch, payload, true, true, Done(|payload|, 1, true))],
               latched := s.latched + {id},
               log := s.log + pieces + [Enter(id, draft, draft, s.epoch), Consumed(id, emptied.draft.value, s.epoch)])
  {
    hide Run, Next, Blank, Unsubmitted, Opening, Submitting, Writes, Takes, Pieces;
    var submitting := Submitting(id, waiting, draft, patient, emptied);
    RunAppend(s, Opening(id, payload, true) + Writes(id, results), submitting, r);
    RunAppend(s, Opening(id, payload, true), Writes(id, results), r);
    Opens(s, id, payload, true, r);
    var inj := Injection(s.epoch, payload, true, true, Pasting(0));
    var open := Run(s, Opening(id, payload, true), r);
    pieces := WriteArrives(open, id, results, r);
    assert payload[0..] == payload;
    var written := AfterWrite(open, id, pieces);
    Overwrite(s.injections, id, inj, inj.(stage := AwaitingPaste));
    Submits(written, id, waiting, draft, patient, emptied, r);
    Overwrite(s.injections, id, inj.(stage := AwaitingPaste), inj.(stage := Done(|payload|, 1, true)));
  }

  /** The same for other programs: the payload, then, after a delay, a separate return. */
  lemma OthersDeliver(s: State, id: Id, payload: Bytes, bracketed: bool, ready: bool, results: seq<WriteResult>,
                      returns': seq<WriteResult>, r: Reading) returns (pieces: seq<Event>, enter: seq<Event>)
    requires !s.codex && s.holder.None? && !s.closed && id !in s.injections
    requires Takes(results, |payload|) && Takes(returns', 1)
    ensures Pieces(pieces, id, payload, s.epoch) && Pieces(enter, id, [CR], s.epoch)
    ensures var begin := [Submit(id, payload, bracketed, true), Acquire(id)]
                         + if ready then [Readied(id, Ready)] else [Readied(id, NotReady), Slept(id)];
            Run(s, begin + Writes(id, results) + [Slept(id)] + Writes(id, returns'), r)
            == s.(injections := s.injections[id := Injection(s.epoch, payload, bracketed, true,
                                                             Done(|payload| + 1, 0, true))],
                  log := s.log + pieces + enter)
  {
    hide Run, Next, Writes, Takes, Pieces;
    var begin := [Submit(id, payload, bracketed, true), Acquire(id)]
                 + if ready then [Readied(id, Ready)] else [Readied(id, NotReady), Slept(id)];
    RunAppend(s, begin + Writes(id, results) + [Slept(id)], Writes(id, returns'), r);
    RunAppend(s, begin + Writes(id, results), [Slept(id)], r);
    RunAppend(s, begin, Writes(id, results), r);
    var inj := Injection(s.epoch, payload, bracketed, true, Pasting(0));
    Begins(s, id, payload, bracketed, ready, r);
    var open := s.(injections := s.injections[id := inj], holder := Some(id));
    pieces := WriteArrives(open, id, results, r);
    assert payload[0..] == payload;
    var written := AfterWrite(open, id, pieces);
    Overwrite(s.injections, id, inj, inj.(stage := SubmitDelay));
    RunOne(written, Slept(id), r);
    Wakes(written, id, r);
    var returning := SetStage(written, id, WritingReturn(0));
    Overwrite(s.injections, id, inj.(stage := SubmitDelay), inj.(stage := WritingReturn(0)));
    enter := WriteArrives(returning, id, returns', r);
    assert [CR][0..] == [CR];
    Overwrite(s.injections, id, inj.(stage := WritingReturn(0)), inj.(stage := Done(|payload| + 1, 0, true)));
  }

  lemma Begins(s: State, id: Id, payload: Bytes, bracketed: bool, ready: bool, r: Reading)
    requires !s.codex && s.holder.None? && !s.closed && id !in s.injections
    ensures Run(s, [Submit(id, payload, bracketed, true), Acquire(id)]
                   + if ready then [Readied(id, Ready)] else [Readied(id, NotReady), Slept(id)], r)
         == s.(injections := s.injections[id := Injection(s.epoch, payload, bracketed, true, Pasting(0))],
               holder := Some(id))
  {
    hide Run;
    var inj := Injection(s.epoch, payload, bracketed, true, Queued);
    var lock := [Submit(id, payload, bracketed, true), Acquire(id)];
    RunAppend(s, lock, if ready then [Readied(id, Ready)] else [Readied(id, NotReady), Slept(id)], r);
    RunTwo(s, lock[0], lock[1], r);
    Overwrite(s.injections, id, inj, inj.(stage := AwaitingReady));
    var locked := s.(injections := s.injections[id := inj.(stage := AwaitingReady)], holder := Some(id));
    if ready {
      RunOne(locked, Readied(id, Ready), r);
    } else {
      RunTwo(locked, Readied(id, NotReady), Slept(id), r);
      Overwrite(s.injections, id, inj.(stage := AwaitingReady), inj.(stage := Settling));
      Overwrite(s.injections, id, inj.(stage := Settling), inj.(stage := Pasting(0)));
    }
    Overwrite(s.injections, id, inj.(stage := AwaitingReady), inj.(stage := Pasting(0)));
  }

  lemma Wakes(s: State, id: Id, r: Reading)
    requires id in s.injections && s.injections[id].stage == SubmitDelay && Fresh(s, id)
    ensures Next(s, Slept(id), r) == SetStage(s, id, WritingReturn(0))
  {
  }

  // ---------- one `_write_input` call ----------

  /** How much a series of turns offers to take. */
  function Offered(turns: seq<Turn>): (n: nat) {
    if turns == [] then 0
    else (if turns[0].result.Accepted? then turns[0].result.n else 0) + Offered(turns[1..])
  }

  /** Each of these turns takes something, or is refused for a moment in which nobody interferes. */
  predicate Patient(turns: seq<Turn>) {
    forall i | 0 <= i < |turns| ::
      match turns[i].result
      case Accepted(n) => n > 0
      case TryAgain => turns[i].after == Yield(false, false, false)
      case Broken => false
  }

  lemma {:induction false} PatientTurns(turns: seq<Turn>, length: nat) returns (k: nat)
    requires Taken(turns, length) == length
    ensures k <= |turns| && Patient(turns[..k]) && Offered(turns[..k]) == length
    decreases |turns|
  {
    k := 0;
    if length > 0 {
      var first := turns[0].result;
      k := PatientTurns(turns[1..], if first.Accepted? then length - first.n else length);
      k := k + 1;
      FirstTurn(turns, k);
    }
  }

  lemma {:induction false} AllTaken(turns: seq<Turn>, length: nat, k: nat)
    requires k <= |turns| && Patient(turns[..k]) && Offered(turns[..k]) == length
    ensures Taken(turns, length) == length
    decreases k
  {
    if k > 0 {
      FirstTurn(turns, k);
      var first := turns[0].result;
      AllTaken(turns[1..], if first.Accepted? then length - first.n else length, k - 1);
    }
  }

  /** All bytes are taken exactly if some first turns of that kind take exactly as many. */
  lemma TakenIff(turns: seq<Turn>, length: nat)
    ensures Taken(turns, length) == length <==>
              exists k :: 0 <= k <= |turns| && Patient(turns[..k]) && Offered(turns[..k]) == length
  {
    if Taken(turns, length) == length {
      var k := PatientTurns(turns, length);
    }
    if k :| 0 <= k <= |turns| && Patient(turns[..k]) && Offered(turns[..k]) == length {
      AllTaken(turns, length, k);
    }
  }

  lemma FirstTurn(turns: seq<Turn>, k: nat)
    requires 0 < k <= |turns|
    ensures Patient(turns[..k]) <==> Patient([turns[0]]) && Patient(turns[1..][..k - 1])
    ensures Offered(turns[..k])
         == (if turns[0].result.Accepted? then turns[0].result.n else 0) + Offered(turns[1..][..k - 1])
  {
    var rest := turns[1..][..k - 1];
    assert turns[..k] == [turns[0]] + rest && turns[..k][1..] == rest;
    PatientSplits(turns[0], rest);
  }

  lemma PatientSplits(turn: Turn, rest: seq<Turn>)
    ensures Patient([turn] + rest) <==> Patient([turn]) && Patient(rest)
  {
    var all := [turn] + rest;
    if Patient(all) {
      assert all[0] == turn;
      forall i | 0 <= i < |rest|
        ensures rest[i] == all[i + 1]
      {
      }
    }
  }
}
