/**
  Who may write to a shared terminal: input epochs, the injection lock and the Codex paste latch
  (pty_session.py:1608-1802).

  Every segment between two awaits is one step of `Next`; a Stop, an administrator's keystroke, a
  cancellation or the closing of the session may fall between any two. `log` records, in order,
  everything that reached the PTY.
 */
module TerminalInput {
  import opened Wrappers
  import opened JsonlTail

  type Id = nat

  const MAX_ENTERS := 2
  const POLLS_PER_ENTER := 10

  /** How composer screens are read: which drafts are empty, and which render a given paste. */
  datatype Reading = Reading(empty: string -> bool, matches: (string, Bytes) -> bool)

  /** Where a `send_input` stands; all but the first and the last hold the injection lock. */
  datatype Stage =
    | Queued
    | AwaitingReady
    | Settling
    | Preflight
    | Pasting(sent: nat)
    | SubmitDelay
    | WritingReturn(sent: nat)
    | AwaitingPaste
    | PasteSettling(draft: string)
    | BeforeEnter(draft: string, attempt: nat)
    | AfterEnter(draft: string, attempt: nat, polls: nat)
    | Done(sent: nat, enters: nat, ok: bool)

  /** One `send_input` call; `epoch` is the value captured at its start. */
  datatype Injection = Injection(epoch: nat, payload: Bytes, bracketed: bool, submit: bool, stage: Stage)

  datatype Event =
    | Wrote(owner: Id, data: Bytes, epoch: nat)                                // bytes accepted by the PTY
    | Enter(owner: Id, shown: string, owned: string, epoch: nat)               // send-keys Enter
    | Consumed(owner: Id, shown: string, epoch: nat)                           // paste seen consumed
    | Bumped(epoch: nat)                                                       // Stop or administrator input
    | Foreign(data: Bytes, epoch: nat)                                         // bytes of any other writer

  /** `latched` are the injections that ever set `uncertain`, before their first byte. */
  datatype State = State(codex: bool, epoch: nat, closed: bool, holder: Option<Id>, uncertain: bool,
                         injections: map<Id, Injection>, log: seq<Event>, latched: set<Id>)

  function Start(codex: bool): State {
    State(codex, 0, false, None, false, map[], [], {})
  }

  datatype Readiness = Ready | NotReady | DraftConflict

  /** `os.write`: `n` bytes taken, a temporary refusal with time left, or anything else. */
  datatype WriteResult = Accepted(n: nat) | TryAgain | Broken

  /** A captured pane. */
  datatype Screen = Unreadable | Frame(ready: bool, busy: bool, draft: Option<string>)

  datatype Action =
    | Submit(id: Id, payload: Bytes, bracketed: bool, submit: bool)
    | Acquire(id: Id)
    | Readied(id: Id, readiness: Readiness)
    | Slept(id: Id)
    | Write(id: Id, result: WriteResult)
    | Captured(id: Id, screen: Screen, keysSent: bool)
    | Cancel(id: Id)                                   // cancellation or a timeout, at any await
    | Bump
    | OtherWrite(data: Bytes)
    | Close

  /** What one injection means to type: its payload, and for other CLIs a separate return. */
  function Script(inj: Injection): Bytes {
    inj.payload + [CR]
  }

  function SentBy(inj: Injection): nat {
    match inj.stage
    case Queued => 0
    case AwaitingReady => 0
    case Settling => 0
    case Preflight => 0
    case Pasting(n) => n
    case WritingReturn(n) => |inj.payload| + n
    case Done(n, _, _) => n
    case _ => |inj.payload|
  }

  function EntersBy(stage: Stage): nat {
    match stage
    case BeforeEnter(_, attempt) => attempt
    case AfterEnter(_, attempt, _) => attempt + 1
    case Done(_, enters, _) => enters
    case _ => 0
  }

  predicate Active(stage: Stage) {
    !stage.Queued? && !stage.Done?
  }

  /** Stages from the moment the paste may have written anything. */
  predicate Latched(stage: Stage) {
    Active(stage) && !stage.AwaitingReady? && !stage.Settling? && !stage.Preflight?
  }

  predicate CodexOnly(stage: Stage) {
    stage.Preflight? || stage.AwaitingPaste? || stage.PasteSettling? || stage.BeforeEnter? || stage.AfterEnter?
  }

  predicate OthersOnly(stage: Stage) {
    stage.Settling? || stage.SubmitDelay? || stage.WritingReturn?
  }

  /** `_check_input_epoch` passes. */
  predicate Fresh(s: State, id: Id)
    requires id in s.injections
  {
    s.injections[id].epoch == s.epoch && !s.closed
  }

  function SetStage(s: State, id: Id, stage: Stage): State
    requires id in s.injections
  {
    s.(injections := s.injections[id := s.injections[id].(stage := stage)])
  }

  /** The call returns or raises; `async with` releases the lock. */
  function Finish(s: State, id: Id, ok: bool): State
    requires id in s.injections
  {
    var inj := s.injections[id];
    SetStage(s, id, Done(SentBy(inj), EntersBy(inj.stage), ok))
      .(holder := if s.holder == Some(id) then None else s.holder)
  }

  function Log(s: State, e: Event): State {
    s.(log := s.log + [e])
  }

  /** Where a completely accepted write leads. */
  function Written(s: State, id: Id): State
    requires id in s.injections
  {
    var inj := s.injections[id];
    if inj.stage.WritingReturn? || !inj.submit then Finish(s, id, true)
    else SetStage(s, id, if s.codex then AwaitingPaste else SubmitDelay)
  }

  function NextWrite(s: State, id: Id, result: WriteResult): State
    requires id in s.injections && (s.injections[id].stage.Pasting? || s.injections[id].stage.WritingReturn?)
  {
    var inj := s.injections[id];
    var data := if inj.stage.Pasting? then inj.payload else [CR];
    var sent := inj.stage.sent;
    if sent >= |data| then Written(s, id)
    else if !Fresh(s, id) then Finish(s, id, false)
    else match result
      case Accepted(n) =>
        if n == 0 || sent + n > |data| then Finish(s, id, false)
        else
          var s' := Log(SetStage(s, id, if inj.stage.Pasting? then Pasting(sent + n) else WritingReturn(sent + n)),
                        Wrote(id, data[sent..sent + n], s.epoch));
          if sent + n == |data| then Written(s', id) else s'
      case TryAgain => s
      case Broken => Finish(s, id, false)
  }

  function NextCapture(s: State, id: Id, screen: Screen, keysSent: bool, r: Reading): State
    requires id in s.injections && CodexOnly(s.injections[id].stage)
  {
    var inj := s.injections[id];
    if inj.stage.PasteSettling? then s
    else if !Fresh(s, id) || screen.Unreadable? then Finish(s, id, false)
    else match inj.stage
      case Preflight =>
        if !screen.ready then Finish(s, id, false)
        else SetStage(s, id, Pasting(0)).(uncertain := true, latched := s.latched + {id})
      case AwaitingPaste =>
        if screen.draft.None? then s
        else if r.matches(screen.draft.value, inj.payload) then SetStage(s, id, PasteSettling(screen.draft.value))
        else if !r.empty(screen.draft.value) then Finish(s, id, false)
        else s
      case BeforeEnter(draft, attempt) =>
        if screen.draft != Some(draft) || screen.busy then Finish(s, id, false)
        else
          var s' := Log(SetStage(s, id, AfterEnter(draft, attempt, POLLS_PER_ENTER)),
                        Enter(id, screen.draft.value, draft, s.epoch));
          if keysSent then s' else Finish(s', id, false)
      case AfterEnter(draft, attempt, polls) =>
        if screen.draft.Some? && r.empty(screen.draft.value) then
          Finish(Log(s, Consumed(id, screen.draft.value, s.epoch)).(uncertain := false), id, true)
        else if screen.draft.Some? && screen.draft.value != draft then Finish(s, id, false)
        else if polls > 1 then SetStage(s, id, AfterEnter(draft, attempt, polls - 1))
        else if attempt + 1 < MAX_ENTERS then SetStage(s, id, BeforeEnter(draft, attempt + 1))
        else Finish(s, id, false)
  }

  function Next(s: State, a: Action, r: Reading): (s': State) {
    match a
    case Submit(id, payload, bracketed, submit) =>
      if id in s.injections then s
      else s.(injections := s.injections[id := Injection(s.epoch, payload, bracketed, submit, Queued)])
    case Acquire(id) =>
      if id !in s.injections || !s.injections[id].stage.Queued? || s.holder.Some? then s
      else if !Fresh(s, id) || (s.codex && (s.uncertain || !s.injections[id].bracketed)) then Finish(s, id, false)
      else SetStage(s, id, AwaitingReady).(holder := Some(id))
    case Readied(id, readiness) =>
      if id !in s.injections || !s.injections[id].stage.AwaitingReady? then s
      else if readiness.DraftConflict? || !Fresh(s, id) || (s.codex && readiness.NotReady?) then Finish(s, id, false)
      else SetStage(s, id, if s.codex then Preflight else if readiness.Ready? then Pasting(0) else Settling)
    case Slept(id) =>
      if id !in s.injections then s
      else
        var stage := s.injections[id].stage;
        if stage.PasteSettling? then SetStage(s, id, BeforeEnter(stage.draft, 0))
        else if !stage.Settling? && !stage.SubmitDelay? then s
        else if !Fresh(s, id) then Finish(s, id, false)
        else SetStage(s, id, if stage.Settling? then Pasting(0) else WritingReturn(0))
    case Write(id, result) =>
      if id in s.injections && (s.injections[id].stage.Pasting? || s.injections[id].stage.WritingReturn?)
      then NextWrite(s, id, result) else s
    case Captured(id, screen, keysSent) =>
      if id in s.injections && CodexOnly(s.injections[id].stage) then NextCapture(s, id, screen, keysSent, r) else s
    case Cancel(id) =>
      if id in s.injections && !s.injections[id].stage.Done? then Finish(s, id, false) else s
    case Bump => Log(s.(epoch := s.epoch + 1), Bumped(s.epoch + 1))
    case OtherWrite(data) => Log(s, Foreign(data, s.epoch))
    case Close => s.(closed := true)
  }

  // ---------- what the log says ----------

  predicate Auto(e: Event) {
    e.Wrote? || e.Enter?
  }

  /** The bytes of one injection that the PTY accepted. */
  function BytesOf(log: seq<Event>, id: Id): (data: Bytes) {
    if log == [] then []
    else
      var e := log[|log| - 1];
      BytesOf(log[..|log| - 1], id) + (if e.Wrote? && e.owner == id then e.data else [])
  }

  function EnterCount(log: seq<Event>, id: Id): (n: nat) {
    if log == [] then 0
    else
      var e := log[|log| - 1];
      EnterCount(log[..|log| - 1], id) + (if e.Enter? && e.owner == id then 1 else 0)
  }

  lemma LogGrows(log: seq<Event>, e: Event, id: Id)
    ensures BytesOf(log + [e], id) == BytesOf(log, id) + (if e.Wrote? && e.owner == id then e.data else [])
    ensures EnterCount(log + [e], id) == EnterCount(log, id) + (if e.Enter? && e.owner == id then 1 else 0)
  {
  }

  lemma {:induction false} SomeEnter(log: seq<Event>, id: Id) returns (p: nat)
    requires EnterCount(log, id) > 0
    ensures p < |log| && log[p].Enter? && log[p].owner == id
    decreases |log|
  {
    p := |log| - 1;
    if !(log[p].Enter? && log[p].owner == id) {
      p := SomeEnter(log[..p], id);
    }
  }

  /** The paste that event `p` belongs to was later seen consumed. */
  ghost predicate Closed(log: seq<Event>, p: nat)
    requires p < |log| && Auto(log[p])
  {
    exists r :: p < r < |log| && log[r].Consumed? && log[r].owner == log[p].owner
  }

  ghost predicate InjectionOk(s: State, id: Id, r: Reading)
    requires id in s.injections
  {
    var inj := s.injections[id];
    var stage := inj.stage;
    && inj.epoch <= s.epoch
    && (s.holder == Some(id) <==> Active(stage))
    && (CodexOnly(stage) ==> s.codex) && (OthersOnly(stage) ==> !s.codex)
    && SentBy(inj) <= |Script(inj)| && EntersBy(stage) <= MAX_ENTERS
    && (stage.Pasting? ==> stage.sent <= |inj.payload|)
    && (stage.SubmitDelay? || stage.WritingReturn? || stage.AwaitingPaste? ==> inj.submit)
    && (stage.BeforeEnter? || stage.AfterEnter? ==> stage.attempt < MAX_ENTERS)
    && (stage.PasteSettling? || stage.BeforeEnter? || stage.AfterEnter? ==> r.matches(stage.draft, inj.payload))
    && (stage.Done? && stage.ok ==>
          SentBy(inj) >= |inj.payload| && (inj.submit && !s.codex ==> SentBy(inj) == |Script(inj)|))
    && BytesOf(s.log, id) == Script(inj)[..SentBy(inj)]
    && EnterCount(s.log, id) == EntersBy(stage)
    && (s.codex && Active(stage) ==> (s.uncertain <==> Latched(stage)))
  }

  /** An Enter of `id` before event `p`. */
  ghost predicate Entered(log: seq<Event>, id: Id, p: nat)
    requires p <= |log|
  {
    exists q :: 0 <= q < p && log[q].Enter? && log[q].owner == id
  }

  ghost predicate EventOk(s: State, p: nat, r: Reading)
    requires p < |s.log|
  {
    var e := s.log[p];
    && e.epoch <= s.epoch
    && (Auto(e) || e.Consumed? ==>
          && e.owner in s.injections && !s.injections[e.owner].stage.Queued?
          && e.epoch == s.injections[e.owner].epoch)
    && (e.Enter? ==> e.shown == e.owned && r.matches(e.owned, s.injections[e.owner].payload))
    && (e.Consumed? ==> r.empty(e.shown) && Entered(s.log, e.owner, p))
    && (s.codex && Auto(e) && !Closed(s.log, p) ==> s.uncertain && (s.holder.None? || s.holder == Some(e.owner)))
  }

  /** Event `p` is followed by a Consumed of its injection before event `q`. */
  ghost predicate ClosedBefore(log: seq<Event>, p: nat, q: nat)
    requires p < q <= |log| && Auto(log[p])
  {
    exists c :: p < c < q && log[c].Consumed? && log[c].owner == log[p].owner
  }

  ghost predicate PairOk(s: State, p: nat, q: nat)
    requires p < q < |s.log|
  {
    && s.log[p].epoch <= s.log[q].epoch
    && (Auto(s.log[p]) && Auto(s.log[q]) && s.log[p].owner != s.log[q].owner ==>
          && s.log[p].owner in s.injections && s.injections[s.log[p].owner].stage.Done?
          && (s.codex ==> ClosedBefore(s.log, p, q)))
  }

  ghost predicate Inv(s: State, r: Reading) {
    && (s.holder.Some? ==> s.holder.value in s.injections)
    && (forall id | id in s.injections :: InjectionOk(s, id, r))
    && (forall p | 0 <= p < |s.log| :: EventOk(s, p, r))
    && (forall p, q | 0 <= p < q < |s.log| :: PairOk(s, p, q))
  }

  // ---------- what every step keeps ----------

  /** One injection moves to another stage, perhaps taking or releasing the lock; nothing is logged. */
  ghost predicate Moves(s: State, s': State, id: Id) {
    && id in s.injections && !s.injections[id].stage.Done?
    && s'.codex == s.codex && s'.epoch == s.epoch && s'.log == s.log
    && id in s'.injections && !s'.injections[id].stage.Queued?
    && s'.injections == s.injections[id := s.injections[id].(stage := s'.injections[id].stage)]
    && (s'.holder == s.holder
        || (s.holder == None && s'.holder == Some(id) && (s.codex ==> !s.uncertain))
        || (s.holder == Some(id) && s'.holder == None))
    && (s'.uncertain == s.uncertain || (s'.uncertain && s.holder == s'.holder == Some(id)))
  }

  lemma MoveKeepsOthers(s: State, s': State, id: Id, j: Id, r: Reading)
    requires Moves(s, s', id) && j in s'.injections && j != id
    requires InjectionOk(s, j, r) && InjectionOk(s, id, r)
    ensures InjectionOk(s', j, r)
  {
  }

  lemma MoveKeepsEvent(s: State, s': State, id: Id, p: nat, r: Reading)
    requires Moves(s, s', id) && p < |s.log| && EventOk(s, p, r)
    ensures EventOk(s', p, r)
  {
  }

  lemma MoveKeepsPair(s: State, s': State, id: Id, p: nat, q: nat)
    requires Moves(s, s', id) && p < q < |s.log| && PairOk(s, p, q)
    ensures PairOk(s', p, q)
  {
  }

  lemma MoveKeepsInv(s: State, s': State, id: Id, r: Reading)
    requires Inv(s, r) && Moves(s, s', id) && InjectionOk(s', id, r)
    ensures Inv(s', r)
  {
    hide InjectionOk, EventOk, PairOk;
    forall j | j in s'.injections
      ensures InjectionOk(s', j, r)
    {
      if j != id {
        MoveKeepsOthers(s, s', id, j, r);
      }
    }
    forall p | 0 <= p < |s'.log|
      ensures EventOk(s', p, r)
    {
      MoveKeepsEvent(s, s', id, p, r);
    }
    forall p, q | 0 <= p < q < |s'.log|
      ensures PairOk(s', p, q)
    {
      MoveKeepsPair(s, s', id, p, q);
    }
  }

  lemma FinishKeepsInv(s: State, id: Id, ok: bool, r: Reading)
    requires Inv(s, r) && id in s.injections && !s.injections[id].stage.Done?
    requires ok ==> var inj := s.injections[id];
                    SentBy(inj) >= |inj.payload| && (inj.submit && !s.codex ==> SentBy(inj) == |Script(inj)|)
    ensures Inv(Finish(s, id, ok), r)
  {
    hide BytesOf, EnterCount, Inv;
    InvOf(s, id, r);
    MoveKeepsInv(s, Finish(s, id, ok), id, r);
  }

  /** The injections of `s'` are those of `s`, none of them back in the queue or out of Done. */
  ghost predicate SameCalls(s: State, s': State) {
    forall j | j in s.injections ::
      && j in s'.injections
      && s'.injections[j].epoch == s.injections[j].epoch && s'.injections[j].payload == s.injections[j].payload
      && (s.injections[j].stage.Done? ==> s'.injections[j].stage.Done?)
      && (s'.injections[j].stage.Queued? ==> s.injections[j].stage.Queued?)
  }

  lemma OldEventKeeps(s: State, s': State, p: nat, r: Reading)
    requires p < |s.log| && s.log <= s'.log && EventOk(s, p, r) && SameCalls(s, s')
    requires s'.codex == s.codex && s'.epoch >= s.epoch
    requires (s'.uncertain == s.uncertain && s'.holder == s.holder)
             || (s.codex && Auto(s.log[p]) ==> Closed(s'.log, p))
    ensures EventOk(s', p, r)
  {
  }

  lemma OldPairKeeps(s: State, s': State, p: nat, q: nat)
    requires p < q < |s.log| && s.log <= s'.log && PairOk(s, p, q) && SameCalls(s, s') && s'.codex == s.codex
    ensures PairOk(s', p, q)
  {
  }

  ghost predicate LogOk(s: State, r: Reading) {
    && (forall p | 0 <= p < |s.log| :: EventOk(s, p, r))
    && (forall p, q | 0 <= p < q < |s.log| :: PairOk(s, p, q))
  }

  /** Appending one event keeps the log in order if the event itself fits. */
  lemma AppendKeepsLog(s: State, s': State, e: Event, r: Reading)
    requires LogOk(s, r) && s'.log == s.log + [e] && SameCalls(s, s')
    requires s'.codex == s.codex && s'.epoch >= s.epoch
    requires (s'.uncertain == s.uncertain && s'.holder == s.holder)
             || forall p | 0 <= p < |s.log| :: s.codex && Auto(s.log[p]) ==> Closed(s'.log, p)
    requires EventOk(s', |s.log|, r)
    requires forall p | 0 <= p < |s.log| :: PairOk(s', p, |s.log|)
    ensures LogOk(s', r)
  {
    hide EventOk, PairOk, SameCalls;
    forall p | 0 <= p < |s'.log|
      ensures EventOk(s', p, r)
    {
      if p < |s.log| {
        assert s'.log[p] == s.log[p];
        OldEventKeeps(s, s', p, r);
      }
    }
    forall p, q | 0 <= p < q < |s'.log|
      ensures PairOk(s', p, q)
    {
      if q < |s.log| {
        OldPairKeeps(s, s', p, q);
      }
    }
  }

  /** An event that is no automatic write and closes nothing. */
  lemma NeutralKeepsInv(s: State, s': State, e: Event, r: Reading)
    requires Inv(s, r) && (e.Bumped? || e.Foreign?)
    requires s'.epoch >= s.epoch && e.epoch == s'.epoch && s' == s.(log := s.log + [e], epoch := s'.epoch)
    ensures Inv(s', r)
  {
    forall j | j in s'.injections
      ensures InjectionOk(s', j, r)
    {
      LogGrows(s.log, e, j);
      assert InjectionOk(s, j, r);
    }
    forall p | 0 <= p < |s.log|
      ensures PairOk(s', p, |s.log|)
    {
      assert EventOk(s, p, r);
    }
    AppendKeepsLog(s, s', e, r);
  }

  /** The lock holder writes: `e` is its event, `s'` has its new stage and the longer log. */
  ghost predicate Writes(s: State, s': State, id: Id, e: Event) {
    && id in s.injections && s.holder == Some(id)
    && Auto(e) && e.owner == id && e.epoch == s.epoch == s.injections[id].epoch
    && (s.codex ==> s.uncertain)
    && id in s'.injections && Active(s'.injections[id].stage)
    && s' == s.(injections := s.injections[id := s.injections[id].(stage := s'.injections[id].stage)],
                log := s.log + [e])
  }

  lemma WriteFitsLog(s: State, s': State, id: Id, e: Event, p: nat, r: Reading)
    requires Inv(s, r) && Writes(s, s', id, e) && p < |s.log|
    ensures PairOk(s', p, |s.log|)
  {
    hide BytesOf, EnterCount;
    assert EventOk(s, p, r);
    var d := s.log[p];
    if Auto(d) && d.owner != id {
      assert InjectionOk(s, d.owner, r);
      if s.codex {
        assert Closed(s.log, p);
        var c :| p < c < |s.log| && s.log[c].Consumed? && s.log[c].owner == d.owner;
        assert s'.log[c] == s.log[c];
        assert ClosedBefore(s'.log, p, |s.log|);
      }
    }
  }

  lemma WriteKeepsInv(s: State, s': State, id: Id, e: Event, r: Reading)
    requires Inv(s, r) && Writes(s, s', id, e) && InjectionOk(s', id, r)
    requires e.Enter? ==> e.shown == e.owned && r.matches(e.owned, s.injections[id].payload)
    ensures Inv(s', r)
  {
    hide BytesOf, EnterCount;
    forall j | j in s'.injections
      ensures InjectionOk(s', j, r)
    {
      assert InjectionOk(s, j, r);
      LogGrows(s.log, e, j);
    }
    forall p | 0 <= p < |s.log|
      ensures PairOk(s', p, |s.log|)
    {
      WriteFitsLog(s, s', id, e, p, r);
    }
    assert InjectionOk(s, id, r);
    AppendKeepsLog(s, s', e, r);
  }

  /** The paste of the lock holder is seen consumed: the latch opens and the lock is released. */
  lemma ConsumeKeepsInv(s: State, id: Id, shown: string, r: Reading)
    requires Inv(s, r) && id in s.injections && s.holder == Some(id) && s.codex
    requires s.injections[id].stage.AfterEnter? && s.injections[id].epoch == s.epoch && r.empty(shown)
    ensures Inv(Finish(Log(s, Consumed(id, shown, s.epoch)).(uncertain := false), id, true), r)
  {
    hide BytesOf, EnterCount;
    var e := Consumed(id, shown, s.epoch);
    var s' := Finish(Log(s, e).(uncertain := false), id, true);
    forall j | j in s'.injections
      ensures InjectionOk(s', j, r)
    {
      InvOf(s, j, r);
      InvOf(s, id, r);
      LogGrows(s.log, e, j);
    }
    ConsumeKeepsLog(s, s', id, e, r);
  }

  lemma ConsumeKeepsLog(s: State, s': State, id: Id, e: Event, r: Reading)
    requires Inv(s, r) && id in s.injections && s.holder == Some(id) && s.codex && e.Consumed? && e.owner == id
    requires s.injections[id].stage.AfterEnter? && s.injections[id].epoch == s.epoch == e.epoch && r.empty(e.shown)
    requires s' == Finish(Log(s, e).(uncertain := false), id, true)
    ensures LogOk(s', r)
  {
    hide BytesOf;
    InvOf(s, id, r);
    var q := SomeEnter(s.log, id);
    assert s'.log[q] == s.log[q];
    assert Entered(s'.log, id, |s.log|);
    forall p | 0 <= p < |s.log|
      ensures Auto(s.log[p]) ==> Closed(s'.log, p)
      ensures PairOk(s', p, |s.log|)
    {
      assert EventOk(s, p, r);
      if Auto(s.log[p]) {
        ClosesAll(s, s', id, p, r);
      }
    }
    AppendKeepsLog(s, s', e, r);
  }

  lemma ClosesAll(s: State, s': State, id: Id, p: nat, r: Reading)
    requires p < |s.log| && Auto(s.log[p]) && EventOk(s, p, r) && s.codex && s.holder == Some(id)
    requires |s'.log| == |s.log| + 1 && s.log <= s'.log && s'.log[|s.log|].Consumed? && s'.log[|s.log|].owner == id
    ensures Closed(s'.log, p)
  {
  }

  lemma WrittenKeepsInv(s: State, id: Id, r: Reading)
    requires Inv(s, r) && id in s.injections
    requires var stage, payload := s.injections[id].stage, s.injections[id].payload;
             (stage.Pasting? && stage.sent == |payload|) || (stage.WritingReturn? && stage.sent == 1)
    ensures Inv(Written(s, id), r)
  {
    hide BytesOf, EnterCount;
    var inj := s.injections[id];
    assert InjectionOk(s, id, r);
    if inj.stage.WritingReturn? || !inj.submit {
      FinishKeepsInv(s, id, true, r);
    } else {
      MoveKeepsInv(s, Written(s, id), id, r);
    }
  }

  lemma NextWriteKeepsInv(s: State, id: Id, result: WriteResult, r: Reading)
    requires Inv(s, r) && id in s.injections
    requires s.injections[id].stage.Pasting? || s.injections[id].stage.WritingReturn?
    ensures Inv(NextWrite(s, id, result), r)
  {
    hide BytesOf, EnterCount, Inv, InjectionOk;
    assert InjectionOk(s, id, r) by {
      InvOf(s, id, r);
    }
    StageBounds(s, id, r);
    var inj := s.injections[id];
    var data := if inj.stage.Pasting? then inj.payload else [CR];
    var sent := inj.stage.sent;
    if sent >= |data| {
      WrittenKeepsInv(s, id, r);
    } else if !Fresh(s, id) || result.Broken? || (result.Accepted? && (result.n == 0 || sent + result.n > |data|)) {
      FinishKeepsInv(s, id, false, r);
    } else if result.Accepted? {
      var stage := if inj.stage.Pasting? then Pasting(sent + result.n) else WritingReturn(sent + result.n);
      var e := Wrote(id, data[sent..sent + result.n], s.epoch);
      var s' := Log(SetStage(s, id, stage), e);
      AcceptedKeeps(s, s', id, e, r);
      WriteKeepsInv(s, s', id, e, r);
      if sent + result.n == |data| {
        WrittenKeepsInv(s', id, r);
      }
    }
  }

  lemma InvOf(s: State, id: Id, r: Reading)
    requires Inv(s, r) && id in s.injections
    ensures InjectionOk(s, id, r)
  {
  }

  lemma StageBounds(s: State, id: Id, r: Reading)
    requires id in s.injections && InjectionOk(s, id, r)
    requires s.injections[id].stage.Pasting? || s.injections[id].stage.WritingReturn?
    ensures s.holder == Some(id) && (s.codex ==> s.uncertain)
    ensures s.injections[id].stage.sent <= if s.injections[id].stage.Pasting? then |s.injections[id].payload| else 1
  {
  }

  /** The accepted bytes are the next ones of the script. */
  lemma NextOfScript(inj: Injection, n: nat)
    requires inj.stage.Pasting? || inj.stage.WritingReturn?
    requires inj.stage.sent + n <= if inj.stage.Pasting? then |inj.payload| else 1
    ensures var data := if inj.stage.Pasting? then inj.payload else [CR];
            && SentBy(inj) + n <= |Script(inj)|
            && Script(inj)[..SentBy(inj) + n] == Script(inj)[..SentBy(inj)] + data[inj.stage.sent..inj.stage.sent + n]
  {
  }

  /** The accepted bytes extend what the injection had written by the next bytes of its script. */
  lemma AcceptedKeeps(s: State, s': State, id: Id, e: Event, r: Reading)
    requires id in s.injections && InjectionOk(s, id, r) && e.Wrote? && e.owner == id
    requires var inj := s.injections[id];
             var data := if inj.stage.Pasting? then inj.payload else [CR];
             && (inj.stage.Pasting? || inj.stage.WritingReturn?)
             && 0 < |e.data| && inj.stage.sent + |e.data| <= |data|
             && e.data == data[inj.stage.sent..inj.stage.sent + |e.data|]
             && s' == Log(SetStage(s, id, if inj.stage.Pasting? then Pasting(inj.stage.sent + |e.data|)
                                          else WritingReturn(inj.stage.sent + |e.data|)), e)
    ensures InjectionOk(s', id, r)
  {
    hide BytesOf, EnterCount, Script;
    LogGrows(s.log, e, id);
    var inj := s.injections[id];
    NextOfScript(inj, |e.data|);
    var inj' := s'.injections[id];
    assert Script(inj') == Script(inj) by {
      SameScript(inj, inj'.stage);
    }
    assert SentBy(inj') == SentBy(inj) + |e.data|;
  }

  lemma SameScript(inj: Injection, stage: Stage)
    ensures Script(inj.(stage := stage)) == Script(inj)
  {
  }

  lemma NextCaptureKeepsInv(s: State, id: Id, screen: Screen, keysSent: bool, r: Reading)
    requires Inv(s, r) && id in s.injections && CodexOnly(s.injections[id].stage)
    ensures Inv(NextCapture(s, id, screen, keysSent, r), r)
  {
    hide BytesOf, EnterCount, Inv, InjectionOk;
    var inj := s.injections[id];
    CodexStage(s, id, r);
    if inj.stage.PasteSettling? {
    } else if !Fresh(s, id) || screen.Unreadable? {
      FinishKeepsInv(s, id, false, r);
    } else if inj.stage.BeforeEnter? && screen.draft == Some(inj.stage.draft) && !screen.busy {
      EnterKeepsInv(s, id, r);
      var entered := Log(SetStage(s, id, AfterEnter(inj.stage.draft, inj.stage.attempt, POLLS_PER_ENTER)),
                         Enter(id, inj.stage.draft, inj.stage.draft, s.epoch));
      if !keysSent {
        FinishKeepsInv(entered, id, false, r);
      }
    } else if inj.stage.AfterEnter? && screen.draft.Some? && r.empty(screen.draft.value) {
      ConsumeKeepsInv(s, id, screen.draft.value, r);
    } else if NextCapture(s, id, screen, keysSent, r) == Finish(s, id, false) {
      FinishKeepsInv(s, id, false, r);
    } else {
      CaptureMoveKeepsInv(s, id, screen, keysSent, r);
    }
  }

  lemma CodexStage(s: State, id: Id, r: Reading)
    requires Inv(s, r) && id in s.injections && CodexOnly(s.injections[id].stage)
    ensures s.codex && s.holder == Some(id)
  {
  }

  lemma CaptureMoveKeepsInv(s: State, id: Id, screen: Screen, keysSent: bool, r: Reading)
    requires Inv(s, r) && id in s.injections && CodexOnly(s.injections[id].stage)
    requires Fresh(s, id) && screen.Frame?
    requires !s.injections[id].stage.PasteSettling? && !s.injections[id].stage.BeforeEnter?
    requires NextCapture(s, id, screen, keysSent, r) != Finish(s, id, false)
    requires !(s.injections[id].stage.AfterEnter? && screen.draft.Some? && r.empty(screen.draft.value))
    ensures Inv(NextCapture(s, id, screen, keysSent, r), r)
  {
    hide BytesOf, EnterCount, Inv;
    InvOf(s, id, r);
    var s' := NextCapture(s, id, screen, keysSent, r);
    if s' != s {
      MoveKeepsInv(s, s', id, r);
    }
  }

  lemma EnterKeepsInv(s: State, id: Id, r: Reading)
    requires Inv(s, r) && id in s.injections && s.injections[id].stage.BeforeEnter? && Fresh(s, id)
    ensures var stage := s.injections[id].stage;
            Inv(Log(SetStage(s, id, AfterEnter(stage.draft, stage.attempt, POLLS_PER_ENTER)),
                    Enter(id, stage.draft, stage.draft, s.epoch)), r)
  {
    hide BytesOf, EnterCount;
    var stage := s.injections[id].stage;
    var e := Enter(id, stage.draft, stage.draft, s.epoch);
    assert InjectionOk(s, id, r);
    LogGrows(s.log, e, id);
    WriteKeepsInv(s, Log(SetStage(s, id, AfterEnter(stage.draft, stage.attempt, POLLS_PER_ENTER)), e), id, e, r);
  }

  lemma SubmitKeepsInv(s: State, id: Id, payload: Bytes, bracketed: bool, submit: bool, r: Reading)
    requires Inv(s, r) && id !in s.injections
    ensures Inv(Next(s, Submit(id, payload, bracketed, submit), r), r)
  {
    hide BytesOf, EnterCount;
    var s' := Next(s, Submit(id, payload, bracketed, submit), r);
    forall p | 0 <= p < |s.log|
      ensures !((Auto(s.log[p]) || s.log[p].Consumed?) && s.log[p].owner == id)
    {
      assert EventOk(s, p, r);
    }
    NoTrace(s.log, id);
    forall j | j in s'.injections
      ensures InjectionOk(s', j, r)
    {
      if j != id {
        assert InjectionOk(s, j, r);
      }
    }
    forall p | 0 <= p < |s'.log|
      ensures EventOk(s', p, r)
    {
      assert EventOk(s, p, r);
    }
    forall p, q | 0 <= p < q < |s'.log|
      ensures PairOk(s', p, q)
    {
      assert PairOk(s, p, q);
    }
  }

  lemma {:induction false} NoTrace(log: seq<Event>, id: Id)
    requires forall p | 0 <= p < |log| :: !(Auto(log[p]) && log[p].owner == id)
    ensures BytesOf(log, id) == [] && EnterCount(log, id) == 0
    decreases |log|
  {
    if log != [] {
      NoTrace(log[..|log| - 1], id);
    }
  }

  lemma AcquireKeepsInv(s: State, id: Id, r: Reading)
    requires Inv(s, r) && id in s.injections && s.injections[id].stage.Queued? && s.holder.None?
    ensures Inv(Next(s, Acquire(id), r), r)
  {
    hide BytesOf, EnterCount, Inv;
    InvOf(s, id, r);
    if Next(s, Acquire(id), r).injections[id].stage.Done? {
      FinishKeepsInv(s, id, false, r);
    } else {
      MoveKeepsInv(s, Next(s, Acquire(id), r), id, r);
    }
  }

  lemma ReadiedKeepsInv(s: State, id: Id, readiness: Readiness, r: Reading)
    requires Inv(s, r) && id in s.injections && s.injections[id].stage.AwaitingReady?
    ensures Inv(Next(s, Readied(id, readiness), r), r)
  {
    hide BytesOf, EnterCount, Inv;
    InvOf(s, id, r);
    if Next(s, Readied(id, readiness), r).injections[id].stage.Done? {
      FinishKeepsInv(s, id, false, r);
    } else {
      MoveKeepsInv(s, Next(s, Readied(id, readiness), r), id, r);
    }
  }

  lemma SleptKeepsInv(s: State, id: Id, r: Reading)
    requires Inv(s, r) && id in s.injections
    ensures Inv(Next(s, Slept(id), r), r)
  {
    hide BytesOf, EnterCount, Inv;
    InvOf(s, id, r);
    var s' := Next(s, Slept(id), r);
    if s'.injections[id].stage == s.injections[id].stage {
      assert s' == s;
    } else if s'.injections[id].stage.Done? {
      FinishKeepsInv(s, id, false, r);
    } else {
      MoveKeepsInv(s, s', id, r);
    }
  }

  lemma StepKeepsInv(s: State, a: Action, r: Reading)
    requires Inv(s, r)
    ensures Inv(Next(s, a, r), r)
  {
    hide Inv;
    match a
    case Submit(id, payload, bracketed, submit) =>
      if id !in s.injections {
        SubmitKeepsInv(s, id, payload, bracketed, submit, r);
      }
    case Write(id, result) =>
      if id in s.injections && (s.injections[id].stage.Pasting? || s.injections[id].stage.WritingReturn?) {
        NextWriteKeepsInv(s, id, result, r);
      }
    case Captured(id, screen, keysSent) =>
      if id in s.injections && CodexOnly(s.injections[id].stage) {
        NextCaptureKeepsInv(s, id, screen, keysSent, r);
      }
    case Bump => NeutralKeepsInv(s, Next(s, a, r), Bumped(s.epoch + 1), r);
    case OtherWrite(data) => NeutralKeepsInv(s, Next(s, a, r), Foreign(data, s.epoch), r);
    case Close => CloseKeepsInv(s, r);
    case Acquire(id) =>
      if id in s.injections && s.injections[id].stage.Queued? && s.holder.None? {
        AcquireKeepsInv(s, id, r);
      }
    case Readied(id, readiness) =>
      if id in s.injections && s.injections[id].stage.AwaitingReady? {
        ReadiedKeepsInv(s, id, readiness, r);
      }
    case Slept(id) =>
      if id in s.injections {
        SleptKeepsInv(s, id, r);
      }
    case Cancel(id) =>
      if id in s.injections && !s.injections[id].stage.Done? {
        FinishKeepsInv(s, id, false, r);
      }
  }

  lemma CloseKeepsInv(s: State, r: Reading)
    requires Inv(s, r)
    ensures Inv(Next(s, Close, r), r)
  {
    hide BytesOf, EnterCount;
    var s' := Next(s, Close, r);
    forall j | j in s'.injections
      ensures InjectionOk(s', j, r)
    {
      assert InjectionOk(s, j, r);
    }
    forall p | 0 <= p < |s'.log|
      ensures EventOk(s', p, r)
    {
      assert EventOk(s, p, r);
    }
    forall p, q | 0 <= p < q < |s'.log|
      ensures PairOk(s', p, q)
    {
      assert PairOk(s, p, q);
    }
  }

  function Run(s: State, actions: seq<Action>, r: Reading): (s': State)
    decreases |actions|
  {
    if actions == [] then s else Run(Next(s, actions[0], r), actions[1..], r)
  }

  lemma {:induction false} RunKeepsInv(s: State, actions: seq<Action>, r: Reading)
    requires Inv(s, r)
    ensures Inv(Run(s, actions, r), r)
    decreases |actions|
  {
    hide Inv, Next;
    if actions != [] {
      StepKeepsInv(s, actions[0], r);
      RunKeepsInv(Next(s, actions[0], r), actions[1..], r);
    }
  }

  lemma StartInv(codex: bool, r: Reading)
    ensures Inv(Start(codex), r)
  {
  }

  // ---------- what follows for every run ----------

  /**
    Nothing of a superseded injection reaches the PTY: every byte and every Enter of an injection is
    written at the epoch it started with, so after a Stop or an administrator's input only
    injections started since then can write.
   */
  lemma SupersededIsSilent(codex: bool, actions: seq<Action>, r: Reading, p: nat, q: nat)
    ensures var s := Run(Start(codex), actions, r);
            q < |s.log| && Auto(s.log[q]) ==>
              && s.log[q].owner in s.injections
              && s.log[q].epoch == s.injections[s.log[q].owner].epoch
              && (p < q && s.log[p].Bumped? ==> s.injections[s.log[q].owner].epoch >= s.log[p].epoch)
  {
    StartInv(codex, r);
    RunKeepsInv(Start(codex), actions, r);
    var s := Run(Start(codex), actions, r);
    if q < |s.log| {
      assert EventOk(s, q, r);
      if p < q {
        assert PairOk(s, p, q);
      }
    }
  }

  /** Between two automatic writes of one injection there is none of another. */
  ghost predicate Grouped(log: seq<Event>) {
    forall p, q, x | 0 <= p < q < x < |log| && Auto(log[p]) && Auto(log[q]) && Auto(log[x]) ::
      log[p].owner == log[x].owner ==> log[q].owner == log[p].owner
  }

  /** A step logs at most one event, and an automatic write only for an injection that is not over. */
  ghost predicate LogsOne(s: State, s': State) {
    && s'.codex == s.codex
    && (s'.log == s.log
        || (|s'.log| == |s.log| + 1 && s.log <= s'.log
            && var e := s'.log[|s.log|];
               Auto(e) ==> e.owner in s.injections && !s.injections[e.owner].stage.Done?))
  }

  lemma WriteLogs(s: State, id: Id, result: WriteResult)
    requires id in s.injections && (s.injections[id].stage.Pasting? || s.injections[id].stage.WritingReturn?)
    ensures LogsOne(s, NextWrite(s, id, result))
  {
  }

  lemma CaptureLogs(s: State, id: Id, screen: Screen, keysSent: bool, r: Reading)
    requires id in s.injections && CodexOnly(s.injections[id].stage)
    ensures LogsOne(s, NextCapture(s, id, screen, keysSent, r))
  {
  }

  lemma StepLogs(s: State, a: Action, r: Reading)
    ensures LogsOne(s, Next(s, a, r))
  {
    hide NextWrite, NextCapture;
    match a
    case Write(id, result) =>
      if id in s.injections && (s.injections[id].stage.Pasting? || s.injections[id].stage.WritingReturn?) {
        WriteLogs(s, id, result);
      }
    case Captured(id, screen, keysSent) =>
      if id in s.injections && CodexOnly(s.injections[id].stage) {
        CaptureLogs(s, id, screen, keysSent, r);
      }
    case _ =>
  }

  lemma StepKeepsGrouped(s: State, a: Action, r: Reading)
    requires Inv(s, r) && Grouped(s.log)
    ensures Grouped(Next(s, a, r).log)
  {
    hide Next, InjectionOk, EventOk;
    var log' := Next(s, a, r).log;
    StepLogs(s, a, r);
    if log' != s.log {
      forall p, q, x | 0 <= p < q < x < |log'| && Auto(log'[p]) && Auto(log'[q]) && Auto(log'[x])
        ensures log'[p].owner == log'[x].owner ==> log'[q].owner == log'[p].owner
      {
        assert log'[p] == s.log[p] && log'[q] == s.log[q];
        assert PairOk(s, p, q);
        if x < |s.log| {
          assert log'[x] == s.log[x];
        }
      }
    }
  }

  lemma {:induction false} RunKeepsGrouped(s: State, actions: seq<Action>, r: Reading)
    requires Inv(s, r) && Grouped(s.log)
    ensures Grouped(Run(s, actions, r).log)
    decreases |actions|
  {
    hide Inv, Next, Grouped;
    if actions != [] {
      StepKeepsInv(s, actions[0], r);
      StepKeepsGrouped(s, actions[0], r);
      RunKeepsGrouped(Next(s, actions[0], r), actions[1..], r);
    }
  }

  /** Two injections never interleave on the PTY. */
  lemma NeverInterleave(codex: bool, actions: seq<Action>, r: Reading)
    ensures Grouped(Run(Start(codex), actions, r).log)
  {
    StartInv(codex, r);
    RunKeepsGrouped(Start(codex), actions, r);
  }

  /**
    What the PTY accepted of an injection is a prefix of what it means to type; a call that
    succeeds has typed all of it. No injection sends more than two Enters.
   */
  lemma AcceptedIsPrefix(codex: bool, actions: seq<Action>, r: Reading, id: Id)
    ensures var s := Run(Start(codex), actions, r);
            id in s.injections ==>
              var inj := s.injections[id];
              && BytesOf(s.log, id) <= Script(inj)
              && EnterCount(s.log, id) <= MAX_ENTERS
              && (inj.stage.Done? && inj.stage.ok ==>
                    && inj.payload <= BytesOf(s.log, id)
                    && (inj.submit && !codex ==> BytesOf(s.log, id) == inj.payload + [CR]))
  {
    StartInv(codex, r);
    RunKeepsInv(Start(codex), actions, r);
    var s := Run(Start(codex), actions, r);
    RunKeepsKind(Start(codex), actions, r);
    if id in s.injections {
      InvOf(s, id, r);
      assert Script(s.injections[id])[..|Script(s.injections[id])|] == Script(s.injections[id]);
    }
  }

  lemma {:induction false} RunKeepsKind(s: State, actions: seq<Action>, r: Reading)
    ensures Run(s, actions, r).codex == s.codex
    decreases |actions|
  {
    hide Next;
    if actions != [] {
      StepLogs(s, actions[0], r);
      RunKeepsKind(Next(s, actions[0], r), actions[1..], r);
    }
  }

  /**
    The Codex latch over whole runs: once an injection may have written anything, another one writes
    only after the first was seen consumed: an empty composer, after an Enter that was sent on a
    capture of the same epoch showing exactly the draft that renders its paste.
   */
  lemma LatchHolds(actions: seq<Action>, r: Reading, p: nat, q: nat) returns (enter: nat, consumed: nat)
    requires var log := Run(Start(true), actions, r).log;
             p < q < |log| && Auto(log[p]) && Auto(log[q]) && log[p].owner != log[q].owner
    ensures var s := Run(Start(true), actions, r);
            var id := s.log[p].owner;
            && p < consumed < q && enter < consumed
            && s.log[consumed].Consumed? && s.log[consumed].owner == id && r.empty(s.log[consumed].shown)
            && s.log[enter].Enter? && s.log[enter].owner == id && s.log[enter].epoch == s.log[consumed].epoch
            && s.log[enter].shown == s.log[enter].owned
            && id in s.injections && r.matches(s.log[enter].owned, s.injections[id].payload)
  {
    StartInv(true, r);
    RunKeepsInv(Start(true), actions, r);
    RunKeepsKind(Start(true), actions, r);
    var s := Run(Start(true), actions, r);
    var id := s.log[p].owner;
    assert PairOk(s, p, q);
    consumed :| p < consumed < q && s.log[consumed].Consumed? && s.log[consumed].owner == id;
    assert EventOk(s, consumed, r);
    enter :| 0 <= enter < consumed && s.log[enter].Enter? && s.log[enter].owner == id;
    assert EventOk(s, enter, r);
  }

  // ---------- one `_write_input` call ----------

  /** What the session looks like after the yield that follows a temporary refusal. */
  datatype Yield = Yield(bumped: bool, closed: bool, replaced: bool)

  /** One turn of the write loop; when there is no further turn, the deadline has passed. */
  datatype Turn = Turn(result: WriteResult, after: Yield)

  datatype Outcome = Complete | Incomplete | Interrupted

  /** How many bytes of a text of `length` the PTY takes before the loop must stop. */
  function Taken(turns: seq<Turn>, length: nat): (n: nat)
    ensures n <= length
  {
    if length == 0 || turns == [] then 0
    else match turns[0].result
      case Broken => 0
      case Accepted(n) => if n == 0 || n > length then 0 else n + Taken(turns[1..], length - n)
      case TryAgain =>
        var after := turns[0].after;
        if after.bumped || after.closed || after.replaced then 0 else Taken(turns[1..], length)
  }

  /** `n` bytes accepted at one epoch. */
  function Stamped(n: nat, epoch: nat): (stamps: seq<nat>)
    ensures |stamps| == n && forall i | 0 <= i < n :: stamps[i] == epoch
  {
    seq(n, _ => epoch)
  }

  lemma StampedMore(m: nat, n: nat, epoch: nat)
    ensures Stamped(m, epoch) + Stamped(n, epoch) == Stamped(m + n, epoch)
  {
  }

  class Terminal {
    var inputEpoch: nat
    var closed: bool
    /** The PTY behind `master_fd`: a new number for each replacement. */
    var fd: nat
    /** Everything the current `fd` has accepted, and the epoch at which it accepted each byte. */
    var accepted: Bytes
    ghost var stamps: seq<nat>

    ghost predicate Valid()
      reads this
    {
      |stamps| == |accepted|
    }

    constructor ()
      ensures Valid() && !closed && accepted == []
    {
      inputEpoch, closed, fd, accepted, stamps := 0, false, 0, [], [];
    }

    /**
      `_write_input`: under any pattern of partial writes and refusals the PTY receives a prefix of
      the data, all of it exactly on success, every byte while the epoch is still the one at the
      start. After the epoch moved or the session closed nothing follows, and a terminal that
      replaced the first one receives nothing at all.
     */
    method WriteInput(data: Bytes, turns: seq<Turn>) returns (outcome: Outcome, ghost taken: nat)
      requires Valid()
      modifies this
      ensures Valid()
      ensures taken == if old(closed) then 0 else Taken(turns, |data|)
      ensures fd == old(fd) ==>
                accepted == old(accepted) + data[..taken] && stamps == old(stamps) + Stamped(taken, old(inputEpoch))
      ensures fd != old(fd) ==> accepted == []
      ensures outcome.Complete? <==> !old(closed) && taken == |data|
      ensures outcome.Interrupted? ==> inputEpoch != old(inputEpoch)
      ensures inputEpoch >= old(inputEpoch) && (data == [] ==> inputEpoch == old(inputEpoch) && fd == old(fd))
    {
      hide Stamped;
      taken := 0;
      assert Stamped(0, inputEpoch) == [];
      if closed {
        assert data[..0] == [];
        return Incomplete, 0;
      }
      var mine, epoch := fd, inputEpoch;
      var pending := data;
      var i := 0;
      while pending != []
        invariant 0 <= i <= |turns| && Valid()
        invariant taken + |pending| == |data| && pending == data[taken..]
        invariant fd == mine ==> accepted == old(accepted) + data[..taken]
        invariant fd == mine ==> stamps == old(stamps) + Stamped(taken, epoch)
        invariant fd != mine ==> accepted == []
        invariant fd >= mine && inputEpoch >= epoch == old(inputEpoch) && mine == old(fd)
        invariant data == [] ==> inputEpoch == epoch && fd == mine
        invariant Taken(turns, |data|)
               == taken + if epoch == inputEpoch && !closed && fd == mine then Taken(turns[i..], |pending|) else 0
        decreases |turns| - i
      {
        if epoch != inputEpoch {
          return Interrupted, taken;
        }
        if closed || fd != mine {
          return Incomplete, taken;
        }
        if i == |turns| {
          return Incomplete, taken;
        }
        var turn := turns[i];
        assert turns[i..][0] == turn && turns[i..][1..] == turns[i + 1..];
        i := i + 1;
        match turn.result {
          case Broken =>
            return Incomplete, taken;
          case Accepted(written) =>
            if written == 0 || written > |pending| {
              return Incomplete, taken;
            }
            assert data[..taken] + pending[..written] == data[..taken + written];
            accepted := accepted + pending[..written];
            StampedMore(taken, written, epoch);
            stamps := stamps + Stamped(written, inputEpoch);
            pending := pending[written..];
            taken := taken + written;
          case TryAgain =>
            if turn.after.bumped {
              inputEpoch := inputEpoch + 1;
            }
            closed := turn.after.closed;
            if turn.after.replaced {
              fd, accepted, stamps := fd + 1, [], [];
            }
        }
      }
      assert data[..taken] == data;
      return Complete, taken;
    }

    /**
      `write`: a non-empty administrator input supersedes every injection before its first byte; an
      empty one supersedes nothing.
     */
    method Administer(data: Bytes, turns: seq<Turn>) returns (outcome: Outcome, ghost taken: nat)
      requires Valid()
      modifies this
      ensures Valid()
      ensures if data == [] then inputEpoch == old(inputEpoch) else inputEpoch > old(inputEpoch)
      ensures taken == if old(closed) then 0 else Taken(turns, |data|)
      ensures fd == old(fd) ==>
                && accepted == old(accepted) + data[..taken]
                && stamps == old(stamps) + Stamped(taken, old(inputEpoch) + if data == [] then 0 else 1)
      ensures fd != old(fd) ==> accepted == []
      ensures outcome.Complete? <==> !old(closed) && taken == |data|
    {
      if data != [] {
        inputEpoch := inputEpoch + 1;
      }
      outcome, taken := WriteInput(data, turns);
    }
  }
}
