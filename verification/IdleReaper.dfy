/**
  Reaping a terminal session that nobody watches (pty_session.py:1138-1141, 1512-1518, 1541-1606,
  1770-1775, 2056-2206).

  A reaper task sleeps, wakes and may close the session; attaching, detaching, typing without a
  viewer, other closers and the exit of the process may fall between any two of its segments.
  Cancelling a task is a request: it is delivered when the task next resumes.
 */
module IdleReaper {
  import opened Wrappers
  import Activity

  /** Times are in milliseconds; `activity_idle_seconds` is rounded to a tenth of a second. */
  const TENTH := 100
  const SECOND := 1000

  /** Where a reaper task stands; it closes in two parts, before and after `_closed` is set. */
  datatype Stage = Sleeping | ClosingPre | ClosingPost | Done

  datatype Task = Task(stage: Stage, cancelled: bool)

  /** `_idle_timer` and every reaper task ever created. */
  datatype Timers = Timers(timer: Option<nat>, tasks: seq<Task>) {
    predicate Valid() {
      timer.Some? ==> timer.value < |tasks|
    }
  }

  /** `_cancel_idle_timer`, called from reaper `current` or from elsewhere. */
  function CancelTimer(ts: Timers, current: Option<nat>): (ts': Timers)
    requires ts.Valid()
    ensures ts'.Valid() && |ts'.tasks| == |ts.tasks|
  {
    if ts.timer.None? || ts.tasks[ts.timer.value].stage.Done? then ts
    else if ts.timer == current then ts.(timer := None)
    else Timers(None, ts.tasks[ts.timer.value := ts.tasks[ts.timer.value].(cancelled := true)])
  }

  function Schedule(ts: Timers): (ts': Timers)
    requires ts.Valid()
    ensures ts'.Valid()
  {
    var freed := CancelTimer(ts, None);
    Timers(Some(|freed.tasks|), freed.tasks + [Task(Sleeping, false)])
  }

  function SetStage(ts: Timers, t: nat, stage: Stage): (ts': Timers)
    requires ts.Valid() && t < |ts.tasks|
    ensures ts'.Valid()
  {
    ts.(tasks := ts.tasks[t := ts.tasks[t].(stage := stage)])
  }

  /** Whose session the registry holds for the agent. */
  datatype Owner = Mine | Other

  /** What a reaper saw when it began a close. */
  datatype Reap = Reap(task: nat, clients: set<nat>, marks: Activity.Marks, now: nat)

  /** `timeout` is IDLE_TIMEOUT_SEC, a whole number of seconds from the environment. */
  datatype State = State(timeout: int, clients: set<nat>, timers: Timers, alive: bool, closed: bool, exiting: bool,
                         foreign: nat, foreignClosed: nat, registered: Option<Owner>, screen: Activity.World,
                         reaps: seq<Reap>)

  datatype Action =
    | Screen(event: Activity.Action)                          // output, or a step of the screen sampler
    | Attach(client: nat)
    | Detach(client: nat)                                     // also an eviction
    | HeadlessWrite
    | Wake(task: nat, now: nat, reported: Option<nat>)
    | DeliverCancel(task: nat)
    | Mark(task: nat)                                         // a reaper sets `_closed`
    | Finish(task: nat)                                       // a reaper ends its close
    | ProcessDies
    | Exit                                                    // the exit handler drops the clients and closes
    | ForeignBegin | ForeignAbort | ForeignMark | ForeignFinish
    | Replace                                                 // a new session is registered for the agent

  /**
    Possible answers of `activity_idle_seconds`: the exact time rounded to a tenth of a second. Which
    way a time half between two tenths goes is left open; the clock does not run backwards.
   */
  predicate Reports(marks: Activity.Marks, now: nat, reported: Option<nat>) {
    var since := Activity.IdleSince(marks);
    if since.None? then reported.None?
    else
      since.value <= now &&
      var exact := now - since.value;
      && reported.Some? && reported.value % TENTH == 0
      && 2 * (reported.value - exact) <= TENTH && 2 * (exact - reported.value) <= TENTH
  }

  /** The session at the end of `start()`. */
  ghost function Started(seconds: int, now: nat, truth: string, clients: set<nat>): (s: State)
    ensures Inv(s)
  {
    WholeSeconds(seconds);
    var timers := Timers(None, []);
    var armed := if clients == {} then Schedule(timers) else timers;
    State(seconds * SECOND, clients, armed, true, false, false, 0, 0, Some(Mine),
          Activity.Started(now, truth), [])
  }

  function Close(s: State, current: Option<nat>): State
    requires s.timers.Valid()
  {
    s.(closed := true, timers := CancelTimer(s.timers, current))
  }

  /** The end of `close`: clients are dropped and the agent's registry entry is popped. */
  function Deregister(s: State): State {
    s.(clients := {}, registered := None)
  }

  predicate IsAt(s: State, t: nat, stage: Stage) {
    t < |s.timers.tasks| && s.timers.tasks[t].stage == stage
  }

  ghost function NextTask(s: State, a: Action): State
    requires s.timers.Valid() && (a.Wake? || a.DeliverCancel? || a.Mark? || a.Finish?)
  {
    match a
    case Wake(t, now, reported) =>
      if !IsAt(s, t, Sleeping) || s.timers.tasks[t].cancelled || !Reports(s.screen.marks, now, reported) then s
      else if s.clients != {} || !s.alive || s.closed then s.(timers := SetStage(s.timers, t, Done))
      else if reported.Some? && reported.value < s.timeout then s
      else s.(timers := SetStage(s.timers, t, ClosingPre), reaps := s.reaps + [Reap(t, s.clients, s.screen.marks, now)])
    case DeliverCancel(t) =>
      if t < |s.timers.tasks| && s.timers.tasks[t].cancelled && !s.timers.tasks[t].stage.Done?
      then s.(timers := SetStage(s.timers, t, Done)) else s
    case Mark(t) =>
      if IsAt(s, t, ClosingPre) && !s.timers.tasks[t].cancelled
      then Close(s.(timers := SetStage(s.timers, t, ClosingPost)), Some(t)) else s
    case Finish(t) =>
      if IsAt(s, t, ClosingPost) && !s.timers.tasks[t].cancelled
      then Deregister(s.(timers := SetStage(s.timers, t, Done))) else s
  }

  ghost function Next(s: State, a: Action): State
    requires s.timers.Valid()
  {
    match a
    case Screen(event) => s.(screen := Activity.Next(s.screen, event))
    case Attach(c) => s.(clients := s.clients + {c}, timers := CancelTimer(s.timers, None))
    case Detach(c) =>
      if c !in s.clients then s
      else s.(clients := s.clients - {c}, timers := if s.clients == {c} then Schedule(s.timers) else s.timers)
    case HeadlessWrite => if s.clients == {} && !s.closed then s.(timers := Schedule(s.timers)) else s
    case ProcessDies => s.(alive := false)
    case Exit => s.(exiting := true, clients := {}, foreign := if s.closed then s.foreign else s.foreign + 1)
    case ForeignBegin => if s.closed then s else s.(foreign := s.foreign + 1)
    case ForeignAbort => if s.foreign > 0 then s.(foreign := s.foreign - 1) else s
    case ForeignMark =>
      if s.foreign > 0 then Close(s.(foreign := s.foreign - 1, foreignClosed := s.foreignClosed + 1), None) else s
    case ForeignFinish => if s.foreignClosed > 0 then Deregister(s.(foreignClosed := s.foreignClosed - 1)) else s
    case Replace => if s.closed then s.(registered := Some(Other)) else s
    case _ => NextTask(s, a)
  }

  // ---------- what every step keeps ----------

  /** Only the timer's task runs uncancelled, except a reaper that has set `_closed`, which nothing cancels. */
  predicate TaskOk(ts: Timers, closed: bool, t: nat)
    requires t < |ts.tasks|
  {
    var task := ts.tasks[t];
    && (!task.stage.Done? && ts.timer != Some(t) ==> task.cancelled || task.stage.ClosingPost?)
    && (!task.stage.Done? && ts.timer == Some(t) ==> !task.cancelled && !task.stage.ClosingPost?)
    && (task.stage.ClosingPost? ==> closed && !task.cancelled)
  }

  predicate TimersOk(ts: Timers, closed: bool) {
    ts.Valid() && forall t | 0 <= t < |ts.tasks| :: TaskOk(ts, closed, t)
  }

  predicate Armed(ts: Timers)
    requires ts.Valid()
  {
    ts.timer.Some? && !ts.tasks[ts.timer.value].stage.Done?
  }

  predicate Closing(stage: Stage) {
    stage.ClosingPre? || stage.ClosingPost?
  }

  predicate ReapOk(reap: Reap, timeout: int) {
    reap.clients == {} &&
    var since := Activity.IdleSince(reap.marks);
    since.Some? ==> 2 * (since.value + timeout) <= 2 * reap.now + TENTH
  }

  /** Every reaper that is closing the session found it unwatched and idle when it began. */
  ghost predicate ReapsOk(ts: Timers, reaps: seq<Reap>, timeout: int) {
    && (forall i | 0 <= i < |reaps| :: ReapOk(reaps[i], timeout))
    && (forall t | 0 <= t < |ts.tasks| && Closing(ts.tasks[t].stage) :: Reaped(reaps, t))
  }

  ghost predicate Reaped(reaps: seq<Reap>, t: nat) {
    exists i :: 0 <= i < |reaps| && reaps[i].task == t
  }

  ghost predicate Inv(s: State) {
    && TimersOk(s.timers, s.closed) && ReapsOk(s.timers, s.reaps, s.timeout)
    && (s.alive && !s.closed && !s.exiting && s.clients == {} ==> Armed(s.timers))
    && (!s.closed && Armed(s.timers) ==> s.clients == {})
    && (s.foreignClosed > 0 ==> s.closed) && s.timeout % TENTH == 0
  }

  /** No task of `ts'` is closing that is not closing in `ts`. */
  predicate NoNewClose(ts: Timers, ts': Timers) {
    forall t | 0 <= t < |ts'.tasks| && Closing(ts'.tasks[t].stage) :: t < |ts.tasks| && Closing(ts.tasks[t].stage)
  }

  lemma SameReaps(ts: Timers, ts': Timers, reaps: seq<Reap>, timeout: int)
    requires ReapsOk(ts, reaps, timeout) && NoNewClose(ts, ts')
    ensures ReapsOk(ts', reaps, timeout)
  {
  }

  lemma CancelKeeps(ts: Timers, closed: bool, closed': bool)
    requires TimersOk(ts, closed) && (closed ==> closed')
    ensures TimersOk(CancelTimer(ts, None), closed') && NoNewClose(ts, CancelTimer(ts, None))
    ensures !Armed(CancelTimer(ts, None))
  {
    var ts' := CancelTimer(ts, None);
    forall t | 0 <= t < |ts'.tasks|
      ensures TaskOk(ts', closed', t)
    {
      assert TaskOk(ts, closed, t);
    }
  }

  lemma ScheduleKeeps(ts: Timers, closed: bool)
    requires TimersOk(ts, closed)
    ensures TimersOk(Schedule(ts), closed) && NoNewClose(ts, Schedule(ts)) && Armed(Schedule(ts))
  {
    var freed, ts' := CancelTimer(ts, None), Schedule(ts);
    CancelKeeps(ts, closed, closed);
    forall t | 0 <= t < |ts'.tasks|
      ensures TaskOk(ts', closed, t)
    {
      if t < |freed.tasks| {
        assert TaskOk(freed, closed, t) && TaskOk(ts, closed, t);
      }
    }
  }

  lemma StageKeeps(ts: Timers, closed: bool, t: nat, stage: Stage)
    requires TimersOk(ts, closed) && t < |ts.tasks| && !stage.ClosingPost? && !ts.tasks[t].stage.Done?
    requires stage.Done? || (ts.tasks[t].stage.Sleeping? && stage.ClosingPre?)
    ensures TimersOk(SetStage(ts, t, stage), closed)
  {
    var ts' := SetStage(ts, t, stage);
    forall u | 0 <= u < |ts'.tasks|
      ensures TaskOk(ts', closed, u)
    {
      assert TaskOk(ts, closed, u);
    }
  }

  /** A reaper's own close leaves its task alone: from here on nothing can cancel it. */
  lemma MarkKeeps(ts: Timers, closed: bool, t: nat)
    requires TimersOk(ts, closed) && t < |ts.tasks| && ts.tasks[t].stage.ClosingPre? && !ts.tasks[t].cancelled
    ensures var ts' := CancelTimer(SetStage(ts, t, ClosingPost), Some(t));
            TimersOk(ts', true) && NoNewClose(ts, ts') && ts'.tasks[t] == Task(ClosingPost, false)
  {
    assert TaskOk(ts, closed, t);
    var ts' := CancelTimer(SetStage(ts, t, ClosingPost), Some(t));
    forall u | 0 <= u < |ts'.tasks|
      ensures TaskOk(ts', true, u)
    {
      assert TaskOk(ts, closed, u);
    }
  }

  lemma WholeSeconds(seconds: int)
    ensures seconds * SECOND % TENTH == 0
  {
    assert seconds * SECOND == TENTH * (10 * seconds);
  }

  lemma WakeKeepsInv(s: State, t: nat, now: nat, reported: Option<nat>)
    requires Inv(s)
    ensures Inv(NextTask(s, Wake(t, now, reported)))
  {
    hide TimersOk, Activity.IdleSince;
    ValidOf(s);
    var s' := NextTask(s, Wake(t, now, reported));
    if s'.timers != s.timers {
      StageKeeps(s.timers, s.closed, t, s'.timers.tasks[t].stage);
      if |s'.reaps| > |s.reaps| {
        NewReap(s.timers, s.reaps, t, s'.reaps[|s.reaps|], s.timeout);
      } else {
        SameReaps(s.timers, s'.timers, s.reaps, s.timeout);
      }
    }
  }

  lemma ValidOf(s: State)
    requires Inv(s)
    ensures s.timers.Valid()
  {
  }

  lemma NewReap(ts: Timers, reaps: seq<Reap>, t: nat, reap: Reap, timeout: int)
    requires ts.Valid() && ReapsOk(ts, reaps, timeout) && t < |ts.tasks| && reap.task == t && ReapOk(reap, timeout)
    ensures ReapsOk(SetStage(ts, t, ClosingPre), reaps + [reap], timeout)
  {
    hide ReapOk;
    var reaps' := reaps + [reap];
    assert reaps'[|reaps|].task == t;
    forall u | 0 <= u < |ts.tasks| && u != t && Closing(ts.tasks[u].stage)
      ensures Reaped(reaps', u)
    {
      var i :| 0 <= i < |reaps| && reaps[i].task == u;
      assert reaps'[i].task == u;
    }
  }

  lemma TaskStepKeepsInv(s: State, a: Action)
    requires Inv(s) && (a.DeliverCancel? || a.Mark? || a.Finish?)
    ensures Inv(NextTask(s, a))
  {
    hide ReapsOk;
    var s', t := NextTask(s, a), a.task;
    if s' != s {
      assert TaskOk(s.timers, s.closed, t);
      if a.Mark? {
        MarkKeeps(s.timers, s.closed, t);
      } else {
        StageKeeps(s.timers, s.closed, t, Done);
      }
      SameReaps(s.timers, s'.timers, s.reaps, s.timeout);
    }
  }

  lemma OtherStepKeepsInv(s: State, a: Action)
    requires Inv(s) && !(a.Wake? || a.DeliverCancel? || a.Mark? || a.Finish?)
    ensures Inv(Next(s, a))
  {
    hide TimersOk, ReapsOk, CancelTimer, Schedule, Activity.Next;
    ValidOf(s);
    var s' := Next(s, a);
    CancelKeeps(s.timers, s.closed, s'.closed);
    ScheduleKeeps(s.timers, s.closed);
    SameReaps(s.timers, CancelTimer(s.timers, None), s.reaps, s.timeout);
    SameReaps(s.timers, Schedule(s.timers), s.reaps, s.timeout);
  }

  lemma StepKeepsInv(s: State, a: Action)
    requires Inv(s)
    ensures Inv(Next(s, a))
  {
    hide Inv, NextTask;
    ValidOf(s);
    if a.Wake? {
      WakeKeepsInv(s, a.task, a.now, a.reported);
    } else if a.DeliverCancel? || a.Mark? || a.Finish? {
      TaskStepKeepsInv(s, a);
    } else {
      OtherStepKeepsInv(s, a);
    }
  }

  ghost function Run(s: State, actions: seq<Action>): (s': State)
    requires Inv(s)
    ensures Inv(s')
    decreases |actions|
  {
    if actions == [] then s
    else
      StepKeepsInv(s, actions[0]);
      Run(Next(s, actions[0]), actions[1..])
  }

  // ---------- what follows for every run ----------

  /** Neither the exit handler nor any closer has begun. */
  predicate Undisturbed(s: State) {
    && s.alive && !s.closed && !s.exiting && s.foreign == 0
    && forall t | 0 <= t < |s.timers.tasks| :: !s.timers.tasks[t].stage.ClosingPre?
  }

  /** A live session that nobody watches is always going to be looked at: its timer is armed. */
  lemma UnwatchedIsArmed(seconds: int, now: nat, truth: string, clients: set<nat>, actions: seq<Action>)
    ensures var s := Run(Started(seconds, now, truth, clients), actions);
            Undisturbed(s) && s.clients == {} ==>
              && s.timers.timer.Some? && s.timers.timer.value < |s.timers.tasks|
              && s.timers.tasks[s.timers.timer.value] == Task(Sleeping, false)
  {
    var s := Run(Started(seconds, now, truth, clients), actions);
    if Undisturbed(s) && s.clients == {} {
      assert TaskOk(s.timers, s.closed, s.timers.timer.value);
    }
  }

  /**
    A reaper closes a session only if it began with no viewer, and the last counted change of the
    screen, and the last output unless the latest sample was a no-op, were the limit ago, up to
    the rounding of half a tenth of a second.
   */
  lemma ReapedIsIdle(seconds: int, now: nat, truth: string, clients: set<nat>, actions: seq<Action>, t: nat)
    returns (reap: Reap)
    requires now > 0
    requires var s := Run(Started(seconds, now, truth, clients), actions);
             t < |s.timers.tasks| && Closing(s.timers.tasks[t].stage)
    ensures var s := Run(Started(seconds, now, truth, clients), actions);
            && reap in s.reaps && reap.task == t && reap.clients == {}
            && 2 * (reap.marks.lastChange + s.timeout) <= 2 * reap.now + 100
            && (reap.marks.sampled <= reap.marks.lastChange ==>
                  2 * (reap.marks.lastOutput + s.timeout) <= 2 * reap.now + 100)
  {
    var s0 := Started(seconds, now, truth, clients);
    var s := Run(s0, actions);
    var i :| 0 <= i < |s.reaps| && s.reaps[i].task == t;
    reap := s.reaps[i];
    Activity.StartedInv(now, truth);
    assert MarksSound(s0);
    RunKeepsMarks(s0, actions);
    assert ReapOk(reap, s.timeout);
  }

  /**
    The promise at the moment it counts, however many awaits lie behind the look at the clients: a reaper
    about to set `_closed` does so with no client attached, since attaching would have cancelled it.
   */
  lemma ClosesUnwatched(seconds: int, now: nat, truth: string, clients: set<nat>, actions: seq<Action>, t: nat)
    ensures var s := Run(Started(seconds, now, truth, clients), actions);
            !s.closed && Next(s, Mark(t)).closed ==> s.clients == {} && Next(s, Mark(t)).clients == {}
  {
    var s := Run(Started(seconds, now, truth, clients), actions);
    if IsAt(s, t, ClosingPre) {
      assert TaskOk(s.timers, s.closed, t);
    }
  }

  /** The marks of the session, and those every reaper saw, are ones the screen sampler can produce. */
  ghost predicate MarksSound(s: State) {
    && Activity.Inv(s.screen)
    && forall i | 0 <= i < |s.reaps| :: Activity.Sound(s.reaps[i].marks)
  }

  lemma StepKeepsMarks(s: State, a: Action)
    requires s.timers.Valid() && MarksSound(s)
    ensures MarksSound(Next(s, a))
  {
    hide Activity.SameButCursor, Activity.Counts, CancelTimer, Schedule, Reports;
    if a.Screen? {
      Activity.StepKeepsInv(s.screen, a.event);
    }
  }

  lemma {:induction false} RunKeepsMarks(s: State, actions: seq<Action>)
    requires Inv(s) && MarksSound(s)
    ensures MarksSound(Run(s, actions))
    decreases |actions|
  {
    hide Inv, Next, MarksSound;
    if actions != [] {
      ValidOf(s);
      StepKeepsInv(s, actions[0]);
      StepKeepsMarks(s, actions[0]);
      RunKeepsMarks(Next(s, actions[0]), actions[1..]);
    }
  }

  /**
    The rounding is the only slack: a waking reaper begins to close exactly when the idle time is less
    than half a tenth of a second short of the limit; only at the half itself may it go either way.
   */
  lemma WakesReapWhenIdle(s: State, t: nat, now: nat, reported: Option<nat>)
    requires Inv(s) && IsAt(s, t, Sleeping) && !s.timers.tasks[t].cancelled && Reports(s.screen.marks, now, reported)
    requires s.clients == {} && s.alive && !s.closed && Activity.IdleSince(s.screen.marks).Some?
    ensures var since := Activity.IdleSince(s.screen.marks).value;
            var begins := IsAt(NextTask(s, Wake(t, now, reported)), t, ClosingPre);
            && (2 * (since + s.timeout) < 2 * now + 100 ==> begins)
            && (begins ==> 2 * (since + s.timeout) <= 2 * now + 100)
  {
    hide Activity.IdleSince, TimersOk, ReapsOk;
    ValidOf(s);
  }

  /** A wake ends the reaper of a session that is watched, dead or closed, and lets it sleep on below the limit. */
  lemma WakeIsDecided(s: State, t: nat, now: nat, reported: Option<nat>)
    requires Inv(s) && IsAt(s, t, Sleeping) && !s.timers.tasks[t].cancelled && Reports(s.screen.marks, now, reported)
    ensures var s' := Next(s, Wake(t, now, reported));
            if s.clients != {} || !s.alive || s.closed then
              s' == s.(timers := Timers(s.timers.timer, s.timers.tasks[t := Task(Done, false)]))
            else if reported.Some? && reported.value < s.timeout then s' == s
            else IsAt(s', t, ClosingPre) && s' == s.(timers := s'.timers, reaps := s'.reaps)
  {
    hide TimersOk, ReapsOk, Reports;
    ValidOf(s);
  }

  /** Typing without a viewer starts the countdown again: a new reaper sleeps, and every earlier one is cancelled. */
  lemma WriteRestarts(s: State)
    requires Inv(s) && s.clients == {} && !s.closed
    ensures var s' := Next(s, HeadlessWrite);
            var n := |s.timers.tasks|;
            && s'.timers.timer == Some(n) && IsAt(s', n, Sleeping) && !s'.timers.tasks[n].cancelled
            && forall t | 0 <= t < n :: s'.timers.tasks[t].stage.Done? || s'.timers.tasks[t].cancelled
  {
    hide ReapsOk;
    ScheduleKeeps(s.timers, s.closed);
    var s' := Next(s, HeadlessWrite);
    forall t | 0 <= t < |s.timers.tasks|
      ensures s'.timers.tasks[t].stage.Done? || s'.timers.tasks[t].cancelled
    {
      assert TaskOk(s'.timers, s'.closed, t);
    }
  }

  /** A viewer who attaches cancels every reaper that has not set `_closed`. */
  lemma AttachSpares(s: State, c: nat, t: nat)
    requires Inv(s) && t < |s.timers.tasks|
    ensures var s' := Next(s, Attach(c));
            && t < |s'.timers.tasks| && c in s'.clients
            && (s'.timers.tasks[t].stage.Done? || s'.timers.tasks[t].stage.ClosingPost? || s'.timers.tasks[t].cancelled)
  {
    hide ReapsOk;
    CancelKeeps(s.timers, s.closed, s.closed);
    assert TaskOk(Next(s, Attach(c)).timers, s.closed, t);
  }

  /** A cancelled reaper does nothing any more but end. */
  lemma CancelledIsInert(s: State, t: nat, now: nat, reported: Option<nat>)
    requires Inv(s) && t < |s.timers.tasks| && s.timers.tasks[t].cancelled && !s.timers.tasks[t].stage.Done?
    ensures Next(s, Wake(t, now, reported)) == Next(s, Mark(t)) == Next(s, Finish(t)) == s
    ensures IsAt(Next(s, DeliverCancel(t)), t, Done)
  {
    hide TimersOk, ReapsOk, Reports;
    ValidOf(s);
  }

  /** An idle session that nobody comes back to is closed, its registry entry gone. */
  lemma IdleIsClosed(s: State, t: nat, now: nat, reported: Option<nat>)
    requires Inv(s) && IsAt(s, t, Sleeping) && !s.timers.tasks[t].cancelled && Reports(s.screen.marks, now, reported)
    requires s.clients == {} && s.alive && !s.closed && (reported.None? || reported.value >= s.timeout)
    ensures var s' := Next(Next(Next(s, Wake(t, now, reported)), Mark(t)), Finish(t));
            s'.closed && s'.registered == None && s'.clients == {} && IsAt(s', t, Done) && s'.timers.timer.None?
  {
    hide ReapsOk, Reports;
    WakeIsDecided(s, t, now, reported);
    StepKeepsInv(s, Wake(t, now, reported));
    var closing := Next(s, Wake(t, now, reported));
    assert TaskOk(closing.timers, closing.closed, t);
  }

  lemma NoneRuns(ts: Timers)
    requires TimersOk(ts, true) && !Armed(ts)
    ensures forall t | 0 <= t < |ts.tasks| ::
              ts.tasks[t].stage.Done? || ts.tasks[t].cancelled || ts.tasks[t].stage.ClosingPost?
  {
    forall t | 0 <= t < |ts.tasks|
      ensures ts.tasks[t].stage.Done? || ts.tasks[t].cancelled || ts.tasks[t].stage.ClosingPost?
    {
      assert TaskOk(ts, true, t);
    }
  }

  /** So may it be by anybody else, once. */
  lemma ForeignCloses(s: State)
    requires Inv(s) && !s.closed
    ensures var s' := Next(Next(Next(s, ForeignBegin), ForeignMark), ForeignFinish);
            && s'.closed && s'.registered == None && s'.clients == {} && s'.foreign == s.foreign
            && Next(s', ForeignBegin) == s'
            && forall t | 0 <= t < |s'.timers.tasks| ::
                 s'.timers.tasks[t].stage.Done? || s'.timers.tasks[t].cancelled || s'.timers.tasks[t].stage.ClosingPost?
  {
    hide ReapsOk;
    ValidOf(s);
    CancelKeeps(s.timers, false, true);
    NoneRuns(CancelTimer(s.timers, None));
  }

  /** So it may be early, by anything less than 50 ms: such an idle time is reported as the limit. */
  lemma MayReapEarly(seconds: int, now: nat, truth: string, early: nat)
    requires now > 0 && seconds > 0 && early < 50
    ensures var s := Started(seconds, now, truth, {});
            var wake := now + seconds * 1000 - early;
            && Activity.IdleSince(s.screen.marks) == Some(now) && Reports(s.screen.marks, wake, Some(s.timeout))
            && IsAt(NextTask(s, Wake(0, wake, Some(s.timeout))), 0, ClosingPre)
  {
  }

  /**
    A reaper that has set `_closed` is cancelled by nothing, its own timer handling included: each
    step leaves it running or is the one that takes the session out of the registry.
   */
  lemma ClosedReaperGoesOn(s: State, a: Action, t: nat)
    requires Inv(s) && IsAt(s, t, ClosingPost)
    ensures var s' := Next(s, a);
            if a == Finish(t) then IsAt(s', t, Done) && s'.registered != Some(Mine)
            else IsAt(s', t, ClosingPost) && !s'.timers.tasks[t].cancelled && s'.closed
  {
    hide ReapsOk, Reports, CancelTimer, Schedule, Activity.Next;
    assert TaskOk(s.timers, s.closed, t);
    ClosedReaperUntouched(s.timers, s.closed, t);
    if a.Mark? {
      MarkElsewhere(s.timers, s.closed, t, a.task);
    }
  }

  lemma ClosedReaperUntouched(ts: Timers, closed: bool, t: nat)
    requires ts.Valid() && t < |ts.tasks| && TaskOk(ts, closed, t) && ts.tasks[t].stage.ClosingPost?
    ensures CancelTimer(ts, None).tasks[t] == ts.tasks[t]
    ensures t < |Schedule(ts).tasks| && Schedule(ts).tasks[t] == ts.tasks[t]
  {
  }

  lemma MarkElsewhere(ts: Timers, closed: bool, t: nat, u: nat)
    requires ts.Valid() && t < |ts.tasks| && TaskOk(ts, closed, t) && ts.tasks[t].stage.ClosingPost?
    ensures u < |ts.tasks| && u != t ==> CancelTimer(SetStage(ts, u, ClosingPost), Some(u)).tasks[t] == ts.tasks[t]
  {
  }

  lemma {:induction false} ClosedReaperDeregisters(s: State, actions: seq<Action>, t: nat)
    requires Inv(s) && IsAt(s, t, ClosingPost)
    ensures var s' := Run(s, actions);
            if Finish(t) in actions then s'.registered != Some(Mine)
            else IsAt(s', t, ClosingPost) && !s'.timers.tasks[t].cancelled && s'.closed
    decreases |actions|
  {
    hide Inv, Next;
    ClosedReaperRuns(s, t);
    if actions != [] {
      ValidOf(s);
      StepKeepsInv(s, actions[0]);
      ClosedReaperGoesOn(s, actions[0], t);
      if actions[0] == Finish(t) {
        StaysDeregistered(Next(s, actions[0]), actions[1..]);
      } else {
        ClosedReaperDeregisters(Next(s, actions[0]), actions[1..], t);
      }
    }
  }

  lemma ClosedReaperRuns(s: State, t: nat)
    requires Inv(s) && IsAt(s, t, ClosingPost)
    ensures !s.timers.tasks[t].cancelled && s.closed
  {
    assert TaskOk(s.timers, s.closed, t);
  }

  lemma {:induction false} StaysDeregistered(s: State, actions: seq<Action>)
    requires Inv(s) && s.registered != Some(Mine)
    ensures Run(s, actions).registered != Some(Mine)
    decreases |actions|
  {
    hide Inv, CancelTimer, Schedule, SetStage, Reports, Activity.Next;
    if actions != [] {
      ValidOf(s);
      StepKeepsInv(s, actions[0]);
      StaysDeregistered(Next(s, actions[0]), actions[1..]);
    }
  }

  /** The entry of another session is there before, and not after. */
  predicate Dropped(before: State, after: State) {
    before.registered == Some(Other) && after.registered != Some(Other)
  }

  /**
    `close` pops the registry by agent: whatever happened since the reaper set `_closed`, its end leaves
    no entry, so another session's entry is lost if and only if one is registered by then.
   */
  lemma ReplacementIsDropped(s: State, actions: seq<Action>, t: nat)
    requires Inv(s) && IsAt(s, t, ClosingPost) && Finish(t) !in actions
    ensures var before := Run(s, actions);
            var after := Next(before, Finish(t));
            && IsAt(after, t, Done) && after.registered == None
            && (Dropped(before, after) <==> before.registered == Some(Other))
  {
    hide Inv, Run, Reports;
    ClosedReaperDeregisters(s, actions, t);
    ValidOf(Run(s, actions));
  }

  /** So a session started while an older one is still closing is lost: it runs on, but nobody can find it. */
  lemma ReplacementIsLost(s: State, t: nat)
    requires Inv(s) && IsAt(s, t, ClosingPost)
    ensures var replaced := Next(s, Replace);
            replaced.registered == Some(Other) && Next(replaced, Finish(t)).registered == None
  {
    hide TimersOk, ReapsOk;
    ClosedReaperRuns(s, t);
  }

  /** When the process exits all viewers are dropped, and a close begins unless one was there. */
  lemma ExitDropsAll(s: State)
    requires Inv(s)
    ensures var s' := Next(s, Exit);
            s'.clients == {} && s'.exiting && s'.foreign == s.foreign + if s.closed then 0 else 1
  {
    hide TimersOk, ReapsOk;
  }

  /** One is registered by then if a replacement came after every other close of the old session had ended. */
  lemma {:induction false} ReplacementIsThere(s: State, actions: seq<Action>)
    requires Inv(s) && s.registered == Some(Other) && forall a | a in actions :: !a.Finish? && !a.ForeignFinish?
    ensures Run(s, actions).registered == Some(Other)
    decreases |actions|
  {
    hide Inv, CancelTimer, Schedule, SetStage, Reports, Activity.Next;
    if actions != [] {
      ValidOf(s);
      StepKeepsInv(s, actions[0]);
      ReplacementIsThere(Next(s, actions[0]), actions[1..]);
    }
  }

  // ---------- the session's timer ----------

  class IdleTimer {
    var idleTimer: Option<nat>
    var tasks: seq<Task>

    function View(): Timers
      reads this
    {
      Timers(idleTimer, tasks)
    }

    constructor ()
      ensures View() == Timers(None, [])
    {
      idleTimer, tasks := None, [];
    }

    /** `_cancel_idle_timer`; a reaper that calls it through its own close is not cancelled. */
    method Cancel(current: Option<nat>)
      requires View().Valid()
      modifies this
      ensures View() == CancelTimer(old(View()), current)
    {
      if idleTimer.Some? && !tasks[idleTimer.value].stage.Done? {
        var timer := idleTimer.value;
        idleTimer := None;
        if Some(timer) != current {
          tasks := tasks[timer := tasks[timer].(cancelled := true)];
        }
      }
    }

    /** `_schedule_idle_timer`. */
    method Start()
      requires View().Valid()
      modifies this
      ensures View() == Schedule(old(View()))
    {
      Cancel(None);
      idleTimer := Some(|tasks|);
      tasks := tasks + [Task(Sleeping, false)];
    }
  }
}
