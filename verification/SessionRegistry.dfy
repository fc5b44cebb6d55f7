/**
  Browser sessions and pending imports of many scopes (mcp-auth-browser/src/server.py:105-140,
  347-355, 403-529).

  Every segment between two awaits is one step; requests and the reaper interleave, and a request
  may be cancelled at any await. What Playwright does is an oracle: it succeeds, fails or blocks.
 */
module SessionRegistry {
  import opened Wrappers

  const MAX_SESSIONS := 6
  const MAX_PENDING := 100
  const IMPORT_SECONDS := 600
  const SESSION_SECONDS := 8 * 3600
  const IDLE_SECONDS := 30 * 60

  type TaskId = nat
  type Scope = nat
  /** `uuid4` values: session and pending-import ids, never drawn twice. */
  type Id = nat

  datatype Phase = Login | Importing | Ready | Reauth

  /** A `Session` object; `lock` is its holder, `closing` is set when its `close` begins. */
  datatype Session = Session(controller: nat, phase: Phase, created: int, used: int, lock: Option<TaskId>,
                             closing: bool)

  datatype Pending = Pending(id: Id, controller: nat, expires: int, consumed: bool)

  datatype Op = Status | Disconnect | Takeover | Activate | Frame | Control | Browse

  /** A command on an existing session; `Browse` stands for every agent operation. */
  datatype Request = Request(op: Op, controller: Option<nat>, session: Id)

  datatype Task =
    | PrepareWait(scope: Scope, controller: nat)                    // before the creation lock
    | ImportWait(scope: Scope, user: Option<nat>, id: Id)
    | StartWait(scope: Scope, controller: nat)
    | Opening(scope: Scope, sid: Id, pending: Option<Id>, asker: nat) // launching; holds the creation lock
    | Aborting(scope: Scope, sid: Id, pending: Option<Id>)          // closing the half-opened session; holds it too
    | OpWait(scope: Scope, sid: Id, request: Request)               // before the session's lock
    | OpHeld(scope: Scope, sid: Id, request: Request)               // at work, holds the session's lock
    | OpClosing(sid: Id)                                            // closing a session it took out; holds its lock
    | ReapWait(scope: Scope, sid: Id)
    | Ended

  /** A session made from an import, and the user who asked for it. */
  datatype Commit = Commit(pending: Id, sid: Id, asker: nat)

  /**
    `commits` lists the sessions made from imports, `dropped` the pending imports that were cancelled
    or found expired, `prepared` which user prepared each import.
   */
  datatype State = State(sessions: map<Scope, Id>, objects: map<Id, Session>, pendings: map<Scope, Pending>,
                         creation: Option<TaskId>, tasks: map<TaskId, Task>, now: int, nextId: Id,
                         commits: seq<Commit>, dropped: set<Id>, prepared: map<Id, nat>)

  function Start(now: int): State {
    State(map[], map[], map[], None, map[], now, 0, [], {}, map[])
  }

  datatype Action =
    | Clock(now: int)
    | ReapTick                                                       // `expire_imports` in the reaper
    | NewPrepare(t: TaskId, scope: Scope, controller: nat)
    | NewImport(t: TaskId, scope: Scope, user: Option<nat>, id: Id)
    | NewStart(t: TaskId, scope: Scope, controller: nat)
    | NewOp(t: TaskId, scope: Scope, request: Request)
    | NewReap(t: TaskId, scope: Scope)
    | Resume(t: TaskId, ok: bool)                                    // the awaited lock, launch, close or page is there
    | Share(t: TaskId)                                               // `activate` hands the session to the agent
    | Interrupt(t: TaskId)                                           // cancellation at the await the task is at
    | LoginPage(sid: Id)                                             // the site wants a new login

  predicate Expired(o: Session, now: int) {
    now - o.created > SESSION_SECONDS || now - o.used > IDLE_SECONDS
  }

  predicate Registered(sessions: map<Scope, Id>, scope: Scope, sid: Id) {
    scope in sessions && sessions[scope] == sid
  }

  predicate IsPending(pendings: map<Scope, Pending>, scope: Scope, id: Id) {
    scope in pendings && pendings[scope].id == id
  }

  function SetTask(s: State, t: TaskId, task: Task): State {
    s.(tasks := s.tasks[t := task])
  }

  function SetObject(s: State, sid: Id, o: Session): State {
    s.(objects := s.objects[sid := o])
  }

  /** `expire_imports`. */
  function Expire(s: State): State {
    s.(pendings := map scope | scope in s.pendings && s.pendings[scope].expires > s.now :: s.pendings[scope],
       dropped := s.dropped
                  + set scope | scope in s.pendings && s.pendings[scope].expires <= s.now :: s.pendings[scope].id)
  }

  /** The locked part of `prepare_import`. */
  function Prepare(s: State, t: TaskId): State
    requires t in s.tasks && s.tasks[t].PrepareWait?
  {
    var (scope, controller) := (s.tasks[t].scope, s.tasks[t].controller);
    var done := SetTask(s, t, Ended);
    if scope in s.sessions || scope in s.pendings || |s.pendings| >= MAX_PENDING then done
    else
      done.(pendings := s.pendings[scope := Pending(s.nextId, controller, s.now + IMPORT_SECONDS, false)],
            nextId := s.nextId + 1, prepared := s.prepared[s.nextId := controller])
  }

  /** A new session object starts to open, under the creation lock. */
  function Open(s: State, t: TaskId, scope: Scope, user: nat, phase: Phase, pending: Option<Id>): State {
    var o := Session(user, phase, s.now, s.now, None, false);
    SetTask(SetObject(s, s.nextId, o), t, Opening(scope, s.nextId, pending, user))
      .(creation := Some(t), nextId := s.nextId + 1)
  }

  /** `import` from the creation lock to the launch; `valid` says whether its url and storage are. */
  function Import(s: State, t: TaskId, valid: bool): State
    requires t in s.tasks && s.tasks[t].ImportWait?
  {
    var task := s.tasks[t];
    if task.scope !in s.pendings then SetTask(s, t, Ended)
    else
      var pending := s.pendings[task.scope];
      if pending.expires <= s.now || pending.consumed || task.user != Some(pending.controller) || task.id != pending.id
         || !valid || task.scope in s.sessions || |s.sessions| >= MAX_SESSIONS then
        SetTask(s, t, Ended)
      else
        Open(s.(pendings := s.pendings[task.scope := pending.(consumed := true)]),
             t, task.scope, task.user.value, Importing, Some(task.id))
  }

  function Begin(s: State, t: TaskId): State
    requires t in s.tasks && s.tasks[t].StartWait?
  {
    var task := s.tasks[t];
    if task.scope in s.sessions || |s.sessions| >= MAX_SESSIONS then SetTask(s, t, Ended)
    else Open(s, t, task.scope, task.controller, Login, None)
  }

  /** `except BaseException: await session.close()`. */
  function Abort(s: State, t: TaskId): State
    requires t in s.tasks && s.tasks[t].Opening?
  {
    var task := s.tasks[t];
    var aborting := SetTask(s, t, Aborting(task.scope, task.sid, task.pending));
    if task.sid in s.objects then SetObject(aborting, task.sid, s.objects[task.sid].(closing := true)) else aborting
  }

  /** `finally`, and the release of the creation lock. */
  function Release(s: State, t: TaskId, scope: Scope, pending: Option<Id>): State {
    SetTask(s, t, Ended).(creation := None,
      pendings := if pending.Some? && IsPending(s.pendings, scope, pending.value)
                  then s.pendings - {scope} else s.pendings)
  }

  /** The launch succeeded: the last checks and the registration. */
  function Commits(s: State, t: TaskId): State
    requires t in s.tasks && s.tasks[t].Opening? && s.tasks[t].sid in s.objects
  {
    var task := s.tasks[t];
    var registered := s.(sessions := s.sessions[task.scope := task.sid]);
    if task.pending.None? then Release(registered, t, task.scope, None)
    else if !IsPending(s.pendings, task.scope, task.pending.value) || s.pendings[task.scope].expires <= s.now then
      Abort(s, t)
    else
      Release(SetObject(registered, task.sid, s.objects[task.sid].(phase := Ready))
                .(commits := s.commits + [Commit(task.pending.value, task.sid, task.asker)]),
              t, task.scope, task.pending)
  }

  /** Taking a session out of the registry, before its `close`. */
  function TakeOut(s: State, t: TaskId, scope: Scope, sid: Id): State
    requires sid in s.objects
  {
    SetTask(SetObject(s, sid, s.objects[sid].(lock := Some(t), closing := true)), t, OpClosing(sid))
      .(sessions := s.sessions - {scope})
  }

  /** `require_human` and `require_agent`, and what else the phase must be. */
  predicate Allowed(o: Session, sid: Id, request: Request) {
    match request.op
    case Status => false
    case Disconnect => request.controller.Some? && request.session == sid
    case Browse => o.phase.Ready?
    case _ =>
      && request.controller == Some(o.controller) && request.session == sid
      && (request.op.Frame? || request.op.Control? ==> o.phase.Login?)
  }

  /** `session.used = time.time()`. */
  predicate Touches(o: Session, sid: Id, request: Request) {
    if request.op.Browse? then o.phase.Ready?
    else !request.op.Status? && !request.op.Disconnect? && !request.op.Frame?
         && request.controller == Some(o.controller) && request.session == sid
  }

  /** A command with the session's lock in hand; `pageOk` says whether the session still has its page. */
  function Operate(s: State, t: TaskId, pageOk: bool): State
    requires t in s.tasks && s.tasks[t].OpWait? && s.tasks[t].sid in s.objects
  {
    var task := s.tasks[t];
    var o := s.objects[task.sid];
    if !Registered(s.sessions, task.scope, task.sid) then SetTask(s, t, Ended)
    else if Expired(o, s.now) then TakeOut(s, t, task.scope, task.sid)
    else if task.request.op.Disconnect? && Allowed(o, task.sid, task.request) then TakeOut(s, t, task.scope, task.sid)
    else
      var touched := if Touches(o, task.sid, task.request) then o.(used := s.now) else o;
      if !Allowed(o, task.sid, task.request) || !pageOk then SetTask(SetObject(s, task.sid, touched), t, Ended)
      else if task.request.op.Takeover? then SetTask(SetObject(s, task.sid, touched.(phase := Login)), t, Ended)
      else SetTask(SetObject(s, task.sid, touched.(lock := Some(t))), t, OpHeld(task.scope, task.sid, task.request))
  }

  function Reap(s: State, t: TaskId): State
    requires t in s.tasks && s.tasks[t].ReapWait? && s.tasks[t].sid in s.objects
  {
    var task := s.tasks[t];
    if Expired(s.objects[task.sid], s.now) && Registered(s.sessions, task.scope, task.sid) then
      TakeOut(s, t, task.scope, task.sid)
    else SetTask(s, t, Ended)
  }

  /** The command returns or raises, and its `async with` lets go of the session's lock. */
  function Unlock(s: State, t: TaskId, sid: Id): State {
    var ended := SetTask(s, t, Ended);
    if sid in s.objects then SetObject(ended, sid, s.objects[sid].(lock := None)) else ended
  }

  predicate LockFree(s: State, sid: Id) {
    sid in s.objects && s.objects[sid].lock.None?
  }

  function Resumed(s: State, t: TaskId, ok: bool): State
    requires t in s.tasks
  {
    match s.tasks[t]
    case PrepareWait(_, _) => if s.creation.Some? then s else Prepare(s, t)
    case ImportWait(_, _, _) => if s.creation.Some? then s else Import(s, t, ok)
    case StartWait(_, _) => if s.creation.Some? then s else Begin(s, t)
    case Opening(_, sid, _, _) => if ok && sid in s.objects then Commits(s, t) else Abort(s, t)
    case Aborting(scope, _, pending) => Release(s, t, scope, pending)
    case OpWait(_, sid, _) => if LockFree(s, sid) then Operate(s, t, ok) else s
    case OpHeld(_, sid, _) => Unlock(s, t, sid)
    case OpClosing(sid) => Unlock(s, t, sid)
    case ReapWait(_, sid) => if LockFree(s, sid) then Reap(s, t) else s
    case Ended => s
  }

  function Interrupted(s: State, t: TaskId): State
    requires t in s.tasks
  {
    match s.tasks[t]
    case Opening(_, _, _, _) => Abort(s, t)
    case Aborting(scope, _, pending) => Release(s, t, scope, pending)
    case OpHeld(_, sid, _) => Unlock(s, t, sid)
    case OpClosing(sid) => Unlock(s, t, sid)
    case Ended => s
    case _ => SetTask(s, t, Ended)
  }

  /** A command on a scope: a pending import answers it or refuses, otherwise the session's lock is awaited. */
  function Ask(s: State, t: TaskId, scope: Scope, request: Request): State {
    if scope in s.pendings then
      if request.op.Disconnect? && request.controller.Some? && request.session == s.pendings[scope].id then
        s.(pendings := s.pendings - {scope}, dropped := s.dropped + {request.session})
      else s
    else if scope in s.sessions then SetTask(s, t, OpWait(scope, s.sessions[scope], request))
    else s
  }

  function Next(s: State, a: Action): State {
    match a
    case Clock(now) => s.(now := now)
    case ReapTick => Expire(s)
    case NewPrepare(t, scope, controller) =>
      if t in s.tasks then s else SetTask(Expire(s), t, PrepareWait(scope, controller))
    case NewImport(t, scope, user, id) => if t in s.tasks then s else SetTask(Expire(s), t, ImportWait(scope, user, id))
    case NewStart(t, scope, controller) =>
      if t in s.tasks then s
      else if scope in Expire(s).pendings then Expire(s)
      else SetTask(Expire(s), t, StartWait(scope, controller))
    case NewOp(t, scope, request) => if t in s.tasks then s else Ask(Expire(s), t, scope, request)
    case NewReap(t, scope) =>
      if t in s.tasks || scope !in s.sessions then s else SetTask(s, t, ReapWait(scope, s.sessions[scope]))
    case Resume(t, ok) => if t in s.tasks then Resumed(s, t, ok) else s
    case Share(t) =>
      if t in s.tasks && s.tasks[t].OpHeld? && s.tasks[t].request.op.Activate? && s.tasks[t].sid in s.objects then
        SetObject(s, s.tasks[t].sid, s.objects[s.tasks[t].sid].(phase := Ready))
      else s
    case Interrupt(t) => if t in s.tasks then Interrupted(s, t) else s
    case LoginPage(sid) => if sid in s.objects then SetObject(s, sid, s.objects[sid].(phase := Reauth)) else s
  }

  // ---------- what every step keeps ----------

  ghost predicate InRegistry(sessions: map<Scope, Id>, sid: Id) {
    exists scope :: Registered(sessions, scope, sid)
  }

  /** The import of this id has made no session. */
  ghost predicate Uncommitted(commits: seq<Commit>, id: Id) {
    forall i | 0 <= i < |commits| :: commits[i].pending != id
  }

  /**
    Who may be at work on a session: an agent on one released to it, and otherwise the user who
    opened it, on the login screen for looking and typing. Either may meet a new login meanwhile.
   */
  predicate Entitled(o: Session, sid: Id, request: Request) {
    if request.op.Browse? then o.phase.Ready? || o.phase.Reauth?
    else
      && request.controller == Some(o.controller) && request.session == sid
      && (request.op.Activate? || ((request.op.Frame? || request.op.Control?) && (o.phase.Login? || o.phase.Reauth?)))
  }

  predicate Creating(task: Task) {
    task.Opening? || task.Aborting?
  }

  ghost predicate TaskOk(s: State, t: TaskId, task: Task) {
    match task
    case Opening(scope, sid, pending, _) =>
      && s.creation == Some(t) && sid in s.objects && !s.objects[sid].closing
      && !InRegistry(s.sessions, sid) && scope !in s.sessions && |s.sessions| < MAX_SESSIONS
      && (if pending.Some? then pending.value < s.nextId && Uncommitted(s.commits, pending.value)
          else !s.objects[sid].phase.Importing?)
    case Aborting(scope, sid, pending) =>
      && s.creation == Some(t) && sid in s.objects && s.objects[sid].closing
    case OpWait(_, sid, _) => sid in s.objects
    case ReapWait(_, sid) => sid in s.objects
    case OpHeld(scope, sid, request) =>
      && sid in s.objects && s.objects[sid].lock == Some(t) && Registered(s.sessions, scope, sid)
      && Entitled(s.objects[sid], sid, request)
    case OpClosing(sid) => sid in s.objects && s.objects[sid].lock == Some(t) && s.objects[sid].closing
    case _ => true
  }

  ghost predicate TasksOk(s: State) {
    forall t | t in s.tasks :: TaskOk(s, t, s.tasks[t])
  }

  /** A session is registered, or its close has begun, or it is just being opened. */
  ghost predicate ObjectOk(s: State, sid: Id, o: Session) {
    && sid < s.nextId
    && (o.closing ==> !InRegistry(s.sessions, sid))
    && (o.closing || InRegistry(s.sessions, sid) || BeingOpened(s.creation, s.tasks, sid))
  }

  ghost predicate ObjectsOk(s: State) {
    forall sid | sid in s.objects :: ObjectOk(s, sid, s.objects[sid])
  }

  predicate BeingOpened(creation: Option<TaskId>, tasks: map<TaskId, Task>, sid: Id) {
    creation.Some? && creation.value in tasks && tasks[creation.value].Opening? && tasks[creation.value].sid == sid
  }

  predicate SessionsOk(sessions: map<Scope, Id>, objects: map<Id, Session>) {
    && |sessions| <= MAX_SESSIONS
    && (forall scope | scope in sessions :: sessions[scope] in objects && !objects[sessions[scope]].phase.Importing?)
    && (forall scope, other | scope in sessions && other in sessions && sessions[scope] == sessions[other] ::
          scope == other)
  }

  ghost predicate PendingsOk(pendings: map<Scope, Pending>, commits: seq<Commit>, dropped: set<Id>, nextId: Id) {
    && |pendings| <= MAX_PENDING
    && (forall scope | scope in pendings ::
          pendings[scope].id < nextId && Uncommitted(commits, pendings[scope].id) && pendings[scope].id !in dropped)
    && (forall scope, other | scope in pendings && other in pendings && pendings[scope].id == pendings[other].id ::
          scope == other)
  }

  /** A consumed reservation belongs to the import that is opening or closing a session for it. */
  predicate Reserved(creation: Option<TaskId>, tasks: map<TaskId, Task>, scope: Scope, id: Id) {
    && creation.Some? && creation.value in tasks && Creating(tasks[creation.value])
    && tasks[creation.value].scope == scope && tasks[creation.value].pending == Some(id)
  }

  predicate ReservationsOk(pendings: map<Scope, Pending>, creation: Option<TaskId>, tasks: map<TaskId, Task>) {
    && (creation.Some? ==> creation.value in tasks && Creating(tasks[creation.value]))
    && (forall scope | scope in pendings && pendings[scope].consumed ::
          Reserved(creation, tasks, scope, pendings[scope].id))
  }

  ghost predicate HistoryOk(commits: seq<Commit>, dropped: set<Id>, nextId: Id) {
    && (forall i | 0 <= i < |commits| :: commits[i].pending < nextId && commits[i].pending !in dropped)
    && (forall i, j | 0 <= i < j < |commits| :: commits[i].pending != commits[j].pending)
    && (forall id | id in dropped :: id < nextId)
  }

  ghost predicate Inv(s: State) {
    && TasksOk(s) && ObjectsOk(s) && SessionsOk(s.sessions, s.objects)
    && PendingsOk(s.pendings, s.commits, s.dropped, s.nextId) && ReservationsOk(s.pendings, s.creation, s.tasks)
    && HistoryOk(s.commits, s.dropped, s.nextId)
  }

  lemma StartInv(now: int)
    ensures Inv(Start(now))
  {
  }

  /** A task that holds no lock. */
  predicate Waits(task: Task, objects: map<Id, Session>) {
    match task
    case OpWait(_, sid, _) => sid in objects
    case ReapWait(_, sid) => sid in objects
    case PrepareWait(_, _) => true
    case ImportWait(_, _, _) => true
    case StartWait(_, _) => true
    case Ended => true
    case _ => false
  }

  lemma WaitKeepsInv(s: State, t: TaskId, task: Task)
    requires Inv(s) && Waits(task, s.objects) && (t in s.tasks ==> !Creating(s.tasks[t]))
    ensures Inv(SetTask(s, t, task))
  {
  }

  /** Dropping pending imports. */
  lemma {:induction false} FewerPendings(a: map<Scope, Pending>, b: map<Scope, Pending>)
    requires b.Keys <= a.Keys
    ensures |b| <= |a|
  {
    assert |b| == |b.Keys| && |a| == |a.Keys|;
    FewerElements(b.Keys, a.Keys);
  }

  lemma {:induction false} FewerElements<T>(a: set<T>, b: set<T>)
    requires a <= b
    ensures |a| <= |b|
    decreases |a|
  {
    if a != {} {
      var x :| x in a;
      FewerElements(a - {x}, b - {x});
    }
  }

  lemma DropKeepsInv(s: State, pendings: map<Scope, Pending>, dropped: set<Id>)
    requires Inv(s) && pendings.Keys <= s.pendings.Keys
             && forall scope | scope in pendings :: pendings[scope] == s.pendings[scope]
    requires forall id | id in dropped ::
               id in s.dropped || exists scope :: scope in s.pendings - pendings.Keys && s.pendings[scope].id == id
    ensures Inv(s.(pendings := pendings, dropped := dropped))
  {
    hide SessionsOk, InRegistry, ObjectOk;
    var s' := s.(pendings := pendings, dropped := dropped);
    FewerPendings(s.pendings, pendings);
    forall u | u in s'.tasks
      ensures TaskOk(s', u, s'.tasks[u])
    {
      assert TaskOk(s, u, s.tasks[u]);
    }
    assert ObjectsOk(s') by {
      forall sid | sid in s'.objects
        ensures ObjectOk(s', sid, s'.objects[sid])
      {
        assert ObjectOk(s, sid, s.objects[sid]);
        ObjectFrame(s, s', sid, s.objects[sid]);
      }
    }
    DropKeepsHistory(s, pendings, dropped);
  }

  lemma ObjectFrame(s: State, s': State, sid: Id, o: Session)
    requires s'.sessions == s.sessions && s'.creation == s.creation && s'.tasks == s.tasks && s'.nextId >= s.nextId
    ensures ObjectOk(s, sid, o) ==> ObjectOk(s', sid, o)
  {
  }

  lemma DropKeepsHistory(s: State, pendings: map<Scope, Pending>, dropped: set<Id>)
    requires PendingsOk(s.pendings, s.commits, s.dropped, s.nextId) && HistoryOk(s.commits, s.dropped, s.nextId)
    requires pendings.Keys <= s.pendings.Keys
             && forall scope | scope in pendings :: pendings[scope] == s.pendings[scope]
    requires forall id | id in dropped ::
               id in s.dropped || exists scope :: scope in s.pendings - pendings.Keys && s.pendings[scope].id == id
    ensures PendingsOk(pendings, s.commits, dropped, s.nextId) && HistoryOk(s.commits, dropped, s.nextId)
  {
    FewerPendings(s.pendings, pendings);
    forall i | 0 <= i < |s.commits|
      ensures s.commits[i].pending !in dropped
    {
      assert s.commits[i].pending !in s.dropped;
    }
  }

  lemma ExpireKeepsInv(s: State)
    requires Inv(s)
    ensures Inv(Expire(s))
  {
    hide Inv;
    var s' := Expire(s);
    DropKeepsInv(s, s'.pendings, s'.dropped);
  }

  lemma RegistryPlus(sessions: map<Scope, Id>, scope: Scope, sid: Id, x: Id)
    requires scope !in sessions
    ensures InRegistry(sessions[scope := sid], x) <==> x == sid || InRegistry(sessions, x)
  {
    var more := sessions[scope := sid];
    assert Registered(more, scope, sid);
    if InRegistry(sessions, x) {
      var at :| Registered(sessions, at, x);
      assert Registered(more, at, x);
    }
    if InRegistry(more, x) && x != sid {
      var at :| Registered(more, at, x);
      assert Registered(sessions, at, x);
    }
  }

  lemma RegistryMinus(sessions: map<Scope, Id>, scope: Scope, sid: Id, x: Id)
    requires Registered(sessions, scope, sid)
    requires forall a, b | a in sessions && b in sessions && sessions[a] == sessions[b] :: a == b
    ensures InRegistry(sessions - {scope}, x) <==> x != sid && InRegistry(sessions, x)
    ensures |sessions - {scope}| < |sessions|
  {
    var fewer := sessions - {scope};
    assert fewer.Keys == sessions.Keys - {scope};
    assert |fewer| == |fewer.Keys| && |sessions| == |sessions.Keys|;
    if InRegistry(sessions, x) && x != sid {
      var at :| Registered(sessions, at, x);
      assert Registered(fewer, at, x);
    }
    if InRegistry(fewer, x) {
      var at :| Registered(fewer, at, x);
      assert Registered(sessions, at, x);
    }
  }

  /** A session changes, but neither its lock nor whether it is closing. */
  lemma TouchKeepsInv(s: State, sid: Id, o: Session)
    requires Inv(s) && sid in s.objects && o.closing == s.objects[sid].closing && o.lock == s.objects[sid].lock
    requires o.controller == s.objects[sid].controller
    requires || o.phase == s.objects[sid].phase || o.phase.Reauth? || (o.phase.Login? && o.lock.None?)
             || (o.phase.Ready? && o.lock.Some? && o.lock.value in s.tasks && s.tasks[o.lock.value].OpHeld?
                 && s.tasks[o.lock.value].request.op.Activate?)
    ensures Inv(SetObject(s, sid, o))
  {
    hide PendingsOk, HistoryOk, InRegistry, Uncommitted, ReservationsOk;
    var s' := SetObject(s, sid, o);
    forall t | t in s'.tasks
      ensures TaskOk(s', t, s'.tasks[t])
    {
      assert TaskOk(s, t, s.tasks[t]);
    }
    forall x | x in s'.objects
      ensures ObjectOk(s', x, s'.objects[x])
    {
      assert ObjectOk(s, x, s.objects[x]);
      assert ObjectOk(s, sid, s.objects[sid]);
    }
  }

  /** A task is untouched by a change of a session that is not its own. */
  lemma TaskFrame(s: State, s': State, u: TaskId, task: Task)
    requires TaskOk(s, u, task)
    requires s'.creation == s.creation && s'.sessions == s.sessions && s'.commits == s.commits && s'.nextId >= s.nextId
    requires s.objects.Keys <= s'.objects.Keys
    requires (Creating(task) || task.OpHeld? || task.OpClosing?) && task.sid in s.objects ==>
               s'.objects[task.sid] == s.objects[task.sid]
    ensures TaskOk(s', u, task)
  {
    hide InRegistry, Uncommitted, Registered;
  }

  lemma LockHolder(s: State, u: TaskId, task: Task, sid: Id)
    requires TaskOk(s, u, task) && sid in s.objects && (task.OpHeld? || task.OpClosing?) && task.sid == sid
    ensures s.objects[sid].lock == Some(u)
  {
  }

  lemma NotOpening(s: State, u: TaskId, task: Task, scope: Scope, sid: Id)
    requires TaskOk(s, u, task) && Registered(s.sessions, scope, sid) && sid in s.objects
    requires ObjectOk(s, sid, s.objects[sid])
    ensures Creating(task) ==> task.sid != sid
  {
  }

  lemma ObjectTaskFrame(s: State, s': State, x: Id, o: Session, t: TaskId)
    requires ObjectOk(s, x, o) && s'.sessions == s.sessions && s'.creation == s.creation && s'.nextId >= s.nextId
    requires t in s.tasks && !s.tasks[t].Opening? && t in s'.tasks && s'.tasks == s.tasks[t := s'.tasks[t]]
    ensures ObjectOk(s', x, o)
  {
    hide InRegistry;
  }

  /** A command gets to work on a registered session whose lock is free. */
  lemma HoldKeepsInv(s: State, t: TaskId, scope: Scope, sid: Id, request: Request)
    requires Inv(s) && t in s.tasks && s.tasks[t].OpWait? && LockFree(s, sid) && Registered(s.sessions, scope, sid)
    requires Entitled(s.objects[sid], sid, request)
    ensures Inv(SetTask(SetObject(s, sid, s.objects[sid].(lock := Some(t))), t, OpHeld(scope, sid, request)))
  {
    hide PendingsOk, HistoryOk, InRegistry, Uncommitted, TaskOk, ObjectOk, Registered;
    var o := s.objects[sid].(lock := Some(t));
    var s' := SetTask(SetObject(s, sid, o), t, OpHeld(scope, sid, request));
    assert ObjectOk(s, sid, s.objects[sid]);
    forall u | u in s'.tasks
      ensures TaskOk(s', u, s'.tasks[u])
    {
      if u != t {
        LockedElsewhere(s, u, sid);
        NotOpening(s, u, s.tasks[u], scope, sid);
        TaskFrame(s, s', u, s.tasks[u]);
      } else {
        Holds(s', t, scope, sid, request);
      }
    }
    SameClosing(s, sid, s.objects[sid], o);
    forall x | x in s'.objects
      ensures ObjectOk(s', x, s'.objects[x])
    {
      ObjectTaskFrame(s, s', x, s'.objects[x], t);
    }
  }

  lemma Holds(s: State, t: TaskId, scope: Scope, sid: Id, request: Request)
    requires sid in s.objects && s.objects[sid].lock == Some(t) && Registered(s.sessions, scope, sid)
    requires Entitled(s.objects[sid], sid, request)
    ensures TaskOk(s, t, OpHeld(scope, sid, request))
  {
  }

  lemma SameClosing(s: State, sid: Id, o: Session, o': Session)
    requires ObjectOk(s, sid, o) && o'.closing == o.closing
    ensures ObjectOk(s, sid, o')
  {
  }

  /** A free lock has no holder. */
  lemma LockedElsewhere(s: State, u: TaskId, sid: Id)
    requires u in s.tasks && TaskOk(s, u, s.tasks[u]) && LockFree(s, sid)
    ensures s.tasks[u].OpHeld? || s.tasks[u].OpClosing? ==> s.tasks[u].sid != sid
  {
  }

  lemma UnlockKeepsInv(s: State, t: TaskId, sid: Id)
    requires Inv(s) && t in s.tasks && ((s.tasks[t].OpHeld? && s.tasks[t].sid == sid) || s.tasks[t] == OpClosing(sid))
    ensures Inv(Unlock(s, t, sid))
  {
    hide PendingsOk, HistoryOk, InRegistry, Uncommitted, TaskOk, ObjectOk;
    var s' := Unlock(s, t, sid);
    assert TaskOk(s, t, s.tasks[t]);
    LockOf(s, t, sid);
    LockHolder(s, t, s.tasks[t], sid);
    var o := s.objects[sid];
    assert ObjectOk(s, sid, o);
    SameClosing(s, sid, o, o.(lock := None));
    forall u | u in s'.tasks
      ensures TaskOk(s', u, s'.tasks[u])
    {
      if u != t {
        UnlockKeepsTask(s, s', u, sid);
      } else {
        EndedOk(s', t);
      }
    }
    forall x | x in s'.objects
      ensures ObjectOk(s', x, s'.objects[x])
    {
      ObjectTaskFrame(s, s', x, s'.objects[x], t);
    }
  }

  lemma LockOf(s: State, t: TaskId, sid: Id)
    requires t in s.tasks && TaskOk(s, t, s.tasks[t])
    requires (s.tasks[t].OpHeld? && s.tasks[t].sid == sid) || s.tasks[t] == OpClosing(sid)
    ensures sid in s.objects
  {
  }

  lemma EndedOk(s: State, t: TaskId)
    ensures TaskOk(s, t, Ended)
  {
  }

  lemma UnlockKeepsTask(s: State, s': State, u: TaskId, sid: Id)
    requires u in s.tasks && TaskOk(s, u, s.tasks[u]) && sid in s.objects && s.objects[sid].lock.Some?
             && s.objects[sid].lock != Some(u)
    requires s' == s.(tasks := s'.tasks, objects := s.objects[sid := s.objects[sid].(lock := None)])
    ensures TaskOk(s', u, s.tasks[u])
  {
    hide InRegistry, Uncommitted;
  }

  lemma TakeOutKeepsTask(s: State, t: TaskId, scope: Scope, sid: Id, u: TaskId)
    requires u in s.tasks && u != t && TaskOk(s, u, s.tasks[u]) && LockFree(s, sid)
             && Registered(s.sessions, scope, sid)
    requires ObjectOk(s, sid, s.objects[sid]) && SessionsOk(s.sessions, s.objects)
    ensures TaskOk(TakeOut(s, t, scope, sid), u, s.tasks[u])
  {
    NotOpening(s, u, s.tasks[u], scope, sid);
    hide InRegistry, Uncommitted;
    if s.tasks[u].Opening? {
      RegistryMinus(s.sessions, scope, sid, s.tasks[u].sid);
    }
  }

  lemma TakeOutKeepsObject(s: State, t: TaskId, scope: Scope, sid: Id, x: Id)
    requires x in s.objects && ObjectOk(s, x, s.objects[x]) && LockFree(s, sid) && Registered(s.sessions, scope, sid)
    requires SessionsOk(s.sessions, s.objects) && t in s.tasks && !Creating(s.tasks[t])
    ensures ObjectOk(TakeOut(s, t, scope, sid), x, TakeOut(s, t, scope, sid).objects[x])
  {
    hide InRegistry;
    RegistryMinus(s.sessions, scope, sid, x);
  }

  lemma TakeOutKeepsSessions(s: State, t: TaskId, scope: Scope, sid: Id)
    requires LockFree(s, sid) && Registered(s.sessions, scope, sid) && SessionsOk(s.sessions, s.objects)
    ensures SessionsOk(TakeOut(s, t, scope, sid).sessions, TakeOut(s, t, scope, sid).objects)
  {
  }

  lemma TakeOutKeepsInv(s: State, t: TaskId, scope: Scope, sid: Id)
    requires Inv(s) && t in s.tasks && (s.tasks[t].OpWait? || s.tasks[t].ReapWait?)
    requires LockFree(s, sid) && Registered(s.sessions, scope, sid)
    ensures Inv(TakeOut(s, t, scope, sid))
  {
    hide PendingsOk, HistoryOk, InRegistry, Uncommitted, ObjectOk, SessionsOk;
    var s' := TakeOut(s, t, scope, sid);
    TakeOutKeepsSessions(s, t, scope, sid);
    assert ObjectOk(s, sid, s.objects[sid]);
    assert TaskOk(s', t, s'.tasks[t]);
    hide TaskOk, Registered;
    forall u | u in s'.tasks
      ensures TaskOk(s', u, s'.tasks[u])
    {
      if u != t {
        TakeOutKeepsTask(s, t, scope, sid, u);
      }
    }
    forall x | x in s'.objects
      ensures ObjectOk(s', x, s'.objects[x])
    {
      TakeOutKeepsObject(s, t, scope, sid, x);
    }
  }

  lemma AbortKeepsInv(s: State, t: TaskId)
    requires Inv(s) && t in s.tasks && s.tasks[t].Opening?
    ensures Inv(Abort(s, t))
  {
    hide PendingsOk, HistoryOk, InRegistry, Uncommitted;
    var s' := Abort(s, t);
    assert TaskOk(s, t, s.tasks[t]);
    forall u | u in s'.tasks
      ensures TaskOk(s', u, s'.tasks[u])
    {
      if u != t {
        assert TaskOk(s, u, s.tasks[u]);
      }
    }
    forall x | x in s'.objects
      ensures ObjectOk(s', x, s'.objects[x])
    {
      assert ObjectOk(s, x, s.objects[x]);
    }
    assert SessionsOk(s'.sessions, s'.objects);
  }

  lemma ReleaseKeepsInv(s: State, t: TaskId)
    requires Inv(s) && t in s.tasks && s.tasks[t].Aborting?
    ensures Inv(Release(s, t, s.tasks[t].scope, s.tasks[t].pending))
  {
  }

  lemma PrepareKeepsInv(s: State, t: TaskId)
    requires Inv(s) && t in s.tasks && s.tasks[t].PrepareWait?
    ensures Inv(Prepare(s, t))
  {
    hide Inv;
    var (scope, ended) := (s.tasks[t].scope, SetTask(s, t, Ended));
    WaitKeepsInv(s, t, Ended);
    if Prepare(s, t) != ended {
      NewPendingKeepsInv(ended, scope, Pending(s.nextId, s.tasks[t].controller, s.now + IMPORT_SECONDS, false),
                         s.prepared[s.nextId := s.tasks[t].controller]);
    }
  }

  lemma NewPendingKeepsInv(s: State, scope: Scope, pending: Pending, prepared: map<Id, nat>)
    requires Inv(s) && scope !in s.pendings && |s.pendings| < MAX_PENDING && pending.id == s.nextId && !pending.consumed
    ensures Inv(s.(pendings := s.pendings[scope := pending], nextId := s.nextId + 1, prepared := prepared))
  {
  }

  lemma FreshSession(s: State)
    requires ObjectsOk(s) && SessionsOk(s.sessions, s.objects)
    ensures s.nextId !in s.objects && !InRegistry(s.sessions, s.nextId)
  {
  }

  lemma OpenKeepsInv(s: State, t: TaskId, scope: Scope, user: nat, phase: Phase, pending: Option<Id>)
    requires TasksOk(s) && ObjectsOk(s) && SessionsOk(s.sessions, s.objects)
    requires PendingsOk(s.pendings, s.commits, s.dropped, s.nextId) && HistoryOk(s.commits, s.dropped, s.nextId)
    requires forall other | other in s.pendings && s.pendings[other].consumed ::
               other == scope && pending == Some(s.pendings[other].id)
    requires t in s.tasks && !Creating(s.tasks[t]) && s.creation.None?
    requires scope !in s.sessions && |s.sessions| < MAX_SESSIONS
    requires if pending.Some? then pending.value < s.nextId && Uncommitted(s.commits, pending.value)
             else !phase.Importing?
    ensures Inv(Open(s, t, scope, user, phase, pending))
  {
    hide Uncommitted, InRegistry;
    var s', sid := Open(s, t, scope, user, phase, pending), s.nextId;
    FreshSession(s);
    NextIdKeeps(s);
    OpenKeepsSessions(s, s'.objects[sid]);
    hide PendingsOk, HistoryOk, SessionsOk;
    forall u | u in s'.tasks
      ensures TaskOk(s', u, s'.tasks[u])
    {
      if u != t {
        OpenKeepsTask(s, s', u);
      }
    }
    hide TaskOk;
    forall x | x in s'.objects
      ensures ObjectOk(s', x, s'.objects[x])
    {
      if x != sid {
        OpenKeepsObject(s, s', x);
      }
    }
  }

  lemma NextIdKeeps(s: State)
    requires PendingsOk(s.pendings, s.commits, s.dropped, s.nextId) && HistoryOk(s.commits, s.dropped, s.nextId)
    ensures PendingsOk(s.pendings, s.commits, s.dropped, s.nextId + 1) && HistoryOk(s.commits, s.dropped, s.nextId + 1)
  {
    hide Uncommitted;
  }

  lemma OpenKeepsSessions(s: State, o: Session)
    requires SessionsOk(s.sessions, s.objects) && s.nextId !in s.objects
    ensures SessionsOk(s.sessions, s.objects[s.nextId := o])
  {
  }

  lemma OpenKeepsTask(s: State, s': State, u: TaskId)
    requires u in s.tasks && TaskOk(s, u, s.tasks[u]) && s.creation.None?
    requires s'.sessions == s.sessions && s.objects.Keys <= s'.objects.Keys
    requires forall x | x in s.objects :: s'.objects[x] == s.objects[x]
    ensures TaskOk(s', u, s.tasks[u])
  {
    hide Uncommitted, InRegistry;
  }

  lemma OpenKeepsObject(s: State, s': State, x: Id)
    requires x in s.objects && ObjectOk(s, x, s.objects[x]) && s.creation.None? && s'.sessions == s.sessions
             && s'.nextId >= s.nextId
    ensures ObjectOk(s', x, s.objects[x])
  {
    hide InRegistry;
  }

  lemma BeginKeepsInv(s: State, t: TaskId)
    requires Inv(s) && t in s.tasks && s.tasks[t].StartWait? && s.creation.None?
    ensures Inv(Begin(s, t))
  {
    hide TasksOk, ObjectsOk, SessionsOk, PendingsOk, HistoryOk, Open, SetTask;
    if Begin(s, t) == SetTask(s, t, Ended) {
      WaitKeepsInv(s, t, Ended);
    } else {
      OpenKeepsInv(s, t, s.tasks[t].scope, s.tasks[t].controller, Login, None);
    }
  }

  lemma ImportKeepsInv(s: State, t: TaskId, valid: bool)
    requires Inv(s) && t in s.tasks && s.tasks[t].ImportWait? && s.creation.None?
    ensures Inv(Import(s, t, valid))
  {
    hide HistoryOk, Open, SetTask, Uncommitted, TaskOk, ObjectOk, SessionsOk;
    var task := s.tasks[t];
    if Import(s, t, valid) == SetTask(s, t, Ended) {
      WaitKeepsInv(s, t, Ended);
    } else {
      var pending := s.pendings[task.scope];
      var reserved := s.(pendings := s.pendings[task.scope := pending.(consumed := true)]);
      assert |reserved.pendings| == |s.pendings|;
      SameTasks(s, reserved);
      OpenKeepsInv(reserved, t, task.scope, task.user.value, Importing, Some(task.id));
    }
  }

  lemma SameTasks(s: State, s': State)
    requires TasksOk(s) && ObjectsOk(s) && s' == s.(pendings := s'.pendings)
    ensures TasksOk(s') && ObjectsOk(s')
  {
  }

  lemma CommitKeepsTask(s: State, s': State, t: TaskId, u: TaskId)
    requires t in s.tasks && u in s.tasks && u != t && TaskOk(s, t, s.tasks[t]) && TaskOk(s, u, s.tasks[u])
             && s.tasks[t].Opening?
    requires s'.sessions == s.sessions[s.tasks[t].scope := s.tasks[t].sid]
    requires s'.objects.Keys == s.objects.Keys
    requires forall x | x in s.objects && x != s.tasks[t].sid :: s'.objects[x] == s.objects[x]
    requires s'.objects[s.tasks[t].sid].closing == s.objects[s.tasks[t].sid].closing
    ensures TaskOk(s', u, s.tasks[u])
  {
  }

  lemma CommitKeepsObject(s: State, s': State, t: TaskId, x: Id)
    requires t in s.tasks && x in s.objects && TaskOk(s, t, s.tasks[t]) && s.tasks[t].Opening?
             && ObjectOk(s, x, s.objects[x])
    requires s'.sessions == s.sessions[s.tasks[t].scope := s.tasks[t].sid] && s'.nextId >= s.nextId
    requires x in s'.objects && s'.objects[x].closing == s.objects[x].closing
    ensures ObjectOk(s', x, s'.objects[x])
  {
    hide InRegistry, Uncommitted;
    RegistryPlus(s.sessions, s.tasks[t].scope, s.tasks[t].sid, x);
  }

  lemma CommitKeepsSessions(s: State, t: TaskId, phase: Phase)
    requires t in s.tasks && TaskOk(s, t, s.tasks[t]) && s.tasks[t].Opening? && SessionsOk(s.sessions, s.objects)
    requires !phase.Importing?
    ensures var sid := s.tasks[t].sid;
            SessionsOk(s.sessions[s.tasks[t].scope := sid], s.objects[sid := s.objects[sid].(phase := phase)])
  {
    hide Uncommitted;
    var scope, sid := s.tasks[t].scope, s.tasks[t].sid;
    assert |s.sessions[scope := sid]| == |s.sessions| + 1;
    forall other | other in s.sessions
      ensures s.sessions[other] != sid
    {
      assert Registered(s.sessions, other, s.sessions[other]);
    }
  }

  lemma CommitKeepsPendings(s: State, t: TaskId)
    requires Inv(s) && t in s.tasks && s.tasks[t].Opening? && s.tasks[t].pending.Some?
    requires IsPending(s.pendings, s.tasks[t].scope, s.tasks[t].pending.value)
    ensures var commits := s.commits + [Commit(s.tasks[t].pending.value, s.tasks[t].sid, s.tasks[t].asker)];
            && PendingsOk(s.pendings - {s.tasks[t].scope}, commits, s.dropped, s.nextId)
            && HistoryOk(commits, s.dropped, s.nextId)
  {
    hide InRegistry, SessionsOk, ObjectsOk;
    assert TaskOk(s, t, s.tasks[t]);
    FewerPendings(s.pendings, s.pendings - {s.tasks[t].scope});
  }

  lemma NoneConsumed(s: State, t: TaskId)
    requires Inv(s) && t in s.tasks && s.tasks[t].Opening?
    ensures s.creation == Some(t)
    ensures forall other | other in s.pendings && s.pendings[other].consumed ::
              other == s.tasks[t].scope && s.tasks[t].pending == Some(s.pendings[other].id)
  {
  }

  lemma RegisterKeepsInv(s: State, s': State, t: TaskId)
    requires Inv(s) && t in s.tasks && s.tasks[t].Opening? && s.tasks[t].sid in s.objects
    requires s'.sessions == s.sessions[s.tasks[t].scope := s.tasks[t].sid] && s'.tasks == s.tasks[t := Ended]
    requires s.tasks[t].sid in s'.objects && !s'.objects[s.tasks[t].sid].phase.Importing?
    requires var sid := s.tasks[t].sid;
             s'.objects == s.objects[sid := s.objects[sid].(phase := s'.objects[sid].phase)]
    requires s'.creation.None? && s'.nextId == s.nextId
    requires PendingsOk(s'.pendings, s'.commits, s'.dropped, s'.nextId) && HistoryOk(s'.commits, s'.dropped, s'.nextId)
    requires forall other | other in s'.pendings :: !s'.pendings[other].consumed
    ensures Inv(s')
  {
    hide TaskOk, ObjectOk, SessionsOk, PendingsOk, HistoryOk;
    assert TaskOk(s, t, s.tasks[t]);
    CommitKeepsSessions(s, t, s'.objects[s.tasks[t].sid].phase);
    forall u | u in s'.tasks
      ensures TaskOk(s', u, s'.tasks[u])
    {
      if u == t {
        EndedOk(s', t);
      } else {
        CommitKeepsTask(s, s', t, u);
      }
    }
    forall x | x in s'.objects
      ensures ObjectOk(s', x, s'.objects[x])
    {
      CommitKeepsObject(s, s', t, x);
    }
  }

  lemma CommitsKeepInv(s: State, t: TaskId)
    requires Inv(s) && t in s.tasks && s.tasks[t].Opening? && s.tasks[t].sid in s.objects
    ensures Inv(Commits(s, t))
  {
    hide Inv, Abort;
    var s' := Commits(s, t);
    var task := s.tasks[t];
    NoneConsumed(s, t);
    if task.pending.Some?
       && (!IsPending(s.pendings, task.scope, task.pending.value) || s.pendings[task.scope].expires <= s.now) {
      AbortKeepsInv(s, t);
    } else {
      if task.pending.Some? {
        CommitKeepsPendings(s, t);
      } else {
        StartsNotImporting(s, t);
      }
      RegisterKeepsInv(s, s', t);
    }
  }

  lemma StartsNotImporting(s: State, t: TaskId)
    requires Inv(s) && t in s.tasks && s.tasks[t].Opening? && s.tasks[t].pending.None?
    ensures s.tasks[t].sid in s.objects && !s.objects[s.tasks[t].sid].phase.Importing?
    ensures PendingsOk(s.pendings, s.commits, s.dropped, s.nextId) && HistoryOk(s.commits, s.dropped, s.nextId)
  {
  }

  lemma OperateKeepsInv(s: State, t: TaskId, pageOk: bool)
    requires Inv(s) && t in s.tasks && s.tasks[t].OpWait? && LockFree(s, s.tasks[t].sid)
    ensures Inv(Operate(s, t, pageOk))
  {
    hide Inv;
    var task := s.tasks[t];
    var o := s.objects[task.sid];
    var s' := Operate(s, t, pageOk);
    if !Registered(s.sessions, task.scope, task.sid) {
      WaitKeepsInv(s, t, Ended);
    } else if s'.tasks[t].OpClosing? {
      TakeOutKeepsInv(s, t, task.scope, task.sid);
    } else {
      var touched := if Touches(o, task.sid, task.request) then o.(used := s.now) else o;
      TouchKeepsInv(s, task.sid, touched);
      var worked := SetObject(s, task.sid, touched);
      if s'.tasks[t].OpHeld? {
        HoldKeepsInv(worked, t, task.scope, task.sid, task.request);
        assert s'.objects == worked.objects[task.sid := touched.(lock := Some(t))];
      } else if Allowed(o, task.sid, task.request) && pageOk {
        TouchKeepsInv(s, task.sid, touched.(phase := Login));
        WaitKeepsInv(SetObject(s, task.sid, touched.(phase := Login)), t, Ended);
      } else {
        WaitKeepsInv(worked, t, Ended);
      }
    }
  }

  lemma ReapKeepsInv(s: State, t: TaskId)
    requires Inv(s) && t in s.tasks && s.tasks[t].ReapWait? && LockFree(s, s.tasks[t].sid)
    ensures Inv(Reap(s, t))
  {
    hide Inv;
    if Reap(s, t).tasks[t].OpClosing? {
      TakeOutKeepsInv(s, t, s.tasks[t].scope, s.tasks[t].sid);
    } else {
      WaitKeepsInv(s, t, Ended);
    }
  }

  lemma ResumedKeepsInv(s: State, t: TaskId, ok: bool)
    requires Inv(s) && t in s.tasks
    ensures Inv(Resumed(s, t, ok))
  {
    hide Inv, Prepare, Import, Begin, Commits, Abort, Release, Operate, Unlock, Reap;
    match s.tasks[t]
    case PrepareWait(_, _) => PrepareKeepsInv(s, t);
    case ImportWait(_, _, _) => if s.creation.None? { ImportKeepsInv(s, t, ok); }
    case StartWait(_, _) => if s.creation.None? { BeginKeepsInv(s, t); }
    case Opening(_, sid, _, _) =>
      if ok && sid in s.objects {
        CommitsKeepInv(s, t);
      } else {
        AbortKeepsInv(s, t);
      }
    case Aborting(_, _, _) => ReleaseKeepsInv(s, t);
    case OpWait(_, sid, _) => if LockFree(s, sid) { OperateKeepsInv(s, t, ok); }
    case OpHeld(_, sid, _) => UnlockKeepsInv(s, t, sid);
    case OpClosing(sid) => UnlockKeepsInv(s, t, sid);
    case ReapWait(_, sid) => if LockFree(s, sid) { ReapKeepsInv(s, t); }
    case Ended =>
  }

  lemma InterruptedKeepsInv(s: State, t: TaskId)
    requires Inv(s) && t in s.tasks
    ensures Inv(Interrupted(s, t))
  {
    hide Inv, Abort, Release, Unlock;
    match s.tasks[t]
    case Opening(_, _, _, _) => AbortKeepsInv(s, t);
    case Aborting(_, _, _) => ReleaseKeepsInv(s, t);
    case OpHeld(_, sid, _) => UnlockKeepsInv(s, t, sid);
    case OpClosing(sid) => UnlockKeepsInv(s, t, sid);
    case Ended =>
    case _ => WaitKeepsInv(s, t, Ended);
  }

  lemma AskKeepsInv(s: State, t: TaskId, scope: Scope, request: Request)
    requires Inv(s) && t !in s.tasks
    ensures Inv(Ask(s, t, scope, request))
  {
    hide TasksOk, ObjectsOk, PendingsOk, HistoryOk, ReservationsOk;
    if scope in s.pendings {
      if Ask(s, t, scope, request) != s {
        assert scope in s.pendings - (s.pendings - {scope}).Keys;
        DropKeepsInv(s, s.pendings - {scope}, s.dropped + {request.session});
      }
    } else if scope in s.sessions {
      WaitKeepsInv(s, t, OpWait(scope, s.sessions[scope], request));
    }
  }

  lemma ClockKeepsInv(s: State, now: int)
    requires Inv(s)
    ensures Inv(s.(now := now))
  {
  }

  lemma RegisteredExists(s: State, scope: Scope)
    requires Inv(s) && scope in s.sessions
    ensures s.sessions[scope] in s.objects
  {
    hide TasksOk, ObjectsOk, PendingsOk, HistoryOk, ReservationsOk;
  }

  lemma StepKeepsInv(s: State, a: Action)
    requires Inv(s)
    ensures Inv(Next(s, a))
  {
    hide Inv, Expire, Resumed, Interrupted, Ask;
    ExpireKeepsInv(s);
    match a
    case Clock(now) => ClockKeepsInv(s, now);
    case ReapTick =>
    case NewPrepare(t, scope, controller) =>
      if t !in s.tasks {
        ExpireKeepsTasks(s);
        WaitKeepsInv(Expire(s), t, PrepareWait(scope, controller));
      }
    case NewImport(t, scope, user, id) =>
      if t !in s.tasks {
        ExpireKeepsTasks(s);
        WaitKeepsInv(Expire(s), t, ImportWait(scope, user, id));
      }
    case NewStart(t, scope, controller) =>
      if t !in s.tasks {
        ExpireKeepsTasks(s);
        WaitKeepsInv(Expire(s), t, StartWait(scope, controller));
      }
    case NewOp(t, scope, request) =>
      if t !in s.tasks {
        ExpireKeepsTasks(s);
        AskKeepsInv(Expire(s), t, scope, request);
      }
    case NewReap(t, scope) =>
      if t !in s.tasks && scope in s.sessions {
        RegisteredExists(s, scope);
        WaitKeepsInv(s, t, ReapWait(scope, s.sessions[scope]));
      }
    case Resume(t, ok) =>
      if t in s.tasks {
        ResumedKeepsInv(s, t, ok);
      }
    case Share(t) =>
      if t in s.tasks && s.tasks[t].OpHeld? && s.tasks[t].request.op.Activate? && s.tasks[t].sid in s.objects {
        HolderOf(s, t);
        TouchKeepsInv(s, s.tasks[t].sid, s.objects[s.tasks[t].sid].(phase := Ready));
      }
    case Interrupt(t) =>
      if t in s.tasks {
        InterruptedKeepsInv(s, t);
      }
    case LoginPage(sid) =>
      if sid in s.objects {
        TouchKeepsInv(s, sid, s.objects[sid].(phase := Reauth));
      }
  }

  lemma HolderOf(s: State, t: TaskId)
    requires Inv(s) && t in s.tasks && s.tasks[t].OpHeld?
    ensures s.tasks[t].sid in s.objects && s.objects[s.tasks[t].sid].lock == Some(t)
  {
    hide ObjectsOk, SessionsOk, PendingsOk, HistoryOk, ReservationsOk;
    assert TaskOk(s, t, s.tasks[t]);
  }

  lemma ExpireKeepsTasks(s: State)
    ensures Expire(s).tasks == s.tasks
  {
  }

  function Run(s: State, actions: seq<Action>): State
    decreases |actions|
  {
    if actions == [] then s else Run(Next(s, actions[0]), actions[1..])
  }

  lemma {:induction false} RunKeepsInv(s: State, actions: seq<Action>)
    requires Inv(s)
    ensures Inv(Run(s, actions))
    decreases |actions|
  {
    hide Inv, Next;
    if actions != [] {
      StepKeepsInv(s, actions[0]);
      RunKeepsInv(Next(s, actions[0]), actions[1..]);
    }
  }

  lemma Reachable(now: int, actions: seq<Action>)
    ensures Inv(Run(Start(now), actions))
  {
    hide Inv;
    StartInv(now);
    RunKeepsInv(Start(now), actions);
  }

  // ---------- what follows for every run ----------

  /** The capacity is never exceeded, and no session serves two scopes. */
  lemma WithinCapacity(now: int, actions: seq<Action>)
    ensures var s := Run(Start(now), actions);
            && |s.sessions| <= MAX_SESSIONS && |s.pendings| <= MAX_PENDING
            && forall a, b | a in s.sessions && b in s.sessions && s.sessions[a] == s.sessions[b] :: a == b
  {
    hide Run, TasksOk, ObjectsOk, HistoryOk;
    Reachable(now, actions);
  }

  /** A task may take a session out: its lock is free, and it expired or its id was named by a user to disconnect. */
  predicate MayTakeOut(s: State, a: Action, sid: Id) {
    && a.Resume? && a.t in s.tasks && LockFree(s, sid)
    && (s.tasks[a.t].OpWait? || s.tasks[a.t].ReapWait?) && s.tasks[a.t].sid == sid
    && (Expired(s.objects[sid], s.now)
        || (s.tasks[a.t].OpWait? && s.tasks[a.t].request.op.Disconnect?
            && s.tasks[a.t].request.controller.Some? && s.tasks[a.t].request.session == sid))
  }

  /**
    A live session is never overwritten: its scope keeps it, or loses it, expired or disconnected by
    its id, to the one task that then closes it.
   */
  lemma NeverOverwritten(now: int, actions: seq<Action>, a: Action, scope: Scope)
    ensures var s := Run(Start(now), actions);
            var s' := Next(s, a);
            scope in s.sessions ==>
              if scope in s'.sessions then s'.sessions[scope] == s.sessions[scope]
              else
                && MayTakeOut(s, a, s.sessions[scope])
                && s'.tasks[a.t] == OpClosing(s.sessions[scope]) && s'.objects[s.sessions[scope]].closing
  {
    Reachable(now, actions);
    var s := Run(Start(now), actions);
    hide Inv, Run;
    if scope in s.sessions {
      RegisteredExists(s, scope);
      match a
      case Resume(t, ok) =>
        if t in s.tasks {
          ResumedKeepsSession(s, t, ok, scope);
        }
      case Interrupt(t) =>
        if t in s.tasks {
          InterruptedKeepsSessions(s, t);
        }
      case _ =>
    }
  }

  lemma ResumedKeepsSession(s: State, t: TaskId, ok: bool, scope: Scope)
    requires Inv(s) && t in s.tasks && scope in s.sessions && s.sessions[scope] in s.objects
    ensures KeepsSession(s, Resumed(s, t, ok), t, ok, scope)
  {
    hide Inv, Prepare, Import, Begin, Operate, Reap, Commits, Abort, MayTakeOut;
    var task := s.tasks[t];
    if task.OpWait? {
      if LockFree(s, task.sid) {
        OperateKeepsSession(s, t, ok, scope);
      }
    } else if task.ReapWait? {
      if LockFree(s, task.sid) {
        ReapKeepsSession(s, t, ok, scope);
      }
    } else if task.PrepareWait? {
      PrepareKeepsSessions(s, t);
    } else if task.ImportWait? {
      ImportKeepsSessions(s, t, ok);
    } else if task.StartWait? {
      BeginKeepsSessions(s, t);
    } else if task.Opening? {
      ScopeIsFree(s, t);
      LaunchKeepsSession(s, t, scope);
    }
  }

  /** The session of the scope stays, or this task took it out and is about to close it. */
  ghost predicate KeepsSession(s: State, s': State, t: TaskId, ok: bool, scope: Scope)
    requires scope in s.sessions && s.sessions[scope] in s.objects
  {
    if scope in s'.sessions then s'.sessions[scope] == s.sessions[scope]
    else
      && MayTakeOut(s, Resume(t, ok), s.sessions[scope])
      && t in s'.tasks && s'.tasks[t] == OpClosing(s.sessions[scope])
      && s.sessions[scope] in s'.objects && s'.objects[s.sessions[scope]].closing
  }

  lemma OperateKeepsSession(s: State, t: TaskId, ok: bool, scope: Scope)
    requires t in s.tasks && s.tasks[t].OpWait? && LockFree(s, s.tasks[t].sid)
    requires scope in s.sessions && s.sessions[scope] in s.objects
    ensures KeepsSession(s, Operate(s, t, ok), t, ok, scope)
  {
    hide Touches, Expired;
  }

  lemma ReapKeepsSession(s: State, t: TaskId, ok: bool, scope: Scope)
    requires t in s.tasks && s.tasks[t].ReapWait? && LockFree(s, s.tasks[t].sid)
    requires scope in s.sessions && s.sessions[scope] in s.objects
    ensures KeepsSession(s, Reap(s, t), t, ok, scope)
  {
    hide Expired;
  }

  lemma LaunchKeepsSession(s: State, t: TaskId, scope: Scope)
    requires t in s.tasks && s.tasks[t].Opening? && s.tasks[t].scope != scope && scope in s.sessions
    ensures Abort(s, t).sessions == s.sessions
    ensures s.tasks[t].sid in s.objects ==>
              scope in Commits(s, t).sessions && Commits(s, t).sessions[scope] == s.sessions[scope]
  {
  }

  lemma ScopeIsFree(s: State, t: TaskId)
    requires Inv(s) && t in s.tasks && s.tasks[t].Opening?
    ensures s.tasks[t].scope !in s.sessions
  {
  }

  lemma PrepareKeepsSessions(s: State, t: TaskId)
    requires t in s.tasks && s.tasks[t].PrepareWait?
    ensures Prepare(s, t).sessions == s.sessions
  {
  }

  lemma ImportKeepsSessions(s: State, t: TaskId, valid: bool)
    requires t in s.tasks && s.tasks[t].ImportWait?
    ensures Import(s, t, valid).sessions == s.sessions
  {
  }

  lemma BeginKeepsSessions(s: State, t: TaskId)
    requires t in s.tasks && s.tasks[t].StartWait?
    ensures Begin(s, t).sessions == s.sessions
  {
  }

  lemma InterruptedKeepsSessions(s: State, t: TaskId)
    requires t in s.tasks
    ensures Interrupted(s, t).sessions == s.sessions
  {
  }

  /**
    A command at work under its session's lock works on the session registered for its scope, alone,
    and is entitled to: an agent only on a session released to it, which may meanwhile need a new
    login; and nobody but the user who opened a session looks at its login screen or types into it.
   */
  lemma WorksOnRegistered(now: int, actions: seq<Action>, t: TaskId, u: TaskId)
    ensures var s := Run(Start(now), actions);
            t in s.tasks && s.tasks[t].OpHeld? ==>
              var sid := s.tasks[t].sid;
              && sid in s.objects && Registered(s.sessions, s.tasks[t].scope, sid) && !s.objects[sid].closing
              && Entitled(s.objects[sid], sid, s.tasks[t].request)
              && (u in s.tasks && (s.tasks[u].OpHeld? || s.tasks[u].OpClosing?) && s.tasks[u].sid == sid ==> u == t)
  {
    Reachable(now, actions);
    hide Run, SessionsOk, PendingsOk, HistoryOk, ReservationsOk;
    var s := Run(Start(now), actions);
    if t in s.tasks && s.tasks[t].OpHeld? {
      assert TaskOk(s, t, s.tasks[t]);
      assert ObjectOk(s, s.tasks[t].sid, s.objects[s.tasks[t].sid]);
      assert InRegistry(s.sessions, s.tasks[t].sid);
      assert u in s.tasks ==> TaskOk(s, u, s.tasks[u]);
    }
  }

  /** Each pending import makes at most one session, and none if it was cancelled or found expired. */
  lemma OneShot(now: int, actions: seq<Action>)
    ensures var s := Run(Start(now), actions);
            && (forall i, j | 0 <= i < j < |s.commits| :: s.commits[i].pending != s.commits[j].pending)
            && (forall i | 0 <= i < |s.commits| :: s.commits[i].pending !in s.dropped)
  {
    hide Run, TasksOk, ObjectsOk, SessionsOk, PendingsOk, ReservationsOk;
    Reachable(now, actions);
  }

  /** No reservation outlives its import, and no session object is lost: it is registered or its close has begun. */
  lemma NothingLeftBehind(now: int, actions: seq<Action>)
    ensures var s := Run(Start(now), actions);
            s.creation.None? ==>
              && (forall scope | scope in s.pendings :: !s.pendings[scope].consumed)
              && (forall sid | sid in s.objects :: s.objects[sid].closing || InRegistry(s.sessions, sid))
  {
    hide Run, TasksOk, SessionsOk, PendingsOk, HistoryOk, InRegistry;
    Reachable(now, actions);
    var s := Run(Start(now), actions);
    if s.creation.None? {
      forall sid | sid in s.objects
        ensures s.objects[sid].closing || InRegistry(s.sessions, sid)
      {
        assert ObjectOk(s, sid, s.objects[sid]);
      }
    }
  }

  /**
    A launch that fails or is cancelled at any await begins to close its session at once; when that
    ends, or is cancelled in turn, the reservation is gone and the creation lock is free.
   */
  lemma FailedLaunchReleases(s: State, t: TaskId, cancelled: bool, again: bool)
    requires Inv(s) && t in s.tasks && s.tasks[t].Opening?
    ensures var sid := s.tasks[t].sid;
            var aborting := Next(s, if cancelled then Interrupt(t) else Resume(t, false));
            var ended := Next(aborting, if again then Interrupt(t) else Resume(t, true));
            && sid in aborting.objects && aborting.objects[sid].closing && aborting.sessions == s.sessions
            && t in ended.tasks && ended.tasks[t].Ended? && ended.creation.None? && ended.sessions == s.sessions
            && ended.commits == s.commits
            && (s.tasks[t].pending.Some? ==> !IsPending(ended.pendings, s.tasks[t].scope, s.tasks[t].pending.value))
  {
    hide Inv;
    OpeningThere(s, t);
    AbortThenRelease(s, t, cancelled, again);
  }

  lemma OpeningThere(s: State, t: TaskId)
    requires Inv(s) && t in s.tasks && s.tasks[t].Opening?
    ensures s.tasks[t].sid in s.objects
  {
    hide ObjectsOk, SessionsOk, PendingsOk, HistoryOk, ReservationsOk, InRegistry, Uncommitted;
    assert TaskOk(s, t, s.tasks[t]);
  }

  lemma AbortThenRelease(s: State, t: TaskId, cancelled: bool, again: bool)
    requires t in s.tasks && s.tasks[t].Opening? && s.tasks[t].sid in s.objects
    ensures var task := s.tasks[t];
            var aborting := Next(s, if cancelled then Interrupt(t) else Resume(t, false));
            && aborting == Abort(s, t)
            && Next(aborting, if again then Interrupt(t) else Resume(t, true))
               == Release(aborting, t, task.scope, task.pending)
  {
    hide Release, Operate, Reap, Import, Prepare, Begin, Commits, Unlock;
  }

  /** A pending import that is gone, by disconnecting, expiry or failure, never comes back. */
  ghost predicate Gone(s: State, id: Id) {
    id < s.nextId && forall scope :: !IsPending(s.pendings, scope, id)
  }

  ghost predicate SameCommits(s: State, s': State, id: Id) {
    Uncommitted(s.commits, id) ==> Uncommitted(s'.commits, id)
  }

  lemma StepKeepsGone(s: State, a: Action, id: Id)
    requires Gone(s, id)
    ensures Gone(Next(s, a), id) && SameCommits(s, Next(s, a), id)
  {
    hide Resumed, Interrupted, Ask, Uncommitted;
    match a
    case Resume(t, ok) =>
      if t in s.tasks {
        ResumedKeepsGone(s, t, ok, id);
      }
    case Interrupt(t) =>
      if t in s.tasks {
        InterruptedKeepsGone(s, t, id);
      }
    case NewOp(t, scope, request) =>
      ExpireKeepsGone(s, id);
      AskKeepsGone(Expire(s), t, scope, request, id);
    case _ => ExpireKeepsGone(s, id);
  }

  lemma ExpireKeepsGone(s: State, id: Id)
    requires Gone(s, id)
    ensures Gone(Expire(s), id) && Expire(s).commits == s.commits && Expire(s).nextId == s.nextId
  {
    forall scope
      ensures !IsPending(Expire(s).pendings, scope, id)
    {
      assert !IsPending(s.pendings, scope, id);
    }
  }

  lemma AskKeepsGone(s: State, t: TaskId, scope: Scope, request: Request, id: Id)
    requires Gone(s, id)
    ensures Gone(Ask(s, t, scope, request), id) && Ask(s, t, scope, request).commits == s.commits
  {
    forall other
      ensures !IsPending(Ask(s, t, scope, request).pendings, other, id)
    {
      assert !IsPending(s.pendings, other, id);
    }
  }

  lemma InterruptedKeepsGone(s: State, t: TaskId, id: Id)
    requires Gone(s, id) && t in s.tasks
    ensures Gone(Interrupted(s, t), id) && Interrupted(s, t).commits == s.commits
  {
    forall other
      ensures !IsPending(Interrupted(s, t).pendings, other, id)
    {
      assert !IsPending(s.pendings, other, id);
    }
  }

  lemma ImportKeepsGone(s: State, t: TaskId, valid: bool, id: Id)
    requires Gone(s, id) && t in s.tasks && s.tasks[t].ImportWait?
    ensures Gone(Import(s, t, valid), id) && Import(s, t, valid).commits == s.commits
  {
    forall other
      ensures !IsPending(Import(s, t, valid).pendings, other, id)
    {
      assert !IsPending(s.pendings, other, id);
    }
  }

  lemma CommitsKeepGone(s: State, t: TaskId, id: Id)
    requires Gone(s, id) && t in s.tasks && s.tasks[t].Opening? && s.tasks[t].sid in s.objects
    ensures Gone(Commits(s, t), id) && SameCommits(s, Commits(s, t), id)
  {
    assert !IsPending(s.pendings, s.tasks[t].scope, id);
    forall other
      ensures !IsPending(Commits(s, t).pendings, other, id)
    {
      assert !IsPending(s.pendings, other, id);
    }
  }

  lemma ResumedKeepsGone(s: State, t: TaskId, ok: bool, id: Id)
    requires Gone(s, id) && t in s.tasks
    ensures Gone(Resumed(s, t, ok), id) && SameCommits(s, Resumed(s, t, ok), id)
  {
    hide Uncommitted, Commits, Import, Operate, Reap, Begin, Abort;
    match s.tasks[t]
    case ImportWait(_, _, _) => ImportKeepsGone(s, t, ok, id);
    case StartWait(_, _) => BeginKeepsPendings(s, t);
    case Opening(_, sid, _, _) =>
      AbortKeepsPendings(s, t);
      if ok && sid in s.objects {
        CommitsKeepGone(s, t, id);
      }
    case OpWait(_, sid, _) =>
      if LockFree(s, sid) {
        OperateKeepsPendings(s, t, ok);
      }
    case ReapWait(_, sid) =>
      if LockFree(s, sid) {
        ReapKeepsPendings(s, t);
      }
    case PrepareWait(scope, _) =>
      forall other
        ensures !IsPending(Prepare(s, t).pendings, other, id)
      {
        assert !IsPending(s.pendings, other, id);
      }
    case Aborting(scope, _, pending) =>
      forall other
        ensures !IsPending(Release(s, t, scope, pending).pendings, other, id)
      {
        assert !IsPending(s.pendings, other, id);
      }
    case _ =>
  }

  lemma BeginKeepsPendings(s: State, t: TaskId)
    requires t in s.tasks && s.tasks[t].StartWait?
    ensures var s' := Begin(s, t); s'.pendings == s.pendings && s'.commits == s.commits && s'.nextId >= s.nextId
  {
  }

  lemma AbortKeepsPendings(s: State, t: TaskId)
    requires t in s.tasks && s.tasks[t].Opening?
    ensures var s' := Abort(s, t); s'.pendings == s.pendings && s'.commits == s.commits && s'.nextId == s.nextId
  {
  }

  lemma OperateKeepsPendings(s: State, t: TaskId, pageOk: bool)
    requires t in s.tasks && s.tasks[t].OpWait? && s.tasks[t].sid in s.objects
    ensures var s' := Operate(s, t, pageOk);
            s'.pendings == s.pendings && s'.commits == s.commits && s'.nextId == s.nextId
  {
    hide Allowed, Touches, Expired;
  }

  lemma ReapKeepsPendings(s: State, t: TaskId)
    requires t in s.tasks && s.tasks[t].ReapWait? && s.tasks[t].sid in s.objects
    ensures var s' := Reap(s, t); s'.pendings == s.pendings && s'.commits == s.commits && s'.nextId == s.nextId
  {
    hide Expired;
  }

  /** So an import that was disconnected, expired or failed makes no session in any later run. */
  lemma {:induction false} GoneMakesNoSession(s: State, actions: seq<Action>, id: Id)
    requires Gone(s, id) && Uncommitted(s.commits, id)
    ensures Uncommitted(Run(s, actions).commits, id) && Gone(Run(s, actions), id)
    decreases |actions|
  {
    hide Gone, Next, Uncommitted;
    if actions != [] {
      StepKeepsGone(s, actions[0], id);
      GoneMakesNoSession(Next(s, actions[0]), actions[1..], id);
    }
  }

  // ---------- what a command is granted ----------

  /** The session is still registered for the scope and has neither lived eight hours nor idled half an hour. */
  predicate Alive(s: State, scope: Scope, sid: Id)
    requires sid in s.objects
  {
    && scope in s.sessions && s.sessions[scope] == sid
    && s.now - s.objects[sid].created <= 28800 && s.now - s.objects[sid].used <= 1800
  }

  /** The request comes from the user who opened the session and carries its id. */
  predicate ByOwner(o: Session, sid: Id, request: Request) {
    request.controller == Some(o.controller) && request.session == sid
  }

  /** What a live session grants to work: to its owner his own commands, to agents what was released to them. */
  predicate Granted(o: Session, sid: Id, request: Request) {
    match request.op
    case Browse => o.phase.Ready?
    case Activate => ByOwner(o, sid, request)
    case Frame => ByOwner(o, sid, request) && o.phase.Login?
    case Control => ByOwner(o, sid, request) && o.phase.Login?
    case _ => false
  }

  lemma GrantIsAllowed(o: Session, sid: Id, request: Request)
    ensures Granted(o, sid, request) <==>
              Allowed(o, sid, request) && request.op != Disconnect && request.op != Takeover
    ensures request.op == Takeover ==> (Allowed(o, sid, request) <==> ByOwner(o, sid, request))
    ensures request.op == Disconnect ==>
              (Allowed(o, sid, request) <==> request.controller.Some? && request.session == sid)
    ensures Touches(o, sid, request) <==>
              || (request.op == Browse && o.phase.Ready?)
              || (ByOwner(o, sid, request) && request.op in {Takeover, Activate, Control})
  {
  }

  /**
    A command that got its session's lock closes the session exactly if that has expired, or any user
    disconnects it by its id; goes to work exactly if the session is alive, has its page and grants it;
    and ends otherwise, without effect on the registry.
   */
  lemma CommandIsDecided(s: State, t: TaskId, pageOk: bool)
    requires t in s.tasks && s.tasks[t].OpWait? && s.tasks[t].sid in s.objects
    ensures var task, o, s' := s.tasks[t], s.objects[s.tasks[t].sid], Operate(s, t, pageOk);
            var sid, request := task.sid, task.request;
            var there := task.scope in s.sessions && s.sessions[task.scope] == sid;
            var disconnects := request.op == Disconnect && request.controller.Some? && request.session == sid;
            && t in s'.tasks && s'.pendings == s.pendings && s'.creation == s.creation && s'.nextId == s.nextId
            && (s'.tasks[t] == OpClosing(sid) <==> there && (!Alive(s, task.scope, sid) || disconnects))
            && (s'.tasks[t] == OpHeld(task.scope, sid, request) <==>
                  Alive(s, task.scope, sid) && pageOk && Granted(o, sid, request))
            && (!s'.tasks[t].OpClosing? && !s'.tasks[t].OpHeld? ==> s'.tasks[t] == Ended)
            && s'.tasks == s.tasks[t := s'.tasks[t]]
            && s'.sessions == if s'.tasks[t].OpClosing? then s.sessions - {task.scope} else s.sessions
  {
    hide Allowed, Granted, Touches;
    GrantIsAllowed(s.objects[s.tasks[t].sid], s.tasks[t].sid, s.tasks[t].request);
  }

  /** What it leaves of the session: lock, last use and phase. */
  lemma CommandTouches(s: State, t: TaskId, pageOk: bool)
    requires t in s.tasks && s.tasks[t].OpWait? && s.tasks[t].sid in s.objects
    ensures var task, o, s' := s.tasks[t], s.objects[s.tasks[t].sid], Operate(s, t, pageOk);
            var sid, request := task.sid, task.request;
            var owned := Alive(s, task.scope, sid) && ByOwner(o, sid, request);
            var used := || (Alive(s, task.scope, sid) && request.op == Browse && o.phase.Ready?)
                        || (owned && request.op in {Takeover, Activate, Control});
            var takes := owned && request.op == Takeover && pageOk;
            && t in s'.tasks
            && s'.objects == s.objects[sid :=
                 Session(o.controller, if takes then Login else o.phase, o.created, if used then s.now else o.used,
                         if s'.tasks[t].Ended? then o.lock else Some(t), o.closing || s'.tasks[t].OpClosing?)]
  {
    hide Allowed, Granted, Touches, ByOwner;
    GrantIsAllowed(s.objects[s.tasks[t].sid], s.tasks[t].sid, s.tasks[t].request);
  }

  // ---------- the worker's tables ----------

  /** An expired pending import outside `todo` has this id. */
  ghost predicate ExpiredBut(pendings: map<Scope, Pending>, todo: set<Scope>, now: int, id: Id) {
    exists scope :: scope in pendings && scope !in todo && pendings[scope].expires <= now && pendings[scope].id == id
  }

  lemma StillExpired(pendings: map<Scope, Pending>, todo: set<Scope>, scope: Scope, now: int)
    requires scope in todo && todo <= pendings.Keys
    ensures forall id :: ExpiredBut(pendings, todo - {scope}, now, id) <==>
                         || ExpiredBut(pendings, todo, now, id)
                         || (pendings[scope].expires <= now && pendings[scope].id == id)
  {
  }

  lemma OpeningExists(s: State, t: TaskId)
    requires Inv(s) && t in s.tasks && s.tasks[t].Opening?
    ensures s.tasks[t].sid in s.objects && s.tasks[t].scope !in s.sessions
  {
    hide ObjectsOk, SessionsOk, PendingsOk, HistoryOk, ReservationsOk;
    assert TaskOk(s, t, s.tasks[t]);
  }

  class Registry {
    var sessions: map<Scope, Id>
    var objects: map<Id, Session>
    var pendings: map<Scope, Pending>
    var creation: Option<TaskId>
    var tasks: map<TaskId, Task>
    var nextId: Id
    ghost var commits: seq<Commit>
    ghost var dropped: set<Id>
    ghost var prepared: map<Id, nat>

    ghost function View(now: int): State
      reads this
    {
      State(sessions, objects, pendings, creation, tasks, now, nextId, commits, dropped, prepared)
    }

    constructor ()
      ensures forall now :: View(now) == Start(now) && Inv(View(now))
    {
      sessions, objects, pendings, creation, tasks, nextId := map[], map[], map[], None, map[], 0;
      commits, dropped, prepared := [], {}, map[];
    }

    /** `expire_imports`: a loop over a copy of the pending imports. */
    method ExpireImports(now: int)
      requires Inv(View(now))
      modifies this`pendings, this`dropped
      ensures View(now) == Expire(old(View(now)))
      ensures Inv(View(now))
      ensures forall scope :: scope in pendings <==> scope in old(pendings) && old(pendings)[scope].expires > now
      ensures forall scope | scope in pendings :: pendings[scope] == old(pendings)[scope]
    {
      hide Inv;
      ghost var before := View(now);
      ExpireKeepsInv(before);
      var all := pendings;
      var todo := all.Keys;
      while todo != {}
        invariant todo <= all.Keys
        invariant forall scope :: scope in pendings <==> scope in all && (scope in todo || all[scope].expires > now)
        invariant forall scope | scope in pendings :: pendings[scope] == all[scope]
        invariant forall id :: id in dropped <==> id in old(dropped) || ExpiredBut(all, todo, now, id)
        decreases |todo|
      {
        var scope :| scope in todo;
        StillExpired(all, todo, scope, now);
        todo := todo - {scope};
        if all[scope].expires <= now {
          pendings := pendings - {scope};
          dropped := dropped + {all[scope].id};
        }
      }
      assert pendings == Expire(before).pendings;
      assert dropped == Expire(before).dropped;
    }

    /** The locked part of `prepare_import`. */
    method PrepareImport(t: TaskId, now: int) returns (ok: bool)
      requires Inv(View(now)) && creation.None? && t in tasks && tasks[t].PrepareWait?
      modifies this
      ensures View(now) == Prepare(old(View(now)), t)
      ensures Inv(View(now))
      ensures ok <==> old(tasks[t].scope !in sessions && tasks[t].scope !in pendings && |pendings| < 100)
      ensures pendings == if ok then old(pendings)[old(tasks[t].scope) := Pending(old(nextId),
                                                   old(tasks[t].controller), now + 600, false)]
                          else old(pendings)
      ensures sessions == old(sessions) && objects == old(objects) && creation.None?
      ensures tasks == old(tasks)[t := Ended]
    {
      hide Inv;
      PrepareKeepsInv(View(now), t);
      var (scope, controller) := (tasks[t].scope, tasks[t].controller);
      tasks := tasks[t := Ended];
      if scope in sessions || scope in pendings || |pendings| >= MAX_PENDING {
        return false;
      }
      pendings := pendings[scope := Pending(nextId, controller, now + IMPORT_SECONDS, false)];
      prepared := prepared[nextId := controller];
      nextId := nextId + 1;
      return true;
    }

    /** A new session object, which its creator starts to open under the creation lock. */
    method Launch(t: TaskId, now: int, scope: Scope, user: nat, phase: Phase, pending: Option<Id>)
      modifies this
      ensures View(now) == Open(old(View(now)), t, scope, user, phase, pending)
    {
      objects := objects[nextId := Session(user, phase, now, now, None, false)];
      tasks := tasks[t := Opening(scope, nextId, pending, user)];
      creation := Some(t);
      nextId := nextId + 1;
    }

    /** `import` from the creation lock to the launch. */
    method ReserveImport(t: TaskId, now: int, valid: bool) returns (ok: bool)
      requires Inv(View(now)) && creation.None? && t in tasks && tasks[t].ImportWait?
      modifies this
      ensures View(now) == Import(old(View(now)), t, valid)
      ensures Inv(View(now))
      ensures ok <==> valid && old(var scope := tasks[t].scope;
                                   && scope in pendings && pendings[scope].expires > now && !pendings[scope].consumed
                                   && tasks[t].user == Some(pendings[scope].controller)
                                   && tasks[t].id == pendings[scope].id
                                   && scope !in sessions && |sessions| < 6)
      ensures sessions == old(sessions)
      ensures if ok then
                var scope, id, user := old(tasks[t].scope), old(tasks[t].id), old(tasks[t].user.GetOr(0));
                && pendings == old(pendings)[scope := Pending(id, user, old(pendings[scope].expires), true)]
                && objects == old(objects)[old(nextId) := Session(user, Importing, now, now, None, false)]
                && tasks == old(tasks)[t := Opening(scope, old(nextId), Some(id), user)] && creation == Some(t)
              else
                && pendings == old(pendings) && objects == old(objects)
                && tasks == old(tasks)[t := Ended] && creation.None?
    {
      hide Inv;
      ImportKeepsInv(View(now), t, valid);
      var (scope, user, id) := (tasks[t].scope, tasks[t].user, tasks[t].id);
      if scope !in pendings {
        tasks := tasks[t := Ended];
        return false;
      }
      var pending := pendings[scope];
      if pending.expires <= now || pending.consumed || user != Some(pending.controller) || id != pending.id || !valid
         || scope in sessions || |sessions| >= MAX_SESSIONS {
        tasks := tasks[t := Ended];
        return false;
      }
      pendings := pendings[scope := pending.(consumed := true)];
      Launch(t, now, scope, user.value, Importing, Some(id));
      return true;
    }

    /** `start` from the creation lock to the launch. */
    method BeginStart(t: TaskId, now: int) returns (ok: bool)
      requires Inv(View(now)) && creation.None? && t in tasks && tasks[t].StartWait?
      modifies this
      ensures View(now) == Begin(old(View(now)), t)
      ensures Inv(View(now))
      ensures ok <==> old(tasks[t].scope !in sessions && |sessions| < 6)
      ensures sessions == old(sessions) && pendings == old(pendings)
      ensures if ok then
                var user := old(tasks[t].controller);
                && objects == old(objects)[old(nextId) := Session(user, Login, now, now, None, false)]
                && tasks == old(tasks)[t := Opening(old(tasks[t].scope), old(nextId), None, user)]
                && creation == Some(t)
              else objects == old(objects) && tasks == old(tasks)[t := Ended] && creation.None?
    {
      hide Inv;
      BeginKeepsInv(View(now), t);
      var (scope, controller) := (tasks[t].scope, tasks[t].controller);
      if scope in sessions || |sessions| >= MAX_SESSIONS {
        tasks := tasks[t := Ended];
        return false;
      }
      Launch(t, now, scope, controller, Login, None);
      return true;
    }

    /** A command on a session, from its lock to its next await. */
    method Work(t: TaskId, now: int, pageOk: bool)
      requires Inv(View(now)) && t in tasks && tasks[t].OpWait? && LockFree(View(now), tasks[t].sid)
      modifies this
      ensures View(now) == Operate(old(View(now)), t, pageOk)
      ensures Inv(View(now))
    {
      hide Inv, Allowed, Touches, Expired;
      OperateKeepsInv(View(now), t, pageOk);
      var (scope, sid, request) := (tasks[t].scope, tasks[t].sid, tasks[t].request);
      tasks := tasks[t := Ended];
      if !Registered(sessions, scope, sid) {
        return;
      }
      var o := objects[sid];
      if Expired(o, now) || (request.op.Disconnect? && Allowed(o, sid, request)) {
        sessions := sessions - {scope};
        objects := objects[sid := o.(lock := Some(t), closing := true)];
        tasks := tasks[t := OpClosing(sid)];
        return;
      }
      if Touches(o, sid, request) {
        o := o.(used := now);
      }
      if Allowed(objects[sid], sid, request) && pageOk {
        if request.op.Takeover? {
          o := o.(phase := Login);
        } else {
          o := o.(lock := Some(t));
          tasks := tasks[t := OpHeld(scope, sid, request)];
        }
      }
      objects := objects[sid := o];
    }

    /** One session of the reaper's round, with its lock. */
    method ReapOne(t: TaskId, now: int)
      requires Inv(View(now)) && t in tasks && tasks[t].ReapWait? && LockFree(View(now), tasks[t].sid)
      modifies this
      ensures View(now) == Reap(old(View(now)), t)
      ensures Inv(View(now))
      ensures old(tasks[t].sid in objects)
      ensures var task, o := old(tasks[t]), old(objects[tasks[t].sid]);
              if (now - o.created > 28800 || now - o.used > 1800)
                 && task.scope in old(sessions) && old(sessions)[task.scope] == task.sid
              then
                && sessions == old(sessions) - {task.scope} && tasks == old(tasks)[t := OpClosing(task.sid)]
                && objects == old(objects)[task.sid := o.(lock := Some(t), closing := true)]
              else sessions == old(sessions) && tasks == old(tasks)[t := Ended] && objects == old(objects)
    {
      hide Inv;
      ReapKeepsInv(View(now), t);
      var (scope, sid) := (tasks[t].scope, tasks[t].sid);
      if Expired(objects[sid], now) && Registered(sessions, scope, sid) {
        sessions := sessions - {scope};
        objects := objects[sid := objects[sid].(lock := Some(t), closing := true)];
        tasks := tasks[t := OpClosing(sid)];
      } else {
        tasks := tasks[t := Ended];
      }
    }

    /** The launch has succeeded: registration, or the start of the clean-up. */
    method FinishLaunch(t: TaskId, now: int) returns (ok: bool)
      requires Inv(View(now)) && t in tasks && tasks[t].Opening?
      modifies this
      ensures View(now) == Resumed(old(View(now)), t, true)
      ensures Inv(View(now))
      ensures var task := old(tasks[t]);
              && (ok <==> task.pending.None?
                          || (IsPending(old(pendings), task.scope, task.pending.value)
                            && old(pendings[task.scope].expires) > now))
              && (if ok then
                    && sessions == old(sessions)[task.scope := task.sid] && creation.None?
                    && tasks == old(tasks)[t := Ended]
                    && pendings == (if task.pending.None? then old(pendings) else old(pendings) - {task.scope})
                    && task.sid in objects && objects[task.sid].controller == old(objects)[task.sid].controller
                    && objects[task.sid].phase
                       == (if task.pending.None? then old(objects)[task.sid].phase else Ready)
                  else
                    && sessions == old(sessions) && pendings == old(pendings)
                    && tasks == old(tasks)[t := Aborting(task.scope, task.sid, task.pending)])
    {
      hide Inv;
      OpeningExists(View(now), t);
      CommitsKeepInv(View(now), t);
      var (scope, sid, pending) := (tasks[t].scope, tasks[t].sid, tasks[t].pending);
      if pending.Some?
         && (scope !in pendings || pendings[scope].id != pending.value || pendings[scope].expires <= now) {
        objects := objects[sid := objects[sid].(closing := true)];
        tasks := tasks[t := Aborting(scope, sid, pending)];
        return false;
      }
      if pending.Some? {
        objects := objects[sid := objects[sid].(phase := Ready)];
        commits := commits + [Commit(pending.value, sid, tasks[t].asker)];
        pendings := pendings - {scope};
      }
      sessions := sessions[scope := sid];
      creation := None;
      tasks := tasks[t := Ended];
      return true;
    }

    /** The launch has failed or was cancelled: the half-opened session begins to close. */
    method AbortLaunch(t: TaskId, now: int)
      requires Inv(View(now)) && t in tasks && tasks[t].Opening?
      modifies this
      ensures View(now) == Interrupted(old(View(now)), t)
      ensures Inv(View(now))
      ensures old(tasks[t].sid) in objects && objects[old(tasks[t].sid)].closing && sessions == old(sessions)
    {
      hide Inv;
      OpeningExists(View(now), t);
      AbortKeepsInv(View(now), t);
      var (scope, sid, pending) := (tasks[t].scope, tasks[t].sid, tasks[t].pending);
      objects := objects[sid := objects[sid].(closing := true)];
      tasks := tasks[t := Aborting(scope, sid, pending)];
    }

    /** `finally` of an import, after its session was closed or the close was cancelled. */
    method ReleaseReservation(t: TaskId, now: int)
      requires Inv(View(now)) && t in tasks && tasks[t].Aborting?
      modifies this
      ensures View(now) == Release(old(View(now)), t, old(tasks[t].scope), old(tasks[t].pending))
      ensures Inv(View(now))
      ensures creation.None? && tasks == old(tasks)[t := Ended] && sessions == old(sessions) && objects == old(objects)
      ensures var task := old(tasks[t]);
              pendings == if task.pending.Some? && task.scope in old(pendings)
                             && old(pendings)[task.scope].id == task.pending.value
                          then old(pendings) - {task.scope} else old(pendings)
    {
      hide Inv;
      ReleaseKeepsInv(View(now), t);
      var (scope, pending) := (tasks[t].scope, tasks[t].pending);
      if pending.Some? && scope in pendings && pendings[scope].id == pending.value {
        pendings := pendings - {scope};
      }
      creation := None;
      tasks := tasks[t := Ended];
    }
  }
}
