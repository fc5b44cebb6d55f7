/**
  Whose session it is, and what an undisturbed request is granted (mcp-auth-browser/src/server.py:338-355,
  403-529): over every run only the user who prepared an import redeems it, and the sessions a request
  leads to when nothing else comes between its steps.
 */
module SessionOwners {
  import opened Wrappers
  import opened SessionRegistry

  // ---------- only the preparer redeems ----------

  /** Each pending import belongs to the user who prepared it. */
  ghost predicate PendingsOwned(s: State) {
    && (forall id | id in s.prepared :: id < s.nextId)
    && (forall scope | scope in s.pendings ::
          s.pendings[scope].id in s.prepared && s.pendings[scope].controller == s.prepared[s.pendings[scope].id])
  }

  /** A session being opened is that of the user who asked for it, who for an import is the one who prepared it. */
  ghost predicate OpeningOwned(s: State, task: Task)
    requires task.Opening?
  {
    && task.sid in s.objects && s.objects[task.sid].controller == task.asker
    && (task.pending.Some? ==> task.pending.value in s.prepared && task.asker == s.prepared[task.pending.value])
  }

  ghost predicate CommitOwned(s: State, c: Commit) {
    && c.sid in s.objects && s.objects[c.sid].controller == c.asker
    && c.pending in s.prepared && c.asker == s.prepared[c.pending]
  }

  ghost predicate Owned(s: State) {
    && PendingsOwned(s)
    && (forall t | t in s.tasks && s.tasks[t].Opening? :: OpeningOwned(s, s.tasks[t]))
    && (forall i | 0 <= i < |s.commits| :: CommitOwned(s, s.commits[i]))
  }

  /** No session changes hands or disappears, and no import changes its preparer. */
  ghost predicate KeepsOwners(s: State, s': State) {
    && (forall sid | sid in s.objects :: sid in s'.objects && s'.objects[sid].controller == s.objects[sid].controller)
    && (forall id | id in s.prepared :: id in s'.prepared && s'.prepared[id] == s.prepared[id])
    && s'.nextId >= s.nextId
  }

  /** No pending import, no launch and no commit is new. */
  ghost predicate NothingNew(s: State, s': State) {
    && s'.prepared == s.prepared && s'.commits == s.commits
    && (forall scope | scope in s'.pendings ::
          && scope in s.pendings && s'.pendings[scope].id == s.pendings[scope].id
          && s'.pendings[scope].controller == s.pendings[scope].controller)
    && (forall t | t in s'.tasks && s'.tasks[t].Opening? :: t in s.tasks && s'.tasks[t] == s.tasks[t])
  }

  lemma NothingNewKeepsOwned(s: State, s': State)
    requires Owned(s) && KeepsOwners(s, s') && NothingNew(s, s')
    ensures Owned(s')
  {
    forall t | t in s'.tasks && s'.tasks[t].Opening?
      ensures OpeningOwned(s', s'.tasks[t])
    {
      assert OpeningOwned(s, s.tasks[t]);
    }
    forall i | 0 <= i < |s'.commits|
      ensures CommitOwned(s', s'.commits[i])
    {
      assert CommitOwned(s, s.commits[i]);
    }
  }

  lemma PrepareKeepsOwned(s: State, t: TaskId)
    requires Owned(s) && t in s.tasks && s.tasks[t].PrepareWait?
    ensures Owned(Prepare(s, t)) && KeepsOwners(s, Prepare(s, t))
  {
    var s' := Prepare(s, t);
    assert s.nextId !in s.prepared;
    forall u | u in s'.tasks && s'.tasks[u].Opening?
      ensures OpeningOwned(s', s'.tasks[u])
    {
      assert OpeningOwned(s, s.tasks[u]);
    }
    forall i | 0 <= i < |s'.commits|
      ensures CommitOwned(s', s'.commits[i])
    {
      assert CommitOwned(s, s.commits[i]);
    }
  }

  lemma Unused(s: State)
    requires Inv(s)
    ensures s.nextId !in s.objects
  {
    hide TasksOk, SessionsOk, PendingsOk, HistoryOk, ReservationsOk, InRegistry;
  }

  lemma OpenKeepsOwned(s: State, t: TaskId, scope: Scope, user: nat, phase: Phase, pending: Option<Id>)
    requires Owned(s) && s.nextId !in s.objects
    requires pending.Some? ==> pending.value in s.prepared && user == s.prepared[pending.value]
    ensures Owned(Open(s, t, scope, user, phase, pending))
    ensures KeepsOwners(s, Open(s, t, scope, user, phase, pending))
  {
    var s' := Open(s, t, scope, user, phase, pending);
    forall u | u in s'.tasks && s'.tasks[u].Opening?
      ensures OpeningOwned(s', s'.tasks[u])
    {
      assert u != t ==> OpeningOwned(s, s.tasks[u]);
    }
    forall i | 0 <= i < |s'.commits|
      ensures CommitOwned(s', s'.commits[i])
    {
      assert CommitOwned(s, s.commits[i]);
    }
  }

  lemma ImportKeepsOwned(s: State, t: TaskId, valid: bool)
    requires Owned(s) && s.nextId !in s.objects && t in s.tasks && s.tasks[t].ImportWait?
    ensures Owned(Import(s, t, valid)) && KeepsOwners(s, Import(s, t, valid))
  {
    hide Open;
    var task := s.tasks[t];
    if Import(s, t, valid) == SetTask(s, t, Ended) {
      NothingNewKeepsOwned(s, SetTask(s, t, Ended));
    } else {
      var pending := s.pendings[task.scope];
      var reserved := s.(pendings := s.pendings[task.scope := pending.(consumed := true)]);
      NothingNewKeepsOwned(s, reserved);
      OpenKeepsOwned(reserved, t, task.scope, task.user.value, Importing, Some(task.id));
    }
  }

  lemma BeginKeepsOwned(s: State, t: TaskId)
    requires Owned(s) && s.nextId !in s.objects && t in s.tasks && s.tasks[t].StartWait?
    ensures Owned(Begin(s, t)) && KeepsOwners(s, Begin(s, t))
  {
    hide Open;
    if Begin(s, t) == SetTask(s, t, Ended) {
      NothingNewKeepsOwned(s, SetTask(s, t, Ended));
    } else {
      OpenKeepsOwned(s, t, s.tasks[t].scope, s.tasks[t].controller, Login, None);
    }
  }

  lemma CommitsKeepOwned(s: State, t: TaskId)
    requires Owned(s) && t in s.tasks && s.tasks[t].Opening? && s.tasks[t].sid in s.objects
    ensures Owned(Commits(s, t)) && KeepsOwners(s, Commits(s, t))
  {
    var s' := Commits(s, t);
    assert OpeningOwned(s, s.tasks[t]);
    if s'.commits == s.commits {
      NothingNewKeepsOwned(s, s');
    } else {
      forall u | u in s'.tasks && s'.tasks[u].Opening?
        ensures OpeningOwned(s', s'.tasks[u])
      {
        assert OpeningOwned(s, s.tasks[u]);
      }
      forall i | 0 <= i < |s'.commits|
        ensures CommitOwned(s', s'.commits[i])
      {
        assert i < |s.commits| ==> CommitOwned(s, s.commits[i]);
      }
    }
  }

  /** A step that opens nothing and prepares nothing. */
  ghost predicate Minor(s: State, s': State) {
    KeepsOwners(s, s') && NothingNew(s, s')
  }

  lemma OperateIsMinor(s: State, t: TaskId, pageOk: bool)
    requires t in s.tasks && s.tasks[t].OpWait? && s.tasks[t].sid in s.objects
    ensures Minor(s, Operate(s, t, pageOk))
  {
    hide Operate;
    CommandIsDecided(s, t, pageOk);
    CommandTouches(s, t, pageOk);
    CommandRecords(s, t, pageOk);
  }

  lemma CommandRecords(s: State, t: TaskId, pageOk: bool)
    requires t in s.tasks && s.tasks[t].OpWait? && s.tasks[t].sid in s.objects
    ensures Operate(s, t, pageOk).prepared == s.prepared && Operate(s, t, pageOk).commits == s.commits
  {
    hide Allowed, Touches, Expired;
  }

  lemma ReapIsMinor(s: State, t: TaskId)
    requires t in s.tasks && s.tasks[t].ReapWait? && s.tasks[t].sid in s.objects
    ensures Minor(s, Reap(s, t))
  {
    hide Expired;
  }

  lemma UnlockIsMinor(s: State, t: TaskId, sid: Id)
    ensures Minor(s, Unlock(s, t, sid))
  {
  }

  lemma AbortIsMinor(s: State, t: TaskId)
    requires t in s.tasks && s.tasks[t].Opening?
    ensures Minor(s, Abort(s, t))
  {
  }

  lemma ReleaseIsMinor(s: State, t: TaskId, scope: Scope, pending: Option<Id>)
    ensures Minor(s, Release(s, t, scope, pending))
  {
  }

  lemma ExpireIsMinor(s: State)
    ensures Minor(s, Expire(s)) && Expire(s).tasks == s.tasks
  {
  }

  lemma TaskIsMinor(s: State, t: TaskId, task: Task)
    requires !task.Opening?
    ensures Minor(s, SetTask(s, t, task))
  {
  }

  lemma AskIsMinor(s: State, t: TaskId, scope: Scope, request: Request)
    ensures Minor(s, Ask(s, t, scope, request))
  {
  }

  lemma ResumedKeepsOwned(s: State, t: TaskId, ok: bool)
    requires Owned(s) && s.nextId !in s.objects && t in s.tasks
    ensures Owned(Resumed(s, t, ok)) && KeepsOwners(s, Resumed(s, t, ok))
  {
    hide Owned, Prepare, Import, Begin, Commits, Operate, Reap, Unlock, Abort, Release;
    match s.tasks[t]
    case PrepareWait(_, _) => PrepareKeepsOwned(s, t);
    case ImportWait(_, _, _) => ImportKeepsOwned(s, t, ok);
    case StartWait(_, _) => BeginKeepsOwned(s, t);
    case Opening(_, sid, _, _) =>
      if ok && sid in s.objects {
        CommitsKeepOwned(s, t);
      } else {
        AbortIsMinor(s, t);
        NothingNewKeepsOwned(s, Abort(s, t));
      }
    case Aborting(scope, _, pending) =>
      ReleaseIsMinor(s, t, scope, pending);
      NothingNewKeepsOwned(s, Release(s, t, scope, pending));
    case OpWait(_, sid, _) =>
      if LockFree(s, sid) {
        OperateIsMinor(s, t, ok);
        NothingNewKeepsOwned(s, Operate(s, t, ok));
      }
    case ReapWait(_, sid) =>
      if LockFree(s, sid) {
        ReapIsMinor(s, t);
        NothingNewKeepsOwned(s, Reap(s, t));
      }
    case OpHeld(_, sid, _) =>
      UnlockIsMinor(s, t, sid);
      NothingNewKeepsOwned(s, Unlock(s, t, sid));
    case OpClosing(sid) =>
      UnlockIsMinor(s, t, sid);
      NothingNewKeepsOwned(s, Unlock(s, t, sid));
    case Ended =>
  }

  lemma InterruptedIsMinor(s: State, t: TaskId)
    requires t in s.tasks
    ensures Minor(s, Interrupted(s, t))
  {
    hide Abort, Release, Unlock, Minor, SetTask;
    match s.tasks[t]
    case Opening(_, _, _, _) => AbortIsMinor(s, t);
    case Aborting(scope, _, pending) => ReleaseIsMinor(s, t, scope, pending);
    case OpHeld(_, sid, _) => UnlockIsMinor(s, t, sid);
    case OpClosing(sid) => UnlockIsMinor(s, t, sid);
    case Ended => Same(s);
    case _ => TaskIsMinor(s, t, Ended);
  }

  lemma Same(s: State)
    ensures Minor(s, s)
  {
  }

  lemma ThenMinor(a: State, b: State, c: State)
    requires Minor(a, b) && Minor(b, c)
    ensures Minor(a, c)
  {
  }

  lemma ObjectIsMinor(s: State, sid: Id, o: Session)
    requires sid in s.objects && o.controller == s.objects[sid].controller
    ensures Minor(s, SetObject(s, sid, o))
  {
  }

  lemma StepIsMinor(s: State, a: Action)
    requires !(a.Resume? && a.t in s.tasks)
    ensures Minor(s, Next(s, a))
  {
    hide Minor, Expire, Ask, Interrupted, SetTask, SetObject;
    Same(s);
    ExpireIsMinor(s);
    var e := Expire(s);
    match a
    case Clock(now) => ClockIsMinor(s, now);
    case NewPrepare(t, scope, controller) =>
      TaskIsMinor(e, t, PrepareWait(scope, controller));
      ThenMinor(s, e, SetTask(e, t, PrepareWait(scope, controller)));
    case NewImport(t, scope, user, id) =>
      TaskIsMinor(e, t, ImportWait(scope, user, id));
      ThenMinor(s, e, SetTask(e, t, ImportWait(scope, user, id)));
    case NewStart(t, scope, controller) =>
      TaskIsMinor(e, t, StartWait(scope, controller));
      ThenMinor(s, e, SetTask(e, t, StartWait(scope, controller)));
    case NewOp(t, scope, request) =>
      AskIsMinor(e, t, scope, request);
      ThenMinor(s, e, Ask(e, t, scope, request));
    case NewReap(t, scope) =>
      if scope in s.sessions {
        TaskIsMinor(s, t, ReapWait(scope, s.sessions[scope]));
      }
    case Share(t) =>
      if t in s.tasks && s.tasks[t].OpHeld? && s.tasks[t].sid in s.objects {
        ObjectIsMinor(s, s.tasks[t].sid, s.objects[s.tasks[t].sid].(phase := Ready));
      }
    case Interrupt(t) =>
      if t in s.tasks {
        InterruptedIsMinor(s, t);
      }
    case LoginPage(sid) =>
      if sid in s.objects {
        ObjectIsMinor(s, sid, s.objects[sid].(phase := Reauth));
      }
    case _ =>
  }

  lemma ClockIsMinor(s: State, now: int)
    ensures Minor(s, s.(now := now))
  {
  }

  lemma StepKeepsOwned(s: State, a: Action)
    requires Inv(s) && Owned(s)
    ensures Owned(Next(s, a)) && KeepsOwners(s, Next(s, a))
  {
    Unused(s);
    if a.Resume? && a.t in s.tasks {
      hide Inv, Owned, Resumed;
      ResumedKeepsOwned(s, a.t, a.ok);
    } else {
      hide Inv, Owned, Next;
      StepIsMinor(s, a);
      NothingNewKeepsOwned(s, Next(s, a));
    }
  }

  lemma StartOwned(now: int)
    ensures Owned(Start(now))
  {
  }

  lemma {:induction false} RunKeepsOwned(s: State, actions: seq<Action>)
    requires Inv(s) && Owned(s)
    ensures Owned(Run(s, actions)) && KeepsOwners(s, Run(s, actions))
    decreases |actions|
  {
    hide Inv, Owned, Next;
    if actions != [] {
      StepKeepsInv(s, actions[0]);
      StepKeepsOwned(s, actions[0]);
      RunKeepsOwned(Next(s, actions[0]), actions[1..]);
    }
  }

  /**
    Over every run: an import is redeemed only by the user who prepared it; the session it makes is his,
    and stays his in every later run.
   */
  lemma RedeemedByPreparer(now: int, actions: seq<Action>, later: seq<Action>, i: nat)
    ensures var s := Run(Start(now), actions);
            i < |s.commits| ==>
              var c := s.commits[i];
              && c.pending in s.prepared && c.asker == s.prepared[c.pending]
              && c.sid in Run(s, later).objects && Run(s, later).objects[c.sid].controller == c.asker
  {
    hide Run, Inv;
    StartInv(now);
    StartOwned(now);
    RunKeepsInv(Start(now), actions);
    RunKeepsOwned(Start(now), actions);
    var s := Run(Start(now), actions);
    RunKeepsOwned(s, later);
    if i < |s.commits| {
      assert CommitOwned(s, s.commits[i]);
    }
  }

  // ---------- undisturbed requests ----------

  lemma RunOne(s: State, a: Action)
    ensures Run(s, [a]) == Next(s, a)
  {
    hide Next;
    assert [a][1..] == [];
  }

  lemma {:induction false} RunMore(s: State, a: Action, rest: seq<Action>)
    ensures Run(s, [a] + rest) == Run(Next(s, a), rest)
  {
    hide Next;
    assert ([a] + rest)[1..] == rest;
  }

  lemma RunTwo(s: State, a: Action, b: Action)
    ensures Run(s, [a, b]) == Next(Next(s, a), b)
  {
    hide Next;
    assert [a, b] == [a] + [b];
    RunMore(s, a, [b]);
    RunOne(Next(s, a), b);
  }

  lemma RunThree(s: State, a: Action, b: Action, c: Action)
    ensures Run(s, [a, b, c]) == Next(Next(Next(s, a), b), c)
  {
    hide Next;
    assert [a, b, c] == [a] + [b, c];
    RunMore(s, a, [b, c]);
    RunTwo(Next(s, a), b, c);
  }

  predicate NoneExpired(s: State) {
    forall scope | scope in s.pendings :: s.pendings[scope].expires > s.now
  }

  lemma NothingExpires(s: State)
    requires NoneExpired(s)
    ensures Expire(s) == s
  {
    assert Expire(s).pendings == s.pendings && Expire(s).dropped == s.dropped;
  }

  /** A request that is about to create something waits for the creation lock. */
  lemma Waiting(s: State, t: TaskId, scope: Scope, user: nat, id: Id)
    requires t !in s.tasks && NoneExpired(s)
    ensures Next(s, NewPrepare(t, scope, user)) == SetTask(s, t, PrepareWait(scope, user))
    ensures Next(s, NewImport(t, scope, Some(user), id)) == SetTask(s, t, ImportWait(scope, Some(user), id))
    ensures scope !in s.pendings ==> Next(s, NewStart(t, scope, user)) == SetTask(s, t, StartWait(scope, user))
  {
    hide SetTask;
    NothingExpires(s);
  }

  lemma PrepareGrants(s: State, t: TaskId, scope: Scope, user: nat)
    requires t in s.tasks && s.tasks[t] == PrepareWait(scope, user) && s.creation.None?
    requires scope !in s.sessions && scope !in s.pendings && |s.pendings| < 100
    ensures Next(s, Resume(t, true))
         == s.(pendings := s.pendings[scope := Pending(s.nextId, user, s.now + 600, false)], nextId := s.nextId + 1,
               tasks := s.tasks[t := Ended], prepared := s.prepared[s.nextId := user])
  {
  }

  lemma ImportOpens(s: State, t: TaskId, scope: Scope, id: Id, user: nat)
    requires t in s.tasks && s.tasks[t] == ImportWait(scope, Some(user), id) && s.creation.None?
    requires scope in s.pendings && s.pendings[scope].id == id && s.pendings[scope].controller == user
    requires !s.pendings[scope].consumed && s.pendings[scope].expires > s.now
    requires scope !in s.sessions && |s.sessions| < 6
    ensures Next(s, Resume(t, true))
         == s.(pendings := s.pendings[scope := s.pendings[scope].(consumed := true)], nextId := s.nextId + 1,
               objects := s.objects[s.nextId := Session(user, Importing, s.now, s.now, None, false)],
               tasks := s.tasks[t := Opening(scope, s.nextId, Some(id), user)], creation := Some(t))
  {
  }

  lemma StartOpens(s: State, t: TaskId, scope: Scope, user: nat)
    requires t in s.tasks && s.tasks[t] == StartWait(scope, user) && s.creation.None?
    requires scope !in s.sessions && |s.sessions| < 6
    ensures Next(s, Resume(t, true))
         == s.(nextId := s.nextId + 1, creation := Some(t),
               objects := s.objects[s.nextId := Session(user, Login, s.now, s.now, None, false)],
               tasks := s.tasks[t := Opening(scope, s.nextId, None, user)])
  {
  }

  lemma ImportRegisters(s: State, t: TaskId, scope: Scope, sid: Id, id: Id, user: nat)
    requires t in s.tasks && s.tasks[t] == Opening(scope, sid, Some(id), user) && sid in s.objects
    requires scope in s.pendings && s.pendings[scope].id == id && s.pendings[scope].expires > s.now
    ensures Next(s, Resume(t, true))
         == s.(sessions := s.sessions[scope := sid], pendings := s.pendings - {scope}, creation := None,
               objects := s.objects[sid := s.objects[sid].(phase := Ready)], tasks := s.tasks[t := Ended],
               commits := s.commits + [Commit(id, sid, user)])
  {
  }

  lemma StartRegisters(s: State, t: TaskId, scope: Scope, sid: Id, user: nat)
    requires t in s.tasks && s.tasks[t] == Opening(scope, sid, None, user) && sid in s.objects
    ensures Next(s, Resume(t, true))
         == s.(sessions := s.sessions[scope := sid], creation := None, tasks := s.tasks[t := Ended])
  {
  }

  lemma Prepared(s: State, t: TaskId, scope: Scope, user: nat)
    requires s.creation.None? && t !in s.tasks && s.pendings == map[] && scope !in s.sessions
    ensures Run(s, [NewPrepare(t, scope, user), Resume(t, true)])
         == s.(pendings := map[scope := Pending(s.nextId, user, s.now + 600, false)], nextId := s.nextId + 1,
               tasks := s.tasks[t := Ended], prepared := s.prepared[s.nextId := user])
  {
    hide Run, Next;
    RunTwo(s, NewPrepare(t, scope, user), Resume(t, true));
    Waiting(s, t, scope, user, 0);
    var waiting := SetTask(s, t, PrepareWait(scope, user));
    PrepareGrants(waiting, t, scope, user);
    assert waiting.tasks[t := Ended] == s.tasks[t := Ended];
  }

  /** A pending import opens for the user who prepared it, and a launch that succeeds makes it his ready session. */
  lemma Redeemed(s: State, t: TaskId, scope: Scope, id: Id, user: nat)
    requires s.creation.None? && t !in s.tasks && scope !in s.sessions && |s.sessions| < 6 && NoneExpired(s)
    requires scope in s.pendings && s.pendings[scope].id == id && s.pendings[scope].controller == user
    requires !s.pendings[scope].consumed
    ensures Run(s, [NewImport(t, scope, Some(user), id), Resume(t, true), Resume(t, true)])
         == s.(sessions := s.sessions[scope := s.nextId], pendings := s.pendings - {scope}, nextId := s.nextId + 1,
               objects := s.objects[s.nextId := Session(user, Ready, s.now, s.now, None, false)],
               tasks := s.tasks[t := Ended], commits := s.commits + [Commit(id, s.nextId, user)])
  {
    hide Run, Next, NoneExpired;
    RunThree(s, NewImport(t, scope, Some(user), id), Resume(t, true), Resume(t, true));
    Waiting(s, t, scope, user, id);
    Unexpired(s, scope);
    OpensThenRegisters(SetTask(s, t, ImportWait(scope, Some(user), id)), t, scope, id, user);
    Overwrite(s.tasks, t, ImportWait(scope, Some(user), id), Ended);
  }

  lemma OpensThenRegisters(s: State, t: TaskId, scope: Scope, id: Id, user: nat)
    requires t in s.tasks && s.tasks[t] == ImportWait(scope, Some(user), id) && s.creation.None?
    requires scope in s.pendings && s.pendings[scope].id == id && s.pendings[scope].controller == user
    requires !s.pendings[scope].consumed && s.pendings[scope].expires > s.now
    requires scope !in s.sessions && |s.sessions| < 6
    ensures Next(Next(s, Resume(t, true)), Resume(t, true))
         == s.(sessions := s.sessions[scope := s.nextId], pendings := s.pendings - {scope}, nextId := s.nextId + 1,
               objects := s.objects[s.nextId := Session(user, Ready, s.now, s.now, None, false)],
               tasks := s.tasks[t := Ended], commits := s.commits + [Commit(id, s.nextId, user)])
  {
    hide Next;
    ImportOpens(s, t, scope, id, user);
    var opening := Next(s, Resume(t, true));
    ImportRegisters(opening, t, scope, s.nextId, id, user);
    var o := Session(user, Importing, s.now, s.now, None, false);
    Overwrite(s.tasks, t, Opening(scope, s.nextId, Some(id), user), Ended);
    Overwrite(s.objects, s.nextId, o, o.(phase := Ready));
    OverwriteRemove(s.pendings, scope, s.pendings[scope].(consumed := true));
  }

  lemma Overwrite<K, V>(m: map<K, V>, k: K, a: V, b: V)
    ensures m[k := a][k := b] == m[k := b]
  {
  }

  lemma OverwriteRemove<K, V>(m: map<K, V>, k: K, a: V)
    ensures m[k := a] - {k} == m - {k}
  {
  }

  lemma Unexpired(s: State, scope: Scope)
    requires NoneExpired(s) && scope in s.pendings
    ensures s.pendings[scope].expires > s.now
  {
  }

  lemma {:induction false} RunAppend(s: State, a: seq<Action>, b: seq<Action>)
    ensures Run(s, a + b) == Run(Run(s, a), b)
    decreases |a|
  {
    hide Next;
    if a == [] {
      assert a + b == b;
    } else {
      assert (a + b)[0] == a[0] && (a + b)[1..] == a[1..] + b;
      RunAppend(Next(s, a[0]), a[1..], b);
    }
  }

  lemma TimePasses(s: State, now: int)
    ensures Run(s, [Clock(now)]) == s.(now := now)
  {
    RunOne(s, Clock(now));
  }

  /**
    Prepared and redeemed by one user within ten minutes, with a free scope and room below the limits, an
    import makes a ready session of that user, and leaves nothing else behind.
   */
  lemma ImportSucceeds(s: State, prepare: TaskId, redeem: TaskId, scope: Scope, user: nat, wait: nat)
    requires s.creation.None? && prepare !in s.tasks && redeem !in s.tasks && prepare != redeem
    requires s.pendings == map[] && scope !in s.sessions && |s.sessions| < 6 && wait < 600
    ensures var id, sid, time := s.nextId, s.nextId + 1, s.now + wait;
            Run(s, [NewPrepare(prepare, scope, user), Resume(prepare, true)] + [Clock(time)]
                   + [NewImport(redeem, scope, Some(user), id), Resume(redeem, true), Resume(redeem, true)])
            == s.(sessions := s.sessions[scope := sid], now := time, nextId := s.nextId + 2,
                  objects := s.objects[sid := Session(user, Ready, time, time, None, false)],
                  tasks := s.tasks[prepare := Ended][redeem := Ended],
                  commits := s.commits + [Commit(id, sid, user)], prepared := s.prepared[id := user])
  {
    hide Run, Next, NoneExpired;
    var time := s.now + wait;
    var asked := [NewPrepare(prepare, scope, user), Resume(prepare, true)];
    var redeemed := [NewImport(redeem, scope, Some(user), s.nextId), Resume(redeem, true), Resume(redeem, true)];
    RunAppend(s, asked + [Clock(time)], redeemed);
    RunAppend(s, asked, [Clock(time)]);
    Prepared(s, prepare, scope, user);
    TimePasses(Run(s, asked), time);
    var pending := Run(s, asked + [Clock(time)]);
    StillPending(pending, scope);
    Redeemed(pending, redeem, scope, s.nextId, user);
    OverwriteRemove(map[], scope, Pending(s.nextId, user, s.now + 600, false));
  }

  lemma StillPending(s: State, scope: Scope)
    requires s.pendings.Keys == {scope} && s.pendings[scope].expires > s.now
    ensures NoneExpired(s)
  {
  }

  /** A start with a free scope and room makes a session of that user, on its login screen. */
  lemma StartSucceeds(s: State, t: TaskId, scope: Scope, user: nat)
    requires s.creation.None? && t !in s.tasks && NoneExpired(s) && scope !in s.pendings
    requires scope !in s.sessions && |s.sessions| < 6
    ensures Run(s, [NewStart(t, scope, user), Resume(t, true), Resume(t, true)])
         == s.(sessions := s.sessions[scope := s.nextId], nextId := s.nextId + 1, tasks := s.tasks[t := Ended],
               objects := s.objects[s.nextId := Session(user, Login, s.now, s.now, None, false)])
  {
    hide Run, Next, NoneExpired;
    RunThree(s, NewStart(t, scope, user), Resume(t, true), Resume(t, true));
    Waiting(s, t, scope, user, 0);
    var waiting := SetTask(s, t, StartWait(scope, user));
    StartOpens(waiting, t, scope, user);
    var opening := Next(waiting, Resume(t, true));
    StartRegisters(opening, t, scope, s.nextId, user);
    assert opening.tasks[t := Ended] == s.tasks[t := Ended];
  }

  /** What is asked of a scope: a pending import answers or refuses, a session is waited for, nothing else happens. */
  lemma AskIsDecided(s: State, t: TaskId, scope: Scope, request: Request)
    requires t !in s.tasks && NoneExpired(s)
    ensures Next(s, NewOp(t, scope, request))
         == if scope in s.pendings then
              if request.op == Disconnect && request.controller.Some? && request.session == s.pendings[scope].id
              then s.(pendings := s.pendings - {scope}, dropped := s.dropped + {request.session})
              else s
            else if scope in s.sessions then s.(tasks := s.tasks[t := OpWait(scope, s.sessions[scope], request)])
            else s
  {
    NothingExpires(s);
  }

  /** A live session's owner, and an agent on a ready one, gets to work; a command that is done lets go of the lock. */
  lemma CommandWorks(s: State, t: TaskId, scope: Scope, request: Request)
    requires t !in s.tasks && NoneExpired(s) && scope !in s.pendings && scope in s.sessions
    requires var sid := s.sessions[scope];
             LockFree(s, sid) && Alive(s, scope, sid) && Granted(s.objects[sid], sid, request)
    ensures var sid := s.sessions[scope];
            var s' := Run(s, [NewOp(t, scope, request), Resume(t, true)]);
            && s' == s.(tasks := s.tasks[t := OpHeld(scope, sid, request)], objects := s'.objects)
            && sid in s'.objects
            && s'.objects == s.objects[sid := s.objects[sid].(lock := Some(t), used := s'.objects[sid].used)]
            && s'.objects[sid].used == (if request.op.Frame? then s.objects[sid].used else s.now)
            && Next(s', Resume(t, true)) == s'.(tasks := s.tasks[t := Ended],
                 objects := s.objects[sid := s.objects[sid].(lock := None, used := s'.objects[sid].used)])
  {
    hide Run, Next, NoneExpired;
    var sid := s.sessions[scope];
    RunTwo(s, NewOp(t, scope, request), Resume(t, true));
    AskIsDecided(s, t, scope, request);
    var waiting := s.(tasks := s.tasks[t := OpWait(scope, sid, request)]);
    Operates(waiting, t);
    CommandIsDecided(waiting, t, true);
    CommandTouches(waiting, t, true);
    CommandRecords(waiting, t, true);
    var working := Next(waiting, Resume(t, true));
    assert working.tasks == s.tasks[t := OpHeld(scope, sid, request)];
    Unlocks(working, t, sid);
    assert working.tasks[t := Ended] == s.tasks[t := Ended];
  }

  lemma Operates(s: State, t: TaskId)
    requires t in s.tasks && s.tasks[t].OpWait? && LockFree(s, s.tasks[t].sid)
    ensures Next(s, Resume(t, true)) == Operate(s, t, true)
    ensures Operate(s, t, true).now == s.now && Operate(s, t, true).dropped == s.dropped
  {
    hide Allowed, Touches, Expired;
  }

  lemma Unlocks(s: State, t: TaskId, sid: Id)
    requires t in s.tasks && (s.tasks[t] == OpClosing(sid) || (s.tasks[t].OpHeld? && s.tasks[t].sid == sid))
    requires sid in s.objects
    ensures Next(s, Resume(t, true))
         == s.(tasks := s.tasks[t := Ended], objects := s.objects[sid := s.objects[sid].(lock := None)])
  {
  }

  /** A cancelled command lets go of its session's lock, also while it closes the session; one that waits just ends. */
  lemma InterruptionReleases(s: State, t: TaskId)
    requires t in s.tasks && (s.tasks[t].OpWait? || s.tasks[t].OpHeld? || s.tasks[t].OpClosing?)
    requires s.tasks[t].sid in s.objects
    ensures var sid := s.tasks[t].sid;
            Next(s, Interrupt(t))
            == s.(tasks := s.tasks[t := Ended],
                  objects := if s.tasks[t].OpWait? then s.objects
                             else s.objects[sid := s.objects[sid].(lock := None)])
  {
  }

  /** When the owner shares, the session becomes ready; his command alone can do that. */
  lemma SharingIsReady(s: State, t: TaskId)
    ensures Next(s, Share(t))
         == if t in s.tasks && s.tasks[t].OpHeld? && s.tasks[t].request.op == Activate && s.tasks[t].sid in s.objects
            then s.(objects := s.objects[s.tasks[t].sid := s.objects[s.tasks[t].sid].(phase := Ready)])
            else s
  {
  }

  /** When the site wants a new login, nobody may read, look or type any more until the owner takes over. */
  lemma NewLoginEndsAccess(s: State, sid: Id, request: Request)
    requires sid in s.objects && request.op in {Browse, Frame, Control}
    ensures var s' := Next(s, LoginPage(sid));
            && s' == s.(objects := s.objects[sid := s.objects[sid].(phase := Reauth)])
            && !Granted(s'.objects[sid], sid, request)
  {
  }

  /** The reaper takes out and closes a session eight hours after it was made, or half an hour after its last use. */
  lemma ExpiredIsReaped(s: State, t: TaskId, scope: Scope)
    requires t !in s.tasks && scope in s.sessions && LockFree(s, s.sessions[scope])
    requires s.now - s.objects[s.sessions[scope]].created > 28800 || s.now - s.objects[s.sessions[scope]].used > 1800
    ensures var sid := s.sessions[scope];
            Run(s, [NewReap(t, scope), Resume(t, true), Resume(t, true)])
            == s.(sessions := s.sessions - {scope}, tasks := s.tasks[t := Ended],
                  objects := s.objects[sid := s.objects[sid].(closing := true)])
  {
    hide Run, Next;
    var sid := s.sessions[scope];
    RunThree(s, NewReap(t, scope), Resume(t, true), Resume(t, true));
    Reaps(s, t, scope, sid);
    var taken := Next(SetTask(s, t, ReapWait(scope, sid)), Resume(t, true));
    Unlocks(taken, t, sid);
    assert taken.tasks[t := Ended] == s.tasks[t := Ended];
    assert taken.objects[sid := taken.objects[sid].(lock := None)]
        == s.objects[sid := s.objects[sid].(closing := true)];
  }

  lemma Reaps(s: State, t: TaskId, scope: Scope, sid: Id)
    requires t !in s.tasks && Registered(s.sessions, scope, sid) && LockFree(s, sid)
    requires s.now - s.objects[sid].created > 28800 || s.now - s.objects[sid].used > 1800
    ensures Next(s, NewReap(t, scope)) == SetTask(s, t, ReapWait(scope, sid))
    ensures Next(SetTask(s, t, ReapWait(scope, sid)), Resume(t, true))
         == s.(sessions := s.sessions - {scope}, tasks := s.tasks[t := ReapWait(scope, sid)][t := OpClosing(sid)],
               objects := s.objects[sid := s.objects[sid].(lock := Some(t), closing := true)])
  {
  }
}
