/**
  Replay-to-live handover of one PTY stream to N clients (pty_session.py:1143-1175, 1532-1606).

  Every segment between two awaits is one step. The reader loop is the only producer; attach,
  detach, eviction and shutdown may run between any two of its steps.
 */
module FanOut {
  import opened JsonlTail

  type Chunk = Bytes
  type Id = nat

  /**
    One attached observer. `batch` is what its attach took out of `pending` and has not sent yet,
    `delivered` what its callback received, `joined` how many chunks had been emitted when it
    registered, `lost` that a send to it failed.
   */
  datatype Client = Client(replaying: bool, attaching: bool, pending: seq<Chunk>, batch: seq<Chunk>,
                           delivered: seq<Chunk>, joined: nat, lost: bool)

  /**
    `registered` are the keys of `_clients`; a client dropped from it may still be used by the
    coroutine that holds it. `targets` are the live clients the current chunk is still owed to.
   */
  datatype Broker = Broker(stream: seq<Chunk>, nextId: Id, clients: map<Id, Client>, registered: set<Id>,
                           busy: bool, current: Chunk, targets: seq<Id>, dead: set<Id>)

  function Start(): Broker {
    Broker([], 0, map[], {}, false, [], [], {})
  }

  /** A send completes, or raises or times out with the chunk received or not. */
  datatype Send = Sent | Failed(reached: bool)

  datatype Action =
    | Emit(data: Chunk)                // _handle_output, the locked part
    | Deliver(send: Send)              // the reader's await on its first remaining target
    | Evict                            // the reader's second locked part, and return
    | Register                         // attach, the first locked part
    | Drain(id: Id)                    // one locked turn of attach's drain loop
    | SendBatch(id: Id, send: Send)    // attach's await on the first chunk of its batch
    | CancelAttach(id: Id)             // attach fails or is cancelled at any await: detach
    | Detach(id: Id)                   // the handler's own detach
    | Clear                            // exit or close drops every client

  /** The registered clients below `n` that are live, in the order they registered. */
  function LiveIds(b: Broker, n: Id): (ids: seq<Id>) {
    if n == 0 then []
    else
      var id := n - 1;
      var before := LiveIds(b, id);
      if id in b.registered && id in b.clients && !b.clients[id].replaying then before + [id] else before
  }

  lemma {:induction false} LiveIdsAre(b: Broker, n: Id)
    ensures var ids := LiveIds(b, n);
            && (forall id :: id in ids <==>
                  id < n && id in b.registered && id in b.clients && !b.clients[id].replaying)
            && (forall i | 0 <= i < |ids| :: ids[i] < n)
            && (forall i, j | 0 <= i < j < |ids| :: ids[i] < ids[j])
    decreases n
  {
    if n > 0 {
      LiveIdsAre(b, n - 1);
      if n - 1 in b.registered && n - 1 in b.clients && !b.clients[n - 1].replaying {
        assert LiveIds(b, n) == LiveIds(b, n - 1) + [n - 1];
      }
    }
  }

  function Buffered(b: Broker, id: Id, data: Chunk): Client
    requires id in b.clients
  {
    var c := b.clients[id];
    if id in b.registered && c.replaying then c.(pending := c.pending + [data]) else c
  }

  function AfterSend(c: Client, chunk: Chunk, send: Send): Client {
    match send
    case Sent => c.(delivered := c.delivered + [chunk])
    case Failed(reached) => c.(delivered := if reached then c.delivered + [chunk] else c.delivered, lost := true)
  }

  function Next(b: Broker, a: Action): (b': Broker) {
    match a
    case Emit(data) =>
      if b.busy then b
      else
        var targets := LiveIds(b, b.nextId);
        b.(stream := b.stream + [data],
           clients := map id | id in b.clients :: Buffered(b, id, data),
           current := data, targets := targets, busy := targets != [])
    case Deliver(send) =>
      if b.targets == [] || b.targets[0] !in b.clients then b
      else
        var id := b.targets[0];
        b.(clients := b.clients[id := AfterSend(b.clients[id], b.current, send)],
           targets := b.targets[1..],
           dead := if send.Sent? then b.dead else b.dead + {id})
    case Evict =>
      if !b.busy || b.targets != [] then b
      else b.(registered := b.registered - b.dead, dead := {}, busy := false)
    case Register =>
      b.(nextId := b.nextId + 1,
         clients := b.clients[b.nextId := Client(true, true, [], [], [], |b.stream|, false)],
         registered := b.registered + {b.nextId})
    case Drain(id) =>
      if id !in b.clients || !b.clients[id].attaching || !b.clients[id].replaying || b.clients[id].batch != [] then b
      else
        var c := b.clients[id];
        b.(clients := b.clients[id := if c.pending == [] then c.(replaying := false)
                                      else c.(batch := c.pending, pending := [])])
    case SendBatch(id, send) =>
      if id !in b.clients || !b.clients[id].attaching || b.clients[id].batch == [] then b
      else
        var c := b.clients[id];
        var sent := AfterSend(c.(batch := c.batch[1..]), c.batch[0], send);
        if send.Sent? then b.(clients := b.clients[id := sent])
        else b.(clients := b.clients[id := sent.(attaching := false)], registered := b.registered - {id})
    case CancelAttach(id) =>
      if id !in b.clients || !b.clients[id].attaching then b
      else b.(clients := b.clients[id := b.clients[id].(attaching := false)], registered := b.registered - {id})
    case Detach(id) => b.(registered := b.registered - {id})
    case Clear => b.(registered := {})
  }

  /** The chunk being fanned out, if client `id` is still owed it. */
  function InFlight(b: Broker, id: Id): seq<Chunk> {
    if id in b.targets then [b.current] else []
  }

  /** Everything the broker has taken on for a client, in the order it will arrive. */
  function Whole(b: Broker, id: Id): seq<Chunk>
    requires id in b.clients
  {
    b.clients[id].delivered + b.clients[id].batch + b.clients[id].pending + InFlight(b, id)
  }

  function Since(b: Broker, joined: nat): seq<Chunk> {
    if joined <= |b.stream| then b.stream[joined..] else []
  }

  ghost predicate ClientInv(b: Broker, id: Id)
    requires id in b.clients
  {
    var c := b.clients[id];
    && c.joined <= |b.stream|
    && (!c.replaying ==> c.pending == [] && c.batch == [])
    && (id in b.targets ==> !c.replaying)
    && (c.lost ==> !c.replaying || !c.attaching)
    && (if c.lost then id !in b.targets && c.delivered <= Since(b, c.joined)
        else Whole(b, id) <= Since(b, c.joined))
    && (id in b.registered && !c.lost ==> Whole(b, id) == Since(b, c.joined))
    && (id in b.registered && c.replaying ==> c.attaching)
    && (id in b.registered && c.lost ==> id in b.dead)
  }

  ghost predicate Inv(b: Broker) {
    && (forall id | id in b.clients :: id < b.nextId)
    && b.registered <= b.clients.Keys
    && (forall id | id in b.targets :: id in b.clients)
    && (forall i, j | 0 <= i < j < |b.targets| :: b.targets[i] != b.targets[j])
    && (b.targets != [] || b.dead != {} ==> b.busy)
    && (forall id | id in b.dead :: id in b.clients && b.clients[id].lost)
    && (forall id | id in b.clients :: ClientInv(b, id))
  }

  lemma EmitKeepsInv(b: Broker, data: Chunk)
    requires Inv(b) && !b.busy
    ensures Inv(Next(b, Emit(data)))
  {
    hide ClientInv, LiveIds;
    LiveIdsAre(b, b.nextId);
    var b' := Next(b, Emit(data));
    forall id | id in b'.clients
      ensures ClientInv(b', id)
    {
      EmitReaches(b, b', id, data);
    }
  }

  lemma EmitReaches(b: Broker, b': Broker, id: Id, data: Chunk)
    requires Inv(b) && !b.busy && b' == Next(b, Emit(data)) && id in b.clients
    ensures id in b'.clients && ClientInv(b', id)
  {
    hide LiveIds;
    LiveIdsAre(b, b.nextId);
    assert ClientInv(b, id);
    var c := b.clients[id];
    var since := Since(b, c.joined);
    assert Since(b', c.joined) == since + [data];
    assert InFlight(b, id) == [];
    var whole := Whole(b, id);
    assert whole == c.delivered + c.batch + c.pending;
    if id in b.registered {
      assert Whole(b', id) == whole + [data];
    } else {
      assert Whole(b', id) == whole;
    }
  }

  lemma DeliverKeepsInv(b: Broker, send: Send)
    requires Inv(b) && b.targets != []
    ensures Inv(Next(b, Deliver(send)))
  {
    hide ClientInv;
    var b' := Next(b, Deliver(send));
    var first := b.targets[0];
    assert first !in b'.targets;
    forall id | id in b'.clients
      ensures ClientInv(b', id)
    {
      if id == first {
        DeliveredNext(b, b', id, send);
      } else {
        assert id in b.targets <==> id in b'.targets;
        Undisturbed(b, b', id);
      }
    }
  }

  lemma DeliveredNext(b: Broker, b': Broker, id: Id, send: Send)
    requires Inv(b) && b.targets != [] && id == b.targets[0] && b' == Next(b, Deliver(send)) && id !in b'.targets
    ensures id in b'.clients && ClientInv(b', id)
  {
    var c := b.clients[id];
    assert ClientInv(b, id);
    assert id in b.targets;
    assert Whole(b, id) == c.delivered + [b.current];
    if send.Sent? {
      assert Whole(b', id) == Whole(b, id);
    }
  }

  lemma SendBatchKeepsInv(b: Broker, target: Id, send: Send)
    requires Inv(b) && target in b.clients && b.clients[target].attaching && b.clients[target].batch != []
    ensures Inv(Next(b, SendBatch(target, send)))
  {
    hide ClientInv;
    var b' := Next(b, SendBatch(target, send));
    forall id | id in b'.clients
      ensures ClientInv(b', id)
    {
      if id != target {
        Undisturbed(b, b', id);
      } else {
        BatchSent(b, b', id, send);
      }
    }
  }

  /** A client keeps its invariant when nothing of it changes but, perhaps, its registration. */
  lemma Undisturbed(b: Broker, b': Broker, id: Id)
    requires id in b.clients && id in b'.clients && ClientInv(b, id)
    requires b'.clients[id] == b.clients[id] && b'.stream == b.stream && InFlight(b', id) == InFlight(b, id)
    requires id in b'.registered ==> id in b.registered && (id in b.dead ==> id in b'.dead)
    ensures ClientInv(b', id)
  {
  }

  lemma BatchSent(b: Broker, b': Broker, id: Id, send: Send)
    requires id in b.clients && ClientInv(b, id) && b.clients[id].attaching && b.clients[id].batch != []
    requires b' == Next(b, SendBatch(id, send))
    ensures ClientInv(b', id)
  {
    var c := b.clients[id];
    assert c.delivered + c.batch == c.delivered + [c.batch[0]] + c.batch[1..];
    if send.Sent? {
      assert Whole(b', id) == Whole(b, id);
    } else {
      assert c.delivered + [c.batch[0]] <= Whole(b, id);
    }
  }

  lemma RegisterKeepsInv(b: Broker)
    requires Inv(b)
    ensures Inv(Next(b, Register))
  {
  }

  lemma DrainKeepsInv(b: Broker, target: Id)
    requires Inv(b)
    ensures Inv(Next(b, Drain(target)))
  {
    hide ClientInv;
    var b' := Next(b, Drain(target));
    forall id | id in b'.clients
      ensures ClientInv(b', id)
    {
      if id == target {
        Drained(b, b', id);
      } else {
        Undisturbed(b, b', id);
      }
    }
  }

  lemma Drained(b: Broker, b': Broker, id: Id)
    requires id in b.clients && ClientInv(b, id) && b' == Next(b, Drain(id))
    ensures ClientInv(b', id)
  {
  }

  lemma RemovalKeepsInv(b: Broker, a: Action)
    requires Inv(b) && (a.Evict? || a.Detach? || a.Clear?)
    ensures Inv(Next(b, a))
  {
    hide ClientInv;
    var b' := Next(b, a);
    forall id | id in b'.clients
      ensures ClientInv(b', id)
    {
      if a.Evict? {
        EvictKeeps(b, b', id);
      } else {
        Undisturbed(b, b', id);
      }
    }
  }

  lemma EvictKeeps(b: Broker, b': Broker, id: Id)
    requires id in b.clients && ClientInv(b, id) && b' == Next(b, Evict)
    ensures ClientInv(b', id)
  {
  }

  lemma CancelKeepsInv(b: Broker, target: Id)
    requires Inv(b)
    ensures Inv(Next(b, CancelAttach(target)))
  {
    hide ClientInv;
    var b' := Next(b, CancelAttach(target));
    forall id | id in b'.clients
      ensures ClientInv(b', id)
    {
      if id == target {
        CancelKeeps(b, b', id);
      } else {
        Undisturbed(b, b', id);
      }
    }
  }

  lemma CancelKeeps(b: Broker, b': Broker, id: Id)
    requires id in b.clients && ClientInv(b, id) && b' == Next(b, CancelAttach(id))
    ensures ClientInv(b', id)
  {
  }

  lemma StepKeepsInv(b: Broker, a: Action)
    requires Inv(b)
    ensures Inv(Next(b, a))
  {
    hide ClientInv;
    match a
    case Emit(data) =>
      if !b.busy {
        EmitKeepsInv(b, data);
      }
    case Deliver(send) =>
      if b.targets != [] {
        DeliverKeepsInv(b, send);
      }
    case SendBatch(id, send) =>
      if id in b.clients && b.clients[id].attaching && b.clients[id].batch != [] {
        SendBatchKeepsInv(b, id, send);
      }
    case Register => RegisterKeepsInv(b);
    case Drain(id) => DrainKeepsInv(b, id);
    case Evict => RemovalKeepsInv(b, a);
    case CancelAttach(id) => CancelKeepsInv(b, id);
    case Detach(_) => RemovalKeepsInv(b, a);
    case Clear => RemovalKeepsInv(b, a);
  }

  function Run(b: Broker, actions: seq<Action>): (b': Broker)
    decreases |actions|
  {
    if actions == [] then b else Run(Next(b, actions[0]), actions[1..])
  }

  lemma {:induction false} RunKeepsInv(b: Broker, actions: seq<Action>)
    requires Inv(b)
    ensures Inv(Run(b, actions))
    decreases |actions|
  {
    hide Inv, Next;
    if actions != [] {
      StepKeepsInv(b, actions[0]);
      RunKeepsInv(Next(b, actions[0]), actions[1..]);
    }
  }

  /**
    The handover loses, duplicates and reorders nothing: after any interleaving, what a registered
    client that no send has failed to has received, plus what is on its way to it, is exactly the
    chunks emitted since it registered.
   */
  lemma NothingLost(actions: seq<Action>, id: Id)
    ensures var b := Run(Start(), actions);
            id in b.registered && id in b.clients && !b.clients[id].lost ==>
              Whole(b, id) == Since(b, b.clients[id].joined)
  {
    RunKeepsInv(Start(), actions);
    var b := Run(Start(), actions);
    if id in b.registered {
      assert ClientInv(b, id);
    }
  }

  /** Whatever became of a client, what it received is a prefix of the chunks emitted since it registered. */
  lemma RemovedHasPrefix(actions: seq<Action>, id: Id)
    ensures var b := Run(Start(), actions);
            id in b.clients ==> b.clients[id].delivered <= Since(b, b.clients[id].joined)
  {
    RunKeepsInv(Start(), actions);
    var b := Run(Start(), actions);
    if id in b.clients {
      assert ClientInv(b, id);
    }
  }

  /** Once live, and between two chunks, a client is up to date; until then its attach still drains it. */
  lemma LiveIsCurrent(actions: seq<Action>, id: Id)
    ensures var b := Run(Start(), actions);
            id in b.registered && id in b.clients && !b.clients[id].lost ==>
              if b.clients[id].replaying then b.clients[id].attaching
              else !b.busy ==> b.clients[id].delivered == Since(b, b.clients[id].joined)
  {
    RunKeepsInv(Start(), actions);
    var b := Run(Start(), actions);
    if id in b.registered {
      assert ClientInv(b, id);
    }
  }

  /** A failed live send removes the client before the next chunk is emitted. */
  lemma LostAreEvicted(actions: seq<Action>, id: Id)
    ensures var b := Run(Start(), actions);
            !b.busy && id in b.registered && id in b.clients ==> !b.clients[id].lost
  {
    RunKeepsInv(Start(), actions);
    var b := Run(Start(), actions);
    if id in b.registered {
      assert ClientInv(b, id);
    }
  }

  // ---------- who stays registered ----------

  /** The send that this step ends was one to `id`, and failed. */
  predicate FailsTo(b: Broker, a: Action, id: Id) {
    match a
    case Deliver(send) => send.Failed? && b.targets != [] && b.targets[0] == id && id in b.clients
    case SendBatch(to, send) =>
      send.Failed? && to == id && id in b.clients && b.clients[id].attaching && b.clients[id].batch != []
    case _ => false
  }

  /** The step takes client `id` out of the table. */
  predicate Removes(b: Broker, a: Action, id: Id) {
    match a
    case Evict => b.busy && b.targets == [] && id in b.clients && b.clients[id].lost
    case SendBatch(_, _) => FailsTo(b, a, id)
    case CancelAttach(of) => of == id && id in b.clients && b.clients[id].attaching
    case Detach(of) => of == id
    case Clear => true
    case _ => false
  }

  /** Each step keeps exactly the clients it does not remove, and only a registration adds one. */
  lemma RegisteredIff(b: Broker, a: Action, id: Id)
    requires Inv(b)
    ensures id in Next(b, a).registered <==>
              (id in b.registered && !Removes(b, a, id)) || (a == Register && id == b.nextId)
    ensures id in b.clients ==>
              && id in Next(b, a).clients
              && (Next(b, a).clients[id].lost <==> b.clients[id].lost || FailsTo(b, a, id))
    ensures a == Register ==>
              b.nextId !in b.clients && b.nextId in Next(b, a).clients && !Next(b, a).clients[b.nextId].lost
  {
    hide LiveIds, Whole, Since;
    if id in b.clients {
      assert ClientInv(b, id);
    }
  }

  /** No step of the run fails to send to client `id`, detaches it or drops all clients. */
  predicate LeavesAlone(b: Broker, actions: seq<Action>, id: Id)
    decreases |actions|
  {
    actions == [] ||
    (&& !FailsTo(b, actions[0], id) && actions[0] != Detach(id) && actions[0] != CancelAttach(id)
     && actions[0] != Clear && LeavesAlone(Next(b, actions[0]), actions[1..], id))
  }

  /** A client that no send fails to and that nobody detaches stays registered, whatever becomes of the others. */
  lemma {:induction false} StaysRegistered(b: Broker, actions: seq<Action>, id: Id)
    requires Inv(b) && id in b.registered && id in b.clients && !b.clients[id].lost && LeavesAlone(b, actions, id)
    ensures var b' := Run(b, actions);
            id in b'.registered && id in b'.clients && !b'.clients[id].lost
    decreases |actions|
  {
    hide Inv, Next;
    if actions != [] {
      RegisteredIff(b, actions[0], id);
      StepKeepsInv(b, actions[0]);
      StaysRegistered(Next(b, actions[0]), actions[1..], id);
    }
  }

  /** So from its registration on it is owed, and gets in order, every chunk. */
  lemma GetsEverything(before: seq<Action>, after: seq<Action>)
    requires var b := Run(Start(), before);
             LeavesAlone(Next(b, Register), after, b.nextId)
    ensures var id := Run(Start(), before).nextId;
            var b' := Run(Next(Run(Start(), before), Register), after);
            && id in b'.registered && id in b'.clients && !b'.clients[id].lost
            && Whole(b', id) == Since(b', b'.clients[id].joined)
            && (!b'.busy && !b'.clients[id].replaying ==> b'.clients[id].delivered == Since(b', b'.clients[id].joined))
  {
    hide Next, LeavesAlone;
    RunKeepsInv(Start(), before);
    var b := Run(Start(), before);
    StepKeepsInv(b, Register);
    RegisteredIff(b, Register, b.nextId);
    RunKeepsInv(Next(b, Register), after);
    StaysRegistered(Next(b, Register), after, b.nextId);
    assert ClientInv(Run(Next(b, Register), after), b.nextId);
  }

  // ---------- getting there ----------

  function Sends(id: Id, n: nat): (sends: seq<Action>) {
    if n == 0 then [] else [SendBatch(id, Sent)] + Sends(id, n - 1)
  }

  function SetClient(b: Broker, id: Id, c: Client): Broker {
    b.(clients := b.clients[id := c])
  }

  lemma {:induction false} RunAppend(b: Broker, x: seq<Action>, y: seq<Action>)
    ensures Run(b, x + y) == Run(Run(b, x), y)
    decreases |x|
  {
    hide Next;
    if x == [] {
      assert x + y == y;
    } else {
      assert (x + y)[0] == x[0] && (x + y)[1..] == x[1..] + y;
      RunAppend(Next(b, x[0]), x[1..], y);
    }
  }

  lemma RunOne(b: Broker, a: Action)
    ensures Run(b, [a]) == Next(b, a)
  {
    hide Next;
    assert [a][1..] == [];
  }

  lemma ChunkArrives(b: Broker, id: Id)
    requires id in b.clients && b.clients[id].attaching && b.clients[id].batch != []
    ensures var c := b.clients[id];
            Next(b, SendBatch(id, Sent))
            == SetClient(b, id, c.(batch := c.batch[1..], delivered := c.delivered + [c.batch[0]]))
  {
  }

  /** Sending a whole batch moves it, chunk by chunk and in order, to what was delivered. */
  lemma {:induction false} BatchArrives(b: Broker, id: Id)
    requires id in b.clients && b.clients[id].attaching
    ensures var c := b.clients[id];
            Run(b, Sends(id, |c.batch|)) == SetClient(b, id, c.(batch := [], delivered := c.delivered + c.batch))
    decreases |b.clients[id].batch|
  {
    hide Next;
    var c := b.clients[id];
    if c.batch == [] {
      assert c.delivered + c.batch == c.delivered;
      assert SetClient(b, id, c) == b;
    } else {
      ChunkArrives(b, id);
      var next := Next(b, SendBatch(id, Sent));
      BatchArrives(next, id);
      assert c.delivered + [c.batch[0]] + c.batch[1..] == c.delivered + c.batch;
      assert Sends(id, |c.batch|)[1..] == Sends(id, |c.batch| - 1);
    }
  }

  /** An attach that is left to work off its batch, and one more, goes live with everything sent. */
  lemma AttachGoesLive(b: Broker, id: Id)
    requires id in b.clients && b.clients[id].attaching && b.clients[id].replaying
    ensures var c := b.clients[id];
            Run(b, Sends(id, |c.batch|) + [Drain(id)] + Sends(id, |c.pending|) + [Drain(id)])
            == SetClient(b, id, c.(replaying := false, pending := [], batch := [],
                                   delivered := c.delivered + c.batch + c.pending))
  {
    hide Run, Sends;
    var c := b.clients[id];
    var x, y := Sends(id, |c.batch|), Sends(id, |c.pending|);
    RunAppend(b, x + [Drain(id)] + y, [Drain(id)]);
    RunAppend(b, x + [Drain(id)], y);
    RunAppend(b, x, [Drain(id)]);
    BatchArrives(b, id);
    var sent := Run(b, x);
    RunOne(sent, Drain(id));
    var drained := Next(sent, Drain(id));
    if c.pending == [] {
      assert c.delivered + c.batch + c.pending == c.delivered + c.batch;
      NoSends(drained, id);
    } else {
      BatchArrives(drained, id);
    }
    RunOne(Run(drained, y), Drain(id));
  }

  lemma NoSends(b: Broker, id: Id)
    ensures Run(b, Sends(id, 0)) == b
  {
  }

  function Deliveries(n: nat): (deliveries: seq<Action>) {
    if n == 0 then [] else [Deliver(Sent)] + Deliveries(n - 1)
  }

  /** Delivering to every target appends the chunk to what each of them got, and touches no other client. */
  lemma {:induction false} TargetsReached(b: Broker)
    requires forall id | id in b.targets :: id in b.clients
    requires forall i, j | 0 <= i < j < |b.targets| :: b.targets[i] != b.targets[j]
    ensures var b' := Run(b, Deliveries(|b.targets|));
            && b' == b.(clients := b'.clients, targets := []) && b'.clients.Keys == b.clients.Keys
            && forall id | id in b.clients ::
                 var c := b.clients[id];
                 b'.clients[id] == if id in b.targets then c.(delivered := c.delivered + [b.current]) else c
    decreases |b.targets|
  {
    if b.targets != [] {
      var next := Next(b, Deliver(Sent));
      assert b.targets == [b.targets[0]] + next.targets;
      assert b.targets[0] !in next.targets;
      TargetsReached(next);
      assert Deliveries(|b.targets|)[1..] == Deliveries(|b.targets| - 1);
    }
  }

  /** A chunk that no send fails for reaches every registered client, live ones at once, and evicts nobody. */
  lemma ChunkReachesAll(b: Broker, data: Chunk)
    requires Inv(b) && !b.busy
    ensures var b' := Run(b, [Emit(data)] + Deliveries(|LiveIds(b, b.nextId)|) + [Evict]);
            && !b'.busy && b'.registered == b.registered && b'.stream == b.stream + [data]
            && b'.clients.Keys == b.clients.Keys
            && forall id | id in b.registered && id in b.clients ::
                 var c := b.clients[id];
                 b'.clients[id] == if c.replaying then c.(pending := c.pending + [data])
                                   else c.(delivered := c.delivered + [data])
  {
    hide Run, Deliveries, LiveIds, ClientInv;
    LiveIdsAre(b, b.nextId);
    var n := |LiveIds(b, b.nextId)|;
    RunAppend(b, [Emit(data)] + Deliveries(n), [Evict]);
    RunAppend(b, [Emit(data)], Deliveries(n));
    RunOne(b, Emit(data));
    var emitted := Next(b, Emit(data));
    EmitKeepsInv(b, data);
    TargetsReached(emitted);
    RunOne(Run(emitted, Deliveries(n)), Evict);
  }

  /** The loop over `_clients`: buffer for the replaying ones, collect the live ones. */
  method Distribute(ghost b: Broker, clients: map<Id, Client>, registered: set<Id>, nextId: Id, data: Chunk)
    returns (buffered: map<Id, Client>, live: seq<Id>)
    requires b.clients == clients && b.registered == registered && registered <= clients.Keys
    requires forall id | id in clients :: id < nextId
    ensures buffered == map id | id in b.clients :: Buffered(b, id, data)
    ensures live == LiveIds(b, nextId)
  {
    buffered, live := clients, [];
    for id := 0 to nextId
      invariant live == LiveIds(b, id)
      invariant buffered.Keys == clients.Keys
      invariant forall k | k in clients && k < id :: buffered[k] == Buffered(b, k, data)
      invariant forall k | k in clients && k >= id :: buffered[k] == clients[k]
    {
      if id in registered {
        var client := buffered[id];
        if client.replaying {
          buffered := buffered[id := client.(pending := client.pending + [data])];
        } else {
          live := live + [id];
        }
      }
    }
  }

  lemma LostAreDead(b: Broker)
    requires Inv(b)
    ensures forall id | id in b.registered :: id in b.dead <==> b.clients[id].lost
  {
    forall id | id in b.registered
      ensures id in b.dead <==> b.clients[id].lost
    {
      assert ClientInv(b, id);
    }
  }

  /** The fields of `PtySession` that the handover uses, updated in place by each segment. */
  class Session {
    var clients: map<Id, Client>
    var registered: set<Id>
    var nextClientId: Id
    var busy: bool
    var current: Chunk
    var targets: seq<Id>
    var dead: set<Id>
    var stream: seq<Chunk> // history: every chunk emitted

    ghost function View(): Broker
      reads this
    {
      Broker(stream, nextClientId, clients, registered, busy, current, targets, dead)
    }

    constructor ()
      ensures View() == Start()
    {
      clients, registered, nextClientId, busy, current, targets, dead := map[], {}, 0, false, [], [], {};
      stream := [];
    }

    /** `_handle_output` under the lock. */
    method HandleOutput(data: Chunk)
      requires Inv(View()) && !busy
      modifies this
      ensures View() == Next(old(View()), Emit(data)) && Inv(View())
    {
      EmitKeepsInv(View(), data);
      clients, targets := Distribute(View(), clients, registered, nextClientId, data);
      current, busy := data, targets != [];
      stream := stream + [data];
    }

    /** The reader's send to its next target returned, or failed. */
    method SentLive(send: Send)
      requires Inv(View()) && targets != []
      modifies this
      ensures View() == Next(old(View()), Deliver(send)) && Inv(View())
    {
      DeliverKeepsInv(View(), send);
      var id := targets[0];
      clients := clients[id := AfterSend(clients[id], current, send)];
      targets := targets[1..];
      if send.Failed? {
        dead := dead + {id};
      }
    }

    /** `_evict_client` for each client whose send failed. */
    method EvictDead()
      requires Inv(View()) && busy && targets == []
      modifies this
      ensures View() == Next(old(View()), Evict) && Inv(View())
      ensures forall id :: id in registered <==> id in old(registered) && !clients[id].lost
    {
      LostAreDead(View());
      RemovalKeepsInv(View(), Evict);
      registered, dead, busy := registered - dead, {}, false;
    }

    /** The registration in `attach`. */
    method AttachRegister() returns (id: Id)
      requires Inv(View())
      modifies this
      ensures View() == Next(old(View()), Register) && Inv(View()) && id == old(nextClientId)
      ensures id !in old(clients) && registered == old(registered) + {id}
      ensures id in clients && clients[id].replaying && clients[id].pending == clients[id].delivered == []
    {
      RegisterKeepsInv(View());
      id := nextClientId;
      nextClientId := nextClientId + 1;
      clients := clients[id := Client(true, true, [], [], [], |stream|, false)];
      registered := registered + {id};
    }

    /** One locked turn of the drain loop in `attach`; `live` ends the loop. */
    method DrainTurn(id: Id) returns (live: bool)
      requires Inv(View()) && id in clients
      requires clients[id].attaching && clients[id].replaying && clients[id].batch == []
      modifies this
      ensures View() == Next(old(View()), Drain(id)) && Inv(View())
      ensures id in clients && (live <==> old(clients[id].pending) == []) && (live <==> !clients[id].replaying)
      ensures !live ==> clients[id].batch == old(clients[id].pending) && clients[id].pending == []
      ensures live && id in registered && !clients[id].lost ==>
                clients[id].delivered == Since(View(), clients[id].joined)
    {
      DrainKeepsInv(View(), id);
      assert ClientInv(View(), id);
      var c := clients[id];
      live := c.pending == [];
      if live {
        clients := clients[id := c.(replaying := false)];
      } else {
        clients := clients[id := c.(batch := c.pending, pending := [])];
      }
    }

    /** `attach` sent the next chunk of its batch, or failed to and detached. */
    method SentBatch(id: Id, send: Send)
      requires Inv(View()) && id in clients && clients[id].attaching && clients[id].batch != []
      modifies this
      ensures View() == Next(old(View()), SendBatch(id, send)) && Inv(View())
    {
      SendBatchKeepsInv(View(), id, send);
      var c := clients[id];
      var sent := AfterSend(c.(batch := c.batch[1..]), c.batch[0], send);
      clients := clients[id := if send.Sent? then sent else sent.(attaching := false)];
      if send.Failed? {
        registered := registered - {id};
      }
    }

    /** `detach`. */
    method Unregister(id: Id)
      requires Inv(View())
      modifies this
      ensures View() == Next(old(View()), Detach(id)) && Inv(View())
    {
      RemovalKeepsInv(View(), Detach(id));
      registered := registered - {id};
    }
  }
}
