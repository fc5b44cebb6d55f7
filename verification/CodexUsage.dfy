/** The codex dialect of token accounting (usage_watcher.py): events, billing, `_codex_delta`. */
module CodexUsage {
  import opened Wrappers
  import opened JsonlTail

  datatype Kind = Input | Output

  /** A cumulative session counter; an absent Python field reads as 0. */
  datatype Counter = Counter(input: nat, output: nat) {
    function Of(kind: Kind): (tokens: nat) {
      if kind == Input then input else output
    }

    function Plus(other: Counter): Counter {
      Counter(input + other.input, output + other.output)
    }

    /** The unbilled increment from this counter to a later one, never negative. */
    function StepTo(next: Counter): Counter {
      Counter(if next.input > input then next.input - input else 0,
              if next.output > output then next.output - output else 0)
    }
  }

  function Zero(): Counter {
    Counter(0, 0)
  }

  /** A model name; `Unnamed` is Python's "". */
  datatype Name = Unnamed | Name(text: string)

  /** One parsed transcript line: the model it names and its token_count, if any. */
  datatype Entry = Entry(model: Name, counter: Option<Counter>)

  datatype Event = Named(model: Name) | Tokens(counter: Counter)

  /** The events of the lines that matter; a line that names a model carries no counter. */
  function Events(entries: seq<Entry>): (events: seq<Event>) {
    if entries == [] then []
    else
      var e := entries[0];
      (if e.model != Unnamed then [Named(e.model)]
       else if e.counter.Some? then [Tokens(e.counter.value)]
       else []) + Events(entries[1..])
  }

  /** The events recorded in a stretch of transcript. */
  function EventsOf(data: Bytes, loads: Bytes -> Option<Entry>): (events: seq<Event>) {
    Events(Parse(data, loads))
  }

  /** The model a turn is charged to: the named one, else the configured one. */
  function Charge(model: Name, configured: Name): Name {
    if model == Unnamed then configured else model
  }

  /** Which bill is being computed: one kind of token, for one model or over all of them. */
  datatype Who = Everyone(kind: Kind) | Model(kind: Kind, key: Name, configured: Name)

  predicate Charged(model: Name, who: Who) {
    who.Everyone? || Charge(model, who.configured) == who.key
  }

  function CounterAfter(e: Event, reference: Counter): Counter {
    if e.Tokens? then e.counter else reference
  }

  function ModelAfter(e: Event, model: Name): Name {
    if e.Named? then e.model else model
  }

  function Due(e: Event, reference: Counter, model: Name, who: Who): nat {
    if e.Tokens? && Charged(model, who) then reference.StepTo(e.counter).Of(who.kind) else 0
  }

  /**
    The simple form of accounting: one fold over the events, charging each counter step to the
    model last named before it.
   */
  function Owed(events: seq<Event>, reference: Counter, model: Name, who: Who): (owed: nat) {
    if events == [] then 0
    else
      Due(events[0], reference, model, who)
      + Owed(events[1..], CounterAfter(events[0], reference), ModelAfter(events[0], model), who)
  }

  /** The counter in force after the events; None while none was ever known. */
  function LastCounter(events: seq<Event>, reference: Option<Counter>): (last: Option<Counter>)
    ensures reference.Some? ==> last.Some?
  {
    if events == [] then reference
    else LastCounter(events[1..], if events[0].Tokens? then Some(events[0].counter) else reference)
  }

  function LastModel(events: seq<Event>, model: Name): (last: Name) {
    if events == [] then model else LastModel(events[1..], ModelAfter(events[0], model))
  }

  /** The counters of one kind never go down, starting from `reference`. */
  predicate Monotone(events: seq<Event>, reference: Counter, kind: Kind) {
    events != [] ==>
      && reference.Of(kind) <= CounterAfter(events[0], reference).Of(kind)
      && Monotone(events[1..], CounterAfter(events[0], reference), kind)
  }

  // ---------- the fold splits wherever the transcript is cut ----------

  lemma {:induction false} EventsAppend(a: seq<Entry>, b: seq<Entry>)
    ensures Events(a + b) == Events(a) + Events(b)
    decreases |a|
  {
    if a == [] {
      assert a + b == b;
    } else {
      assert (a + b)[1..] == a[1..] + b;
      EventsAppend(a[1..], b);
    }
  }

  lemma EventsOfAppend(a: Bytes, b: Bytes, loads: Bytes -> Option<Entry>)
    requires a == [] || a[|a| - 1] == LF
    ensures EventsOf(a + b, loads) == EventsOf(a, loads) + EventsOf(b, loads)
  {
    ParseAppend(a, b, loads);
    EventsAppend(Parse(a, loads), Parse(b, loads));
  }

  lemma {:induction false} LastAppend(a: seq<Event>, b: seq<Event>, reference: Option<Counter>, model: Name)
    ensures LastCounter(a + b, reference) == LastCounter(b, LastCounter(a, reference))
    ensures LastModel(a + b, model) == LastModel(b, LastModel(a, model))
    decreases |a|
  {
    if a == [] {
      assert a + b == b;
    } else {
      assert (a + b)[1..] == a[1..] + b;
      LastAppend(a[1..], b, if a[0].Tokens? then Some(a[0].counter) else reference, ModelAfter(a[0], model));
    }
  }

  lemma {:induction false} OwedAppend(a: seq<Event>, b: seq<Event>, reference: Counter, model: Name, who: Who)
    ensures Owed(a + b, reference, model, who)
         == Owed(a, reference, model, who) + Owed(b, LastCounter(a, Some(reference)).value, LastModel(a, model), who)
    decreases |a|
  {
    if a == [] {
      NothingOwed(a, reference, model, who);
      assert a + b == b;
    } else {
      assert (a + b)[1..] == a[1..] + b && (a + b)[0] == a[0];
      OwedAppend(a[1..], b, CounterAfter(a[0], reference), ModelAfter(a[0], model), who);
    }
  }

  lemma NothingOwed(none: seq<Event>, reference: Counter, model: Name, who: Who)
    requires none == []
    ensures Owed(none, reference, model, who) == 0
    ensures LastCounter(none, Some(reference)) == Some(reference) && LastModel(none, model) == model
  {
  }

  lemma OwedOneMore(done: seq<Event>, e: Event, reference: Counter, model: Name, who: Who)
    ensures Owed(done + [e], reference, model, who)
         == Owed(done, reference, model, who)
            + Due(e, LastCounter(done, Some(reference)).value, LastModel(done, model), who)
  {
    OwedAppend(done, [e], reference, model, who);
  }

  /** With monotone counters the whole bill telescopes to last counter minus reference. */
  lemma {:induction false} MonotoneTelescopes(events: seq<Event>, reference: Counter, model: Name, kind: Kind)
    requires Monotone(events, reference, kind)
    ensures reference.Of(kind) + Owed(events, reference, model, Everyone(kind))
            == LastCounter(events, Some(reference)).value.Of(kind)
    decreases |events|
  {
    if events == [] {
      NothingOwed(events, reference, model, Everyone(kind));
    } else {
      MonotoneTelescopes(events[1..], CounterAfter(events[0], reference), ModelAfter(events[0], model), kind);
    }
  }

  /** What a model owes under a configured fallback, from what the raw names owe. */
  lemma {:induction false} ChargeMerges(events: seq<Event>, reference: Counter, model: Name, kind: Kind, key: Name,
                                        configured: Name)
    ensures Owed(events, reference, model, Model(kind, key, configured))
         == (if key != Unnamed then Owed(events, reference, model, Model(kind, key, Unnamed)) else 0)
            + (if key == configured then Owed(events, reference, model, Model(kind, Unnamed, Unnamed)) else 0)
    decreases |events|
  {
    if events == [] {
      NothingOwed(events, reference, model, Model(kind, key, configured));
      NothingOwed(events, reference, model, Model(kind, key, Unnamed));
      NothingOwed(events, reference, model, Model(kind, Unnamed, Unnamed));
    } else {
      var next := CounterAfter(events[0], reference);
      ChargeMerges(events[1..], next, ModelAfter(events[0], model), kind, key, configured);
    }
  }

  // ---------- tables of counters by model ----------

  type Shares = map<Name, Counter>

  function Share(m: Shares, key: Name): Counter {
    if key in m then m[key] else Zero()
  }

  /** `setdefault(k, zero)` followed by two `+=`. */
  function AddShare(m: Shares, k: Name, step: Counter): Shares {
    m[k := Share(m, k).Plus(step)]
  }

  /** The sum of all shares of a table. */
  ghost function Sum(m: Shares, kind: Kind): (sum: int)
    decreases |m|
  {
    if m == map[] then 0
    else
      var k :| k in m;
      m[k].Of(kind) + Sum(m - {k}, kind)
  }

  lemma {:induction false} SumWithout(m: Shares, k: Name, kind: Kind)
    requires k in m
    ensures Sum(m, kind) == m[k].Of(kind) + Sum(m - {k}, kind)
    decreases |m|
  {
    var j :| j in m && Sum(m, kind) == m[j].Of(kind) + Sum(m - {j}, kind);
    if j != k {
      assert |m - {j}| < |m| && |m - {k}| < |m| by {
        assert (m - {j}).Keys == m.Keys - {j} && (m - {k}).Keys == m.Keys - {k};
      }
      SumWithout(m - {j}, k, kind);
      SumWithout(m - {k}, j, kind);
      assert m - {j} - {k} == m - {k} - {j};
    }
  }

  lemma SumAdd(m: Shares, k: Name, step: Counter, kind: Kind)
    ensures Sum(AddShare(m, k, step), kind) == Sum(m, kind) + step.Of(kind)
  {
    var m' := AddShare(m, k, step);
    SumWithout(m', k, kind);
    assert m' - {k} == m - {k};
    if k in m {
      SumWithout(m, k, kind);
    } else {
      assert m - {k} == m;
    }
  }

  // ---------- the bill, entry by entry ----------

  /** Entry `j` is the last one before `i` that names a model. */
  ghost predicate NamesLast(entries: seq<Entry>, i: nat, j: nat)
    requires i <= |entries|
  {
    j < i && entries[j].model != Unnamed && forall k | j < k < i :: entries[k].model == Unnamed
  }

  /** An entry that shows a counter; one that names a model shows none. */
  predicate Shows(e: Entry) {
    e.model == Unnamed && e.counter.Some?
  }

  /** Entry `j` is the last one before `i` that shows a counter. */
  ghost predicate ShowsLast(entries: seq<Entry>, i: nat, j: nat)
    requires i <= |entries|
  {
    j < i && Shows(entries[j]) && forall k | j < k < i :: !Shows(entries[k])
  }

  ghost function ModelBefore(entries: seq<Entry>, i: nat, model: Name): (m: Name)
    requires i <= |entries|
  {
    if i == 0 then model
    else if entries[i - 1].model != Unnamed then entries[i - 1].model
    else ModelBefore(entries, i - 1, model)
  }

  ghost function CounterBefore(entries: seq<Entry>, i: nat, reference: Option<Counter>): (c: Option<Counter>)
    requires i <= |entries|
    ensures reference.Some? ==> c.Some?
  {
    if i == 0 then reference
    else if Shows(entries[i - 1]) then entries[i - 1].counter
    else CounterBefore(entries, i - 1, reference)
  }

  /** The model before entry `i` is that of the last entry that names one, else the incoming one; so for the counter. */
  lemma {:induction false} LastBefore(entries: seq<Entry>, i: nat, model: Name, reference: Option<Counter>)
    returns (naming: Option<nat>, showing: Option<nat>)
    requires i <= |entries|
    ensures if naming.Some? then
              NamesLast(entries, i, naming.value) && ModelBefore(entries, i, model) == entries[naming.value].model
            else ModelBefore(entries, i, model) == model && forall j | 0 <= j < i :: entries[j].model == Unnamed
    ensures if showing.Some? then
              && ShowsLast(entries, i, showing.value)
              && CounterBefore(entries, i, reference) == entries[showing.value].counter
            else CounterBefore(entries, i, reference) == reference && forall j | 0 <= j < i :: !Shows(entries[j])
    decreases i
  {
    hide Shows;
    naming, showing := None, None;
    if i > 0 {
      naming, showing := LastBefore(entries, i - 1, model, reference);
      if entries[i - 1].model != Unnamed {
        naming := Some(i - 1);
      }
      if Shows(entries[i - 1]) {
        showing := Some(i - 1);
      }
    }
  }

  /** What entry `i` charges: how far its counter is ahead of the last one, to the model named last before it. */
  ghost function StepAt(entries: seq<Entry>, i: nat, reference: Counter, model: Name, who: Who): (tokens: nat)
    requires i < |entries|
  {
    if !Shows(entries[i]) then 0
    else
      var named := ModelBefore(entries, i, model);
      var before, now := CounterBefore(entries, i, Some(reference)).value, entries[i].counter.value;
      var (low, high) := if who.kind == Input then (before.input, now.input) else (before.output, now.output);
      if low < high && (who.Everyone? || who.key == if named == Unnamed then who.configured else named) then high - low
      else 0
  }

  ghost function StepsTo(entries: seq<Entry>, n: nat, reference: Counter, model: Name, who: Who): (tokens: nat)
    requires n <= |entries|
  {
    if n == 0 then 0
    else StepsTo(entries, n - 1, reference, model, who) + StepAt(entries, n - 1, reference, model, who)
  }

  lemma EventsOneMore(entries: seq<Entry>, n: nat)
    requires n < |entries|
    ensures var e := entries[n];
            Events(entries[..n + 1])
            == Events(entries[..n])
               + if e.model != Unnamed then [Named(e.model)]
                 else if e.counter.Some? then [Tokens(e.counter.value)]
                 else []
  {
    assert entries[..n + 1] == entries[..n] + [entries[n]];
    EventsAppend(entries[..n], [entries[n]]);
  }

  /** The scan leaves the model of the last entry that names one, and the counter of the last that shows one. */
  lemma {:induction false} ScanByEntry(entries: seq<Entry>, n: nat, reference: Option<Counter>, model: Name)
    requires n <= |entries|
    ensures LastModel(Events(entries[..n]), model) == ModelBefore(entries, n, model)
    ensures LastCounter(Events(entries[..n]), reference) == CounterBefore(entries, n, reference)
    decreases n
  {
    if n > 0 {
      ScanByEntry(entries, n - 1, reference, model);
      EventsOneMore(entries, n - 1);
      var done, all := Events(entries[..n - 1]), Events(entries[..n]);
      LastAppend(done, all[|done|..], reference, model);
      assert all == done + all[|done|..];
    }
  }

  lemma DueIsStep(entries: seq<Entry>, i: nat, reference: Counter, model: Name, who: Who)
    requires i < |entries|
    ensures var before, named := CounterBefore(entries, i, Some(reference)).value, ModelBefore(entries, i, model);
            StepAt(entries, i, reference, model, who)
            == if Shows(entries[i]) then Due(Tokens(entries[i].counter.value), before, named, who) else 0
  {
    hide ModelBefore, CounterBefore;
  }

  lemma NamingIsFree(name: Name, reference: Counter, model: Name, who: Who)
    ensures Due(Named(name), reference, model, who) == 0
  {
  }

  lemma OwedBefore(entries: seq<Entry>, n: nat, e: Event, reference: Counter, model: Name, who: Who)
    requires n <= |entries|
    ensures Owed(Events(entries[..n]) + [e], reference, model, who)
         == Owed(Events(entries[..n]), reference, model, who)
            + Due(e, CounterBefore(entries, n, Some(reference)).value, ModelBefore(entries, n, model), who)
  {
    hide *;
    ScanByEntry(entries, n, Some(reference), model);
    OwedOneMore(Events(entries[..n]), e, reference, model, who);
  }

  lemma OwedOneEntry(entries: seq<Entry>, n: nat, reference: Counter, model: Name, who: Who)
    requires n < |entries|
    ensures Owed(Events(entries[..n + 1]), reference, model, who)
         == Owed(Events(entries[..n]), reference, model, who) + StepAt(entries, n, reference, model, who)
  {
    hide Owed, Events, ModelBefore, CounterBefore, StepAt, Due;
    DueIsStep(entries, n, reference, model, who);
    EventsOneMore(entries, n);
    var e := entries[n];
    if e.model != Unnamed {
      OwedBefore(entries, n, Named(e.model), reference, model, who);
      var before := CounterBefore(entries, n, Some(reference)).value;
      NamingIsFree(e.model, before, ModelBefore(entries, n, model), who);
    } else if e.counter.Some? {
      OwedBefore(entries, n, Tokens(e.counter.value), reference, model, who);
    } else {
      assert Events(entries[..n]) + [] == Events(entries[..n]);
    }
  }

  /** Each counter step is charged to the model named last before it, and nothing else is charged. */
  lemma {:induction false} OwedByEntry(entries: seq<Entry>, n: nat, reference: Counter, model: Name, who: Who)
    requires n <= |entries|
    ensures Owed(Events(entries[..n]), reference, model, who) == StepsTo(entries, n, reference, model, who)
    decreases n
  {
    if n == 0 {
      assert Events(entries[..0]) == [];
      NothingOwed([], reference, model, who);
    } else {
      hide Owed, Events, StepAt;
      OwedByEntry(entries, n - 1, reference, model, who);
      OwedOneEntry(entries, n - 1, reference, model, who);
    }
  }

  /** What each entry reports: the model it names, otherwise the counter it has, otherwise nothing. */
  function Reports(entries: seq<Entry>): (reports: seq<Option<Event>>) {
    seq(|entries|, i requires 0 <= i < |entries| =>
      if entries[i].model != Unnamed then Some(Named(entries[i].model))
      else if entries[i].counter.Some? then Some(Tokens(entries[i].counter.value))
      else None)
  }

  /** `_codex_scan`, from the records read. */
  method CodexScan(entries: seq<Entry>) returns (events: seq<Event>, ghost at: seq<nat>)
    ensures events == Events(entries) && Filters(events, Reports(entries), at)
  {
    hide Filters;
    events, at := [], [];
    NothingReported();
    for i := 0 to |entries|
      invariant events == Events(entries[..i]) && Filters(events, Reports(entries[..i]), at)
    {
      EventsOneMore(entries, i);
      hide Events;
      var reports := Reports(entries[..i + 1]);
      assert reports == Reports(entries[..i]) + [reports[i]];
      FiltersOneMore(events, Reports(entries[..i]), at, reports[i]);
      if entries[i].model != Unnamed {
        events, at := events + [Named(entries[i].model)], at + [i];
        continue;
      }
      if entries[i].counter.Some? {
        events, at := events + [Tokens(entries[i].counter.value)], at + [i];
      }
    }
    assert entries[..|entries|] == entries;
  }

  lemma NothingReported()
    ensures Filters([], Reports([]), [])
  {
  }

  /** A table of shares that holds what every raw model name owes for `events`. */
  ghost predicate Bills(byModel: Shares, events: seq<Event>, reference: Counter, model: Name) {
    && (forall kind :: Sum(byModel, kind) == Owed(events, reference, model, Everyone(kind)))
    && (forall key, kind :: Share(byModel, key).Of(kind) == Owed(events, reference, model, Model(kind, key, Unnamed)))
  }

  lemma BillsOneMore(byModel: Shares, byModel': Shares, done: seq<Event>, e: Event, reference: Counter, model: Name)
    requires Bills(byModel, done, reference, model)
    requires var step := CounterStep(e, LastCounter(done, Some(reference)).value);
             byModel' == if step == Zero() then byModel else AddShare(byModel, LastModel(done, model), step)
    ensures Bills(byModel', done + [e], reference, model)
  {
    hide Owed, Due, Sum, Share, AddShare, CounterStep, LastCounter, LastModel;
    var before, named := LastCounter(done, Some(reference)).value, LastModel(done, model);
    var step := CounterStep(e, before);
    forall kind
      ensures Sum(byModel', kind) == Owed(done + [e], reference, model, Everyone(kind))
    {
      SumAdd(byModel, named, step, kind);
      OwedOneMore(done, e, reference, model, Everyone(kind));
      DueInAll(e, before, named, kind);
    }
    forall key, kind
      ensures Share(byModel', key).Of(kind) == Owed(done + [e], reference, model, Model(kind, key, Unnamed))
    {
      OwedOneMore(done, e, reference, model, Model(kind, key, Unnamed));
      DueByName(e, before, named, key, kind);
      ShareAdd(byModel, named, step, key, kind);
    }
  }

  lemma ShareAdd(m: Shares, k: Name, step: Counter, key: Name, kind: Kind)
    ensures Share(AddShare(m, k, step), key).Of(kind) == Share(m, key).Of(kind) + if key == k then step.Of(kind) else 0
  {
  }

  lemma DueInAll(e: Event, reference: Counter, model: Name, kind: Kind)
    ensures Due(e, reference, model, Everyone(kind)) == CounterStep(e, reference).Of(kind)
  {
  }

  lemma DueByName(e: Event, reference: Counter, model: Name, key: Name, kind: Kind)
    ensures Due(e, reference, model, Model(kind, key, Unnamed))
         == if key == model then CounterStep(e, reference).Of(kind) else 0
  {
  }

  function CounterStep(e: Event, reference: Counter): Counter {
    if e.Tokens? then reference.StepTo(e.counter) else Zero()
  }

  /**
    The loop of `_codex_delta`: charge the events of one pass, given the counter billed so far
    (None: unknown) and the model last named.
   */
  method CodexDelta(events: seq<Event>, memo: Option<Counter>, named: Name)
    returns (byModel: Shares, memo': Option<Counter>, named': Name)
    ensures memo' == LastCounter(events, memo) && named' == LastModel(events, named)
    ensures if memo.None? then byModel == map[] else Bills(byModel, events, memo.value, named)
  {
    var previous := memo;
    var unknownBaseline := previous.None?;
    var model := named;
    byModel := map[];
    for i := 0 to |events|
      invariant previous == LastCounter(events[..i], memo) && model == LastModel(events[..i], named)
      invariant if memo.None? then byModel == map[] else Bills(byModel, events[..i], memo.value, named)
    {
      assert events[..i + 1] == events[..i] + [events[i]];
      LastAppend(events[..i], [events[i]], memo, named);
      ghost var before := byModel;
      match events[i] {
        case Named(m) =>
          model := m;
        case Tokens(value) =>
          if !unknownBaseline {
            var step := previous.value.StepTo(value);
            if step.input != 0 || step.output != 0 {
              byModel := AddShare(byModel, model, step);
            }
          }
          previous := Some(value);
      }
      if memo.Some? {
        BillsOneMore(before, byModel, events[..i], events[i], memo.value, named);
      }
    }
    assert events[..|events|] == events;
    return byModel, previous, model;
  }
}
