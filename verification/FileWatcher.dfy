/**
  Syncing a file that a terminal program rewrites back to the store (pty_session.py:463-565).

  A poll is three segments: probe the mtime, read and decide, and wait for the push. The program
  may write, with strictly growing mtimes, or remove the file between any two of them.
 */
module FileWatcher {
  import opened Wrappers

  /** What `dedup_key` answers: a key, nothing to sync (`None` or empty), or an exception. */
  datatype KeyResult = Key(name: string) | Falsy | Raises

  /** `_last_mtime` and `_last_key`; an empty key is `None`, which no key equals either. */
  datatype Markers = Markers(mtime: nat, key: Option<string>)

  type Dedup<!V> = Option<V -> KeyResult>

  function Reset(): Markers {
    Markers(0, None)
  }

  function KeyOf<V>(dedup: Dedup<V>, v: V): KeyResult {
    if dedup.Some? then dedup.value(v) else Raises
  }

  /** `capture_baseline`. */
  function Baseline<V>(dedup: Dedup<V>, probed: Option<nat>, value: Option<V>): Markers {
    if probed.None? then Reset()
    else if dedup.None? then Markers(probed.value, None)
    else if value.None? then Reset()
    else match KeyOf(dedup, value.value)
      case Key(name) => Markers(probed.value, Some(name))
      case Falsy => Markers(probed.value, None)
      case Raises => Reset()
  }

  datatype Decision<V> = Retry | Advance | Push(value: V, key: Option<string>)

  /** What `poll_once` does with what it read. */
  function Decide<V>(dedup: Dedup<V>, markers: Markers, value: Option<V>): Decision<V> {
    if value.None? then Retry
    else if dedup.None? then Push(value.value, None)
    else match KeyOf(dedup, value.value)
      case Key(name) => if markers.key == Some(name) then Advance else Push(value.value, Some(name))
      case _ => Advance
  }

  /** `on_change`: stored, refused, or stored although the caller only sees an exception. */
  datatype Delivery = Delivered | Refused | AnswerLost

  function Pushed(markers: Markers, mtime: nat, key: Option<string>): Markers {
    Markers(mtime, if key.Some? then key else markers.key)
  }

  // ---------- the watcher, the file and the store together ----------

  datatype File<V> = File(mtime: nat, content: V)

  datatype Poll<V> = Idle | Probed(mtime: nat) | Pushing(mtime: nat, value: V, key: Option<string>)

  /** `stored` is what the store holds; `clock` bounds every mtime the file ever had. */
  datatype State<V> = State(file: Option<File<V>>, clock: nat, markers: Markers, poll: Poll<V>,
                            stored: Option<V>, pushes: seq<V>)

  datatype Action<V> =
    | Write(content: V, gap: nat)
    | Remove
    | Probe(ok: bool)
    | Read(ok: bool)
    | Answer(delivery: Delivery)

  function ProbeFile<V>(s: State<V>, ok: bool): Option<nat> {
    if ok && s.file.Some? then Some(s.file.value.mtime) else None
  }

  function ReadFile<V>(s: State<V>, ok: bool): Option<V> {
    if ok && s.file.Some? then Some(s.file.value.content) else None
  }

  /** The file was just restored from the store, or there is none; the baseline is atomic. */
  function Start<V>(dedup: Dedup<V>, file: Option<File<V>>, probeOk: bool, readOk: bool): State<V> {
    var s := State(file, if file.Some? then file.value.mtime else 0, Reset(), Idle,
                   if file.Some? then Some(file.value.content) else None, []);
    s.(markers := Baseline(dedup, ProbeFile(s, probeOk), ReadFile(s, readOk)))
  }

  function Next<V>(dedup: Dedup<V>, s: State<V>, a: Action<V>): State<V> {
    match a
    case Write(content, gap) =>
      var mtime := s.clock + 1 + gap;
      s.(file := Some(File(mtime, content)), clock := mtime)
    case Remove => s.(file := None)
    case Probe(ok) =>
      var probed := ProbeFile(s, ok);
      if s.poll.Idle? && probed.Some? && probed.value > s.markers.mtime then s.(poll := Probed(probed.value)) else s
    case Read(ok) =>
      if !s.poll.Probed? then s
      else
        (match Decide(dedup, s.markers, ReadFile(s, ok))
         case Retry => s.(poll := Idle)
         case Advance => s.(poll := Idle, markers := s.markers.(mtime := s.poll.mtime))
         case Push(value, key) => s.(poll := Pushing(s.poll.mtime, value, key)))
    case Answer(delivery) =>
      if !s.poll.Pushing? then s
      else
        var stored := if delivery.Refused? then s.stored else Some(s.poll.value);
        if delivery.Delivered? then
          s.(poll := Idle, markers := Pushed(s.markers, s.poll.mtime, s.poll.key), stored := stored,
             pushes := s.pushes + [s.poll.value])
        else s.(poll := Idle, stored := stored)
  }

  /** The store holds this content, up to its key; or there is nothing to sync in it. */
  predicate Agrees<V(==)>(dedup: Dedup<V>, stored: Option<V>, content: V) {
    if dedup.None? then stored == Some(content)
    else if !KeyOf(dedup, content).Key? then true
    else stored.Some? && KeyOf(dedup, stored.value) == KeyOf(dedup, content)
  }

  /** Markers and poll never run ahead of the file, and a value in flight is not older than its mtime. */
  predicate InStep<V(==)>(dedup: Dedup<V>, s: State<V>) {
    && s.markers.mtime <= s.clock
    && (s.file.Some? ==> s.file.value.mtime <= s.clock)
    && (!s.poll.Idle? ==> s.markers.mtime < s.poll.mtime <= s.clock)
    && (s.poll.Probed? && s.file.Some? ==> s.poll.mtime <= s.file.value.mtime)
    && (s.poll.Pushing? ==>
          && (if dedup.None? then s.poll.key.None?
              else
                && s.poll.key.Some? && s.markers.key != s.poll.key
                && KeyOf(dedup, s.poll.value) == Key(s.poll.key.value))
          && (s.file.Some? ==> s.poll.mtime <= s.file.value.mtime)
          && (s.file.Some? && s.file.value.mtime == s.poll.mtime ==> s.poll.value == s.file.value.content))
    && (s.markers.key.Some? ==> dedup.Some?)
    && (s.file.Some? ==> s.markers.mtime <= s.file.value.mtime)
  }

  predicate KeyIsStored<V(==)>(dedup: Dedup<V>, s: State<V>) {
    s.markers.key.Some? ==> s.stored.Some? && KeyOf(dedup, s.stored.value) == Key(s.markers.key.value)
  }

  predicate CaughtUp<V(==)>(s: State<V>) {
    s.file.Some? && s.markers.mtime == s.file.value.mtime
  }

  predicate Agreement<V(==)>(dedup: Dedup<V>, s: State<V>) {
    CaughtUp(s) ==> Agrees(dedup, s.stored, s.file.value.content)
  }

  /** Successive pushes carry different keys, and the last one is the remembered key. */
  predicate KeysAlternate<V(==)>(dedup: Dedup<V>, s: State<V>) {
    dedup.Some? ==>
      && (forall i | 0 <= i < |s.pushes| :: KeyOf(dedup, s.pushes[i]).Key?)
      && (forall i | 0 < i < |s.pushes| :: KeyOf(dedup, s.pushes[i - 1]) != KeyOf(dedup, s.pushes[i]))
      && (s.pushes != [] ==>
            s.markers.key.Some? && KeyOf(dedup, s.pushes[|s.pushes| - 1]) == Key(s.markers.key.value))
  }

  /** Deduplication trusts that a push that raised stored nothing, once it remembers a key. */
  predicate Trusted<V>(dedup: Dedup<V>, s: State<V>, a: Action<V>) {
    dedup.Some? && s.poll.Pushing? && a == Answer(AnswerLost) ==> s.markers.key.None?
  }

  predicate TrustedRun<V>(dedup: Dedup<V>, s: State<V>, actions: seq<Action<V>>)
    decreases |actions|
  {
    actions == [] || (Trusted(dedup, s, actions[0]) && TrustedRun(dedup, Next(dedup, s, actions[0]), actions[1..]))
  }

  lemma StartAgrees<V>(dedup: Dedup<V>, file: Option<File<V>>, probeOk: bool, readOk: bool)
    requires file.Some? ==> file.value.mtime > 0
    ensures var s := Start(dedup, file, probeOk, readOk);
            InStep(dedup, s) && KeyIsStored(dedup, s) && Agreement(dedup, s) && KeysAlternate(dedup, s)
  {
  }

  lemma StepKeepsInStep<V>(dedup: Dedup<V>, s: State<V>, a: Action<V>)
    requires InStep(dedup, s)
    ensures InStep(dedup, Next(dedup, s, a))
  {
  }

  lemma StepKeepsAgreement<V>(dedup: Dedup<V>, s: State<V>, a: Action<V>)
    requires InStep(dedup, s) && KeyIsStored(dedup, s) && Agreement(dedup, s) && Trusted(dedup, s, a)
    ensures KeyIsStored(dedup, Next(dedup, s, a)) && Agreement(dedup, Next(dedup, s, a))
  {
  }

  lemma StepKeepsAlternation<V>(dedup: Dedup<V>, s: State<V>, a: Action<V>)
    requires InStep(dedup, s) && KeysAlternate(dedup, s)
    ensures KeysAlternate(dedup, Next(dedup, s, a))
  {
  }

  function Run<V>(dedup: Dedup<V>, s: State<V>, actions: seq<Action<V>>): State<V>
    decreases |actions|
  {
    if actions == [] then s else Run(dedup, Next(dedup, s, actions[0]), actions[1..])
  }

  lemma {:induction false} RunKeepsAgreement<V>(dedup: Dedup<V>, s: State<V>, actions: seq<Action<V>>)
    requires InStep(dedup, s) && KeyIsStored(dedup, s) && Agreement(dedup, s) && TrustedRun(dedup, s, actions)
    ensures InStep(dedup, Run(dedup, s, actions)) && Agreement(dedup, Run(dedup, s, actions))
    decreases |actions|
  {
    hide Next, InStep, KeyIsStored, Agreement, Trusted;
    if actions != [] {
      StepKeepsInStep(dedup, s, actions[0]);
      StepKeepsAgreement(dedup, s, actions[0]);
      RunKeepsAgreement(dedup, Next(dedup, s, actions[0]), actions[1..]);
    }
  }

  lemma {:induction false} RunKeepsAlternation<V>(dedup: Dedup<V>, s: State<V>, actions: seq<Action<V>>)
    requires InStep(dedup, s) && KeysAlternate(dedup, s)
    ensures InStep(dedup, Run(dedup, s, actions)) && KeysAlternate(dedup, Run(dedup, s, actions))
    decreases |actions|
  {
    hide Next, InStep, KeysAlternate;
    if actions != [] {
      StepKeepsInStep(dedup, s, actions[0]);
      StepKeepsAlternation(dedup, s, actions[0]);
      RunKeepsAlternation(dedup, Next(dedup, s, actions[0]), actions[1..]);
    }
  }

  /**
    Whenever the mtime marker has caught up with the file, the file's content is stored up to its
    key or has none, whatever writes raced with probes and reads and whichever pushes failed; an
    answer may even be lost as long as no key is remembered.
   */
  lemma CaughtUpIsStored<V>(dedup: Dedup<V>, file: Option<File<V>>, probeOk: bool, readOk: bool,
                            actions: seq<Action<V>>)
    requires file.Some? ==> file.value.mtime > 0
    requires TrustedRun(dedup, Start(dedup, file, probeOk, readOk), actions)
    ensures var s := Run(dedup, Start(dedup, file, probeOk, readOk), actions);
            CaughtUp(s) ==> Agrees(dedup, s.stored, s.file.value.content)
  {
    hide Start, Next;
    StartAgrees(dedup, file, probeOk, readOk);
    RunKeepsAgreement(dedup, Start(dedup, file, probeOk, readOk), actions);
  }

  /** With a dedup key, no two successive pushes carry the same key. */
  lemma SuccessivePushesDiffer<V>(key: V -> KeyResult, file: Option<File<V>>, probeOk: bool, readOk: bool,
                                  actions: seq<Action<V>>, i: nat)
    requires file.Some? ==> file.value.mtime > 0
    ensures var s := Run(Some(key), Start(Some(key), file, probeOk, readOk), actions);
            0 < i < |s.pushes| ==>
              key(s.pushes[i - 1]).Key? && key(s.pushes[i]).Key? && key(s.pushes[i - 1]) != key(s.pushes[i])
  {
    hide Start, Next;
    StartAgrees(Some(key), file, probeOk, readOk);
    RunKeepsAlternation(Some(key), Start(Some(key), file, probeOk, readOk), actions);
    var s := Run(Some(key), Start(Some(key), file, probeOk, readOk), actions);
    if 0 < i < |s.pushes| {
      assert KeyOf(Some(key), s.pushes[i - 1]) != KeyOf(Some(key), s.pushes[i]);
      assert KeyOf(Some(key), s.pushes[i - 1]).Key? && KeyOf(Some(key), s.pushes[i]).Key?;
    }
  }

  lemma One<V>(dedup: Dedup<V>, s: State<V>, a: Action<V>)
    ensures Run(dedup, s, [a]) == Next(dedup, s, a)
  {
  }

  lemma Two<V>(dedup: Dedup<V>, s: State<V>, a: Action<V>, b: Action<V>)
    ensures Run(dedup, s, [a, b]) == Next(dedup, Next(dedup, s, a), b)
  {
    assert [a, b] == [a] + [b];
    RunAppend(dedup, s, [a], [b]);
    One(dedup, s, a);
    One(dedup, Next(dedup, s, a), b);
  }

  /** A poll during which nothing is written and nothing fails catches up. */
  lemma QuietPollCatchesUp<V>(dedup: Dedup<V>, s: State<V>)
    requires InStep(dedup, s) && s.poll.Idle? && s.file.Some?
    ensures var s' := Run(dedup, s, [Probe(true), Read(true), Answer(Delivered)]);
            CaughtUp(s') && s'.file == s.file && s'.poll.Idle?
  {
  }

  /** The baseline could be taken: probe and read succeeded, and the key function did not raise. */
  predicate Captured<V>(dedup: Dedup<V>, file: Option<File<V>>, probeOk: bool, readOk: bool) {
    file.Some? && probeOk && (dedup.Some? ==> readOk && !KeyOf(dedup, file.value.content).Raises?)
  }

  /**
    What was just restored is not pushed back: after a baseline, polls without writes change nothing, and
    neither does a rewrite that keeps the key; without one, the first poll finds the file newer.
   */
  lemma RestoredIsNotPushed<V>(dedup: Dedup<V>, file: Option<File<V>>, probeOk: bool, readOk: bool,
                               delivery: Delivery)
    requires file.Some? ==> file.value.mtime > 0
    ensures var s := Start(dedup, file, probeOk, readOk);
            if Captured(dedup, file, probeOk, readOk) then
              Run(dedup, s, [Probe(true), Read(true), Answer(delivery)]) == s && CaughtUp(s)
            else s.markers == Markers(0, None) && (file.Some? ==> Next(dedup, s, Probe(true)).poll.Probed?)
  {
    var s := Start(dedup, file, probeOk, readOk);
    Three(dedup, s, Probe(true), Read(true), Answer(delivery));
  }

  /** A change after the baseline is pushed and stored, unless it keeps the key or has none. */
  lemma ChangeIsPushed<V>(dedup: Dedup<V>, file: File<V>, content: V, gap: nat)
    requires file.mtime > 0 && Captured(dedup, Some(file), true, true)
    ensures var s := Next(dedup, Start(dedup, Some(file), true, true), Write(content, gap));
            var s' := Run(dedup, s, [Probe(true), Read(true), Answer(Delivered)]);
            var old', new' := KeyOf(dedup, file.content), KeyOf(dedup, content);
            if dedup.Some? && (!new'.Key? || new' == old') then s'.stored == Some(file.content) && s'.pushes == []
            else s'.stored == Some(content) && s'.pushes == [content]
  {
    var s := Next(dedup, Start(dedup, Some(file), true, true), Write(content, gap));
    Three(dedup, s, Probe(true), Read(true), Answer(Delivered));
  }

  /** A push that is refused, or a file that cannot be read, leaves the markers, and the next poll tries again. */
  lemma RefusedIsRetried<V>(dedup: Dedup<V>, s: State<V>)
    requires InStep(dedup, s) && s.poll.Idle? && s.file.Some? && s.file.value.mtime > s.markers.mtime
    ensures Run(dedup, s, [Probe(true), Read(false)]) == s
    ensures var failed := Run(dedup, s, [Probe(true), Read(true), Answer(Refused)]);
            failed == if dedup.Some? && (!KeyOf(dedup, s.file.value.content).Key?
                                         || s.markers.key == Some(KeyOf(dedup, s.file.value.content).name))
                      then s.(markers := s.markers.(mtime := s.file.value.mtime)) else s
  {
    Two(dedup, s, Probe(true), Read(false));
    Three(dedup, s, Probe(true), Read(true), Answer(Refused));
  }

  lemma Three<V>(dedup: Dedup<V>, s: State<V>, a: Action<V>, b: Action<V>, c: Action<V>)
    ensures Run(dedup, s, [a, b, c]) == Next(dedup, Next(dedup, Next(dedup, s, a), b), c)
  {
    assert [a, b, c] == [a, b] + [c];
    RunAppend(dedup, s, [a, b], [c]);
    Two(dedup, s, a, b);
    One(dedup, Run(dedup, s, [a, b]), c);
  }

  /**
    When an answer is lost while a key is remembered, every content with that key disagrees: written
    back and polled, it is taken for stored while the store holds the value of the lost push.
   */
  lemma LostAnswerDisagrees<V>(key: V -> KeyResult, s: State<V>, content: V, gap: nat)
    requires InStep(Some(key), s) && s.poll.Pushing?
    requires s.markers.key.Some? && key(content) == Key(s.markers.key.value)
    ensures var s' := Run(Some(key), s, [Answer(AnswerLost), Write(content, gap), Probe(true)] + [Read(true)]);
            CaughtUp(s') && s'.file.value.content == content && !Agrees(Some(key), s'.stored, content)
  {
    var dedup := Some(key);
    RunAppend(dedup, s, [Answer(AnswerLost), Write(content, gap), Probe(true)], [Read(true)]);
    Three(dedup, s, Answer(AnswerLost), Write(content, gap), Probe(true));
    var written := Next(dedup, Next(dedup, s, Answer(AnswerLost)), Write(content, gap));
    One(dedup, Next(dedup, written, Probe(true)), Read(true));
  }

  /**
    A lost answer does no harm in any later trusted run if and only if no key was remembered when the
    push began.
   */
  lemma LostAnswerHarmlessIff<V(!new)>(key: V -> KeyResult, s: State<V>)
    requires InStep(Some(key), s) && KeyIsStored(Some(key), s) && Agreement(Some(key), s) && s.poll.Pushing?
    ensures s.markers.key.None? <==>
            forall actions | TrustedRun(Some(key), Next(Some(key), s, Answer(AnswerLost)), actions) ::
              Agreement(Some(key), Run(Some(key), Next(Some(key), s, Answer(AnswerLost)), actions))
  {
    var dedup := Some(key);
    var lost := Next(dedup, s, Answer(AnswerLost));
    StepKeepsInStep(dedup, s, Answer(AnswerLost));
    if s.markers.key.None? {
      StepKeepsAgreement(dedup, s, Answer(AnswerLost));
      forall actions | TrustedRun(dedup, lost, actions)
        ensures Agreement(dedup, Run(dedup, lost, actions))
      {
        RunKeepsAgreement(dedup, lost, actions);
      }
    } else {
      var back := [Write(s.stored.value, 0), Probe(true)] + [Read(true)];
      LostAnswerDisagrees(key, s, s.stored.value, 0);
      var all := [Answer(AnswerLost), Write(s.stored.value, 0), Probe(true)] + [Read(true)];
      assert all == [Answer(AnswerLost)] + back;
      RunAppend(dedup, s, [Answer(AnswerLost)], back);
      One(dedup, s, Answer(AnswerLost));
      NoAnswerIsTrusted(dedup, lost, back);
      assert !Agreement(dedup, Run(dedup, lost, back));
    }
  }

  lemma {:induction false} NoAnswerIsTrusted<V>(dedup: Dedup<V>, s: State<V>, actions: seq<Action<V>>)
    requires forall a | a in actions :: !a.Answer?
    ensures TrustedRun(dedup, s, actions)
    decreases |actions|
  {
    if actions != [] {
      NoAnswerIsTrusted(dedup, Next(dedup, s, actions[0]), actions[1..]);
    }
  }

  lemma {:induction false} RunAppend<V>(dedup: Dedup<V>, s: State<V>, a: seq<Action<V>>, b: seq<Action<V>>)
    ensures Run(dedup, s, a + b) == Run(dedup, Run(dedup, s, a), b)
    decreases |a|
  {
    hide Next;
    if a == [] {
      assert a + b == b;
    } else {
      assert (a + b)[1..] == a[1..] + b;
      RunAppend(dedup, Next(dedup, s, a[0]), a[1..], b);
    }
  }

  // ---------- `_FileWatcher` ----------

  function PushedBy<V>(dedup: Dedup<V>, markers: Markers, probed: Option<nat>, value: Option<V>): Option<V> {
    if probed.None? || probed.value <= markers.mtime then None
    else
      var decision := Decide(dedup, markers, value);
      if decision.Push? then Some(decision.value) else None
  }

  function AfterPoll<V>(dedup: Dedup<V>, markers: Markers, probed: Option<nat>, value: Option<V>,
                        delivery: Delivery): Markers {
    if probed.None? || probed.value <= markers.mtime then markers
    else match Decide(dedup, markers, value)
      case Retry => markers
      case Advance => markers.(mtime := probed.value)
      case Push(_, key) => if delivery.Delivered? then Pushed(markers, probed.value, key) else markers
  }

  lemma {:induction false} WritesLeaveWatcher<V>(dedup: Dedup<V>, s: State<V>, writes: seq<Action<V>>)
    requires forall a | a in writes :: a.Write? || a.Remove?
    ensures var s' := Run(dedup, s, writes);
            s'.markers == s.markers && s'.poll == s.poll && s'.stored == s.stored && s'.pushes == s.pushes
    decreases |writes|
  {
    if writes != [] {
      WritesLeaveWatcher(dedup, Next(dedup, s, writes[0]), writes[1..]);
    }
  }

  /** One `poll_once` is the run of its three steps, whatever is written between probe and read. */
  lemma PollIsItsSteps<V>(dedup: Dedup<V>, s: State<V>, probeOk: bool, writes: seq<Action<V>>, readOk: bool,
                          delivery: Delivery)
    requires s.poll.Idle? && forall a | a in writes :: a.Write? || a.Remove?
    ensures var between := Run(dedup, s, [Probe(probeOk)] + writes);
            var s' := Run(dedup, s, [Probe(probeOk)] + writes + [Read(readOk), Answer(delivery)]);
            var push := PushedBy(dedup, s.markers, ProbeFile(s, probeOk), ReadFile(between, readOk));
            && s'.markers == AfterPoll(dedup, s.markers, ProbeFile(s, probeOk), ReadFile(between, readOk), delivery)
            && s'.poll.Idle?
            && s'.pushes == s.pushes + (if push.Some? && delivery.Delivered? then [push.value] else [])
            && s'.stored == if push.Some? && !delivery.Refused? then push else s.stored
  {
    var probe: seq<Action<V>> := [Probe(probeOk)];
    var probed := Next(dedup, s, Probe(probeOk));
    assert probe[1..] == [];
    RunAppend(dedup, s, probe + writes, [Read(readOk), Answer(delivery)]);
    RunAppend(dedup, s, probe, writes);
    WritesLeaveWatcher(dedup, probed, writes);
    var between := Run(dedup, probed, writes);
    Two(dedup, between, Read(readOk), Answer(delivery));
  }

  class Watcher<V> {
    const dedup: Dedup<V>
    var lastMtime: nat
    var lastKey: Option<string>

    function View(): Markers
      reads this
    {
      Markers(lastMtime, lastKey)
    }

    constructor (dedup: Dedup<V>)
      ensures this.dedup == dedup && View() == Reset()
    {
      this.dedup := dedup;
      lastMtime, lastKey := 0, None;
    }

    /** What the probe and the read saw; a failure of either resets both markers. */
    method CaptureBaseline(probed: Option<nat>, value: Option<V>)
      modifies this
      ensures View() == Baseline(dedup, probed, value)
      ensures if probed.Some? && (dedup.Some? ==> value.Some? && !dedup.value(value.value).Raises?) then
                && lastMtime == probed.value
                && lastKey == if dedup.Some? && dedup.value(value.value).Key?
                              then Some(dedup.value(value.value).name) else None
              else lastMtime == 0 && lastKey == None
    {
      lastMtime, lastKey := 0, None;
      if probed.None? {
        return;
      }
      var key: Option<string> := None;
      if dedup.Some? {
        if value.None? {
          return;
        }
        match dedup.value(value.value) {
          case Key(name) => key := Some(name);
          case Falsy =>
          case Raises => return;
        }
      }
      lastMtime, lastKey := probed.value, key;
    }

    /** `poll_once`: `push` is the value it hands to `on_change`. */
    method PollOnce(probed: Option<nat>, value: Option<V>, delivery: Delivery) returns (push: Option<V>)
      modifies this
      ensures View() == AfterPoll(dedup, old(View()), probed, value, delivery)
      ensures push == PushedBy(dedup, old(View()), probed, value)
    {
      push := None;
      if probed.None? || probed.value <= lastMtime || value.None? {
        return;
      }
      var newKey: Option<string> := None;
      if dedup.Some? {
        match dedup.value(value.value) {
          case Key(name) => newKey := Some(name);
          case Falsy =>
          case Raises =>
        }
        if newKey.None? || newKey == lastKey {
          lastMtime := probed.value;
          return;
        }
      }
      push := value;
      if !delivery.Delivered? {
        return;
      }
      if newKey.Some? {
        lastKey := newKey;
      }
      lastMtime := probed.value;
    }
  }
}
