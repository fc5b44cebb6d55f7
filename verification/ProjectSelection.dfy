/**
  Which project an agent works in (agent_user.py:110-112, 299-348, 718-772, 855-950): an in-memory
  cache, a sentinel file and the checkouts on disk together hold one abstract selection.

  Every segment between two awaits is one step. The agent's own programs may add or delete
  directories, `get_agent_project_dir` may be called, and the service may restart between any two.
 */
module ProjectSelection {
  import opened Wrappers
  import opened Lines

  const REFRESH_TTL := 30

  /** A project name, which is also the path of its directory under `projects/`. */
  datatype Rel = Rel(text: string)

  /** A directory with a `.git`, or one without. */
  datatype Dir = Checkout(content: nat) | Plain(empty: bool)

  /** `projects/`: the text of the `.primary` sentinel if the file exists, and the directories. */
  datatype Home = Home(sentinel: Option<string>, dirs: map<Rel, Dir>)

  datatype Entry = Entry(rel: Rel, updatedAt: nat)

  /** Where the running `ensure_agent_project` stands; the per-agent lock admits one at a time. */
  datatype Call = Idle | Preparing(project: Rel, todo: seq<Rel>) | Detaching

  /** `selected` is what the service last selected: the meaning the other parts must agree on. */
  datatype Workspace = Workspace(home: Home, cache: Option<Entry>, call: Call, selected: Option<Rel>)

  predicate Present(home: Home, rel: Rel) {
    rel in home.dirs && home.dirs[rel].Checkout?
  }

  /** `os.listdir` of an existing directory is not empty. */
  predicate Occupied(home: Home, rel: Rel) {
    || (rel in home.dirs && home.dirs[rel] != Plain(true))
    || exists other | other in home.dirs :: rel.text + "/" <= other.text
  }

  /** `_read_primary_sentinel`. */
  function ReadSentinel(home: Home): Option<Rel> {
    if home.sentinel.None? then None
    else
      var text := Strip(home.sentinel.value, TextSpace());
      if text == "" then None else Some(Rel(text))
  }

  /**
    How `_write_primary_sentinel` ends; it logs every failure and goes on. Either the file could not be
    opened, or opening emptied it and `count` characters were written. A failing `chown` comes later.
   */
  datatype Write = Unopened | Wrote(count: nat)

  /** The text in the file after writing `text`. */
  function Left(before: Option<string>, text: string, write: Write): (left: Option<string>) {
    match write
    case Unopened => before
    case Wrote(count) => Some(if count < |text| then text[..count] else text)
  }

  function WriteSentinel(home: Home, text: string, write: Write): Home {
    home.(sentinel := Left(home.sentinel, text, write))
  }

  /** `get_agent_project_dir`; `found` is the checkout that listing the directories comes upon first. */
  function Get(home: Home, cache: Option<Entry>, found: Option<Rel>): (r: (Option<Rel>, Option<Entry>)) {
    if cache.Some? && Present(home, cache.value.rel) then (Some(cache.value.rel), cache)
    else
      var primary := ReadSentinel(home);
      var probed := if primary.Some? && Present(home, primary.value) then primary
                    else if home.sentinel.Some? then None
                    else found;
      (probed, if probed.Some? then Some(Entry(probed.value, 0)) else None)
  }

  /** `git clone`; a failure may leave part of a tree behind, even one with a `.git`. */
  datatype CloneResult = Cloned(content: nat) | Failed(leftover: Option<Dir>)

  datatype Action =
    | Ensure(project: Rel, secondaries: seq<Rel>, now: nat, found: Option<Rel>, write: Write)
    | CloneNext(result: CloneResult)
    | Commit(now: nat, write: Write)
    | Detach(found: Option<Rel>)
    | CommitDetach(write: Write)
    | Fail                                        // an exception or a cancellation ends the call
    | GetDir(found: Option<Rel>)
    | Restart
    | Put(rel: Rel, dir: Dir) | Delete(rel: Rel)  // the agent's own programs

  predicate AllPresent(home: Home, rels: seq<Rel>) {
    forall rel | rel in rels :: Present(home, rel)
  }

  /** `ensure_agent_project` with a project, up to its first await. */
  function Begin(w: Workspace, project: Rel, secondaries: seq<Rel>, now: nat, found: Option<Rel>,
                 write: Write): Workspace {
    var (previous, cache) := Get(w.home, w.cache, found);
    if cache.Some? && cache.value.rel == project && AllPresent(w.home, [project] + secondaries)
       && now - cache.value.updatedAt < REFRESH_TTL then
      w.(cache := cache)
    else if w.home.sentinel.Some? then
      w.(cache := cache, call := Preparing(project, [project] + secondaries))
    else
      w.(home := WriteSentinel(w.home, if previous.Some? then previous.value.text else "", write), cache := cache,
         call := Preparing(project, [project] + secondaries), selected := previous)
  }

  /** `_clone_or_update_one` of the next repository. */
  function CloneOne(w: Workspace, result: CloneResult): Workspace
    requires w.call.Preparing? && w.call.todo != []
  {
    var rel := w.call.todo[0];
    var next := w.call.(todo := w.call.todo[1..]);
    if Present(w.home, rel) then w.(call := next)
    else if Occupied(w.home, rel) then w.(call := Idle)
    else match result
      case Cloned(content) => w.(home := w.home.(dirs := w.home.dirs[rel := Checkout(content)]), call := next)
      case Failed(leftover) =>
        if leftover.Some? then w.(home := w.home.(dirs := w.home.dirs[rel := leftover.value]), call := Idle)
        else w.(call := Idle)
  }

  function Select(w: Workspace, project: Rel, now: nat, write: Write): Workspace {
    Workspace(WriteSentinel(w.home, project.text, write), Some(Entry(project, now)), Idle, Some(project))
  }

  function Next(w: Workspace, a: Action): Workspace {
    match a
    case Ensure(project, secondaries, now, found, write) =>
      if w.call.Idle? then Begin(w, project, secondaries, now, found, write) else w
    case CloneNext(result) => if w.call.Preparing? && w.call.todo != [] then CloneOne(w, result) else w
    case Commit(now, write) =>
      if w.call.Preparing? && w.call.todo == [] then Select(w, w.call.project, now, write) else w
    case Detach(found) => if w.call.Idle? then w.(cache := Get(w.home, w.cache, found).1, call := Detaching) else w
    case CommitDetach(write) =>
      if w.call.Detaching? then Workspace(WriteSentinel(w.home, "", write), None, Idle, None) else w
    case Fail => w.(call := Idle)
    case GetDir(found) => w.(cache := Get(w.home, w.cache, found).1)
    case Restart => w.(cache := None, call := Idle)
    case Put(rel, dir) => w.(home := w.home.(dirs := w.home.dirs[rel := dir]))
    case Delete(rel) => w.(home := w.home.(dirs := w.home.dirs - {rel}))
  }

  // ---------- what each segment decides ----------

  /** The cached checkout if it is still there; else what the sentinel says; only without one, what listing finds. */
  lemma GetIsDecided(home: Home, cache: Option<Entry>, found: Option<Rel>)
    ensures var (dir, cache') := Get(home, cache, found);
            var cached := cache.Some? && Present(home, cache.value.rel);
            && (cached ==> dir == Some(cache.value.rel) && cache' == cache)
            && (!cached ==> cache' == if dir.Some? then Some(Entry(dir.value, 0)) else None)
            && (!cached && home.sentinel.None? ==> dir == found)
            && (!cached && home.sentinel.Some? ==>
                  var name := Strip(home.sentinel.value, TextSpace());
                  dir == if name != "" && Present(home, Rel(name)) then Some(Rel(name)) else None)
  {
    hide Strip;
  }

  /** An ensure ends at once exactly if its project is the one found, prepared less than 30 s ago, and all is there. */
  lemma FastPathIff(w: Workspace, project: Rel, secondaries: seq<Rel>, now: nat, found: Option<Rel>, write: Write)
    requires w.call.Idle?
    ensures var w' := Next(w, Ensure(project, secondaries, now, found, write));
            var cache := Get(w.home, w.cache, found).1;
            var fast := && cache.Some? && cache.value.rel == project && now - cache.value.updatedAt < 30
                        && forall rel | rel in [project] + secondaries :: Present(w.home, rel);
            && (w'.call.Idle? <==> fast) && w'.cache == cache && w'.home.dirs == w.home.dirs
            && (!fast ==> w'.call == Preparing(project, [project] + secondaries))
            && (w.home.sentinel.Some? || fast ==> w'.home == w.home && w'.selected == w.selected)
  {
    hide Get, Present;
  }

  /**
    A repository is taken as it is if it is a checkout, refused if anything else is there, and cloned
    otherwise; a refused or failed one ends the call.
   */
  lemma CloneIsDecided(w: Workspace, result: CloneResult)
    requires w.call.Preparing? && w.call.todo != []
    ensures var rel, w' := w.call.todo[0], Next(w, CloneNext(result));
            var on := Preparing(w.call.project, w.call.todo[1..]);
            if rel in w.home.dirs && w.home.dirs[rel].Checkout? then w' == w.(call := on)
            else if Occupied(w.home, rel) then w' == w.(call := Idle)
            else if result.Cloned? then
              w' == w.(call := on, home := Home(w.home.sentinel, w.home.dirs[rel := Checkout(result.content)]))
            else w'.call.Idle? && w'.home.sentinel == w.home.sentinel
                 && forall other | other in w.home.dirs && other != rel ::
                      other in w'.home.dirs && w'.home.dirs[other] == w.home.dirs[other]
  {
    hide Occupied;
  }

  /** A failure or cancellation only ends the call, a restart also empties the cache; both leave the disk alone. */
  lemma InterruptionsKeepHome(w: Workspace)
    ensures Next(w, Fail) == Workspace(w.home, w.cache, Idle, w.selected)
    ensures Next(w, Restart) == Workspace(w.home, None, Idle, w.selected)
  {
  }

  /** What an ensure has just prepared, the next one within 30 s finds ready. */
  lemma SecondEnsureIsFast(w: Workspace, project: Rel, secondaries: seq<Rel>, now: nat, later: nat, write: Write,
                           found: Option<Rel>, again: Write)
    requires w.call == Preparing(project, []) && AllPresent(w.home, [project] + secondaries)
    requires now <= later < now + 30
    ensures var w' := Next(w, Commit(now, write));
            Next(w', Ensure(project, secondaries, later, found, again)) == w'
  {
    var w' := Next(w, Commit(now, write));
    assert project in [project] + secondaries;
    assert Present(w'.home, project);
    assert AllPresent(w'.home, [project] + secondaries);
  }

  function Run(w: Workspace, actions: seq<Action>): Workspace
    decreases |actions|
  {
    if actions == [] then w else Run(Next(w, actions[0]), actions[1..])
  }

  // ---------- the selection is what is found again ----------

  function TextOf(selection: Option<Rel>): string {
    if selection.Some? then selection.value.text else ""
  }

  /** The steps that select, and what each selects. */
  function Selected(w: Workspace, a: Action): Option<Option<Rel>> {
    match a
    case Ensure(project, secondaries, now, found, write) =>
      if w.call.Idle? && w.home.sentinel.None? && Begin(w, project, secondaries, now, found, write).call.Preparing?
      then Some(Get(w.home, w.cache, found).0) else None
    case Commit(_, _) => if w.call.Preparing? && w.call.todo == [] then Some(Some(w.call.project)) else None
    case CommitDetach(_) => if w.call.Detaching? then Some(None) else None
    case _ => None
  }

  /** The text that writing a selection leaves on disk strips to its name. */
  predicate Keeps(home: Home, selection: Option<Rel>, write: Write) {
    var left := Left(home.sentinel, TextOf(selection), write);
    && left.Some? && Strip(left.value, TextSpace()) == TextOf(selection)
    && (selection.Some? ==> selection.value.text != "")
  }

  predicate StepKeeps(w: Workspace, a: Action)
    requires Selected(w, a).Some?
  {
    Keeps(w.home, Selected(w, a).value, a.write)
  }

  /** Whether the last selection of the run was kept; `kept` says so of the one before the run. */
  predicate LastKept(w: Workspace, actions: seq<Action>, kept: bool)
    decreases |actions|
  {
    if actions == [] then kept
    else
      LastKept(Next(w, actions[0]), actions[1..],
               if Selected(w, actions[0]).Some? then StepKeeps(w, actions[0]) else kept)
  }

  /** A complete write keeps a name exactly if it has no outer white space and is not empty. */
  lemma KeptIffCanonical(home: Home, rel: Rel, write: Write)
    requires write.Wrote? && write.count >= |rel.text|
    ensures Keeps(home, Some(rel), write) <==> rel.text != "" && Strip(rel.text, TextSpace()) == rel.text
  {
  }

  /** What a step selects, where it selects, is the new selection; no other step moves it or the sentinel. */
  lemma StepSelects(w: Workspace, a: Action)
    ensures var w' := Next(w, a);
            if Selected(w, a).Some? then
              && w'.selected == Selected(w, a).value
              && w'.home.sentinel == Left(w.home.sentinel, TextOf(w'.selected), a.write)
            else w'.selected == w.selected && w'.home.sentinel == w.home.sentinel
  {
    hide Get, Occupied, Present, AllPresent;
  }

  /** The cache holds the selection or what the sentinel says, whatever was written. */
  predicate Inv(w: Workspace) {
    w.home.sentinel.Some? && w.cache.Some? ==>
      Some(w.cache.value.rel) == w.selected || Some(w.cache.value.rel) == ReadSentinel(w.home)
  }

  lemma StepKeepsInv(w: Workspace, a: Action)
    requires Inv(w)
    ensures Inv(Next(w, a))
  {
    hide Strip, Occupied, Present, AllPresent;
    match a
    case Put(rel, dir) => SameSentinel(w.home, w.home.dirs[rel := dir]);
    case Delete(rel) => SameSentinel(w.home, w.home.dirs - {rel});
    case _ =>
  }

  lemma SameSentinel(home: Home, dirs: map<Rel, Dir>)
    ensures ReadSentinel(home.(dirs := dirs)) == ReadSentinel(home)
  {
    hide Strip;
  }

  /** The sentinel gives the selection back exactly if the last selection was kept. */
  lemma StepSettles(w: Workspace, a: Action, kept: bool)
    requires w.home.sentinel.Some? ==> (kept <==> ReadSentinel(w.home) == w.selected)
    ensures var w' := Next(w, a);
            w'.home.sentinel.Some? ==>
              ((if Selected(w, a).Some? then StepKeeps(w, a) else kept) <==> ReadSentinel(w'.home) == w'.selected)
  {
    hide Next, Selected, Strip;
    StepSelects(w, a);
  }

  lemma {:induction false} RunSettles(w: Workspace, actions: seq<Action>, kept: bool)
    requires Inv(w) && (w.home.sentinel.Some? ==> (kept <==> ReadSentinel(w.home) == w.selected))
    ensures var w' := Run(w, actions);
            && Inv(w')
            && (w'.home.sentinel.Some? ==> (LastKept(w, actions, kept) <==> ReadSentinel(w'.home) == w'.selected))
    decreases |actions|
  {
    hide Inv, Next, ReadSentinel, Selected, StepKeeps;
    if actions != [] {
      StepKeepsInv(w, actions[0]);
      StepSettles(w, actions[0], kept);
      RunSettles(Next(w, actions[0]), actions[1..],
                 if Selected(w, actions[0]).Some? then StepKeeps(w, actions[0]) else kept);
    }
  }

  /** A workspace found on disk when the service starts. */
  function Found(home: Home): Workspace {
    Workspace(home, None, Idle, ReadSentinel(home))
  }

  /** A selection whose checkout is present. */
  function Shown(home: Home, selection: Option<Rel>): Option<Rel> {
    if selection.Some? && Present(home, selection.value) then selection else None
  }

  /**
    Once the sentinel exists, over every run of ensures, detaches, failed clones, restarts and writes
    that end in any way: if the last selection was kept on disk, the project found is the one selected
    last, if its checkout is present, and otherwise none; never another archived checkout. After a
    restart it is found exactly if the selection was kept, or neither it nor what the sentinel says
    is there to be found.
   */
  lemma FindsTheSelection(home: Home, actions: seq<Action>, found: Option<Rel>)
    ensures var w := Run(Found(home), actions);
            var kept := LastKept(Found(home), actions, true);
            w.home.sentinel.Some? ==>
              && (kept ==> Get(w.home, w.cache, found).0 == Shown(w.home, w.selected))
              && (Get(w.home, None, found).0 == Shown(w.home, w.selected) <==>
                    kept || (Shown(w.home, w.selected).None? && Shown(w.home, ReadSentinel(w.home)).None?))
  {
    hide ReadSentinel, LastKept, Run, Present;
    RunSettles(Found(home), actions, true);
  }

  /** Only a commit moves the selection once the sentinel exists: to its project, or to none. */
  lemma OnlyCommitsSelect(w: Workspace, a: Action)
    requires w.home.sentinel.Some?
    ensures var w' := Next(w, a);
            && w'.home.sentinel.Some?
            && w'.selected == if a.Commit? && w.call.Preparing? && w.call.todo == [] then Some(w.call.project)
                              else if a.CommitDetach? && w.call.Detaching? then None
                              else w.selected
  {
    hide Get, Occupied, Present, AllPresent;
  }

  /** Without a sentinel, the first preparation selects and writes down what was found before it clones anything. */
  lemma FirstEnsureFixesSelection(w: Workspace, project: Rel, secondaries: seq<Rel>, now: nat, found: Option<Rel>,
                                  write: Write)
    requires w.call.Idle? && w.home.sentinel.None?
    ensures var w' := Next(w, Ensure(project, secondaries, now, found, write));
            var previous := Get(w.home, w.cache, found).0;
            w'.call.Preparing? ==>
              && w'.selected == previous && w'.home.dirs == w.home.dirs
              && (w'.home.sentinel.None? <==> write.Unopened?)
              && (w'.home.sentinel.Some? && Keeps(w.home, previous, write) ==> ReadSentinel(w'.home) == previous)
  {
    hide Get, AllPresent, Strip;
  }

  /** A commit selects a project only when every one of its repositories went through `_clone_or_update_one`. */
  lemma CloneMakesPresent(w: Workspace, result: CloneResult)
    requires w.call.Preparing? && w.call.todo != []
    ensures var w' := CloneOne(w, result);
            w'.call.Preparing? ==> Present(w'.home, w.call.todo[0]) && w'.call == w.call.(todo := w.call.todo[1..])
  {
    hide Occupied;
  }

  /**
    For every outcome of the sentinel write: the project is found until a restart; a restart finds it
    exactly if the text left on disk strips to its name (or no sentinel could be made and listing comes
    upon it). An unopened file gives what a restart found before, an emptied one nothing, a truncated
    name the project it happens to name, if any.
   */
  lemma RestartFinds(w: Workspace, project: Rel, now: nat, write: Write, found: Option<Rel>)
    requires w.call == Preparing(project, []) && project.text != "" && Present(w.home, project)
    ensures var committed := Next(w, Commit(now, write));
            var restarted := Next(committed, Restart);
            var left := Left(w.home.sentinel, project.text, write);
            var again := Get(restarted.home, restarted.cache, found).0;
            && Get(committed.home, committed.cache, found).0 == Some(project)
            && (again == Some(project) <==>
                  if left.Some? then Strip(left.value, TextSpace()) == project.text else found == Some(project))
            && (write.Unopened? ==> again == Get(w.home, None, found).0)
            && (write.Wrote? ==> again == Shown(w.home, ReadSentinel(w.home.(sentinel := left))))
            && (write == Wrote(0) ==> again == None)
  {
    hide Strip, Present;
    EmptyReadsAsNone(w.home);
    SamePresent(w.home, Left(w.home.sentinel, project.text, write));
  }

  lemma EmptyReadsAsNone(home: Home)
    ensures ReadSentinel(home.(sentinel := Some(""))) == None
  {
    hide TextSpace;
  }

  lemma SamePresent(home: Home, sentinel: Option<string>)
    ensures forall rel :: Present(home.(sentinel := sentinel), rel) == Present(home, rel)
  {
  }

  // ---------- no checkout is removed or replaced ----------

  predicate Service(a: Action) {
    !a.Put? && !a.Delete?
  }

  lemma StepKeepsCheckouts(w: Workspace, a: Action, rel: Rel)
    requires Service(a) && Present(w.home, rel)
    ensures rel in Next(w, a).home.dirs && Next(w, a).home.dirs[rel] == w.home.dirs[rel]
  {
    hide Get, Occupied;
  }

  lemma {:induction false} RunKeepsCheckouts(w: Workspace, actions: seq<Action>, rel: Rel)
    requires (forall a | a in actions :: Service(a)) && Present(w.home, rel)
    ensures rel in Run(w, actions).home.dirs && Run(w, actions).home.dirs[rel] == w.home.dirs[rel]
    decreases |actions|
  {
    hide Next;
    if actions != [] {
      StepKeepsCheckouts(w, actions[0], rel);
      RunKeepsCheckouts(Next(w, actions[0]), actions[1..], rel);
    }
  }

  // ---------- several agents ----------

  datatype Agent = Agent(id: string)

  predicate Alphanumeric(c: char) {
    'a' <= c <= 'z' || 'A' <= c <= 'Z' || '0' <= c <= '9'
  }

  function Letters(id: string): string {
    if id == "" then "" else (if Alphanumeric(id[0]) then [id[0]] else "") + Letters(id[1..])
  }

  function Kept(id: string): (kept: seq<Option<char>>) {
    seq(|id|, i requires 0 <= i < |id| =>
      var c := id[i];
      if 'a' <= c <= 'z' || 'A' <= c <= 'Z' || '0' <= c <= '9' then Some(c) else None)
  }

  /** Exactly the letters and digits stay, in order. */
  lemma {:induction false} LettersStay(id: string) returns (at: seq<nat>)
    ensures Filters(Letters(id), Kept(id), at)
    decreases |id|
  {
    hide Filters, Letters, Kept;
    if id == "" {
      at := [];
      NoLetters(id);
    } else {
      var n := |id| - 1;
      at := LettersStay(id[..n]);
      assert id == id[..n] + [id[n]];
      LettersAppend(id[..n], id[n]);
      KeptAppend(id[..n], id[n]);
      var next := if Alphanumeric(id[n]) then Some(id[n]) else None;
      FiltersOneMore(Letters(id[..n]), Kept(id[..n]), at, next);
      at := if next.Some? then at + [n] else at;
    }
  }

  lemma NoLetters(id: string)
    requires id == ""
    ensures Filters(Letters(id), Kept(id), [])
  {
  }

  lemma KeptAppend(id: string, c: char)
    ensures |Kept(id)| == |id| && Kept(id + [c]) == Kept(id) + [if Alphanumeric(c) then Some(c) else None]
  {
  }

  lemma {:induction false} LettersAppend(id: string, c: char)
    ensures Letters(id + [c]) == if Alphanumeric(c) then Letters(id) + [c] else Letters(id)
    decreases |id|
  {
    hide Alphanumeric;
    var more: string := id + [c];
    if id == "" {
      assert more == [c] && more[1..] == "" && Letters("") == "";
    } else {
      assert more[0] == id[0] && more[1..] == id[1..] + [c];
      LettersAppend(id[1..], c);
      var first: string := if Alphanumeric(id[0]) then [id[0]] else "";
      var rest := Letters(id[1..]);
      assert Letters(id) == first + rest && Letters(more) == first + Letters(id[1..] + [c]);
      assert first + (rest + [c]) == (first + rest) + [c];
    }
  }

  function Core(id: string): string {
    if |Letters(id)| <= 24 then Letters(id) else Letters(id)[..24]
  }

  /** `_sanitize_agent_id`. */
  function Sanitize(agent: Agent): string {
    if Core(agent.id) != "" then "agent_" + Core(agent.id) else "agent_default"
  }

  /** Two agents share a home exactly if their first 24 letters and digits agree, "default" standing for none. */
  lemma SharedHome(a: Agent, b: Agent)
    ensures var (x, y) := (Letters(a.id), Letters(b.id));
            var (first, second) := (if |x| <= 24 then x else x[..24], if |y| <= 24 then y else y[..24]);
            Sanitize(a) == Sanitize(b) <==>
              (if first == "" then "default" else first) == (if second == "" then "default" else second)
  {
    var x := if Core(a.id) == "" then "default" else Core(a.id);
    var y := if Core(b.id) == "" then "default" else Core(b.id);
    assert Sanitize(a) == "agent_" + x && Sanitize(b) == "agent_" + y;
    assert ("agent_" + x)[6..] == x && ("agent_" + y)[6..] == y;
  }

  datatype Memory = Memory(cache: Option<Entry>, call: Call, selected: Option<Rel>)

  /** Homes are keyed by sanitised name, everything else by agent. */
  datatype World = World(homes: map<string, Home>, memories: map<Agent, Memory>)

  function View(world: World, agent: Agent): Workspace {
    var home := if Sanitize(agent) in world.homes then world.homes[Sanitize(agent)] else Home(None, map[]);
    var memory := if agent in world.memories then world.memories[agent] else Memory(None, Idle, None);
    Workspace(home, memory.cache, memory.call, memory.selected)
  }

  function Step(world: World, agent: Agent, a: Action): World {
    var w := Next(View(world, agent), a);
    World(world.homes[Sanitize(agent) := w.home], world.memories[agent := Memory(w.cache, w.call, w.selected)])
  }

  function Steps(world: World, steps: seq<(Agent, Action)>): World
    decreases |steps|
  {
    if steps == [] then world else Steps(Step(world, steps[0].0, steps[0].1), steps[1..])
  }

  function ActionsOf(steps: seq<(Agent, Action)>, agent: Agent): seq<Action> {
    if steps == [] then []
    else (if steps[0].0 == agent then [steps[0].1] else []) + ActionsOf(steps[1..], agent)
  }

  lemma StepIsLocal(world: World, agent: Agent, a: Action, other: Agent)
    requires other == agent || Sanitize(other) != Sanitize(agent)
    ensures View(Step(world, agent, a), other)
         == if other == agent then Next(View(world, agent), a) else View(world, other)
  {
    hide Sanitize, Next;
  }

  /** Agents with distinct sanitised names do not touch each other: each sees a run of its own actions. */
  lemma {:induction false} AgentsIndependent(world: World, steps: seq<(Agent, Action)>, agent: Agent)
    requires forall i | 0 <= i < |steps| :: steps[i].0 == agent || Sanitize(steps[i].0) != Sanitize(agent)
    ensures View(Steps(world, steps), agent) == Run(View(world, agent), ActionsOf(steps, agent))
    decreases |steps|
  {
    hide Sanitize, Next, View, Step;
    if steps != [] {
      var next := Step(world, steps[0].0, steps[0].1);
      assert steps[0].0 == agent || Sanitize(steps[0].0) != Sanitize(agent);
      StepIsLocal(world, steps[0].0, steps[0].1, agent);
      AgentsIndependent(next, steps[1..], agent);
      var rest := ActionsOf(steps[1..], agent);
      if steps[0].0 == agent {
        assert ([steps[0].1] + rest)[1..] == rest;
      } else {
        assert [] + rest == rest;
      }
    }
  }

  // ---------- the service ----------

  function Clones(results: seq<CloneResult>): seq<Action> {
    seq(|results|, i requires 0 <= i < |results| => CloneNext(results[i]))
  }

  /** The steps of a whole `ensure_agent_project` that nothing disturbs. */
  function Undisturbed(ensure: Action, results: seq<CloneResult>, commit: Action): seq<Action> {
    [ensure] + (Clones(results) + [commit])
  }

  lemma UndisturbedRun(w: Workspace, ensure: Action, results: seq<CloneResult>, commit: Action)
    ensures Run(w, Undisturbed(ensure, results, commit)) == Run(Next(w, ensure), Clones(results) + [commit])
  {
  }

  lemma ClonesUnfold(w: Workspace, results: seq<CloneResult>, commit: Action)
    requires results != []
    ensures Run(w, Clones(results) + [commit]) == Run(Next(w, CloneNext(results[0])), Clones(results[1..]) + [commit])
  {
    hide Next;
    var steps := Clones(results) + [commit];
    assert steps[1..] == Clones(results[1..]) + [commit];
  }

  lemma CommitUnfolds(w: Workspace, commit: Action)
    ensures Run(w, Clones([]) + [commit]) == Next(w, commit)
  {
  }

  /** The state in which all clones were tried. */
  function AfterClones(w: Workspace, results: seq<CloneResult>): Workspace
    decreases |results|
  {
    if results == [] then w else AfterClones(Next(w, CloneNext(results[0])), results[1..])
  }

  /** After a failure or on the fast path, the rest of the steps change nothing. */
  lemma {:induction false} IdleIgnores(w: Workspace, results: seq<CloneResult>, commit: Action)
    requires w.call.Idle? && commit.Commit?
    ensures Run(w, Clones(results) + [commit]) == w && AfterClones(w, results) == w
    decreases |results|
  {
    if results == [] {
      CommitUnfolds(w, commit);
    } else {
      ClonesUnfold(w, results, commit);
      IdleIgnores(w, results[1..], commit);
    }
  }

  /** `call` is where the coroutine that holds the agent's lock stands. */
  class Projects {
    var home: Home
    var cache: Option<Entry>
    var call: Call
    var selected: Option<Rel>

    function View(): Workspace
      reads this
    {
      Workspace(home, cache, call, selected)
    }

    constructor (home: Home)
      ensures View() == Found(home) && Inv(View())
    {
      this.home, cache, call, selected := home, None, Idle, ReadSentinel(home);
    }

    /** `get_agent_project_dir`. */
    method GetProjectDir(found: Option<Rel>) returns (dir: Option<Rel>)
      requires Inv(View())
      modifies this`cache
      ensures Inv(View()) && (dir, cache) == Get(home, old(cache), found)
    {
      StepKeepsInv(View(), GetDir(found));
      if cache.Some? {
        if Present(home, cache.value.rel) {
          return Some(cache.value.rel);
        }
        cache := None;
      }
      var primary := ReadSentinel(home);
      if primary.Some? && Present(home, primary.value) {
        cache := Some(Entry(primary.value, 0));
        return primary;
      }
      if home.sentinel.Some? {
        return None;
      }
      if found.Some? {
        cache := Some(Entry(found.value, 0));
      }
      return found;
    }

    /** `ensure_agent_project` with a project up to its first await; `ready` is the fast path. */
    method BeginEnsure(project: Rel, secondaries: seq<Rel>, now: nat, found: Option<Rel>, write: Write)
      returns (ready: bool)
      requires Inv(View()) && call.Idle?
      modifies this
      ensures Inv(View()) && View() == Next(old(View()), Ensure(project, secondaries, now, found, write))
      ensures ready <==> call.Idle?
    {
      StepKeepsInv(View(), Ensure(project, secondaries, now, found, write));
      hide Get, ReadSentinel, Left;
      var previous := GetProjectDir(found);
      if cache.Some? && cache.value.rel == project && AllPresent(home, [project] + secondaries)
         && now - cache.value.updatedAt < REFRESH_TTL {
        return true;
      }
      if home.sentinel.None? {
        home := WriteSentinel(home, if previous.Some? then previous.value.text else "", write);
        selected := previous;
      }
      call := Preparing(project, [project] + secondaries);
      return false;
    }

    /** `_clone_or_update_one` of the next repository; `ok` unless it raises. */
    method CloneOrUpdateOne(result: CloneResult) returns (ok: bool)
      requires Inv(View()) && call.Preparing? && call.todo != []
      modifies this
      ensures Inv(View()) && View() == Next(old(View()), CloneNext(result))
      ensures ok <==> call.Preparing?
      ensures ok ==> Present(home, old(call.todo[0])) && call == old(call).(todo := old(call.todo[1..]))
    {
      StepKeepsInv(View(), CloneNext(result));
      hide ReadSentinel, Occupied;
      var rel := call.todo[0];
      if !Present(home, rel) {
        if Occupied(home, rel) {
          call := Idle;
          return false;
        }
        match result {
          case Cloned(content) =>
            home := home.(dirs := home.dirs[rel := Checkout(content)]);
          case Failed(leftover) =>
            if leftover.Some? {
              home := home.(dirs := home.dirs[rel := leftover.value]);
            }
            call := Idle;
            return false;
        }
      }
      call := call.(todo := call.todo[1..]);
      return true;
    }

    /** The end of `ensure_agent_project`, after the terminal was closed. */
    method CommitProject(now: nat, write: Write)
      requires Inv(View()) && call.Preparing? && call.todo == []
      modifies this
      ensures Inv(View()) && View() == Next(old(View()), Commit(now, write))
      ensures selected == Some(old(call.project))
    {
      StepKeepsInv(View(), Commit(now, write));
      hide Left;
      home := WriteSentinel(home, call.project.text, write);
      cache, selected := Some(Entry(call.project, now)), Some(call.project);
      call := Idle;
    }

    /** `ensure_agent_project` without a project, up to its await. */
    method BeginDetach(found: Option<Rel>)
      requires Inv(View()) && call.Idle?
      modifies this
      ensures Inv(View()) && View() == Next(old(View()), Detach(found))
    {
      hide Get;
      var previous := GetProjectDir(found);
      call := Detaching;
    }

    /** ... and from there on. */
    method CommitDetached(write: Write)
      requires Inv(View()) && call.Detaching?
      modifies this
      ensures Inv(View()) && View() == Next(old(View()), CommitDetach(write))
      ensures selected.None? && cache.None?
    {
      StepKeepsInv(View(), CommitDetach(write));
      home := WriteSentinel(home, "", write);
      cache, selected, call := None, None, Idle;
    }

    /**
      `ensure_agent_project` with a project, when nothing else runs in between: `results` are the
      outcomes of the clones, `first` and `last` those of the two sentinel writes.
     */
    method EnsureProject(project: Rel, secondaries: seq<Rel>, results: seq<CloneResult>, now: nat, found: Option<Rel>,
                         first: Write, last: Write)
      returns (dir: Option<Rel>)
      requires Inv(View()) && call.Idle? && |results| == 1 + |secondaries|
      modifies this
      ensures Inv(View()) && call.Idle?
      ensures View() == Run(old(View()), Undisturbed(Ensure(project, secondaries, now, found, first), results,
                                                     Commit(now, last)))
      ensures var begun := Next(old(View()), Ensure(project, secondaries, now, found, first));
              dir.Some? <==> begun.call.Idle? || AfterClones(begun, results).call.Preparing?
      ensures dir.Some? ==> dir.value == project && AllPresent(home, [project] + secondaries)
      ensures var begun := Next(old(View()), Ensure(project, secondaries, now, found, first));
              dir.Some? && begun.call.Preparing? ==> selected == dir
    {
      hide Run, Next, Inv;
      ghost var start, commit := View(), Commit(now, last);
      ghost var begun := Next(start, Ensure(project, secondaries, now, found, first));
      UndisturbedRun(start, Ensure(project, secondaries, now, found, first), results, commit);
      var ready := BeginEnsure(project, secondaries, now, found, first);
      if ready {
        IdleIgnores(begun, results, commit);
        FastPath(start, project, secondaries, now, found, first);
        return Some(project);
      }
      Prepares(start, project, secondaries, now, found, first);
      var repos := [project] + secondaries;
      assert repos[0..] == repos && results[0..] == results;
      for i := 0 to |repos|
        invariant Inv(View()) && call == Preparing(project, repos[i..])
        invariant Run(begun, Clones(results) + [commit]) == Run(View(), Clones(results[i..]) + [commit])
        invariant AfterClones(begun, results) == AfterClones(View(), results[i..])
        invariant AllPresent(home, repos[..i])
      {
        assert repos[i..][0] == repos[i] && repos[i..][1..] == repos[i + 1..];
        assert results[i..][0] == results[i] && results[i..][1..] == results[i + 1..];
        ClonesUnfold(View(), results[i..], commit);
        ghost var before := View();
        var ok := CloneOrUpdateOne(results[i]);
        KeepsAll(before, CloneNext(results[i]), repos[..i]);
        assert repos[..i + 1] == repos[..i] + [repos[i]];
        if !ok {
          assert call.Idle? by {
            CloneEnds(before, results[i]);
          }
          IdleIgnores(View(), results[i + 1..], commit);
          return None;
        }
      }
      assert repos[|repos|..] == [] && results[|repos|..] == [] && repos[..|repos|] == repos;
      CommitUnfolds(View(), commit);
      ghost var before := View();
      CommitProject(now, last);
      KeepsAll(before, commit, repos);
      assert call.Idle? by {
        CommitEnds(before, now, last);
      }
      return Some(project);
    }
  }

  lemma FastPath(w: Workspace, project: Rel, secondaries: seq<Rel>, now: nat, found: Option<Rel>, write: Write)
    requires w.call.Idle? && Next(w, Ensure(project, secondaries, now, found, write)).call.Idle?
    ensures AllPresent(w.home, [project] + secondaries)
    ensures Next(w, Ensure(project, secondaries, now, found, write)).home == w.home
  {
    hide Get;
  }

  lemma Prepares(w: Workspace, project: Rel, secondaries: seq<Rel>, now: nat, found: Option<Rel>, write: Write)
    requires w.call.Idle? && !Next(w, Ensure(project, secondaries, now, found, write)).call.Idle?
    ensures Next(w, Ensure(project, secondaries, now, found, write)).call == Preparing(project, [project] + secondaries)
  {
    hide Get, AllPresent;
  }

  lemma KeepsAll(w: Workspace, a: Action, rels: seq<Rel>)
    requires Service(a) && AllPresent(w.home, rels)
    ensures AllPresent(Next(w, a).home, rels)
  {
    hide Next;
    forall rel | rel in rels
      ensures Present(Next(w, a).home, rel)
    {
      StepKeepsCheckouts(w, a, rel);
    }
  }

  lemma CloneEnds(w: Workspace, result: CloneResult)
    requires w.call.Preparing? && w.call.todo != [] && !Next(w, CloneNext(result)).call.Preparing?
    ensures Next(w, CloneNext(result)).call.Idle?
  {
    hide Occupied, Present;
  }

  lemma CommitEnds(w: Workspace, now: nat, write: Write)
    requires w.call.Preparing? && w.call.todo == []
    ensures Next(w, Commit(now, write)).call.Idle?
  {
  }
}
