/**
 What each operation of the ingestion manager achieves (pkg/cloudcost/ingestionmanager.go): whatever the
 workers do meanwhile, and in whatever order its goroutines run, once the lock is free again.
 */
module IngestorOutcomes {
  import opened Results
  import opened IngestorLifecycle

  /* ---------- what is promised, over states alone ---------- */

  /** The key has an ingestor with both workers alive. */
  ghost predicate UpAt(t: System, key: string) {
    && key in t.table && t.table[key] in t.ingestors
    && var ing := t.ingestors[t.table[key]];
       ing.isRunning && BuildAlive(ing, ing.gen) && RunAlive(ing, ing.gen)
  }

  /** The key has an ingestor without any live worker. */
  ghost predicate DownAt(t: System, key: string) {
    key in t.table && t.table[key] in t.ingestors && !t.ingestors[t.table[key]].isRunning && Settled(t.ingestors[t.table[key]])
  }

  /** The key has the ingestor it had, with the workers it had or with none as it was. */
  ghost predicate KeptAt(s: System, t: System, key: string) {
    && (key in t.table <==> key in s.table)
    && (key in s.table ==>
          && t.table[key] == s.table[key] && s.table[key] in s.ingestors && s.table[key] in t.ingestors
          && t.ingestors[s.table[key]].isRunning == s.ingestors[s.table[key]].isRunning
          && t.ingestors[s.table[key]].gen == s.ingestors[s.table[key]].gen)
  }

  /** The key has an ingestor that was not there before, with both workers alive. */
  ghost predicate NewAt(s: System, t: System, key: string) {
    UpAt(t, key) && t.table[key] !in s.ingestors
  }

  /** The workers of the key's ingestor have been launched `n` times since. */
  ghost predicate Launched(s: System, t: System, key: string, n: nat) {
    && key in s.table && s.table[key] in s.ingestors && s.table[key] in t.ingestors
    && t.ingestors[s.table[key]].gen == s.ingestors[s.table[key]].gen + n
  }

  ghost predicate WasUp(s: System, key: string) {
    key in s.table && s.table[key] in s.ingestors && s.ingestors[s.table[key]].isRunning
  }

  /** The last configuration given for the key is a valid one. */
  ghost predicate LastIsValid(configs: seq<(string, bool)>, key: string) {
    exists i :: 0 <= i < |configs| && configs[i] == (key, true) && forall j :: i < j < |configs| ==> configs[j].0 != key
  }

  ghost predicate Achieved(op: Operation, s: System, t: System) {
    match op
    case PutConfig(key, valid) =>
      && (if valid then NewAt(s, t, key) else key !in t.table)
      && forall k :: k != key ==> KeptAt(s, t, k)
    case DeleteConfig(key) =>
      key !in t.table && forall k :: k != key ==> KeptAt(s, t, k)
    case SetConfigs(configs, _) =>
      forall k :: if LastIsValid(configs, k) then NewAt(s, t, k) else k !in t.table
    case StartAll =>
      t.table == s.table && forall k :: k in s.table ==> UpAt(t, k) && Launched(s, t, k, if WasUp(s, k) then 0 else 1)
    case StopAll => t.table == s.table && forall k :: k in s.table ==> DownAt(t, k) && Launched(s, t, k, 0)
    case RebuildAll => t.table == s.table && forall k :: k in s.table ==> UpAt(t, k) && Launched(s, t, k, 1)
    case Rebuild(key) =>
      && t.table == s.table && (key in s.table ==> UpAt(t, key) && Launched(s, t, key, 1))
      && forall k :: k != key ==> KeptAt(s, t, k)
  }

  /** From the step that takes the lock to the first state with the lock free. */
  ghost predicate Operates(run: seq<System>, i: nat, j: nat, op: Operation) {
    && IsRun(run) && Inv(run[0]) && i < j < |run|
    && run[i].threads == map[] && Enabled(run[i], Acquire(op)) && run[i + 1] == Apply(run[i], Acquire(op))
    && run[j].threads == map[] && forall k :: i < k < j ==> run[k].threads != map[]
  }

  /* ---------- single steps ---------- */

  predicate SameLife(ing: Ingestor, next: Ingestor) { next.isRunning == ing.isRunning && next.gen == ing.gen }

  predicate SameCommands(th: Thread, next: Thread) {
    next.todo == th.todo && (th.todo != [] && th.todo[0].Start? ==> next.call == th.call)
  }

  /** Steps of workers and senders, and the end of a goroutine. */
  lemma QuietStep(s: System, step: Step)
    requires Inv(s) && Enabled(s, step) && !step.Execute? && !step.Acquire?
    ensures var t := Apply(s, step);
            && t.table == s.table && t.ingestors.Keys == s.ingestors.Keys
            && (forall id :: id in s.ingestors ==> SameLife(s.ingestors[id], t.ingestors[id]))
            && (forall tid :: tid in t.threads ==> tid in s.threads && SameCommands(s.threads[tid], t.threads[tid]))
            && (forall tid :: tid in s.threads && tid !in t.threads ==> s.threads[tid].todo == [])
  {
    hide Inv, BuildNext, RunNext;
  }

  /** The call goes on, and a Start that begins launches a new generation; or it returns with the ingestor up or down. */
  ghost predicate Progresses(c: Command, ing: Ingestor, next: Ingestor, th: Thread, after: Thread) {
    var begins := c.Start? && th.call.NoCall?;
    || (after.todo == th.todo && next.gen == (if begins then ing.gen + 1 else ing.gen)
        && (c.Start? ==> !after.call.NoCall?) && (begins ==> !ing.isRunning))
    || (th.todo != [] && after.todo == th.todo[1..] && next.gen == ing.gen && next.isRunning == c.Start?
        && after.call.NoCall? && (begins ==> ing.isRunning))
  }

  /** A step inside a call of Start or Stop: it is about one ingestor, and returns with it up or down. */
  lemma CallStep(s: System, tid: ThreadId, newId: IngestorId)
    requires Inv(s) && HeadCalls(s, tid) && Enabled(s, Execute(tid, newId))
    ensures var t, c := Apply(s, Execute(tid, newId)), s.threads[tid].todo[0];
            && t.table == s.table && t.ingestors.Keys == s.ingestors.Keys && t.threads.Keys == s.threads.Keys
            && (forall id :: id in s.ingestors && id != c.id ==> t.ingestors[id] == s.ingestors[id])
            && (forall other :: other in s.threads && other != tid ==> t.threads[other] == s.threads[other])
            && Progresses(c, s.ingestors[c.id], t.ingestors[c.id], s.threads[tid], t.threads[tid])
  {
    hide Inv, OldDone, OnLatest, Settled, BuildAlive, RunAlive;
    IngestorLifecycle.Ok(s, tid);
    Fits(s, tid);
  }

  lemma Fits(s: System, tid: ThreadId)
    requires Inv(s) && tid in s.threads
    ensures CallFits(s.threads[tid])
  {
  }

  /* ---------- operations on the table ---------- */

  datatype Fate = Kept | Gone | Up

  /** What a command means for the key in the end. */
  function Meaning(c: Command, k: string): Option<Fate> {
    match c
    case Delete(key) => if key == k then Some(Gone) else None
    case Remove(key) => if key == k then Some(Gone) else None
    case Create(key, valid) => if key == k then Some(if valid then Up else Gone) else None
    case Insert(key, _) => if key == k then Some(Up) else None
    case Stop(_) => None
    case Start(_) => None
  }

  /** What the commands mean for the key: the last word on it counts. */
  function FateOf(todo: seq<Command>, k: string): Option<Fate> {
    if todo == [] then None
    else if FateOf(todo[1..], k).Some? then FateOf(todo[1..], k)
    else Meaning(todo[0], k)
  }

  lemma {:induction false} FateConcat(a: seq<Command>, b: seq<Command>, k: string)
    ensures FateOf(a + b, k) == if FateOf(b, k).Some? then FateOf(b, k) else FateOf(a, k)
  {
    if a == [] {
      assert a + b == b;
    } else {
      assert (a + b)[1..] == a[1..] + b;
      FateConcat(a[1..], b, k);
    }
  }

  lemma FateOne(c: Command, k: string)
    ensures FateOf([c], k) == Meaning(c, k)
  {
    assert [c][1..] == [];
  }

  lemma FateTwo(c: Command, d: Command, k: string)
    ensures FateOf([c, d], k) == if Meaning(d, k).Some? then Meaning(d, k) else Meaning(c, k)
  {
    assert [c, d] == [c] + [d];
    FateConcat([c], [d], k);
    FateOne(c, k);
    FateOne(d, k);
  }

  function Todo(t: System): seq<Command> { if Main in t.threads then t.threads[Main].todo else [] }

  ghost predicate Matches(s: System, t: System, k: string, f: Fate) {
    match f
    case Kept => KeptAt(s, t, k)
    case Gone => k !in t.table
    case Up =>
      k in t.table && t.table[k] in t.ingestors && t.ingestors[t.table[k]].isRunning && t.table[k] !in s.ingestors
  }

  /** Either commands that decide the key's fate are still to come, or it is met. */
  ghost predicate OnTheWay(s: System, t: System, k: string, f: Fate) {
    if FateOf(Todo(t), k).Some? then FateOf(Todo(t), k).value == f else Matches(s, t, k, f)
  }

  /** The list's calls of Stop and Start come before a Remove and an Insert; what is inserted next is new and running. */
  ghost predicate TableWork(s0: System, t: System) {
    && t.threads.Keys <= {Main} && s0.ingestors.Keys <= t.ingestors.Keys
    && var todo := Todo(t);
       && (todo != [] && todo[0].Stop? ==> |todo| >= 2 && todo[1].Remove?)
       && (todo != [] && todo[0].Start? ==> |todo| >= 2 && todo[1].Insert? && todo[0].id !in s0.ingestors)
       && (todo != [] && todo[0].Insert? ==>
             todo[0].id in t.ingestors && t.ingestors[todo[0].id].isRunning && todo[0].id !in s0.ingestors)
  }

  /** A call at the head of the list works for a key whose fate is still to come. */
  lemma CallKeepsFate(s0: System, s: System, newId: IngestorId, k: string, f: Fate)
    requires Inv(s) && TableWork(s0, s) && HeadCalls(s, Main) && Enabled(s, Execute(Main, newId)) && OnTheWay(s0, s, k, f)
    ensures OnTheWay(s0, Apply(s, Execute(Main, newId)), k, f)
  {
    hide Apply, IngestorsOk, OrphansOk, CallFits;
    CallStep(s, Main, newId);
    var todo, t := Todo(s), Apply(s, Execute(Main, newId));
    var c := todo[0];
    assert FateOf(todo, k) == FateOf(todo[1..], k);
    if FateOf(todo, k).None? {
      assert todo == [c] + todo[1..];
      SecondMatters(todo, k);
      if k in s.table { NotCalled(s0, s, k); }
    }
  }

  lemma SecondMatters(todo: seq<Command>, k: string)
    requires |todo| >= 2 && FateOf(todo, k).None?
    ensures Meaning(todo[1], k).None?
  {
    assert todo[1..][0] == todo[1];
  }

  /** The ingestor of a key whose fate is not open is not the one at work. */
  lemma NotCalled(s0: System, s: System, k: string)
    requires TableOk(s) && ThreadsOk(s) && TableWork(s0, s) && HeadCalls(s, Main) && k in s.table
    requires Meaning(Todo(s)[1], k).None?
    ensures s.table[k] != Todo(s)[0].id
  {
    hide CallFits, FanOutOk;
    var todo := Todo(s);
    assert MainOk(s, todo);
    assert todo[0].Stop? || todo[0].Start?;
    assert s.table[k] in s.table.Values;
  }

  lemma CallKeepsWork(s0: System, s: System, newId: IngestorId)
    requires Inv(s) && TableWork(s0, s) && HeadCalls(s, Main) && Enabled(s, Execute(Main, newId))
    ensures TableWork(s0, Apply(s, Execute(Main, newId)))
  {
    hide Apply, IngestorsOk, OrphansOk, CallFits, FanOutOk;
    CallStep(s, Main, newId);
    var todo := Todo(s);
    assert MainOk(s, todo);
    assert todo[0].Stop? || todo[0].Start?;
    assert todo[1..][0] == todo[1];
  }

  /** A list with a new head means the same for the key if the head does. */
  lemma NewHead(s0: System, s: System, t: System, head: seq<Command>, k: string, f: Fate)
    requires Main in s.threads && Todo(s) != [] && OnTheWay(s0, s, k, f)
    requires Main in t.threads && Todo(t) == head + Todo(s)[1..]
    requires if Meaning(Todo(s)[0], k).Some? then FateOf(head, k) == Meaning(Todo(s)[0], k) || (FateOf(head, k).None? && Matches(s0, t, k, Meaning(Todo(s)[0], k).value))
             else FateOf(head, k).None? && (Matches(s0, s, k, f) ==> Matches(s0, t, k, f))
    ensures OnTheWay(s0, t, k, f)
  {
    hide Matches;
    var c, rest := Todo(s)[0], Todo(s)[1..];
    FateConcat(head, rest, k);
  }

  lemma DeleteKeepsFate(s0: System, s: System, newId: IngestorId, k: string, f: Fate)
    requires Head(s, Main) && Todo(s)[0].Delete? && Enabled(s, Execute(Main, newId)) && OnTheWay(s0, s, k, f)
    ensures OnTheWay(s0, Apply(s, Execute(Main, newId)), k, f)
  {
    hide FateOf;
    var t, key := Apply(s, Execute(Main, newId)), Todo(s)[0].key;
    var head := if key in s.table then [Stop(s.table[key]), Remove(key)] else [];
    FateNone(k);
    if key in s.table { FateTwo(Stop(s.table[key]), Remove(key), k); }
    NewHead(s0, s, t, head, k, f);
  }

  lemma FateNone(k: string)
    ensures FateOf([], k).None?
  {
  }

  /** With an ingestor at the key, Create first stops and removes that one. */
  lemma CreateReplaces(s0: System, s: System, newId: IngestorId, k: string, f: Fate)
    requires Head(s, Main) && Todo(s)[0].Create? && Todo(s)[0].key in s.table
    requires Enabled(s, Execute(Main, newId)) && OnTheWay(s0, s, k, f)
    ensures OnTheWay(s0, Apply(s, Execute(Main, newId)), k, f)
  {
    hide FateOf;
    var t, key, create := Apply(s, Execute(Main, newId)), Todo(s)[0].key, Todo(s)[0];
    var head := [Stop(s.table[key]), Remove(key)];
    assert head + Todo(s) == head + [create] + Todo(s)[1..];
    FateConcat(head, [create], k);
    FateTwo(Stop(s.table[key]), Remove(key), k);
    FateOne(create, k);
    NewHead(s0, s, t, head + [create], k, f);
  }

  /** A valid configuration makes a new ingestor, to be started and inserted. */
  lemma CreateMakes(s0: System, s: System, newId: IngestorId, k: string, f: Fate)
    requires Head(s, Main) && Todo(s)[0].Create? && Todo(s)[0].key !in s.table && Todo(s)[0].valid
    requires Enabled(s, Execute(Main, newId)) && OnTheWay(s0, s, k, f)
    requires forall l :: l in s.table ==> s.table[l] in s.ingestors
    ensures OnTheWay(s0, Apply(s, Execute(Main, newId)), k, f)
  {
    hide FateOf;
    var t, key := Apply(s, Execute(Main, newId)), Todo(s)[0].key;
    FateTwo(Start(newId), Insert(key, newId), k);
    NewHead(s0, s, t, [Start(newId), Insert(key, newId)], k, f);
  }

  /** An invalid one makes none. */
  lemma CreateFails(s0: System, s: System, newId: IngestorId, k: string, f: Fate)
    requires Head(s, Main) && Todo(s)[0].Create? && Todo(s)[0].key !in s.table && !Todo(s)[0].valid
    requires Enabled(s, Execute(Main, newId)) && OnTheWay(s0, s, k, f)
    ensures OnTheWay(s0, Apply(s, Execute(Main, newId)), k, f)
  {
    hide FateOf;
    var t := Apply(s, Execute(Main, newId));
    FateNone(k);
    assert [] + Todo(s)[1..] == Todo(s)[1..];
    NewHead(s0, s, t, [], k, f);
  }

  lemma CreateKeepsFate(s0: System, s: System, newId: IngestorId, k: string, f: Fate)
    requires Head(s, Main) && Todo(s)[0].Create? && Enabled(s, Execute(Main, newId)) && OnTheWay(s0, s, k, f)
    requires forall l :: l in s.table ==> s.table[l] in s.ingestors
    ensures OnTheWay(s0, Apply(s, Execute(Main, newId)), k, f)
  {
    hide Apply, Enabled, OnTheWay;
    if Todo(s)[0].key in s.table {
      CreateReplaces(s0, s, newId, k, f);
    } else if Todo(s)[0].valid {
      CreateMakes(s0, s, newId, k, f);
    } else {
      CreateFails(s0, s, newId, k, f);
    }
  }

  lemma TableKeepsFate(s0: System, s: System, newId: IngestorId, k: string, f: Fate)
    requires TableWork(s0, s) && Head(s, Main) && (Todo(s)[0].Remove? || Todo(s)[0].Insert?) && Enabled(s, Execute(Main, newId))
    requires OnTheWay(s0, s, k, f)
    ensures OnTheWay(s0, Apply(s, Execute(Main, newId)), k, f)
  {
    hide FateOf;
    var t := Apply(s, Execute(Main, newId));
    FateNone(k);
    assert [] + Todo(s)[1..] == Todo(s)[1..];
    NewHead(s0, s, t, [], k, f);
  }

  /** The commands that are not calls. */
  lemma CommandKeepsFate(s0: System, s: System, newId: IngestorId, k: string, f: Fate)
    requires Inv(s) && TableWork(s0, s) && Head(s, Main) && !HeadCalls(s, Main) && Enabled(s, Execute(Main, newId)) && OnTheWay(s0, s, k, f)
    ensures OnTheWay(s0, Apply(s, Execute(Main, newId)), k, f)
  {
    hide Apply, OnTheWay, ThreadsOk, IngestorsOk, OrphansOk;
    match Todo(s)[0]
    case Delete(_) => DeleteKeepsFate(s0, s, newId, k, f);
    case Create(_, _) => CreateKeepsFate(s0, s, newId, k, f);
    case Remove(_) => TableKeepsFate(s0, s, newId, k, f);
    case Insert(_, _) => TableKeepsFate(s0, s, newId, k, f);
    case Stop(_) =>
    case Start(_) =>
  }

  /** Behind a command that is not a call come only Delete and Create. */
  lemma RestIsHigh(s: System)
    requires Inv(s) && Head(s, Main) && !HeadCalls(s, Main) && !Todo(s)[0].Stop? && !Todo(s)[0].Start?
    ensures |Todo(s)| > 1 ==> Todo(s)[1].Delete? || Todo(s)[1].Create?
  {
    hide IngestorsOk, OrphansOk, CallFits, FanOutOk, TableOk;
    var todo := Todo(s);
    assert MainOk(s, todo);
    if |todo| > 1 && !High(todo) { assert todo[1] == todo[1..][0]; }
  }

  lemma CommandKeepsWork(s0: System, s: System, newId: IngestorId)
    requires Inv(s) && TableWork(s0, s) && Head(s, Main) && !HeadCalls(s, Main) && Enabled(s, Execute(Main, newId))
    ensures TableWork(s0, Apply(s, Execute(Main, newId)))
  {
    hide Inv;
    var todo, rest := Todo(s), Todo(s)[1..];
    var c, t := todo[0], Apply(s, Execute(Main, newId));
    RestIsHigh(s);
    match c
    case Delete(key) =>
      if key in s.table { assert ([Stop(s.table[key]), Remove(key)] + rest)[1] == Remove(key); } else { assert [] + rest == rest; }
    case Create(key, valid) =>
      if key in s.table { assert ([Stop(s.table[key]), Remove(key)] + todo)[1] == Remove(key); }
    case Remove(key) =>
    case Insert(key, id) =>
    case Stop(id) =>
    case Start(id) =>
  }

  lemma TableStep(s0: System, s: System, step: Step, k: string, f: Fate)
    requires Inv(s0) && Inv(s) && TableWork(s0, s) && s.threads != map[] && Enabled(s, step) && OnTheWay(s0, s, k, f)
    ensures TableWork(s0, Apply(s, step)) && OnTheWay(s0, Apply(s, step), k, f)
  {
    if step.Execute? {
      hide Inv, Apply, OnTheWay, Enabled;
      OnlyMain(s0, s, step);
      if HeadCalls(s, Main) {
        CallKeepsFate(s0, s, step.newId, k, f);
        CallKeepsWork(s0, s, step.newId);
      } else {
        CommandKeepsFate(s0, s, step.newId, k, f);
        CommandKeepsWork(s0, s, step.newId);
      }
    } else {
      hide Inv, Apply;
      QuietStep(s, step);
      QuietKeepsFate(s0, s, Apply(s, step), k, f);
    }
  }

  lemma OnlyMain(s0: System, s: System, step: Step)
    requires TableWork(s0, s) && Enabled(s, step) && step.Execute?
    ensures step.tid == Main && Head(s, Main)
  {
  }

  lemma QuietKeepsFate(s0: System, s: System, t: System, k: string, f: Fate)
    requires TableWork(s0, s) && OnTheWay(s0, s, k, f)
    requires t.table == s.table && t.ingestors.Keys == s.ingestors.Keys
    requires forall id :: id in s.ingestors ==> SameLife(s.ingestors[id], t.ingestors[id])
    requires forall tid :: tid in t.threads ==> tid in s.threads && SameCommands(s.threads[tid], t.threads[tid])
    requires forall tid :: tid in s.threads && tid !in t.threads ==> s.threads[tid].todo == []
    ensures TableWork(s0, t) && OnTheWay(s0, t, k, f)
  {
    assert Todo(t) == Todo(s);
  }

  /* ---------- operations on all ingestors, or on one ---------- */

  /** What is still to be done with an ingestor. */
  function Remaining(t: System, id: IngestorId): seq<Command> {
    if For(id) in t.threads then t.threads[For(id)].todo
    else if Main in t.threads && t.threads[Main].todo != [] && t.threads[Main].todo[0] in {Stop(id), Start(id)} then t.threads[Main].todo
    else []
  }

  /** Stop, Start, or one after the other, of one ingestor. */
  ghost predicate WorksOn(todo: seq<Command>, id: IngestorId) {
    todo == [] || todo == [Stop(id)] || todo == [Start(id)] || todo == [Stop(id), Start(id)]
  }

  ghost predicate FleetWork(t: System) {
    && (Main in t.threads ==> t.threads.Keys == {Main})
    && (forall id :: For(id) in t.threads ==> WorksOn(t.threads[For(id)].todo, id))
    && (Main in t.threads && t.threads[Main].todo != [] ==>
          (t.threads[Main].todo[0].Stop? || t.threads[Main].todo[0].Start?)
          && WorksOn(t.threads[Main].todo, t.threads[Main].todo[0].id))
  }

  /** Whether the ingestor will run, and how often its workers have been launched by then. */
  datatype Goal = Goal(running: bool, gen: Generation)

  function GoalOf(todo: seq<Command>, starting: bool, ing: Ingestor): Goal {
    if todo == [] then Goal(ing.isRunning, ing.gen)
    else if todo[0].Stop? then Goal(|todo| > 1, if |todo| > 1 then ing.gen + 1 else ing.gen)
    else Goal(true, if ing.isRunning || starting then ing.gen else ing.gen + 1)
  }

  ghost predicate GoalAhead(t: System, id: IngestorId, goal: Goal) {
    id in t.ingestors && GoalOf(Remaining(t, id), !CallOn(t, id).NoCall?, t.ingestors[id]) == goal
  }

  lemma FleetStep(s: System, step: Step, id: IngestorId, goal: Goal)
    requires Inv(s) && FleetWork(s) && s.threads != map[] && Enabled(s, step) && GoalAhead(s, id, goal)
    ensures Apply(s, step).table == s.table && FleetWork(Apply(s, step)) && GoalAhead(Apply(s, step), id, goal)
  {
    if step.Execute? {
      hide Apply;
      FleetCalls(s, step);
      CallStep(s, step.tid, step.newId);
      FleetCall(s, Apply(s, step), step.tid, id, goal);
    } else {
      hide Inv, Apply;
      QuietStep(s, step);
      FleetQuiet(s, Apply(s, step), id, goal);
    }
  }

  lemma FleetCalls(s: System, step: Step)
    requires FleetWork(s) && Enabled(s, step) && step.Execute?
    ensures HeadCalls(s, step.tid)
  {
    var todo := s.threads[step.tid].todo;
    if step.tid.For? { assert WorksOn(todo, step.tid.id); }
  }

  /** One call's step leaves the goal of its ingestor as it was. */
  lemma GoalStays(c: Command, ing: Ingestor, next: Ingestor, th: Thread, after: Thread)
    requires th.todo != [] && th.todo[0] == c && (c.Stop? || c.Start?) && WorksOn(th.todo, c.id)
    requires Progresses(c, ing, next, th, after)
    requires c.Start? && !th.call.NoCall? ==> ing.isRunning
    ensures WorksOn(after.todo, c.id)
    ensures GoalOf(after.todo, !after.call.NoCall?, next) == GoalOf(th.todo, !th.call.NoCall?, ing)
  {
  }

  lemma StartingRuns(s: System, tid: ThreadId)
    requires Inv(s) && HeadCalls(s, tid) && s.threads[tid].todo[0].Start? && !s.threads[tid].call.NoCall?
    ensures s.ingestors[s.threads[tid].todo[0].id].isRunning
  {
    hide Inv;
    IngestorLifecycle.Ok(s, tid);
    Fits(s, tid);
  }

  lemma NothingAhead(a: bool, b: bool, ing: Ingestor)
    ensures GoalOf([], a, ing) == GoalOf([], b, ing)
  {
  }

  lemma FleetCall(s: System, t: System, tid: ThreadId, id: IngestorId, goal: Goal)
    requires Inv(s) && FleetWork(s) && HeadCalls(s, tid) && GoalAhead(s, id, goal)
    requires var c := s.threads[tid].todo[0];
             && t.table == s.table && t.ingestors.Keys == s.ingestors.Keys && t.threads.Keys == s.threads.Keys
             && (forall i :: i in s.ingestors && i != c.id ==> t.ingestors[i] == s.ingestors[i])
             && (forall other :: other in s.threads && other != tid ==> t.threads[other] == s.threads[other])
             && Progresses(c, s.ingestors[c.id], t.ingestors[c.id], s.threads[tid], t.threads[tid])
    ensures FleetWork(t) && GoalAhead(t, id, goal)
  {
    hide Progresses, GoalOf, Inv;
    var c := s.threads[tid].todo[0];
    assert WorksOn(s.threads[tid].todo, c.id);
    assert tid.For? ==> tid.id == c.id;
    if c.Start? && !s.threads[tid].call.NoCall? { StartingRuns(s, tid); }
    GoalStays(c, s.ingestors[c.id], t.ingestors[c.id], s.threads[tid], t.threads[tid]);
    if id != c.id {
      assert Remaining(t, id) == Remaining(s, id) && CallOn(t, id) == CallOn(s, id);
    } else {
      var th, after := s.threads[tid], t.threads[tid];
      assert Remaining(s, id) == th.todo && CallOn(s, id) == th.call;
      assert Remaining(t, id) == after.todo;
      if after.todo == [] {
        NothingAhead(!CallOn(t, id).NoCall?, !after.call.NoCall?, t.ingestors[id]);
      } else {
        assert CallOn(t, id) == after.call;
      }
    }
  }

  lemma FleetQuiet(s: System, t: System, id: IngestorId, goal: Goal)
    requires FleetWork(s) && GoalAhead(s, id, goal)
    requires t.table == s.table && t.ingestors.Keys == s.ingestors.Keys
    requires forall i :: i in s.ingestors ==> SameLife(s.ingestors[i], t.ingestors[i])
    requires forall tid :: tid in t.threads ==> tid in s.threads && SameCommands(s.threads[tid], t.threads[tid])
    requires forall tid :: tid in s.threads && tid !in t.threads ==> s.threads[tid].todo == []
    ensures FleetWork(t) && GoalAhead(t, id, goal)
  {
    if For(id) in s.threads && For(id) !in t.threads {
      assert s.threads[For(id)].todo == [];
    }
  }

  /* ---------- where an operation starts ---------- */

  ghost predicate OnTable(op: Operation) { op.PutConfig? || op.DeleteConfig? || op.SetConfigs? }

  ghost function KeyFate(op: Operation, k: string): Fate
    requires OnTable(op)
  {
    match op
    case PutConfig(key, valid) => if k != key then Kept else if valid then Up else Gone
    case DeleteConfig(key) => if k != key then Kept else Gone
    case SetConfigs(configs, _) => if LastIsValid(configs, k) then Up else Gone
  }

  lemma {:induction false} DeletesFate(keys: seq<string>, k: string)
    ensures FateOf(Deletes(keys), k) == if k in keys then Some(Gone) else None
  {
    if keys != [] {
      assert Deletes(keys)[1..] == Deletes(keys[1..]);
      DeletesFate(keys[1..], k);
      assert k in keys <==> k == keys[0] || k in keys[1..];
    }
  }

  ghost predicate Given(configs: seq<(string, bool)>, k: string) { exists i :: 0 <= i < |configs| && configs[i].0 == k }

  lemma {:induction false} CreatesFate(configs: seq<(string, bool)>, k: string)
    ensures FateOf(Creates(configs), k)
            == if LastIsValid(configs, k) then Some(Up) else if Given(configs, k) then Some(Gone) else None
  {
    if configs != [] {
      assert Creates(configs)[1..] == Creates(configs[1..]);
      CreatesFate(configs[1..], k);
      FirstConfig(configs, k);
    }
  }

  lemma FirstConfig(configs: seq<(string, bool)>, k: string)
    requires configs != []
    ensures Given(configs, k) <==> configs[0].0 == k || Given(configs[1..], k)
    ensures LastIsValid(configs, k) <==> LastIsValid(configs[1..], k) || (configs[0] == (k, true) && !Given(configs[1..], k))
  {
    var rest := configs[1..];
    assert forall i :: 0 <= i < |rest| ==> rest[i] == configs[i + 1];
    if Given(rest, k) {
      var i :| 0 <= i < |rest| && rest[i].0 == k;
      assert configs[i + 1].0 == k;
    }
    if LastIsValid(rest, k) {
      var i :| 0 <= i < |rest| && rest[i] == (k, true) && forall j :: i < j < |rest| ==> rest[j].0 != k;
      assert configs[i + 1] == (k, true);
      forall j | i + 1 < j < |configs| ensures configs[j].0 != k { assert configs[j] == rest[j - 1]; }
    }
    if LastIsValid(configs, k) {
      var i :| 0 <= i < |configs| && configs[i] == (k, true) && forall j :: i < j < |configs| ==> configs[j].0 != k;
      if i > 0 {
        assert rest[i - 1] == (k, true);
        forall j | i - 1 < j < |rest| ensures rest[j].0 != k { assert rest[j] == configs[j + 1]; }
      } else {
        forall j | 0 <= j < |rest| ensures rest[j].0 != k { assert rest[j] == configs[j + 1]; }
      }
    }
  }

  lemma TableStarts(s: System, op: Operation, k: string)
    requires Inv(s) && s.threads == map[] && Enabled(s, Acquire(op)) && OnTable(op)
    ensures TableWork(s, Apply(s, Acquire(op))) && OnTheWay(s, Apply(s, Acquire(op)), k, KeyFate(op, k))
  {
    hide IngestorsOk, ThreadsOk, OrphansOk, LastIsValid, FateOf, Deletes, Creates;
    var t := Apply(s, Acquire(op));
    match op
    case PutConfig(key, valid) => FateOne(Create(key, valid), k);
    case DeleteConfig(key) => FateOne(Delete(key), k);
    case SetConfigs(configs, order) =>
      FateConcat(Deletes(order), Creates(configs), k);
      DeletesFate(order, k);
      CreatesFate(configs, k);
      HighCommands(order, configs);
      if LastIsValid(configs, k) { ValidIsGiven(configs, k); }
    case StartAll =>
    case StopAll =>
    case RebuildAll =>
    case Rebuild(_) =>
  }

  lemma ValidIsGiven(configs: seq<(string, bool)>, k: string)
    requires LastIsValid(configs, k)
    ensures Given(configs, k)
  {
  }

  lemma HighCommands(keys: seq<string>, configs: seq<(string, bool)>)
    ensures var todo := Deletes(keys) + Creates(configs); todo != [] ==> todo[0].Delete? || todo[0].Create?
  {
  }

  ghost function GoalFor(op: Operation, s: System, id: IngestorId): Goal
    requires !OnTable(op) && id in s.ingestors
  {
    var ing := s.ingestors[id];
    match op
    case StartAll => Goal(true, if ing.isRunning then ing.gen else ing.gen + 1)
    case StopAll => Goal(false, ing.gen)
    case RebuildAll => Goal(true, ing.gen + 1)
    case Rebuild(key) => if key in s.table && s.table[key] == id then Goal(true, ing.gen + 1) else Goal(ing.isRunning, ing.gen)
  }

  lemma FleetStarts(s: System, op: Operation, id: IngestorId)
    requires Inv(s) && s.threads == map[] && Enabled(s, Acquire(op)) && !OnTable(op) && id in s.table.Values && id in s.ingestors
    ensures var t := Apply(s, Acquire(op));
            t.table == s.table && FleetWork(t) && GoalAhead(t, id, GoalFor(op, s, id))
  {
    hide Inv;
    var t := Apply(s, Acquire(op));
    match op
    case StartAll => assert FanOut(s.table, false, true)[For(id)] == Thread([Start(id)], NoCall);
    case StopAll => assert FanOut(s.table, true, false)[For(id)] == Thread([Stop(id)], NoCall);
    case RebuildAll => assert FanOut(s.table, true, true)[For(id)] == Thread([Stop(id), Start(id)], NoCall);
    case Rebuild(key) =>
      if key in s.table {
        var other := s.table[key];
        assert t.threads[Main].todo == [Stop(other), Start(other)];
      }
    case PutConfig(_, _) =>
    case DeleteConfig(_) =>
    case SetConfigs(_, _) =>
  }

  /* ---------- whole operations ---------- */

  lemma {:induction false} TableRun(run: seq<System>, i: nat, j: nat, m: nat, op: Operation, k: string)
    requires Operates(run, i, j, op) && OnTable(op) && i < m <= j
    ensures TableWork(run[i], run[m]) && OnTheWay(run[i], run[m], k, KeyFate(op, k))
    decreases m
  {
    hide Inv, Apply, Enabled, TableWork, OnTheWay, KeyFate;
    RunKeepsInv(run, i);
    if m == i + 1 {
      TableStarts(run[i], op, k);
    } else {
      TableRun(run, i, j, m - 1, op, k);
      var step := StepAt(run, m - 1);
      TableStep(run[i], run[m - 1], step, k, KeyFate(op, k));
    }
  }

  lemma {:induction false} FleetRun(run: seq<System>, i: nat, j: nat, m: nat, op: Operation, id: IngestorId)
    requires Operates(run, i, j, op) && !OnTable(op) && i < m <= j && id in run[i].table.Values && id in run[i].ingestors
    ensures run[m].table == run[i].table && FleetWork(run[m]) && GoalAhead(run[m], id, GoalFor(op, run[i], id))
    decreases m
  {
    hide Inv, Apply, Enabled, FleetWork, GoalAhead, GoalFor;
    RunKeepsInv(run, i);
    if m == i + 1 {
      FleetStarts(run[i], op, id);
    } else {
      FleetRun(run, i, j, m - 1, op, id);
      var step := StepAt(run, m - 1);
      FleetStep(run[m - 1], step, id, GoalFor(op, run[i], id));
    }
  }

  /** With nothing to be worked on the table is not touched. */
  lemma {:induction false} TableStays(run: seq<System>, i: nat, j: nat, op: Operation)
    requires Operates(run, i, j, op) && !OnTable(op)
    ensures run[j].table == run[i].table
  {
    hide Inv, FleetWork, GoalAhead, GoalFor;
    RunKeepsInv(run, i);
    TableIsMade(run[i]);
    if run[i].table.Keys != {} {
      var k :| k in run[i].table;
      var id := run[i].table[k];
      assert id in run[i].table.Values && id in run[i].ingestors;
      FleetRun(run, i, j, j, op, id);
    } else {
      assert run[i].table.Values == {};
      assert run[i + 1].threads == map[];
      assert j == i + 1;
    }
  }

  lemma TableIsMade(s: System)
    requires Inv(s)
    ensures forall k :: k in s.table ==> s.table[k] in s.ingestors
  {
  }

  lemma FreeIsUpOrDown(t: System, k: string)
    requires Inv(t) && t.threads == map[] && k in t.table
    ensures t.table[k] in t.ingestors
    ensures if t.ingestors[t.table[k]].isRunning then UpAt(t, k) else DownAt(t, k)
  {
    assert CallOn(t, t.table[k]).NoCall?;
  }

  /** The fate, with the workers it stands for. */
  ghost predicate Met(s: System, t: System, k: string, f: Fate) {
    match f
    case Kept => KeptAt(s, t, k)
    case Gone => k !in t.table
    case Up => NewAt(s, t, k)
  }

  lemma TableOutcome(run: seq<System>, i: nat, j: nat, op: Operation, k: string)
    requires Operates(run, i, j, op) && OnTable(op)
    ensures Met(run[i], run[j], k, KeyFate(op, k))
  {
    hide Inv, Apply, Enabled, TableWork, KeyFate, UpAt;
    TableRun(run, i, j, j, op, k);
    RunKeepsInv(run, j);
    assert FateOf(Todo(run[j]), k).None?;
    if k in run[j].table { FreeIsUpOrDown(run[j], k); }
  }

  /** The goal, with the workers it stands for. */
  ghost predicate Reached(s: System, t: System, k: string, goal: Goal) {
    && k in s.table && k in t.table && t.table[k] == s.table[k] && t.table[k] in t.ingestors
    && (if goal.running then UpAt(t, k) else DownAt(t, k))
    && t.ingestors[t.table[k]].gen == goal.gen && t.ingestors[t.table[k]].isRunning == goal.running
  }

  lemma FleetOutcome(run: seq<System>, i: nat, j: nat, op: Operation, k: string)
    requires Operates(run, i, j, op) && !OnTable(op) && k in run[i].table
    ensures run[i].table[k] in run[i].ingestors && Reached(run[i], run[j], k, GoalFor(op, run[i], run[i].table[k]))
  {
    hide Inv, Apply, Enabled, FleetWork, GoalFor, UpAt, DownAt;
    RunKeepsInv(run, i);
    TableIsMade(run[i]);
    var id := run[i].table[k];
    assert id in run[i].table.Values;
    FleetRun(run, i, j, j, op, id);
    RunKeepsInv(run, j);
    FreeIsUpOrDown(run[j], k);
  }

  /** Every operation that gives the lock back has achieved what it is for, whatever the workers did meanwhile. */
  lemma OperationAchieves(run: seq<System>, i: nat, j: nat, op: Operation)
    requires Operates(run, i, j, op)
    ensures Achieved(op, run[i], run[j])
  {
    hide Inv, Apply, Enabled, KeyFate, Met, Reached, GoalFor, Achieved;
    if OnTable(op) {
      forall k ensures Met(run[i], run[j], k, KeyFate(op, k)) {
        TableOutcome(run, i, j, op, k);
      }
      KeyFates(run[i], run[j], op);
    } else {
      TableStays(run, i, j, op);
      RunKeepsInv(run, i);
      assert TableOk(run[i]) by { InvTable(run[i]); }
      forall k | k in run[i].table
        ensures run[i].table[k] in run[i].ingestors
        ensures Reached(run[i], run[j], k, GoalFor(op, run[i], run[i].table[k]))
      {
        FleetOutcome(run, i, j, op, k);
      }
      GoalsReached(run[i], run[j], op);
    }
  }

  lemma InvTable(s: System)
    requires Inv(s)
    ensures TableOk(s)
  {
  }

  lemma KeyFates(s: System, t: System, op: Operation)
    requires OnTable(op)
    requires forall k :: Met(s, t, k, KeyFate(op, k))
    ensures Achieved(op, s, t)
  {
    hide NewAt, KeptAt, LastIsValid;
    match op
    case PutConfig(key, valid) =>
      assert Met(s, t, key, KeyFate(op, key));
      forall k | k != key ensures KeptAt(s, t, k) { assert Met(s, t, k, KeyFate(op, k)); }
    case DeleteConfig(key) =>
      assert Met(s, t, key, KeyFate(op, key));
      forall k | k != key ensures KeptAt(s, t, k) { assert Met(s, t, k, KeyFate(op, k)); }
    case SetConfigs(configs, _) =>
      forall k ensures if LastIsValid(configs, k) then NewAt(s, t, k) else k !in t.table {
        assert Met(s, t, k, KeyFate(op, k));
      }
    case StartAll =>
    case StopAll =>
    case RebuildAll =>
    case Rebuild(_) =>
  }

  lemma GoalsReached(s: System, t: System, op: Operation)
    requires !OnTable(op) && t.table == s.table && TableOk(s)
    requires forall k :: k in s.table ==>
               s.table[k] in s.ingestors && Reached(s, t, k, GoalFor(op, s, s.table[k]))
    ensures Achieved(op, s, t)
  {
    hide UpAt, DownAt;
    if op.Rebuild? {
      forall k | k != op.key ensures KeptAt(s, t, k) {
        if k in s.table { assert op.key in s.table ==> s.table[op.key] != s.table[k]; }
      }
    }
  }
}
