/**
 Starting and stopping cloud-cost ingestors (pkg/cloudcost/ingestor.go and
 pkg/cloudcost/ingestionmanager.go), as a state machine over every interleaving.

 Each ingestor has a build worker and a run worker per start. Stop hands each of them a message
 over an unbuffered channel that the worker looks up in the ingestor's field at the moment it
 receives. The manager holds its lock for a whole operation, but StartAll, StopAll and RebuildAll
 fan out one goroutine per ingestor while it is held.
 */
module IngestorLifecycle {

  type IngestorId = nat
  type Generation = nat

  /** Where a build worker is; channels are named by the generation that made them. */
  datatype BuildPc =
    | BuildPoll                      // loop head: the select with a default case
    | BuildWork                      // inside LoadWindow or BuildWindow
    | BuildAwait                     // past the loop, about to receive
    | BuildBlocked(ch: Generation)   // blocked receiving on `ch`
    | BuildDone

  datatype RunPc =
    | RunSelect                      // about to select on the exit channel and the ticker
    | RunBlocked(ch: Generation)     // blocked in that select
    | RunWork                        // building windows, expiring, moving lastRun
    | RunDone

  /** The goroutine inside Stop that delivers one message. */
  datatype Sender = NoSender | Spawned | Offering(ch: Generation) | Delivered

  /** Fields of an ingestor, with its workers by generation. Channel 0 is the nil channel. */
  datatype Ingestor = Ingestor(
    isRunning: bool,
    isStopping: bool,
    buildCh: Generation,
    runCh: Generation,
    gen: Generation,
    builds: map<Generation, BuildPc>,
    runs: map<Generation, RunPc>)

  const NEW_INGESTOR := Ingestor(false, false, 0, 0, 0, map[], map[])

  /** What a manager goroutine has yet to do. */
  datatype Command =
    | Delete(key: string)                    // deleteIngestor
    | Create(key: string, valid: bool)       // createIngestor; `valid` tells whether NewIngestor succeeds
    | Remove(key: string)                    // delete(im.ingestors, key)
    | Insert(key: string, id: IngestorId)    // im.ingestors[key] = ing
    | Stop(id: IngestorId)
    | Start(id: IngestorId)

  /** How far the call of Start or Stop at the head of a goroutine has come. */
  datatype Call =
    | NoCall
    | Raised                                 // Start has set isRunning
    | Channels                               // Start has made both channels
    | Built                                  // Start has launched build
    | Waiting(build: Sender, run: Sender)    // Stop has set isStopping and waits for its senders
    | Lowered                                // Stop has cleared isRunning

  datatype Thread = Thread(todo: seq<Command>, call: Call)

  /** The goroutine that took the lock, or one it launched for an ingestor. */
  datatype ThreadId = Main | For(id: IngestorId)

  /** The manager holds its lock exactly while `threads` is not empty. */
  datatype System = System(
    ingestors: map<IngestorId, Ingestor>,    // every ingestor ever made
    table: map<string, IngestorId>,          // im.ingestors
    threads: map<ThreadId, Thread>)

  const INITIAL := System(map[], map[], map[])

  datatype Operation =
    | PutConfig(key: string, valid: bool)
    | DeleteConfig(key: string)
    | SetConfigs(configs: seq<(string, bool)>, order: seq<string>)
    | StartAll
    | StopAll
    | RebuildAll
    | Rebuild(key: string)

  datatype Step =
    | Acquire(op: Operation)
    | Execute(tid: ThreadId, newId: IngestorId)
    | Finish(tid: ThreadId)
    | OfferBuild(tid: ThreadId)
    | OfferRun(tid: ThreadId)
    | BuildStep(id: IngestorId, g: Generation, more: bool)
    | RunStep(id: IngestorId, g: Generation)
    | ExitBuild(tid: ThreadId, g: Generation)
    | ExitRun(tid: ThreadId, g: Generation)

  /* ---------- operations as goroutines ---------- */

  function Deletes(keys: seq<string>): seq<Command> {
    seq(|keys|, i requires 0 <= i < |keys| => Delete(keys[i]))
  }

  function Creates(configs: seq<(string, bool)>): seq<Command> {
    seq(|configs|, i requires 0 <= i < |configs| => Create(configs[i].0, configs[i].1))
  }

  /** One goroutine per ingestor of the table, all running the same commands on their own. */
  function FanOut(table: map<string, IngestorId>, stop: bool, start: bool): map<ThreadId, Thread> {
    map id | id in table.Values ::
      For(id) := Thread((if stop then [Stop(id)] else []) + (if start then [Start(id)] else []), NoCall)
  }

  function Launch(s: System, op: Operation): map<ThreadId, Thread> {
    match op
    case PutConfig(key, valid) => map[Main := Thread([Create(key, valid)], NoCall)]
    case DeleteConfig(key) => map[Main := Thread([Delete(key)], NoCall)]
    case SetConfigs(configs, order) => map[Main := Thread(Deletes(order) + Creates(configs), NoCall)]
    case StartAll => FanOut(s.table, false, true)
    case StopAll => FanOut(s.table, true, false)
    case RebuildAll => FanOut(s.table, true, true)
    case Rebuild(key) =>
      if key in s.table then map[Main := Thread([Stop(s.table[key]), Start(s.table[key])], NoCall)] else map[]
  }

  /* ---------- one step ---------- */

  function WithIngestor(s: System, id: IngestorId, ing: Ingestor): System {
    s.(ingestors := s.ingestors[id := ing])
  }

  function WithThread(s: System, tid: ThreadId, th: Thread): System {
    s.(threads := s.threads[tid := th])
  }

  ghost predicate Head(s: System, tid: ThreadId) {
    tid in s.threads && s.threads[tid].todo != []
  }

  /** The goroutine's next command is Stop or Start on an existing ingestor. */
  ghost predicate HeadCalls(s: System, tid: ThreadId) {
    && Head(s, tid)
    && (var c := s.threads[tid].todo[0]; (c.Stop? || c.Start?) && c.id in s.ingestors)
  }

  ghost predicate InStop(s: System, tid: ThreadId) {
    HeadCalls(s, tid) && s.threads[tid].todo[0].Stop? && s.threads[tid].call.Waiting?
  }

  ghost predicate Enabled(s: System, step: Step) {
    match step
    case Acquire(op) => s.threads == map[] && (op.SetConfigs? ==> forall k :: k in op.order <==> k in s.table)
    case Execute(tid, newId) =>
      && Head(s, tid)
      && (var c, call := s.threads[tid].todo[0], s.threads[tid].call;
          match c
          case Create(key, valid) => key !in s.table && valid ==> newId !in s.ingestors
          case Stop(id) => id in s.ingestors && (call.Waiting? ==> Through(call.build) && Through(call.run))
          case Start(id) => id in s.ingestors
          case _ => true)
    case Finish(tid) => tid in s.threads && s.threads[tid].todo == []
    case OfferBuild(tid) => InStop(s, tid) && s.threads[tid].call.build.Spawned?
    case OfferRun(tid) => InStop(s, tid) && s.threads[tid].call.run.Spawned?
    case BuildStep(id, g, more) =>
      && id in s.ingestors && g in s.ingestors[id].builds
      && (var pc := s.ingestors[id].builds[g]; pc.BuildPoll? || pc.BuildWork? || pc.BuildAwait?)
    case RunStep(id, g) =>
      id in s.ingestors && g in s.ingestors[id].runs && !s.ingestors[id].runs[g].RunDone?
    case ExitBuild(tid, g) =>
      && InStop(s, tid) && s.threads[tid].call.build.Offering?
      && (var ing, ch := s.ingestors[s.threads[tid].todo[0].id], s.threads[tid].call.build.ch;
          && g in ing.builds
          && (ing.builds[g] == BuildBlocked(ch) || (ing.builds[g] == BuildPoll && ing.buildCh == ch)))
    case ExitRun(tid, g) =>
      && InStop(s, tid) && s.threads[tid].call.run.Offering?
      && (var ing, ch := s.ingestors[s.threads[tid].todo[0].id], s.threads[tid].call.run.ch;
          && g in ing.runs
          && ing.runs[g] == RunBlocked(ch))
  }

  /** `wg.Wait` does not wait for this sender (any more). */
  ghost predicate Through(sender: Sender) { sender.NoSender? || sender.Delivered? }

  ghost function Apply(s: System, step: Step): System
    requires Enabled(s, step)
  {
    match step
    case Acquire(op) => s.(threads := Launch(s, op))
    case Execute(tid, newId) => ExecuteHead(s, tid, newId)
    case Finish(tid) => s.(threads := s.threads - {tid})
    case OfferBuild(tid) =>
      var th := s.threads[tid];
      var id := th.todo[0].id;
      Moved(s, tid, id, s.ingestors[id], th.(call := th.call.(build := Offering(s.ingestors[id].buildCh))))
    case OfferRun(tid) =>
      var th := s.threads[tid];
      var id := th.todo[0].id;
      Moved(s, tid, id, s.ingestors[id], th.(call := th.call.(run := Offering(s.ingestors[id].runCh))))
    case BuildStep(id, g, more) =>
      var ing := s.ingestors[id];
      WithIngestor(s, id, BuildTo(ing, g, BuildNext(ing, ing.builds[g], more)))
    case RunStep(id, g) =>
      var ing := s.ingestors[id];
      WithIngestor(s, id, RunTo(ing, g, RunNext(ing, ing.runs[g])))
    case ExitBuild(tid, g) =>
      var th := s.threads[tid];
      var id := th.todo[0].id;
      Moved(s, tid, id, BuildTo(s.ingestors[id], g, BuildDone), th.(call := th.call.(build := Delivered)))
    case ExitRun(tid, g) =>
      var th := s.threads[tid];
      var id := th.todo[0].id;
      Moved(s, tid, id, RunTo(s.ingestors[id], g, RunDone), th.(call := th.call.(run := Delivered)))
  }

  function BuildNext(ing: Ingestor, pc: BuildPc, more: bool): BuildPc {
    match pc
    case BuildPoll => if more then BuildWork else BuildAwait
    case BuildWork => BuildPoll
    case _ => BuildBlocked(ing.buildCh)
  }

  function RunNext(ing: Ingestor, pc: RunPc): RunPc {
    match pc
    case RunSelect => RunBlocked(ing.runCh)
    case RunBlocked(_) => RunWork
    case _ => RunSelect
  }

  function BuildTo(ing: Ingestor, g: Generation, pc: BuildPc): Ingestor { ing.(builds := ing.builds[g := pc]) }

  function RunTo(ing: Ingestor, g: Generation, pc: RunPc): Ingestor { ing.(runs := ing.runs[g := pc]) }

  /** A goroutine and the ingestor it is working on move together. */
  function Moved(s: System, tid: ThreadId, id: IngestorId, ing: Ingestor, th: Thread): System {
    WithThread(WithIngestor(s, id, ing), tid, th)
  }

  ghost function ExecuteHead(s: System, tid: ThreadId, newId: IngestorId): System
    requires Enabled(s, Execute(tid, newId))
  {
    var th := s.threads[tid];
    var rest := th.todo[1..];
    match th.todo[0]
    case Delete(key) =>
      WithThread(s, tid, Thread((if key in s.table then [Stop(s.table[key]), Remove(key)] else []) + rest, NoCall))
    case Create(key, valid) =>
      if key in s.table then WithThread(s, tid, Thread([Stop(s.table[key]), Remove(key)] + th.todo, NoCall))
      else if !valid then WithThread(s, tid, Thread(rest, NoCall))
      else
        WithThread(WithIngestor(s, newId, NEW_INGESTOR), tid, Thread([Start(newId), Insert(key, newId)] + rest, NoCall))
    case Remove(key) => WithThread(s.(table := s.table - {key}), tid, Thread(rest, NoCall))
    case Insert(key, id) => WithThread(s.(table := s.table[key := id]), tid, Thread(rest, NoCall))
    case Stop(id) =>
      var (ing, next) := StopStep(s.ingestors[id], th, rest);
      Moved(s, tid, id, ing, next)
    case Start(id) =>
      var (ing, next) := StartStep(s.ingestors[id], th, rest);
      Moved(s, tid, id, ing, next)
  }

  function StopStep(ing: Ingestor, th: Thread, rest: seq<Command>): (Ingestor, Thread) {
    match th.call
    case Waiting(_, _) => (ing.(isRunning := false), th.(call := Lowered))
    case Lowered => (ing.(isStopping := false), Thread(rest, NoCall))
    case _ =>
      if ing.isStopping then (ing, Thread(rest, NoCall))
      else (ing.(isStopping := true),
            th.(call := Waiting(if ing.buildCh != 0 then Spawned else NoSender,
                                if ing.runCh != 0 then Spawned else NoSender)))
  }

  function StartStep(ing: Ingestor, th: Thread, rest: seq<Command>): (Ingestor, Thread) {
    match th.call
    case Raised => (ing.(buildCh := ing.gen, runCh := ing.gen), th.(call := Channels))
    case Channels => (ing.(builds := ing.builds[ing.gen := BuildPoll]), th.(call := Built))
    case Built => (ing.(runs := ing.runs[ing.gen := RunSelect]), Thread(rest, NoCall))
    case _ =>
      if ing.isRunning then (ing, Thread(rest, NoCall))
      else (ing.(isRunning := true, gen := ing.gen + 1), th.(call := Raised))
  }

  ghost predicate Next(s: System, t: System) {
    exists step :: Enabled(s, step) && t == Apply(s, step)
  }

  /** A run of the system from wherever it starts. */
  ghost predicate IsRun(run: seq<System>) {
    run != [] && forall i :: 0 <= i < |run| - 1 ==> Next(run[i], run[i + 1])
  }

  /* ---------- the invariant ---------- */

  /** No worker of the ingestor is alive. */
  ghost predicate Settled(ing: Ingestor) {
    && (forall g :: g in ing.builds ==> ing.builds[g].BuildDone?)
    && (forall g :: g in ing.runs ==> ing.runs[g].RunDone?)
  }

  ghost predicate BuildAlive(ing: Ingestor, g: Generation) {
    g in ing.builds && !ing.builds[g].BuildDone?
  }

  ghost predicate RunAlive(ing: Ingestor, g: Generation) {
    g in ing.runs && !ing.runs[g].RunDone?
  }

  /** Workers exist for past generations only, and all but the latest are done. */
  ghost predicate OldDone(ing: Ingestor) {
    && (forall g :: g in ing.builds ==> 0 < g <= ing.gen && (g < ing.gen ==> ing.builds[g].BuildDone?))
    && (forall g :: g in ing.runs ==> 0 < g <= ing.gen && (g < ing.gen ==> ing.runs[g].RunDone?))
  }

  /** Whoever is blocked is blocked on the latest channel. */
  ghost predicate OnLatest(ing: Ingestor) {
    && (forall g :: g in ing.builds && ing.builds[g].BuildBlocked? ==> ing.builds[g].ch == ing.gen)
    && (forall g :: g in ing.runs && ing.runs[g].RunBlocked? ==> ing.runs[g].ch == ing.gen)
  }

  ghost predicate Ahead(sender: Sender, g: Generation) {
    sender.Spawned? || sender == Offering(g)
  }

  ghost predicate IngestorOk(ing: Ingestor, call: Call) {
    && OldDone(ing) && OnLatest(ing)
    && (if call.Raised? then ing.gen > 0 && ing.buildCh == ing.runCh == ing.gen - 1
        else ing.buildCh == ing.runCh == ing.gen)
    && ing.isStopping == (call.Waiting? || call.Lowered?)
    && match call
       case NoCall =>
         if ing.isRunning then BuildAlive(ing, ing.gen) && RunAlive(ing, ing.gen) else Settled(ing)
       case Raised => ing.isRunning && Settled(ing) && ing.gen !in ing.builds && ing.gen !in ing.runs
       case Channels => ing.isRunning && ing.gen > 0 && Settled(ing) && ing.gen !in ing.builds && ing.gen !in ing.runs
       case Built => ing.isRunning && BuildAlive(ing, ing.gen) && ing.gen !in ing.runs
       case Waiting(b, r) =>
         if ing.isRunning then
           && ing.gen in ing.builds && ing.gen in ing.runs
           && (if ing.builds[ing.gen].BuildDone? then b.Delivered? else Ahead(b, ing.gen))
           && (if ing.runs[ing.gen].RunDone? then r.Delivered? else Ahead(r, ing.gen))
         else
           && Settled(ing)
           && (if ing.gen == 0 then b.NoSender? && r.NoSender? else Ahead(b, ing.gen) && Ahead(r, ing.gen))
       case Lowered => !ing.isRunning && Settled(ing)
  }

  /** The call some goroutine has in progress on `id`. */
  ghost function CallOn(s: System, id: IngestorId): Call {
    if For(id) in s.threads then s.threads[For(id)].call
    else if Main in s.threads && s.threads[Main].todo != [] && On(s.threads[Main].todo[0], id) then s.threads[Main].call
    else NoCall
  }

  ghost predicate On(c: Command, id: IngestorId) { (c.Stop? || c.Start?) && c.id == id }

  ghost predicate CallFits(th: Thread) {
    match th.call
    case NoCall => true
    case Waiting(_, _) => th.todo != [] && th.todo[0].Stop?
    case Lowered => th.todo != [] && th.todo[0].Stop?
    case _ => th.todo != [] && th.todo[0].Start?
  }

  ghost predicate TableOk(s: System) {
    && (forall k :: k in s.table ==> s.table[k] in s.ingestors)
    && (forall k, l :: k in s.table && l in s.table && s.table[k] == s.table[l] ==> k == l)
  }

  ghost predicate High(todo: seq<Command>) {
    forall i :: 0 <= i < |todo| ==> todo[i].Delete? || todo[i].Create?
  }

  /** The shapes the list of the goroutine that took the lock can have. */
  ghost predicate MainOk(s: System, todo: seq<Command>) {
    || High(todo)
    || (|todo| >= 2 && todo[0].Stop? && todo[1].Remove? && High(todo[2..])
        && todo[1].key in s.table && s.table[todo[1].key] == todo[0].id)
    || (|todo| >= 1 && todo[0].Remove? && High(todo[1..])
        && todo[0].key in s.table && s.table[todo[0].key] in s.ingestors
             && !s.ingestors[s.table[todo[0].key]].isRunning)
    || (|todo| >= 2 && todo[0].Start? && todo[1].Insert? && High(todo[2..])
        && todo[1].id == todo[0].id && todo[1].key !in s.table && todo[0].id !in s.table.Values
             && todo[0].id in s.ingestors)
    || (|todo| >= 1 && todo[0].Insert? && High(todo[1..])
        && todo[0].key !in s.table && todo[0].id !in s.table.Values && todo[0].id in s.ingestors)
    || (|todo| == 2 && todo[0].Stop? && todo[1] == Start(todo[0].id) && todo[0].id in s.table.Values)
    || (|todo| == 1 && todo[0].Start? && todo[0].id in s.table.Values)
  }

  ghost predicate FanOutOk(table: map<string, IngestorId>, id: IngestorId, todo: seq<Command>) {
    id in table.Values && forall i :: 0 <= i < |todo| ==> On(todo[i], id)
  }

  ghost predicate ThreadsOk(s: System) {
    && (Main in s.threads ==> s.threads.Keys == {Main} && MainOk(s, s.threads[Main].todo))
    && (forall id :: For(id) in s.threads ==> FanOutOk(s.table, id, s.threads[For(id)].todo))
    && (forall tid :: tid in s.threads ==> CallFits(s.threads[tid]))
  }

  ghost predicate IngestorsOk(s: System) {
    forall id :: id in s.ingestors ==> IngestorOk(s.ingestors[id], CallOn(s, id))
  }

  /** An ingestor on its way into the table. */
  ghost predicate Pending(s: System, id: IngestorId) {
    && Main in s.threads
    && exists i ::
        0 <= i < |s.threads[Main].todo| && s.threads[Main].todo[i].Insert? && s.threads[Main].todo[i].id == id
  }

  /** An ingestor outside the table has been stopped, or is just being put into it. */
  ghost predicate OrphansOk(s: System) {
    forall id :: id in s.ingestors && id !in s.table.Values && !Pending(s, id) ==>
      !s.ingestors[id].isRunning && CallOn(s, id).NoCall?
  }

  ghost predicate Inv(s: System) {
    TableOk(s) && ThreadsOk(s) && IngestorsOk(s) && OrphansOk(s)
  }

  /* ---------- what one ingestor keeps ---------- */

  lemma BuildStepOk(ing: Ingestor, g: Generation, more: bool, call: Call)
    requires IngestorOk(ing, call) && BuildAlive(ing, g) && !ing.builds[g].BuildBlocked?
    ensures IngestorOk(BuildTo(ing, g, BuildNext(ing, ing.builds[g], more)), call)
  {
  }

  lemma RunStepOk(ing: Ingestor, g: Generation, call: Call)
    requires IngestorOk(ing, call) && RunAlive(ing, g)
    ensures IngestorOk(RunTo(ing, g, RunNext(ing, ing.runs[g])), call)
  {
  }

  lemma OfferOk(ing: Ingestor, call: Call)
    requires IngestorOk(ing, call) && call.Waiting?
    ensures call.build.Spawned? ==> IngestorOk(ing, call.(build := Offering(ing.buildCh)))
    ensures call.run.Spawned? ==> IngestorOk(ing, call.(run := Offering(ing.runCh)))
  {
  }

  lemma ExitBuildOk(ing: Ingestor, g: Generation, call: Call)
    requires IngestorOk(ing, call) && call.Waiting? && BuildAlive(ing, g)
    ensures IngestorOk(BuildTo(ing, g, BuildDone), call.(build := Delivered))
  {
  }

  lemma ExitRunOk(ing: Ingestor, g: Generation, call: Call)
    requires IngestorOk(ing, call) && call.Waiting? && RunAlive(ing, g)
    ensures IngestorOk(RunTo(ing, g, RunDone), call.(run := Delivered))
  {
  }

  lemma StopStepOk(ing: Ingestor, th: Thread, rest: seq<Command>)
    requires IngestorOk(ing, th.call)
    requires th.todo != [] && th.todo[0].Stop? && CallFits(th) && rest == th.todo[1..]
    requires th.call.Waiting? ==> Through(th.call.build) && Through(th.call.run)
    ensures var (ing', th') := StopStep(ing, th, rest);
            && IngestorOk(ing', th'.call)
            && (if th.call.Lowered? then th' == Thread(rest, NoCall) && !ing'.isRunning
                else th'.todo == th.todo && CallFits(th'))
  {
  }

  lemma StartStepOk(ing: Ingestor, th: Thread, rest: seq<Command>)
    requires IngestorOk(ing, th.call)
    requires th.todo != [] && th.todo[0].Start? && CallFits(th) && rest == th.todo[1..]
    ensures var (ing', th') := StartStep(ing, th, rest);
            && IngestorOk(ing', th'.call)
            && (th' == Thread(rest, NoCall) || (th'.todo == th.todo && CallFits(th')))
  {
  }

  /* ---------- every step keeps the invariant ---------- */

  /** The goroutine at work on an ingestor is the only one, and the ingestor is in the table or on its way. */
  lemma AtWork(s: System, tid: ThreadId)
    requires ThreadsOk(s) && HeadCalls(s, tid)
    ensures var id := s.threads[tid].todo[0].id;
            && CallOn(s, id) == s.threads[tid].call
            && (id in s.table.Values || Pending(s, id))
  {
    var id := s.threads[tid].todo[0].id;
    if tid.For? {
      assert On(s.threads[tid].todo[0], tid.id);
    } else {
      var todo := s.threads[Main].todo;
      assert For(id) !in s.threads;
      if todo[0].Start? && |todo| >= 2 { assert todo[1].Insert?; }
    }
  }

  lemma PendingSame(s: System, t: System)
    requires Main in s.threads <==> Main in t.threads
    requires Main in s.threads ==> s.threads[Main].todo == t.threads[Main].todo
    ensures forall j :: Pending(s, j) == Pending(t, j)
  {
  }

  /** A call that goes on. */
  lemma ProgressKeeps(s: System, tid: ThreadId, ing: Ingestor, th: Thread)
    requires Inv(s) && HeadCalls(s, tid) && th.todo == s.threads[tid].todo
    requires CallFits(th) && IngestorOk(ing, th.call)
    ensures Inv(Moved(s, tid, th.todo[0].id, ing, th))
  {
    hide IngestorOk, High, Pending, CallFits;
    var id := th.todo[0].id;
    var t := Moved(s, tid, id, ing, th);
    AtWork(s, tid);
    PendingSame(s, t);
    assert ThreadsOk(t) by {
      assert t.threads.Keys == s.threads.Keys;
    }
    AtWork(t, tid);
    forall j | j in t.ingestors && j != id ensures CallOn(t, j) == CallOn(s, j) {
    }
  }

  /** A worker that moves by itself. */
  lemma WorkerKeeps(s: System, id: IngestorId, ing: Ingestor)
    requires Inv(s) && id in s.ingestors
    requires IngestorOk(ing, CallOn(s, id)) && ing.isRunning == s.ingestors[id].isRunning
    ensures Inv(WithIngestor(s, id, ing))
  {
    hide IngestorOk, High, Pending, CallFits;
    var t := WithIngestor(s, id, ing);
    PendingSame(s, t);
    forall j | j in t.ingestors ensures CallOn(t, j) == CallOn(s, j) {
    }
  }

  lemma FanOutShape(s: System, stop: bool, start: bool)
    ensures var threads := FanOut(s.table, stop, start);
            && Main !in threads
            && (forall tid :: tid in threads ==> threads[tid].call.NoCall?)
            && (forall id :: For(id) in threads ==> FanOutOk(s.table, id, threads[For(id)].todo))
  {
  }

  lemma MainShape(s: System, todo: seq<Command>)
    requires MainOk(s, todo)
    ensures ThreadsOk(s.(threads := map[Main := Thread(todo, NoCall)]))
  {
    hide High;
  }

  ghost predicate NoInserts(threads: map<ThreadId, Thread>) {
    Main in threads ==> forall i :: 0 <= i < |threads[Main].todo| ==> !threads[Main].todo[i].Insert?
  }

  lemma LaunchOk(s: System, op: Operation)
    ensures ThreadsOk(s.(threads := Launch(s, op)))
    ensures forall tid :: tid in Launch(s, op) ==> Launch(s, op)[tid].call.NoCall?
    ensures NoInserts(Launch(s, op))
  {
    FanOutShape(s, false, true);
    FanOutShape(s, true, false);
    FanOutShape(s, true, true);
    hide FanOut, FanOutOk;
    match op
    case Rebuild(key) =>
      if key in s.table { MainShape(s, [Stop(s.table[key]), Start(s.table[key])]); }
    case PutConfig(key, valid) => MainShape(s, [Create(key, valid)]);
    case DeleteConfig(key) => MainShape(s, [Delete(key)]);
    case SetConfigs(configs, order) => MainShape(s, Deletes(order) + Creates(configs));
    case _ =>
  }

  lemma AcquireKeeps(s: System, op: Operation)
    requires Inv(s) && Enabled(s, Acquire(op))
    ensures Inv(Apply(s, Acquire(op)))
  {
    hide IngestorOk, FanOut, ThreadsOk;
    var t := Apply(s, Acquire(op));
    LaunchOk(s, op);
    hide Launch;
    forall id | id in t.ingestors ensures CallOn(t, id) == CallOn(s, id) == NoCall {
    }
    assert forall id :: !Pending(s, id) && !Pending(t, id);
  }

  lemma FinishKeeps(s: System, tid: ThreadId)
    requires Inv(s) && Enabled(s, Finish(tid))
    ensures Inv(Apply(s, Finish(tid)))
  {
    hide IngestorOk;
    var t := Apply(s, Finish(tid));
    forall id | id in t.ingestors ensures CallOn(t, id) == CallOn(s, id) {
    }
    assert forall id :: Pending(s, id) == Pending(t, id);
  }

  lemma MainOkSame(s: System, t: System, todo: seq<Command>)
    requires MainOk(s, todo) && t.table == s.table && t.ingestors == s.ingestors
    ensures MainOk(t, todo)
  {
  }

  /** A command of the lock holder that changes its list but neither the table nor an ingestor. */
  lemma RewriteKeeps(s: System, todo: seq<Command>)
    requires Inv(s) && Main in s.threads && s.threads[Main].call.NoCall?
    requires MainOk(s, todo) && forall j :: Pending(s, j) ==> j in s.table.Values
    ensures Inv(WithThread(s, Main, Thread(todo, NoCall)))
  {
    var t := WithThread(s, Main, Thread(todo, NoCall));
    MainOkSame(s, t, todo);
    hide IngestorOk, MainOk, Pending, FanOutOk;
    assert t.threads.Keys == s.threads.Keys == {Main};
    assert CallFits(t.threads[Main]);
    forall j | j in t.ingestors ensures CallOn(t, j) == CallOn(s, j) == NoCall {
    }
    forall j | j in t.ingestors && j !in t.table.Values && !Pending(t, j) ensures !t.ingestors[j].isRunning {
      assert !Pending(s, j);
    }
  }

  lemma NoPending(s: System)
    requires ThreadsOk(s) && Head(s, Main)
    requires var c := s.threads[Main].todo[0]; c.Delete? || c.Create? || c.Remove? || (c.Stop? && |s.threads[Main].todo| >= 2)
    ensures forall j :: !Pending(s, j)
  {
  }

  lemma DeleteKeeps(s: System)
    requires Inv(s) && Head(s, Main) && s.threads[Main].todo[0].Delete?
    ensures Inv(ExecuteHead(s, Main, 0))
  {
    var todo := s.threads[Main].todo;
    var key := todo[0].key;
    NoPending(s);
    var todo' := (if key in s.table then [Stop(s.table[key]), Remove(key)] else []) + todo[1..];
    assert High(todo) && High(todo[1..]);
    if key in s.table { assert todo'[2..] == todo[1..]; } else { assert todo' == todo[1..]; }
    hide IngestorOk;
    RewriteKeeps(s, todo');
  }

  lemma CreateKeeps(s: System, id: IngestorId)
    requires Inv(s) && Head(s, Main) && s.threads[Main].todo[0].Create?
    requires Enabled(s, Execute(Main, id))
    ensures Inv(ExecuteHead(s, Main, id))
  {
    hide IngestorOk;
    var todo := s.threads[Main].todo;
    var key := todo[0].key;
    NoPending(s);
    assert High(todo) && High(todo[1..]);
    if key in s.table {
      assert ([Stop(s.table[key]), Remove(key)] + todo)[2..] == todo;
      RewriteKeeps(s, [Stop(s.table[key]), Remove(key)] + todo);
    } else if !todo[0].valid {
      RewriteKeeps(s, todo[1..]);
    } else {
      BirthKeeps(s, key, id, todo[1..]);
    }
  }

  lemma NoCallFits(todo: seq<Command>)
    ensures CallFits(Thread(todo, NoCall))
  {
  }

  lemma BirthShape(s: System, t: System, key: string, id: IngestorId, rest: seq<Command>)
    requires key !in s.table && t.table == s.table && TableOk(s) && id !in s.ingestors && id in t.ingestors
             && High(rest)
    ensures MainOk(t, [Start(id), Insert(key, id)] + rest)
  {
    var todo := [Start(id), Insert(key, id)] + rest;
    assert todo[2..] == rest;
  }

  lemma BirthKeeps(s: System, key: string, id: IngestorId, rest: seq<Command>)
    requires Inv(s) && Main in s.threads && s.threads[Main].call.NoCall?
    requires key !in s.table && id !in s.ingestors && High(rest) && forall j :: !Pending(s, j)
    ensures var todo := [Start(id), Insert(key, id)] + rest;
            Inv(WithThread(WithIngestor(s, id, NEW_INGESTOR), Main, Thread(todo, NoCall)))
  {
    hide IngestorOk, CallFits, MainOk, High, Pending;
    NewIngestorOk();
    var todo := [Start(id), Insert(key, id)] + rest;
    var t := WithThread(WithIngestor(s, id, NEW_INGESTOR), Main, Thread(todo, NoCall));
    assert t.threads.Keys == s.threads.Keys == {Main};
    BirthShape(s, t, key, id, rest);
    NoCallFits(todo);
    assert Pending(t, id) by { InsertPending(t, 1, id); }
    assert t.threads[Main] == Thread(todo, NoCall);
    forall j | j in t.ingestors ensures CallOn(t, j) == NoCall && (j != id ==> CallOn(s, j) == NoCall) {
    }
  }

  lemma NewIngestorOk()
    ensures IngestorOk(NEW_INGESTOR, NoCall)
  {
  }

  lemma InsertPending(s: System, i: nat, id: IngestorId)
    requires Main in s.threads && i < |s.threads[Main].todo|
    requires s.threads[Main].todo[i].Insert? && s.threads[Main].todo[i].id == id
    ensures Pending(s, id)
  {
  }

  lemma RemoveKeeps(s: System)
    requires Inv(s) && Head(s, Main) && s.threads[Main].todo[0].Remove?
    ensures Inv(ExecuteHead(s, Main, 0))
  {
    hide IngestorOk;
    var todo := s.threads[Main].todo;
    var key := todo[0].key;
    var t := ExecuteHead(s, Main, 0);
    NoPending(s);
    assert t.threads.Keys == s.threads.Keys == {Main};
    assert MainOk(t, todo[1..]) && forall j :: !Pending(t, j);
    forall j | j in t.ingestors ensures CallOn(t, j) == CallOn(s, j) == NoCall {
    }
    forall j | j in t.ingestors && j !in t.table.Values && !Pending(t, j)
      ensures !t.ingestors[j].isRunning
    {
      assert forall k :: k in t.table ==> t.table[k] != j;
      assert forall k :: k in s.table && k != key ==> k in t.table;
    }
  }

  lemma InsertKeeps(s: System)
    requires Inv(s) && Head(s, Main) && s.threads[Main].todo[0].Insert?
    ensures Inv(ExecuteHead(s, Main, 0))
  {
    hide IngestorOk;
    var todo := s.threads[Main].todo;
    var key, id := todo[0].key, todo[0].id;
    var t := ExecuteHead(s, Main, 0);
    assert t.threads.Keys == s.threads.Keys == {Main};
    assert MainOk(t, todo[1..]);
    forall j | j in t.ingestors ensures CallOn(t, j) == CallOn(s, j) == NoCall {
    }
    forall j | Pending(s, j) ensures j == id {
      assert forall i :: 0 < i < |todo| ==> todo[i] == todo[1..][i - 1];
    }
    assert t.table[key] == id;
    forall j | j in s.table.Values ensures j in t.table.Values {
      var k :| k in s.table && s.table[k] == j;
      assert k in t.table && t.table[k] == j;
    }
  }

  lemma ReturnMain(s: System, t: System)
    requires ThreadsOk(s) && HeadCalls(s, Main) && t.table == s.table
    requires var id := s.threads[Main].todo[0].id;
             && id in t.ingestors && t.ingestors == s.ingestors[id := t.ingestors[id]]
             && (s.threads[Main].todo[0].Stop? ==> !t.ingestors[id].isRunning)
    ensures MainOk(t, s.threads[Main].todo[1..])
  {
    var todo := s.threads[Main].todo;
    assert |todo| >= 2 ==> todo[1..][0] == todo[1] && todo[1..][1..] == todo[2..];
  }

  lemma PendingTail(s: System, t: System)
    requires Head(s, Main) && !s.threads[Main].todo[0].Insert?
    requires Main in t.threads && t.threads[Main].todo == s.threads[Main].todo[1..]
    ensures forall j :: Pending(s, j) ==> Pending(t, j)
  {
    var todo := s.threads[Main].todo;
    forall j | Pending(s, j) ensures Pending(t, j) {
      var i :| 0 <= i < |todo| && todo[i].Insert? && todo[i].id == j;
      assert t.threads[Main].todo[i - 1] == todo[i];
    }
  }

  lemma ReturnThreads(s: System, t: System, tid: ThreadId)
    requires ThreadsOk(s) && HeadCalls(s, tid) && t.table == s.table
    requires t.threads == s.threads[tid := Thread(s.threads[tid].todo[1..], NoCall)]
    requires tid.Main? ==> MainOk(t, s.threads[tid].todo[1..])
    ensures ThreadsOk(t)
    ensures var id := s.threads[tid].todo[0].id;
            CallOn(t, id) == NoCall && forall j :: j != id ==> CallOn(t, j) == CallOn(s, j)
  {
    hide MainOk;
    assert t.threads.Keys == s.threads.Keys;
    if tid.For? { assert On(s.threads[tid].todo[0], tid.id); }
  }

  /** Start or Stop returns: the list loses its head. */
  lemma ReturnKeeps(s: System, tid: ThreadId, ing: Ingestor)
    requires Inv(s) && HeadCalls(s, tid) && IngestorOk(ing, NoCall)
    requires s.threads[tid].todo[0].Stop? ==> !ing.isRunning
    ensures Inv(Moved(s, tid, s.threads[tid].todo[0].id, ing, Thread(s.threads[tid].todo[1..], NoCall)))
  {
    hide IngestorOk, MainOk, Pending, CallFits, CallOn;
    var todo := s.threads[tid].todo;
    var id := todo[0].id;
    var t := Moved(s, tid, id, ing, Thread(todo[1..], NoCall));
    AtWork(s, tid);
    if tid.Main? {
      ReturnMain(s, t);
      PendingTail(s, t);
    } else {
      PendingSame(s, t);
    }
    ReturnThreads(s, t, tid);
  }

  lemma CallKeeps(s: System, tid: ThreadId, newId: IngestorId)
    requires Inv(s) && HeadCalls(s, tid) && Enabled(s, Execute(tid, newId))
    ensures Inv(ExecuteHead(s, tid, newId))
  {
    var th := s.threads[tid];
    var id := th.todo[0].id;
    AtWork(s, tid);
    if th.todo[0].Stop? {
      StopStepOk(s.ingestors[id], th, th.todo[1..]);
      var (ing, next) := StopStep(s.ingestors[id], th, th.todo[1..]);
      if th.call.Lowered? { ReturnKeeps(s, tid, ing); } else { ProgressKeeps(s, tid, ing, next); }
    } else {
      StartStepOk(s.ingestors[id], th, th.todo[1..]);
      var (ing, next) := StartStep(s.ingestors[id], th, th.todo[1..]);
      if next == Thread(th.todo[1..], NoCall) { ReturnKeeps(s, tid, ing); } else { ProgressKeeps(s, tid, ing, next); }
    }
  }

  lemma ExecuteKeeps(s: System, tid: ThreadId, newId: IngestorId)
    requires Inv(s) && Enabled(s, Execute(tid, newId))
    ensures Inv(Apply(s, Execute(tid, newId)))
  {
    hide IngestorOk, Pending;
    var c := s.threads[tid].todo[0];
    if c.Stop? || c.Start? {
      CallKeeps(s, tid, newId);
    } else {
      assert tid.Main?;
      if c.Delete? { DeleteKeeps(s); }
      else if c.Create? { CreateKeeps(s, newId); }
      else if c.Remove? { RemoveKeeps(s); }
      else { InsertKeeps(s); }
    }
  }

  /** The invariant is kept by every step of every goroutine. */
  lemma StepKeepsInv(s: System, step: Step)
    requires Inv(s) && Enabled(s, step)
    ensures Inv(Apply(s, step))
  {
    match step
    case Acquire(op) => AcquireKeeps(s, op);
    case Execute(tid, newId) => ExecuteKeeps(s, tid, newId);
    case Finish(tid) => FinishKeeps(s, tid);
    case OfferBuild(tid) => SenderKeeps(s, step);
    case OfferRun(tid) => SenderKeeps(s, step);
    case ExitBuild(tid, g) => SenderKeeps(s, step);
    case ExitRun(tid, g) => SenderKeeps(s, step);
    case BuildStep(id, g, more) =>
      BuildStepOk(s.ingestors[id], g, more, CallOn(s, id));
      WorkerKeeps(s, id, BuildTo(s.ingestors[id], g, BuildNext(s.ingestors[id], s.ingestors[id].builds[g], more)));
    case RunStep(id, g) =>
      RunStepOk(s.ingestors[id], g, CallOn(s, id));
      WorkerKeeps(s, id, RunTo(s.ingestors[id], g, RunNext(s.ingestors[id], s.ingestors[id].runs[g])));
  }

  lemma SenderKeeps(s: System, step: Step)
    requires Inv(s) && Enabled(s, step)
    requires step.OfferBuild? || step.OfferRun? || step.ExitBuild? || step.ExitRun?
    ensures Inv(Apply(s, step))
  {
    var th := s.threads[step.tid];
    var ing := s.ingestors[th.todo[0].id];
    AtWork(s, step.tid);
    OfferOk(ing, th.call);
    if step.OfferBuild? {
      ProgressKeeps(s, step.tid, ing, th.(call := th.call.(build := Offering(ing.buildCh))));
    } else if step.OfferRun? {
      ProgressKeeps(s, step.tid, ing, th.(call := th.call.(run := Offering(ing.runCh))));
    } else if step.ExitBuild? {
      ExitBuildOk(ing, step.g, th.call);
      ProgressKeeps(s, step.tid, BuildTo(ing, step.g, BuildDone), th.(call := th.call.(build := Delivered)));
    } else {
      ExitRunOk(ing, step.g, th.call);
      ProgressKeeps(s, step.tid, RunTo(ing, step.g, RunDone), th.(call := th.call.(run := Delivered)));
    }
  }

  /* ---------- what holds in every run ---------- */

  lemma {:induction false} RunKeepsInv(run: seq<System>, i: nat)
    requires IsRun(run) && Inv(run[0]) && i < |run|
    ensures Inv(run[i])
  {
    if i > 0 {
      RunKeepsInv(run, i - 1);
      assert Next(run[i - 1], run[i]);
      var step :| Enabled(run[i - 1], step) && run[i] == Apply(run[i - 1], step);
      StepKeepsInv(run[i - 1], step);
    }
  }

  lemma InitialOk()
    ensures Inv(INITIAL)
  {
  }

  /** At every moment of every run an ingestor has at most one live build worker and one live run
      worker, and if both live they belong to the same start. */
  lemma OneWorkerOfEachKind(run: seq<System>, i: nat, id: IngestorId)
    requires IsRun(run) && run[0] == INITIAL && i < |run| && id in run[i].ingestors
    ensures var ing := run[i].ingestors[id];
            && (forall g, h :: BuildAlive(ing, g) && BuildAlive(ing, h) ==> g == h)
            && (forall g, h :: RunAlive(ing, g) && RunAlive(ing, h) ==> g == h)
            && (forall g, h :: BuildAlive(ing, g) && RunAlive(ing, h) ==> g == h)
  {
    InitialOk();
    RunKeepsInv(run, i);
    assert IngestorOk(run[i].ingestors[id], CallOn(run[i], id));
  }

  /** An ingestor that is outside the table, and not about to enter it, has no live worker. */
  lemma RemovedIngestorIsSettled(run: seq<System>, i: nat, id: IngestorId)
    requires IsRun(run) && run[0] == INITIAL && i < |run| && id in run[i].ingestors
    requires id !in run[i].table.Values && !Pending(run[i], id)
    ensures Settled(run[i].ingestors[id])
  {
    InitialOk();
    RunKeepsInv(run, i);
    assert IngestorOk(run[i].ingestors[id], CallOn(run[i], id));
  }

  /** Whenever the lock is free, every ingestor of the table is either fully up or fully down. */
  lemma UpOrDownBetweenOperations(run: seq<System>, i: nat, key: string)
    requires IsRun(run) && run[0] == INITIAL && i < |run|
    requires run[i].threads == map[] && key in run[i].table
    ensures run[i].table[key] in run[i].ingestors
    ensures var ing := run[i].ingestors[run[i].table[key]];
            && !ing.isStopping
            && if ing.isRunning then BuildAlive(ing, ing.gen) && RunAlive(ing, ing.gen) else Settled(ing)
  {
    InitialOk();
    RunKeepsInv(run, i);
    var id := run[i].table[key];
    assert IngestorOk(run[i].ingestors[id], CallOn(run[i], id));
  }

  /* ---------- after Stop has returned ---------- */

  /** The goroutine's Stop(id) returns in this step: its list loses its head. */
  ghost predicate StopReturns(s: System, t: System, tid: ThreadId, id: IngestorId) {
    && Head(s, tid) && s.threads[tid].todo[0] == Stop(id)
    && tid in t.threads && t.threads[tid].todo == s.threads[tid].todo[1..]
  }

  /** All workers of the generations up to `g` are done, and the next one will be later. */
  ghost predicate Retired(s: System, id: IngestorId, g: Generation) {
    && id in s.ingestors
    && (var ing := s.ingestors[id];
        && g <= ing.gen && (g == ing.gen ==> !ing.isRunning)
        && (forall h :: h in ing.builds && h <= g ==> ing.builds[h].BuildDone?)
        && (forall h :: h in ing.runs && h <= g ==> ing.runs[h].RunDone?))
  }

  lemma ReturnRetires(s: System, step: Step, tid: ThreadId, id: IngestorId)
    requires Inv(s) && Enabled(s, step) && StopReturns(s, Apply(s, step), tid, id)
    ensures id in s.ingestors && Retired(Apply(s, step), id, s.ingestors[id].gen)
  {
    hide Pending, MainOk, High;
    var th := s.threads[tid];
    assert |th.todo[1..]| == |th.todo| - 1;
    if step.Execute? && step.tid == tid {
      AtWork(s, tid);
      assert IngestorOk(s.ingestors[id], th.call);
      assert Moved(s, tid, id, StopStep(s.ingestors[id], th, th.todo[1..]).0, StopStep(s.ingestors[id], th, th.todo[1..]).1) == Apply(s, step);
    } else {
      SameList(s, step, tid);
    }
  }

  /** A goroutine's list changes only by its own steps. */
  lemma SameList(s: System, step: Step, tid: ThreadId)
    requires Enabled(s, step) && tid in s.threads
    requires !(step.Execute? && step.tid == tid) && !(step.Finish? && step.tid == tid)
    ensures tid in Apply(s, step).threads && Apply(s, step).threads[tid].todo == s.threads[tid].todo
  {
    hide Launch, StopStep, StartStep, BuildTo, RunTo;
  }

  /** What a single step can do to an ingestor that exists already. */
  ghost predicate Evolves(ing: Ingestor, next: Ingestor) {
    && ing.gen <= next.gen
    && (next.gen == ing.gen && next.isRunning ==> ing.isRunning)
    && (next.gen == ing.gen || !ing.isRunning)
    && (forall g :: g in next.builds && !(g in ing.builds && ing.builds[g].BuildDone? == next.builds[g].BuildDone?) ==>
          next.builds[g].BuildDone? || (g == ing.gen && ing.isRunning))
    && (forall g :: g in next.runs && !(g in ing.runs && ing.runs[g].RunDone? == next.runs[g].RunDone?) ==>
          next.runs[g].RunDone? || (g == ing.gen && ing.isRunning))
  }

  lemma CallEvolves(ing: Ingestor, th: Thread, rest: seq<Command>)
    requires IngestorOk(ing, th.call) && CallFits(th) && th.todo != []
    ensures th.todo[0].Stop? ==> Evolves(ing, StopStep(ing, th, rest).0)
    ensures th.todo[0].Start? ==> Evolves(ing, StartStep(ing, th, rest).0)
  {
  }

  lemma WorkersEvolve(ing: Ingestor, g: Generation, b: BuildPc, r: RunPc)
    ensures BuildAlive(ing, g) ==> Evolves(ing, BuildTo(ing, g, b))
    ensures RunAlive(ing, g) ==> Evolves(ing, RunTo(ing, g, r))
  {
  }

  lemma StepEvolves(s: System, step: Step, id: IngestorId)
    requires Inv(s) && Enabled(s, step) && id in s.ingestors
    ensures id in Apply(s, step).ingestors && Evolves(s.ingestors[id], Apply(s, step).ingestors[id])
  {
    hide Pending, MainOk, High, Launch, IngestorOk, Evolves, ExecuteHead, ThreadsOk, TableOk, OrphansOk;
    NothingEvolves(s.ingestors[id]);
    if step.Execute? {
      ExecuteEvolves(s, step.tid, step.newId, id);
    } else if step.BuildStep? && step.id == id {
      var ing := s.ingestors[id];
      WorkersEvolve(ing, step.g, BuildNext(ing, ing.builds[step.g], step.more), RunDone);
    } else if step.RunStep? && step.id == id {
      var ing := s.ingestors[id];
      WorkersEvolve(ing, step.g, BuildDone, RunNext(ing, ing.runs[step.g]));
    } else if step.ExitBuild? || step.ExitRun? {
      WorkersEvolve(s.ingestors[id], step.g, BuildDone, RunDone);
    }
  }

  lemma NothingEvolves(ing: Ingestor)
    ensures Evolves(ing, ing)
  {
  }

  lemma ExecuteEvolves(s: System, tid: ThreadId, newId: IngestorId, id: IngestorId)
    requires Inv(s) && Enabled(s, Execute(tid, newId)) && id in s.ingestors
    ensures id in ExecuteHead(s, tid, newId).ingestors
    ensures Evolves(s.ingestors[id], ExecuteHead(s, tid, newId).ingestors[id])
  {
    hide Pending, MainOk, High, IngestorOk, Evolves, StopStep, StartStep, CallOn;
    NothingEvolves(s.ingestors[id]);
    var th := s.threads[tid];
    if HeadCalls(s, tid) && th.todo[0].id == id {
      AtWork(s, tid);
      CallEvolves(s.ingestors[id], th, th.todo[1..]);
    }
  }

  lemma RetiredStays(s: System, step: Step, id: IngestorId, g: Generation)
    requires Inv(s) && Enabled(s, step) && Retired(s, id, g)
    ensures Retired(Apply(s, step), id, g)
  {
    hide Apply, Enabled, Inv;
    StepEvolves(s, step, id);
  }

  /** Once Stop has returned, no worker started before it is ever at work again: it neither loads
      nor builds a window at any later moment of the run. */
  lemma {:induction false} StoppedWorkersNeverWork(run: seq<System>, i: nat, j: nat, tid: ThreadId, id: IngestorId,
                                                   g: Generation)
    requires IsRun(run) && run[0] == INITIAL && i < j < |run|
    requires StopReturns(run[i], run[i + 1], tid, id)
    ensures id in run[i].ingestors && id in run[j].ingestors
    ensures g <= run[i].ingestors[id].gen ==>
              !BuildAlive(run[j].ingestors[id], g) && !RunAlive(run[j].ingestors[id], g)
  {
    StoppedIsRetired(run, i, j, tid, id);
  }

  lemma StepAt(run: seq<System>, i: nat) returns (step: Step)
    requires IsRun(run) && Inv(run[0]) && i < |run| - 1
    ensures Inv(run[i]) && Enabled(run[i], step) && run[i + 1] == Apply(run[i], step)
  {
    hide Inv, Apply, Enabled;
    RunKeepsInv(run, i);
    assert Next(run[i], run[i + 1]);
    step :| Enabled(run[i], step) && run[i + 1] == Apply(run[i], step);
  }

  lemma {:induction false} StoppedIsRetired(run: seq<System>, i: nat, j: nat, tid: ThreadId, id: IngestorId)
    requires IsRun(run) && run[0] == INITIAL && i < j < |run|
    requires StopReturns(run[i], run[i + 1], tid, id)
    ensures id in run[i].ingestors && Retired(run[j], id, run[i].ingestors[id].gen)
    decreases j
  {
    hide Inv, Apply, Enabled, Retired, StopReturns;
    InitialOk();
    var step := StepAt(run, j - 1);
    if j == i + 1 {
      ReturnRetires(run[i], step, tid, id);
    } else {
      StoppedIsRetired(run, i, j - 1, tid, id);
      RetiredStays(run[j - 1], step, id, run[i].ingestors[id].gen);
    }
  }

  /* ---------- Stop on an ingestor that is already stopped ---------- */

  /** A goroutine is at a Stop of an ingestor that was started once and is down. */
  ghost predicate Stuck(s: System, tid: ThreadId, id: IngestorId) {
    && Head(s, tid) && s.threads[tid].todo[0] == Stop(id)
    && id in s.ingestors && !s.ingestors[id].isRunning && s.ingestors[id].gen > 0
    && (s.threads[tid].call.NoCall? || s.threads[tid].call.Waiting?)
  }

  lemma StuckStep(s: System, step: Step, tid: ThreadId, id: IngestorId)
    requires Inv(s) && Enabled(s, step) && Stuck(s, tid, id)
    ensures Stuck(Apply(s, step), tid, id)
    ensures Apply(s, step).threads[tid].todo == s.threads[tid].todo
  {
    if step.Execute? && step.tid == tid {
      StuckOwn(s, step, tid, id);
    } else {
      hide Inv, Apply;
      SameList(s, step, tid);
      OthersLeave(s, step, tid, id);
    }
  }

  /** Its own step can only take the stuck goroutine into the wait. */
  lemma StuckOwn(s: System, step: Step, tid: ThreadId, id: IngestorId)
    requires Inv(s) && Enabled(s, step) && Stuck(s, tid, id) && step.Execute? && step.tid == tid
    ensures Stuck(Apply(s, step), tid, id)
    ensures Apply(s, step).threads[tid].todo == s.threads[tid].todo
  {
    hide Inv, OldDone, OnLatest, Settled;
    Ok(s, tid);
    var (ing, th) := StopStep(s.ingestors[id], s.threads[tid], s.threads[tid].todo[1..]);
    assert Apply(s, step) == Moved(s, tid, id, ing, th);
  }

  /** Steps of others, and of its own senders, leave a goroutine in the part of Stop or Start where it is. */
  lemma OthersLeave(s: System, step: Step, tid: ThreadId, id: IngestorId)
    requires Inv(s) && Enabled(s, step) && HeadCalls(s, tid) && s.threads[tid].todo[0].id == id
    requires !(step.Execute? && step.tid == tid)
    ensures tid in Apply(s, step).threads && id in Apply(s, step).ingestors
    ensures var c, d := s.threads[tid].call, Apply(s, step).threads[tid].call;
            c.NoCall? == d.NoCall? && c.Waiting? == d.Waiting? && c.Lowered? == d.Lowered?
    ensures Apply(s, step).ingestors[id].isRunning == s.ingestors[id].isRunning
    ensures Apply(s, step).ingestors[id].gen == s.ingestors[id].gen
  {
    hide Pending, MainOk, High, Launch, IngestorOk;
    AtWork(s, tid);
    if step.Execute? && HeadCalls(s, step.tid) {
      AtWork(s, step.tid);
      OnlyOneAtWork(s, tid, step.tid);
    }
  }

  lemma OnlyOneAtWork(s: System, a: ThreadId, b: ThreadId)
    requires ThreadsOk(s) && HeadCalls(s, a) && HeadCalls(s, b) && a != b
    ensures s.threads[a].todo[0].id != s.threads[b].todo[0].id
  {
    hide MainOk;
    assert a.For? && b.For?;
    assert On(s.threads[a].todo[0], a.id) && On(s.threads[b].todo[0], b.id);
  }

  /* ---------- when a Stop can return ---------- */

  ghost predicate Reaches(s: System, t: System) {
    exists run :: IsRun(run) && run[0] == s && run[|run| - 1] == t
  }

  /** The goroutine is past the command that was at its head in `s`. */
  ghost predicate Past(s: System, t: System, tid: ThreadId) {
    tid in s.threads && !(tid in t.threads && t.threads[tid].todo == s.threads[tid].todo)
  }

  lemma {:induction false} StuckForever(run: seq<System>, i: nat, tid: ThreadId, id: IngestorId)
    requires IsRun(run) && Inv(run[0]) && Stuck(run[0], tid, id) && i < |run|
    ensures Stuck(run[i], tid, id) && run[i].threads[tid].todo == run[0].threads[tid].todo
  {
    hide Inv, Apply, Enabled;
    if i > 0 {
      StuckForever(run, i - 1, tid, id);
      var step := StepAt(run, i - 1);
      StuckStep(run[i - 1], step, tid, id);
    }
  }

  lemma ReachRefl(s: System)
    ensures Reaches(s, s)
  {
    assert IsRun([s]);
  }

  lemma ReachStep(s: System, t: System, step: Step)
    requires Reaches(s, t) && Enabled(t, step)
    ensures Reaches(s, Apply(t, step))
  {
    hide Enabled, Apply;
    var run :| IsRun(run) && run[0] == s && run[|run| - 1] == t;
    var run' := run + [Apply(t, step)];
    forall i | 0 <= i < |run'| - 1 ensures Next(run'[i], run'[i + 1]) {
      if i < |run| - 1 {
        assert Next(run[i], run[i + 1]);
      }
    }
    assert IsRun(run');
  }

  /** A goroutine of `s` has come as far as waiting in Stop for these senders, at `t`. */
  ghost predicate At(s: System, t: System, tid: ThreadId, id: IngestorId, b: Sender, r: Sender) {
    && Inv(t) && Reaches(s, t) && HeadCalls(t, tid)
    && t.threads[tid].todo[0] == Stop(id) && t.threads[tid].call == Waiting(b, r)
    && tid in s.threads && t.threads[tid].todo == s.threads[tid].todo
    && t.ingestors[id].isRunning
  }

  lemma Ok(t: System, tid: ThreadId)
    requires Inv(t) && HeadCalls(t, tid)
    ensures IngestorOk(t.ingestors[t.threads[tid].todo[0].id], t.threads[tid].call)
  {
    hide IngestorOk, Pending, MainOk, High;
    AtWork(t, tid);
  }

  /** A step of a worker, or of a sender, on the way. */
  lemma Onward(s: System, t: System, tid: ThreadId, id: IngestorId, b: Sender, r: Sender, step: Step, b': Sender,
               r': Sender)
    requires At(s, t, tid, id, b, r) && Enabled(t, step)
    requires step.BuildStep? || step.RunStep?
             || ((step.OfferBuild? || step.OfferRun? || step.ExitBuild? || step.ExitRun?) && step.tid == tid)
    requires Apply(t, step).threads[tid].call == Waiting(b', r')
    ensures At(s, Apply(t, step), tid, id, b', r')
  {
    hide Inv, Reaches, BuildNext, RunNext, ExecuteHead, Launch;
    StepKeepsInv(t, step);
    ReachStep(s, t, step);
    SameList(t, step, tid);
  }

  lemma DeliverBuild(s: System, t0: System, tid: ThreadId, id: IngestorId, b: Sender, r: Sender) returns (t: System)
    requires At(s, t0, tid, id, b, r)
    ensures At(s, t, tid, id, Delivered, r)
  {
    hide Inv, Reaches;
    t := t0;
    Ok(t, tid);
    var g := t.ingestors[id].gen;
    if b.Spawned? {
      Onward(s, t, tid, id, b, r, OfferBuild(tid), Offering(g), r);
      t := Apply(t, OfferBuild(tid));
    }
    if !b.Delivered? {
      if t.ingestors[id].builds[g].BuildWork? || t.ingestors[id].builds[g].BuildAwait? {
        Onward(s, t, tid, id, Offering(g), r, BuildStep(id, g, true), Offering(g), r);
        t := Apply(t, BuildStep(id, g, true));
      }
      Onward(s, t, tid, id, Offering(g), r, ExitBuild(tid, g), Delivered, r);
      t := Apply(t, ExitBuild(tid, g));
    }
  }

  lemma DeliverRun(s: System, t0: System, tid: ThreadId, id: IngestorId, r: Sender) returns (t: System)
    requires At(s, t0, tid, id, Delivered, r)
    ensures At(s, t, tid, id, Delivered, Delivered)
  {
    hide Inv, Reaches;
    t := t0;
    Ok(t, tid);
    var g := t.ingestors[id].gen;
    if r.Spawned? {
      Onward(s, t, tid, id, Delivered, r, OfferRun(tid), Delivered, Offering(g));
      t := Apply(t, OfferRun(tid));
    }
    if !r.Delivered? {
      t := ReceiveRun(s, t, tid, id, g);
    }
  }

  lemma ReceiveRun(s: System, t0: System, tid: ThreadId, id: IngestorId, g: Generation) returns (t: System)
    requires At(s, t0, tid, id, Delivered, Offering(g)) && g == t0.ingestors[id].gen
    ensures At(s, t, tid, id, Delivered, Delivered)
  {
    hide Inv, Reaches;
    t := t0;
    Ok(t, tid);
    if t.ingestors[id].runs[g].RunWork? {
      Onward(s, t, tid, id, Delivered, Offering(g), RunStep(id, g), Delivered, Offering(g));
      t := Apply(t, RunStep(id, g));
    }
    if t.ingestors[id].runs[g].RunSelect? {
      Onward(s, t, tid, id, Delivered, Offering(g), RunStep(id, g), Delivered, Offering(g));
      t := Apply(t, RunStep(id, g));
    }
    Onward(s, t, tid, id, Delivered, Offering(g), ExitRun(tid, g), Delivered, Delivered);
    t := Apply(t, ExitRun(tid, g));
  }

  /** With nothing left to wait for, Stop returns. */
  lemma Unwind(s: System, t0: System, tid: ThreadId, id: IngestorId) returns (t: System)
    requires Reaches(s, t0) && HeadCalls(t0, tid) && t0.threads[tid].todo[0] == Stop(id)
    requires t0.threads[tid].call.Waiting? && Through(t0.threads[tid].call.build) && Through(t0.threads[tid].call.run)
    requires tid in s.threads && t0.threads[tid].todo == s.threads[tid].todo
    ensures Reaches(s, t) && Past(s, t, tid)
  {
    hide Reaches;
    ReachStep(s, t0, Execute(tid, 0));
    var t1 := Apply(t0, Execute(tid, 0));
    assert HeadCalls(t1, tid) && t1.threads[tid].call.Lowered?;
    ReachStep(s, t1, Execute(tid, 0));
    t := Apply(t1, Execute(tid, 0));
    assert |t.threads[tid].todo| < |s.threads[tid].todo|;
  }

  lemma EnterStop(s: System, tid: ThreadId, id: IngestorId) returns (t: System)
    requires Inv(s) && HeadCalls(s, tid) && s.threads[tid].todo[0] == Stop(id) && s.threads[tid].call.NoCall?
    ensures Inv(t) && Reaches(s, t) && HeadCalls(t, tid)
    ensures t.threads[tid].todo == s.threads[tid].todo && t.ingestors[id].isRunning == s.ingestors[id].isRunning
    ensures t.ingestors[id].gen == s.ingestors[id].gen && t.threads[tid].call.Waiting?
  {
    hide Inv, Reaches;
    ReachRefl(s);
    Ok(s, tid);
    ReachStep(s, s, Execute(tid, 0));
    StepKeepsInv(s, Execute(tid, 0));
    t := Apply(s, Execute(tid, 0));
  }

  /** A goroutine is somewhere in a Stop that found its ingestor running, or never started. */
  ghost predicate Returning(s: System, tid: ThreadId, id: IngestorId) {
    && HeadCalls(s, tid) && s.threads[tid].todo[0] == Stop(id)
    && (s.threads[tid].call.Lowered?
        || ((s.threads[tid].call.NoCall? || s.threads[tid].call.Waiting?)
             && (s.ingestors[id].isRunning || s.ingestors[id].gen == 0)))
  }

  /** From wherever it is in such a Stop, and wherever everyone else is, some continuation lets it return. */
  lemma StopCanReturn(s: System, tid: ThreadId, id: IngestorId) returns (t: System)
    requires Inv(s) && Returning(s, tid, id)
    ensures Reaches(s, t) && Past(s, t, tid)
  {
    hide Inv, Reaches, Past;
    ReachRefl(s);
    if s.threads[tid].call.Lowered? {
      t := LeaveStop(s, tid, id);
    } else {
      t := s;
      if s.threads[tid].call.NoCall? { t := EnterStop(s, tid, id); }
      Ok(t, tid);
      if t.ingestors[id].isRunning {
        var call := t.threads[tid].call;
        t := DeliverBuild(s, t, tid, id, call.build, call.run);
        t := DeliverRun(s, t, tid, id, call.run);
      }
      t := Unwind(s, t, tid, id);
    }
  }

  lemma LeaveStop(s: System, tid: ThreadId, id: IngestorId) returns (t: System)
    requires HeadCalls(s, tid) && s.threads[tid].todo[0] == Stop(id) && s.threads[tid].call.Lowered?
    ensures Reaches(s, t) && Past(s, t, tid)
  {
    hide Reaches;
    ReachRefl(s);
    ReachStep(s, s, Execute(tid, 0));
    t := Apply(s, Execute(tid, 0));
    assert |t.threads[tid].todo| < |s.threads[tid].todo|;
  }

  lemma ReturningStep(s: System, step: Step, tid: ThreadId, id: IngestorId)
    requires Inv(s) && Enabled(s, step) && Returning(s, tid, id)
    ensures Past(s, Apply(s, step), tid)
            || (Returning(Apply(s, step), tid, id) && Apply(s, step).threads[tid].todo == s.threads[tid].todo)
  {
    if step.Execute? && step.tid == tid {
      hide Inv, Apply;
      ReturningOwn(s, step, tid, id);
    } else {
      hide Inv, Apply;
      SameList(s, step, tid);
      OthersLeave(s, step, tid, id);
    }
  }

  lemma ReturningOwn(s: System, step: Step, tid: ThreadId, id: IngestorId)
    requires Inv(s) && Enabled(s, step) && Returning(s, tid, id) && step.Execute? && step.tid == tid
    ensures Past(s, Apply(s, step), tid)
            || (Returning(Apply(s, step), tid, id) && Apply(s, step).threads[tid].todo == s.threads[tid].todo)
  {
    hide Inv, OldDone, OnLatest, Settled;
    Ok(s, tid);
    var (ing, th) := StopStep(s.ingestors[id], s.threads[tid], s.threads[tid].todo[1..]);
    assert Apply(s, step) == Moved(s, tid, id, ing, th);
    assert |s.threads[tid].todo[1..]| < |s.threads[tid].todo|;
  }

  /** No step of a worker, of a sender or of another goroutine can trap a Stop that found its ingestor running or never
      started: at every later moment of every run it has returned, or some continuation lets it return. */
  lemma {:induction false} StopIsNeverTrapped(run: seq<System>, i: nat, tid: ThreadId, id: IngestorId)
    requires IsRun(run) && Inv(run[0]) && Returning(run[0], tid, id) && i < |run|
    ensures (exists k :: 0 <= k <= i && Past(run[0], run[k], tid))
         || (exists t :: Reaches(run[i], t) && Past(run[i], t, tid))
  {
    hide Inv, Apply, Enabled, Returning, Past, Reaches;
    StillReturning(run, i, tid, id);
    if forall k :: 0 <= k <= i ==> !Past(run[0], run[k], tid) {
      RunKeepsInv(run, i);
      var t := StopCanReturn(run[i], tid, id);
    }
  }

  lemma {:induction false} StillReturning(run: seq<System>, i: nat, tid: ThreadId, id: IngestorId)
    requires IsRun(run) && Inv(run[0]) && Returning(run[0], tid, id) && i < |run|
    ensures (exists k :: 0 <= k <= i && Past(run[0], run[k], tid))
         || (Returning(run[i], tid, id) && tid in run[i].threads
              && run[i].threads[tid].todo == run[0].threads[tid].todo)
  {
    hide Inv, Apply, Enabled;
    if i > 0 {
      StillReturning(run, i - 1, tid, id);
      if forall k :: 0 <= k <= i - 1 ==> !Past(run[0], run[k], tid) {
        var step := StepAt(run, i - 1);
        ReturningStep(run[i - 1], step, tid, id);
        assert Past(run[i - 1], run[i], tid) ==> Past(run[0], run[i], tid);
      }
    }
  }

  /** Exactly when a call of Stop can return: the ingestor is running, or was never started. On an
      ingestor that was stopped before, its channels are still there with nobody to receive, and
      the goroutine, and with it the manager's lock, is held for good. */
  lemma StopReturnsIff(s: System, tid: ThreadId, id: IngestorId)
    requires Inv(s) && HeadCalls(s, tid) && s.threads[tid].todo[0] == Stop(id) && s.threads[tid].call.NoCall?
    ensures (exists t :: Reaches(s, t) && Past(s, t, tid)) <==> s.ingestors[id].isRunning || s.ingestors[id].gen == 0
  {
    if s.ingestors[id].isRunning || s.ingestors[id].gen == 0 {
      var t := StopCanReturn(s, tid, id);
    } else {
      forall t | Reaches(s, t) ensures !Past(s, t, tid) {
        var run :| IsRun(run) && run[0] == s && run[|run| - 1] == t;
        StuckForever(run, |run| - 1, tid, id);
      }
    }
  }

  /** So a second StopAll with an ingestor in the table never gives the lock back. */
  lemma SecondStopAllHoldsTheLock(run: seq<System>, i: nat, j: nat, key: string)
    requires IsRun(run) && run[0] == INITIAL && i < j < |run|
    requires run[i].threads == map[] && key in run[i].table
    requires run[i].table[key] in run[i].ingestors && !run[i].ingestors[run[i].table[key]].isRunning
    requires run[i].ingestors[run[i].table[key]].gen > 0
    requires run[i + 1] == Apply(run[i], Acquire(StopAll))
    ensures run[j].threads != map[]
  {
    InitialOk();
    RunKeepsInv(run, i + 1);
    hide Inv, Next, Stuck;
    var id := run[i].table[key];
    FanOutStuck(run[i], id, key);
    SuffixRun(run, i + 1);
    StuckForever(run[i + 1..], j - i - 1, For(id), id);
    assert run[i + 1..][j - i - 1] == run[j];
    StuckHolds(run[j], For(id), id);
  }

  lemma FanOutStuck(s: System, id: IngestorId, key: string)
    requires s.threads == map[] && key in s.table && s.table[key] == id
    requires id in s.ingestors && !s.ingestors[id].isRunning && s.ingestors[id].gen > 0
    ensures Stuck(Apply(s, Acquire(StopAll)), For(id), id)
  {
    assert id in s.table.Values;
  }

  lemma SuffixRun(run: seq<System>, i: nat)
    requires IsRun(run) && i < |run|
    ensures IsRun(run[i..])
  {
    hide Next;
    forall k | 0 <= k < |run[i..]| - 1 ensures Next(run[i..][k], run[i..][k + 1]) {
      assert Next(run[i + k], run[i + k + 1]);
    }
  }

  lemma StuckHolds(s: System, tid: ThreadId, id: IngestorId)
    requires Stuck(s, tid, id)
    ensures s.threads != map[]
  {
  }

  /* ---------- workers that are alive can work ---------- */

  /** A live run worker can get to work at any time, and so can a build worker that is at the head of its loop. */
  lemma LiveCanWork(s: System, id: IngestorId)
    requires id in s.ingestors
    ensures forall g :: RunAlive(s.ingestors[id], g) ==>
              exists t :: Reaches(s, t) && id in t.ingestors && g in t.ingestors[id].runs && t.ingestors[id].runs[g].RunWork?
    ensures forall g :: g in s.ingestors[id].builds && s.ingestors[id].builds[g].BuildPoll? ==>
              exists t :: Reaches(s, t) && id in t.ingestors && g in t.ingestors[id].builds && t.ingestors[id].builds[g].BuildWork?
  {
    hide Reaches;
    ReachRefl(s);
    forall g | RunAlive(s.ingestors[id], g)
      ensures exists t :: Reaches(s, t) && id in t.ingestors && g in t.ingestors[id].runs && t.ingestors[id].runs[g].RunWork?
    {
      var t := s;
      if t.ingestors[id].runs[g].RunSelect? {
        ReachStep(s, t, RunStep(id, g));
        t := Apply(t, RunStep(id, g));
      }
      if t.ingestors[id].runs[g].RunBlocked? {
        ReachStep(s, t, RunStep(id, g));
        t := Apply(t, RunStep(id, g));
      }
      assert t.ingestors[id].runs[g].RunWork?;
    }
    forall g | g in s.ingestors[id].builds && s.ingestors[id].builds[g].BuildPoll?
      ensures exists t :: Reaches(s, t) && id in t.ingestors && g in t.ingestors[id].builds && t.ingestors[id].builds[g].BuildWork?
    {
      ReachStep(s, s, BuildStep(id, g, true));
      var t := Apply(s, BuildStep(id, g, true));
      assert t.ingestors[id].builds[g].BuildWork?;
    }
  }

  /* ---------- a run that gets there ---------- */

  const UP := Ingestor(true, false, 1, 1, 1, map[1 := BuildPoll], map[1 := RunSelect])

  const DOWN := Ingestor(false, false, 1, 1, 1, map[1 := BuildDone], map[1 := RunDone])

  /** One ingestor in the table, and the goroutines at work. */
  function Alone(key: string, ing: Ingestor, threads: map<ThreadId, Thread>): System {
    System(map[0 := ing], map[key := 0], threads)
  }

  lemma Go(s: System, step: Step, t: System)
    requires Reaches(INITIAL, s) && Enabled(s, step) && t == Apply(s, step)
    ensures Reaches(INITIAL, t)
  {
    ReachStep(INITIAL, s, step);
  }

  /** Putting a first configuration starts its ingestor and enters it into the table. */
  lemma PutReached(key: string)
    ensures Reaches(INITIAL, Alone(key, UP, map[]))
  {
    hide Reaches;
    var insert := Insert(key, 0);
    var ing := NEW_INGESTOR.(isRunning := true, gen := 1);
    ReachRefl(INITIAL);
    var s := System(map[], map[], map[Main := Thread([Create(key, true)], NoCall)]);
    Go(INITIAL, Acquire(PutConfig(key, true)), s);
    var t := System(map[0 := NEW_INGESTOR], map[], map[Main := Thread([Start(0), insert], NoCall)]);
    assert [Start(0), insert] == [Start(0), insert] + s.threads[Main].todo[1..];
    Go(s, Execute(Main, 0), t);
    var u := System(map[0 := ing], map[], map[Main := Thread([Start(0), insert], Raised)]);
    Go(t, Execute(Main, 0), u);
    StartReached(key, u);
  }

  lemma StartReached(key: string, u: System)
    requires Reaches(INITIAL, u)
    requires u == System(map[0 := NEW_INGESTOR.(isRunning := true, gen := 1)], map[], map[Main := Thread([Start(0), Insert(key, 0)], Raised)])
    ensures Reaches(INITIAL, Alone(key, UP, map[]))
  {
    hide Reaches;
    var todo := [Start(0), Insert(key, 0)];
    var ing := u.ingestors[0].(buildCh := 1, runCh := 1);
    var v := System(map[0 := ing], map[], map[Main := Thread(todo, Channels)]);
    Go(u, Execute(Main, 0), v);
    var w := System(map[0 := ing.(builds := map[1 := BuildPoll])], map[], map[Main := Thread(todo, Built)]);
    Go(v, Execute(Main, 0), w);
    var x := System(map[0 := UP], map[], map[Main := Thread([Insert(key, 0)], NoCall)]);
    Go(w, Execute(Main, 0), x);
    var y := Alone(key, UP, map[Main := Thread([], NoCall)]);
    Go(x, Execute(Main, 0), y);
    Go(y, Finish(Main), Alone(key, UP, map[]));
  }

  lemma OnlyZero(key: string)
    ensures var table: map<string, IngestorId> := map[key := 0];
            table.Values == {0} && FanOut(table, true, false) == map[For(0) := Thread([Stop(0)], NoCall)]
  {
    var table: map<string, IngestorId> := map[key := 0];
    assert table[key] == 0 && key in table;
    assert table.Values == {0};
    assert [Stop(0)] + [] == [Stop(0)];
  }

  /** The first StopAll over it comes to its end. */
  lemma StopReached(key: string)
    ensures Reaches(INITIAL, Alone(key, DOWN, map[]))
  {
    hide Reaches;
    PutReached(key);
    var todo := [Stop(0)];
    var ing := UP.(isStopping := true);
    var s := Alone(key, UP, map[For(0) := Thread(todo, NoCall)]);
    OnlyZero(key);
    Go(Alone(key, UP, map[]), Acquire(StopAll), s);
    var t := Alone(key, ing, map[For(0) := Thread(todo, Waiting(Spawned, Spawned))]);
    Go(s, Execute(For(0), 0), t);
    var u := Alone(key, ing, map[For(0) := Thread(todo, Waiting(Offering(1), Spawned))]);
    Go(t, OfferBuild(For(0)), u);
    var v := Alone(key, ing.(builds := map[1 := BuildDone]), map[For(0) := Thread(todo, Waiting(Delivered, Spawned))]);
    assert ing.builds[1 := BuildDone] == v.ingestors[0].builds;
    Go(u, ExitBuild(For(0), 1), v);
    SecondHalfReached(key, v);
  }

  lemma SecondHalfReached(key: string, v: System)
    requires Reaches(INITIAL, v)
    requires v == Alone(key, UP.(isStopping := true, builds := map[1 := BuildDone]), map[For(0) := Thread([Stop(0)], Waiting(Delivered, Spawned))])
    ensures Reaches(INITIAL, Alone(key, DOWN, map[]))
  {
    hide Reaches;
    var todo := [Stop(0)];
    var ing := v.ingestors[0].(runs := map[1 := RunBlocked(1)]);
    var w := Alone(key, ing, map[For(0) := Thread(todo, Waiting(Delivered, Spawned))]);
    assert v.ingestors[0].runs[1 := RunBlocked(1)] == ing.runs;
    Go(v, RunStep(0, 1), w);
    var x := Alone(key, ing, map[For(0) := Thread(todo, Waiting(Delivered, Offering(1)))]);
    Go(w, OfferRun(For(0)), x);
    var y := Alone(key, ing.(runs := map[1 := RunDone]), map[For(0) := Thread(todo, Waiting(Delivered, Delivered))]);
    assert ing.runs[1 := RunDone] == y.ingestors[0].runs;
    Go(x, ExitRun(For(0), 1), y);
    LastStepsReached(key, y);
  }

  lemma LastStepsReached(key: string, y: System)
    requires Reaches(INITIAL, y)
    requires y == Alone(key, DOWN.(isRunning := true, isStopping := true), map[For(0) := Thread([Stop(0)], Waiting(Delivered, Delivered))])
    ensures Reaches(INITIAL, Alone(key, DOWN, map[]))
  {
    hide Reaches, FanOut, Launch, BuildNext, RunNext;
    var todo := [Stop(0)];
    var z := Alone(key, DOWN.(isStopping := true), map[For(0) := Thread(todo, Lowered)]);
    Go(y, Execute(For(0), 0), z);
    LoweredReached(key, z);
  }

  lemma LoweredReached(key: string, z: System)
    requires Reaches(INITIAL, z)
    requires z == Alone(key, DOWN.(isStopping := true), map[For(0) := Thread([Stop(0)], Lowered)])
    ensures Reaches(INITIAL, Alone(key, DOWN, map[]))
  {
    hide Reaches, FanOut, Launch, BuildNext, RunNext;
    var last := Alone(key, DOWN, map[For(0) := Thread([], NoCall)]);
    assert [Stop(0)][1..] == [];
    Go(z, Execute(For(0), 0), last);
    Go(last, Finish(For(0)), Alone(key, DOWN, map[]));
  }

  /** PutConfig, StopAll, StopAll: from the initial state the second StopAll is reached with the lock free, and no
      continuation of it gives the lock back. */
  lemma LockIsLost(key: string)
    ensures var down := Alone(key, DOWN, map[]);
            && Reaches(INITIAL, down) && Enabled(down, Acquire(StopAll))
            && forall t :: Reaches(Apply(down, Acquire(StopAll)), t) ==> t.threads != map[]
  {
    hide Stuck, Next, Inv;
    StopReached(key);
    var down := Alone(key, DOWN, map[]);
    var held := Apply(down, Acquire(StopAll));
    FanOutStuck(down, 0, key);
    Go(down, Acquire(StopAll), held);
    ReachedOk(held);
    forall t | Reaches(held, t) ensures t.threads != map[] {
      var run :| IsRun(run) && run[0] == held && run[|run| - 1] == t;
      StuckForever(run, |run| - 1, For(0), 0);
      StuckHolds(t, For(0), 0);
    }
  }

  lemma ReachedOk(t: System)
    requires Reaches(INITIAL, t)
    ensures Inv(t)
  {
    hide Inv, Next;
    var run :| IsRun(run) && run[0] == INITIAL && run[|run| - 1] == t;
    InitialOk();
    RunKeepsInv(run, |run| - 1);
  }
}
