/**
 Watching a configuration file and telling its handlers (pkg/config/configfile.go).
 */
module ConfigWatcher {
  import opened Results
  import opened Sorting

  /** What a poll's stat can find. */
  datatype Stat = StatError | NotExist | Present(modTime: int)

  /** One poll: the stat, and what a read would give if the loop makes one. */
  datatype Poll = Poll(stat: Stat, read: Option<string>)

  datatype Event = Created(data: string) | Modified(data: string) | Deleted

  /* ---------- the polling loop ---------- */

  datatype Watch = Watch(first: bool, exists_: bool, last: int)

  const FRESH := Watch(true, false, 0)

  /** One round of the loop, after its wait. */
  function Round(w: Watch, p: Poll): (Watch, seq<Event>) {
    match p.stat
    case StatError => (w, [])
    case NotExist =>
      if w.first then (w.(first := false, exists_ := false), [])
      else if w.exists_ then (w.(exists_ := false), [Deleted])
      else (w, [])
    case Present(mtime) =>
      if w.first then (Watch(false, true, mtime), [])
      else if !w.exists_ then
        if p.read.None? then (w, []) else (w.(exists_ := true, last := mtime), [Created(p.read.value)])
      else if mtime != w.last then
        (w.(last := mtime), if p.read.None? then [] else [Modified(p.read.value)])
      else (w, [])
  }

  /** The loop over any polls, from any state. */
  function Watched(w: Watch, polls: seq<Poll>): (Watch, seq<Event>) {
    if polls == [] then (w, [])
    else
      var (w', before) := Watched(w, polls[..|polls| - 1]);
      var (w'', now) := Round(w', polls[|polls| - 1]);
      (w'', before + now)
  }

  /** runWatcher's loop. */
  method RunWatcher(polls: seq<Poll>) returns (events: seq<Event>)
    ensures events == Watched(FRESH, polls).1
  {
    events := [];
    var first, exists_, last := true, false, 0;
    for i := 0 to |polls|
      invariant (Watch(first, exists_, last), events) == Watched(FRESH, polls[..i])
    {
      assert polls[..i + 1][..i] == polls[..i] && events + [] == events;
      var p := polls[i];
      if p.stat.StatError? {
        continue;
      }
      if first {
        exists_ := !p.stat.NotExist?;
        if exists_ {
          last := p.stat.modTime;
        }
        first := false;
        continue;
      }
      if p.stat.NotExist? {
        if exists_ {
          exists_ := false;
          events := events + [Deleted];
        }
        continue;
      }
      if !exists_ {
        if p.read.None? {
          continue;
        }
        exists_ := true;
        last := p.stat.modTime;
        events := events + [Created(p.read.value)];
        continue;
      }
      var mtime := p.stat.modTime;
      if mtime != last {
        last := mtime;
        if p.read.None? {
          continue;
        }
        events := events + [Modified(p.read.value)];
      }
    }
    assert polls[..|polls|] == polls;
  }

  /** Whether the file is held to exist after the events, given that it was before. */
  function After(held: bool, events: seq<Event>): bool {
    if events == [] then held
    else
      match events[|events| - 1]
      case Created(_) => true
      case Deleted => false
      case Modified(_) => After(held, events[..|events| - 1])
  }

  /** The events make sense to someone who believes them: created only when absent, modified and
      deleted only when present. */
  ghost predicate Coherent(held: bool, events: seq<Event>) {
    forall i :: 0 <= i < |events| ==> (events[i].Created? <==> !After(held, events[..i]))
  }

  /** Existence as first observed. */
  function FirstSeen(polls: seq<Poll>): bool {
    if polls == [] then false
    else if polls[0].stat.StatError? then FirstSeen(polls[1..])
    else polls[0].stat.Present?
  }

  lemma CoherentMore(held: bool, events: seq<Event>, e: Event)
    requires Coherent(held, events) && (e.Created? <==> !After(held, events))
    ensures Coherent(held, events + [e])
  {
    var more := events + [e];
    forall i | 0 <= i < |more| ensures more[i].Created? <==> !After(held, more[..i]) {
      if i < |events| { assert more[..i] == events[..i]; } else { assert more[..i] == events; }
    }
  }

  lemma {:induction false} FirstSeenPrefix(polls: seq<Poll>, i: nat)
    requires i <= |polls| && exists k :: 0 <= k < i && !polls[k].stat.StatError?
    ensures FirstSeen(polls[..i]) == FirstSeen(polls)
  {
    var k :| 0 <= k < i && !polls[k].stat.StatError?;
    if polls[0].stat.StatError? {
      assert polls[1..][k - 1] == polls[k];
      FirstSeenPrefix(polls[1..], i - 1);
      assert polls[..i][1..] == polls[1..][..i - 1];
    }
  }

  /** What the loop holds after the polls agrees with the events it has sent. */
  ghost predicate Agrees(polls: seq<Poll>, w: Watch, events: seq<Event>) {
    && Coherent(FirstSeen(polls), events)
    && w.first == (forall k :: 0 <= k < |polls| ==> polls[k].stat.StatError?)
    && (w.first ==> events == [])
    && (!w.first ==> w.exists_ == After(FirstSeen(polls), events))
  }

  /** Over any polls: the loop knows the file exactly as its events tell it. */
  lemma {:induction false} EventsAreCoherent(polls: seq<Poll>)
    ensures var (w, events) := Watched(FRESH, polls); Agrees(polls, w, events)
  {
    if polls != [] {
      hide Agrees, Round;
      var n := |polls| - 1;
      EventsAreCoherent(polls[..n]);
      var (w, events) := Watched(FRESH, polls[..n]);
      RoundAgrees(polls, w, events);
    }
  }

  lemma RoundAgrees(polls: seq<Poll>, w: Watch, events: seq<Event>)
    requires polls != [] && Agrees(polls[..|polls| - 1], w, events)
    ensures var (w', now) := Round(w, polls[|polls| - 1]); Agrees(polls, w', events + now)
  {
    hide FirstSeen;
    var n := |polls| - 1;
    assert forall k :: 0 <= k < n ==> polls[..n][k] == polls[k];
    var (w', now) := Round(w, polls[n]);
    if w.first {
      NothingSeenYet(polls);
      assert events + now == [];
    } else {
      var k :| 0 <= k < n && !polls[..n][k].stat.StatError?;
      assert !polls[k].stat.StatError?;
      FirstSeenPrefix(polls, n);
      EventsMore(FirstSeen(polls), events, now);
    }
  }

  lemma EventsMore(held: bool, events: seq<Event>, now: seq<Event>)
    requires Coherent(held, events) && |now| <= 1 && (now != [] ==> (now[0].Created? <==> !After(held, events)))
    ensures Coherent(held, events + now)
    ensures After(held, events + now) == if now == [] || now[0].Modified? then After(held, events) else now[0].Created?
  {
    if now == [] {
      assert events + now == events;
    } else {
      assert events + now == events + [now[0]] && (events + now)[..|events|] == events;
      CoherentMore(held, events, now[0]);
    }
  }

  lemma {:induction false} NothingSeenYet(polls: seq<Poll>)
    requires polls != [] && forall k :: 0 <= k < |polls| - 1 ==> polls[k].stat.StatError?
    ensures FirstSeen(polls) == polls[|polls| - 1].stat.Present?
  {
    if |polls| > 1 {
      assert polls[1..][|polls| - 2] == polls[|polls| - 1];
      NothingSeenYet(polls[1..]);
    } else {
      assert polls[1..] == [];
    }
  }

  lemma {:induction false} NoDeletionHolds(held: bool, events: seq<Event>, i: nat, j: nat)
    requires i < j <= |events| && events[i].Created? && forall k :: i < k < j ==> !events[k].Deleted?
    ensures After(held, events[..j])
    decreases j
  {
    var e := events[..j];
    assert e[j - 1] == events[j - 1];
    if events[j - 1].Modified? {
      NoDeletionHolds(held, events, i, j - 1);
      assert e[..j - 1] == events[..j - 1];
    }
  }

  lemma {:induction false} NoCreationHolds(held: bool, events: seq<Event>, i: nat, j: nat)
    requires i < j <= |events| && events[i].Deleted? && forall k :: i < k < j ==> events[k].Deleted?
    ensures !After(held, events[..j])
  {
    assert events[..j][j - 1] == events[j - 1];
  }

  /** Created and Deleted alternate: between two creations lies a deletion, and after a deletion
      the next event is a creation. */
  lemma CreationsAndDeletionsAlternate(polls: seq<Poll>, i: nat, j: nat)
    requires var events := Watched(FRESH, polls).1; i < j < |events|
    ensures var events := Watched(FRESH, polls).1;
            && (events[i].Created? && events[j].Created? ==> exists k :: i < k < j && events[k].Deleted?)
            && (events[i].Deleted? && j == i + 1 ==> events[j].Created?)
  {
    var held, events := FirstSeen(polls), Watched(FRESH, polls).1;
    EventsAreCoherent(polls);
    assert events[j].Created? <==> !After(held, events[..j]);
    if events[i].Created? && events[j].Created? && forall k :: i < k < j ==> !events[k].Deleted? {
      NoDeletionHolds(held, events, i, j);
    }
    if events[i].Deleted? && j == i + 1 {
      NoCreationHolds(held, events, i, j);
    }
  }

  /** The modification time at the last poll that found the file. */
  function LastTime(polls: seq<Poll>): Option<int> {
    if polls == [] then None
    else if polls[|polls| - 1].stat.Present? then Some(polls[|polls| - 1].stat.modTime)
    else LastTime(polls[..|polls| - 1])
  }

  /** The events so far, and the first observation, say that the file exists. */
  ghost predicate Held(polls: seq<Poll>) {
    (exists k :: 0 <= k < |polls| && !polls[k].stat.StatError?) && After(FirstSeen(polls), Watched(FRESH, polls).1)
  }

  /** What the loop has in mind is told by the polls: whether it holds the file to exist, and since which change. */
  lemma {:induction false} HeldInMind(polls: seq<Poll>)
    ensures var w := Watched(FRESH, polls).0;
            && (w.first ==> !w.exists_)
            && (w.exists_ <==> Held(polls))
            && (w.exists_ ==> LastTime(polls) == Some(w.last))
  {
    EventsAreCoherent(polls);
    if polls != [] { HeldInMind(polls[..|polls| - 1]); }
  }

  /** Over any polls: when the file is held to exist and shows a new time, one event more is sent if the read at that
      very poll succeeds and none otherwise. In the second case none is sent either at however many later polls
      that fail or show the same time: the change is lost. */
  lemma {:induction false} ChangeReportedIff(polls: seq<Poll>, i: nat, j: nat)
    requires i < j <= |polls| && Held(polls[..i])
    requires polls[i].stat.Present? && LastTime(polls[..i]) != Some(polls[i].stat.modTime)
    requires forall k :: i < k < j ==> polls[k].stat.StatError? || polls[k].stat == polls[i].stat
    ensures Watched(FRESH, polls[..j]).1
         == Watched(FRESH, polls[..i]).1 + (if polls[i].read.Some? then [Modified(polls[i].read.value)] else [])
    ensures Watched(FRESH, polls[..j]).0 == Watch(false, true, polls[i].stat.modTime)
  {
    assert polls[..j][..j - 1] == polls[..j - 1];
    if j == i + 1 {
      HeldInMind(polls[..i]);
    } else {
      ChangeReportedIff(polls, i, j - 1);
    }
  }

  /** Some poll has told whether the file exists. */
  ghost predicate Observed(polls: seq<Poll>) { exists k :: 0 <= k < |polls| && !polls[k].stat.StatError? }

  /** What a poll is to report to someone who was told everything before: a creation or a change with what was read, if
      it could be read, and a deletion. */
  ghost function Due(polls: seq<Poll>, p: Poll): seq<Event> {
    if !Observed(polls) || p.stat.StatError? then []
    else if p.stat.NotExist? then if Held(polls) then [Deleted] else []
    else if p.read.None? || (Held(polls) && LastTime(polls) == Some(p.stat.modTime)) then []
    else if Held(polls) then [Modified(p.read.value)]
    else [Created(p.read.value)]
  }

  /** Over any polls, at every poll exactly what is due is sent: no creation, change or deletion is left out, and
      nothing else is sent. */
  lemma EveryPollReports(polls: seq<Poll>, i: nat)
    requires i < |polls|
    ensures Watched(FRESH, polls[..i + 1]).1 == Watched(FRESH, polls[..i]).1 + Due(polls[..i], polls[i])
  {
    hide Held, LastTime;
    assert polls[..i + 1][..i] == polls[..i];
    EventsAreCoherent(polls[..i]);
    HeldInMind(polls[..i]);
    assert Watched(FRESH, polls[..i]).0.first <==> !Observed(polls[..i]);
  }

  /** An absent file that appears and can be read is reported as created. */
  lemma AppearanceIsReported(modTime: int, data: string)
    ensures var polls := [Poll(NotExist, None), Poll(Present(modTime), Some(data))];
            Watched(FRESH, polls).1 == [Created(data)]
  {
    var polls := [Poll(NotExist, None), Poll(Present(modTime), Some(data))];
    assert polls[..1] == [polls[0]] && polls[..1][..0] == [];
    assert Watched(FRESH, []) == (FRESH, []);
    assert Watched(FRESH, polls[..1]).0 == Watch(false, false, 0) && Watched(FRESH, polls[..1]).1 == [];
  }

  /* ---------- the handlers ---------- */

  datatype Handler = Handler(id: string, priority: int)

  predicate ByPriority(a: Handler, b: Handler) { a.priority < b.priority }

  /** Where the handler stands in the list; its length for one that does not. */
  function Position(watchers: seq<Handler>, h: Handler): nat {
    if watchers == [] || watchers[0] == h then 0 else 1 + Position(watchers[1..], h)
  }

  function ByPosition(watchers: seq<Handler>): (Handler, Handler) -> bool {
    (a, b) => Position(watchers, a) < Position(watchers, b)
  }

  /** The order in which a list of handlers is called. */
  function CallOrder(watchers: seq<Handler>): seq<Handler> { StableSort(watchers, ByPriority) }

  ghost predicate OwnIds(watchers: seq<Handler>) {
    forall i, j :: 0 <= i < j < |watchers| ==> watchers[i].id != watchers[j].id
  }

  /** Where the handler with the id stands; the length of the list if there is none. */
  function PlaceOf(watchers: seq<Handler>, id: string): (i: nat)
    ensures i <= |watchers| && (i < |watchers| ==> watchers[i].id == id) && forall k :: 0 <= k < i ==>
              watchers[k].id != id
  {
    if watchers == [] || watchers[0].id == id then 0 else 1 + PlaceOf(watchers[1..], id)
  }

  /** A file with its handlers, in registration order, and the polling loop if it is started. */
  datatype File = File(handlers: seq<Handler>, loop: Option<Watch>)

  datatype Op = PollFile(poll: Poll) | Add(handler: Handler) | Remove(id: string) | RemoveAll

  datatype Delivery = Delivery(to: Handler, event: Event)

  function Deliver(called: seq<Handler>, events: seq<Event>): seq<Delivery> {
    if events == [] then [] else seq(|called|, i requires 0 <= i < |called| => Delivery(called[i], events[0]))
  }

  /** One operation: the new state, and who is told what. */
  function Apply(s: File, op: Op): (File, seq<Delivery>) {
    match op
    case PollFile(p) =>
      if s.loop.None? then (s, [])
      else
        var (w, events) := Round(s.loop.value, p);
        (File(s.handlers, Some(w)), Deliver(CallOrder(s.handlers), events))
    case Add(h) => (File(s.handlers + [h], if s.handlers == [] then Some(FRESH) else s.loop), [])
    case Remove(id) =>
      var i := PlaceOf(s.handlers, id);
      if i == |s.handlers| then (s, [])
      else (File(Without(s.handlers, i), if |s.handlers| == 1 then None else s.loop), [])
    case RemoveAll => (File([], None), [])
  }

  /** Each handler has its own id, and the file is watched exactly while there is a handler. */
  ghost predicate ValidFile(s: File) {
    OwnIds(s.handlers) && (s.loop.Some? <==> s.handlers != [])
  }

  /** A handler comes with an unused id, as a random one is taken to be. */
  ghost predicate Allowed(s: File, op: Op) {
    op.Add? ==> forall i :: 0 <= i < |s.handlers| ==> s.handlers[i].id != op.handler.id
  }

  class ConfigFile {
    var watchers: seq<Handler>    // in registration order
    var loop: Option<Watch>       // the polling loop, if it is started

    ghost function Now(): File
      reads this
    {
      File(watchers, loop)
    }

    ghost predicate Valid()
      reads this
    {
      ValidFile(Now())
    }

    constructor ()
      ensures Valid() && Now() == File([], None)
    {
      watchers, loop := [], None;
    }

    /** AddPriorityChangeHandler: the first handler starts the loop. */
    method AddPriorityChangeHandler(id: string, priority: int)
      requires Valid() && Allowed(Now(), Add(Handler(id, priority)))
      modifies this
      ensures Valid() && Now() == Apply(old(Now()), Add(Handler(id, priority))).0
    {
      watchers := watchers + [Handler(id, priority)];
      if |watchers| == 1 {
        loop := Some(FRESH);
      }
    }

    /** RemoveChangeHandler: the rest move up one place, and the last one ends the loop. */
    method RemoveChangeHandler(id: string) returns (removed: bool)
      requires Valid()
      modifies this
      ensures Valid() && Now() == Apply(old(Now()), Remove(id)).0
      ensures removed <==> exists i :: 0 <= i < |old(watchers)| && old(watchers)[i].id == id
      ensures forall h :: h in watchers <==> h in old(watchers) && h.id != id
    {
      hide CallOrder, Deliver, Round;
      for i := 0 to |watchers|
        invariant watchers == old(watchers) && loop == old(loop)
        invariant forall k :: 0 <= k < i ==> watchers[k].id != id
      {
        if watchers[i].id == id {
          assert i == PlaceOf(watchers, id);
          OthersStay(watchers, i);
          IdsStay(watchers, i);
          watchers := watchers[..i] + watchers[i + 1..];
          if |watchers| == 0 {
            loop := None;
          }
          return true;
        }
      }
      return false;
    }

    method RemoveAllHandlers()
      modifies this
      ensures Valid() && Now() == Apply(old(Now()), RemoveAll).0
    {
      watchers, loop := [], None;
    }

    /** One round of the loop, with what it tells the handlers. */
    method PollOnce(p: Poll) returns (told: seq<Delivery>)
      requires Valid()
      modifies this`loop
      ensures Valid() && (Now(), told) == Apply(old(Now()), PollFile(p))
    {
      told := [];
      if loop.None? {
        return;
      }
      var (w, events) := Round(loop.value, p);
      loop := Some(w);
      if |events| > 0 {
        var called := OnFileChange();
        told := seq(|called|, i requires 0 <= i < |called| => Delivery(called[i], events[0]));
      }
    }

    /** onFileChange: every handler registered at the time of the change is called once, in
        priority order, ties in the order of registration. */
    method OnFileChange() returns (called: seq<Handler>)
      requires Valid()
      ensures multiset(called) == multiset(watchers) && Distinct(called)
      ensures InCallOrder(called, watchers) && called == CallOrder(watchers)
    {
      if |watchers| == 0 {
        return [];
      }
      var toNotify := new Handler[|watchers|](i requires 0 <= i < |watchers| reads this => watchers[i]);
      assert toNotify[..] == watchers;
      SliceStable(toNotify, ByPriority);
      CallOrderSound(watchers);
      called := toNotify[..];
    }
  }

  lemma IdsStay(was: seq<Handler>, i: nat)
    requires i < |was| && OwnIds(was)
    ensures OwnIds(Without(was, i))
  {
  }

  lemma OthersStay(was: seq<Handler>, i: nat)
    requires i < |was| && OwnIds(was)
    ensures forall h :: h in Without(was, i) <==> h in was && h.id != was[i].id
  {
    hide Without;
    forall h | h in was && h.id != was[i].id ensures h in Without(was, i) {
      var k :| 0 <= k < |was| && was[k] == h;
      WithoutPlaces(was, i, k);
      assert h == Without(was, i)[if k < i then k else k - 1];
    }
    forall h | h in Without(was, i) ensures h in was && h.id != was[i].id {
      var k :| 0 <= k < |Without(was, i)| && Without(was, i)[k] == h;
      WithoutPlaces(was, i, if k < i then k else k + 1);
    }
  }

  lemma WithoutPlaces(was: seq<Handler>, i: nat, k: nat)
    requires i < |was|
    ensures |Without(was, i)| == |was| - 1
    ensures k < |was| && k != i ==> Without(was, i)[if k < i then k else k - 1] == was[k]
  {
  }

  /** By priority, and at equal priority in the order of registration. */
  ghost predicate InCallOrder(called: seq<Handler>, watchers: seq<Handler>) {
    forall i, j :: 0 <= i < j < |called| ==>
      || called[i].priority < called[j].priority
      || (called[i].priority == called[j].priority && Position(watchers, called[i]) < Position(watchers, called[j]))
  }

  lemma {:induction false} PositionOf(watchers: seq<Handler>, i: nat)
    requires i < |watchers| && OwnIds(watchers)
    ensures Position(watchers, watchers[i]) == i
  {
    if i > 0 { PositionOf(watchers[1..], i - 1); }
  }

  lemma CallOrderSound(watchers: seq<Handler>)
    requires OwnIds(watchers)
    ensures var called := CallOrder(watchers);
            multiset(called) == multiset(watchers) && Distinct(called) && InCallOrder(called, watchers)
  {
    hide StableSort, Position;
    var called, minor := CallOrder(watchers), ByPosition(watchers);
    StableSortPermutes(watchers, ByPriority);
    forall i, j | 0 <= i < j < |watchers| ensures minor(watchers[i], watchers[j]) {
      PositionOf(watchers, i);
      PositionOf(watchers, j);
    }
    StableSortLex(watchers, ByPriority, minor);
    DistinctPermutes(watchers, called);
    SameElements(watchers, called);
    forall i, j | 0 <= i < j < |called|
      ensures called[i].priority < called[j].priority
           || (called[i].priority == called[j].priority
                && Position(watchers, called[i]) < Position(watchers, called[j]))
    {
      assert !Lex(ByPriority, minor)(called[j], called[i]);
      assert called[i] in watchers && called[j] in watchers && called[i] != called[j];
      var a: nat :| a < |watchers| && watchers[a] == called[i];
      var b: nat :| b < |watchers| && watchers[b] == called[j];
      PositionOf(watchers, a);
      PositionOf(watchers, b);
    }
  }

  /* ---------- who is told what, over any operations ---------- */

  function RunOps(s: File, ops: seq<Op>): (File, seq<Delivery>) {
    if ops == [] then (s, [])
    else
      var (t, before) := RunOps(s, ops[..|ops| - 1]);
      var (u, now) := Apply(t, ops[|ops| - 1]);
      (u, before + now)
  }

  ghost predicate AllAllowed(s: File, ops: seq<Op>) {
    forall i :: 0 <= i < |ops| ==> Allowed(RunOps(s, ops[..i]).0, ops[i])
  }

  function PollsIn(ops: seq<Op>): seq<Poll> {
    if ops == [] then []
    else PollsIn(ops[..|ops| - 1]) + if ops[|ops| - 1].PollFile? then [ops[|ops| - 1].poll] else []
  }

  /** What one handler is told. */
  function ToldTo(told: seq<Delivery>, h: Handler): seq<Event> {
    if told == [] then []
    else ToldTo(told[..|told| - 1], h) + if told[|told| - 1].to == h then [told[|told| - 1].event] else []
  }

  lemma {:induction false} ToldConcat(a: seq<Delivery>, b: seq<Delivery>, h: Handler)
    ensures ToldTo(a + b, h) == ToldTo(a, h) + ToldTo(b, h)
  {
    if b == [] {
      assert a + b == a;
    } else {
      assert (a + b)[..|a + b| - 1] == a + b[..|b| - 1];
      ToldConcat(a, b[..|b| - 1], h);
    }
  }

  /** A handler among distinct ones is told once. */
  lemma {:induction false} ToldOnce(called: seq<Handler>, events: seq<Event>, h: Handler)
    requires Distinct(called) && |events| <= 1
    ensures ToldTo(Deliver(called, events), h) == if h in called then events else []
  {
    if called != [] && events != [] {
      var n := |called| - 1;
      ToldOnce(called[..n], events, h);
      assert Deliver(called, events)[..n] == Deliver(called[..n], events);
      assert h in called <==> h in called[..n] || h == called[n];
      assert called[n] !in called[..n];
    }
  }

  lemma ApplyKeepsValid(s: File, op: Op)
    requires ValidFile(s) && Allowed(s, op)
    ensures ValidFile(Apply(s, op).0)
  {
    hide CallOrder, Deliver, Round;
    if op.Remove? && PlaceOf(s.handlers, op.id) < |s.handlers| { IdsStay(s.handlers, PlaceOf(s.handlers, op.id)); }
  }

  /** The operation leaves the handler registered. */
  predicate Spares(op: Op, h: Handler) { op != Remove(h.id) && !op.RemoveAll? }

  lemma ApplySpares(s: File, op: Op, h: Handler)
    requires ValidFile(s) && Allowed(s, op) && h in s.handlers && Spares(op, h)
    ensures h in Apply(s, op).0.handlers
    ensures Apply(s, op).0.loop.Some?
    ensures op.PollFile? ==>
              var (w, events) := Round(s.loop.value, op.poll);
              Apply(s, op).0.loop == Some(w) && ToldTo(Apply(s, op).1, h) == events
    ensures !op.PollFile? ==> Apply(s, op).0.loop == s.loop && Apply(s, op).1 == []
  {
    hide CallOrder, Deliver, ToldTo, InCallOrder;
    match op
    case PollFile(p) =>
      var events := Round(s.loop.value, p).1;
      CallOrderSound(s.handlers);
      assert h in CallOrder(s.handlers) by { SameElements(s.handlers, CallOrder(s.handlers)); }
      ToldOnce(CallOrder(s.handlers), events, h);
    case Add(_) =>
      assert (s.handlers + [op.handler])[..|s.handlers|] == s.handlers;
    case Remove(id) =>
      var i := PlaceOf(s.handlers, id);
      if i < |s.handlers| { OthersStay(s.handlers, i); }
  }

  /** While a handler is registered, whatever other handlers come and go, it is told exactly the events that the loop
      sends on the polls of that time, each once and in order. */
  lemma {:induction false} HandlerIsTold(s: File, ops: seq<Op>, h: Handler)
    requires ValidFile(s) && AllAllowed(s, ops) && h in s.handlers && forall i :: 0 <= i < |ops| ==> Spares(ops[i], h)
    ensures var (t, told) := RunOps(s, ops); var (w, events) := Watched(s.loop.value, PollsIn(ops));
            ValidFile(t) && h in t.handlers && t.loop == Some(w) && ToldTo(told, h) == events
  {
    hide Apply, Round, ToldTo, Spares, Allowed, ValidFile;
    if ops == [] {
      NothingTold(h);
      FileIsWatched(s, h);
    } else {
      var n := |ops| - 1;
      forall i | 0 <= i < n ensures Allowed(RunOps(s, ops[..n][..i]).0, ops[..n][i]) {
        assert ops[..n][..i] == ops[..i];
      }
      HandlerIsTold(s, ops[..n], h);
      var (t, before) := RunOps(s, ops[..n]);
      assert Allowed(t, ops[n]);
      ApplyKeepsValid(t, ops[n]);
      ApplySpares(t, ops[n], h);
      ToldConcat(before, Apply(t, ops[n]).1, h);
      NothingTold(h);
      var polls := PollsIn(ops[..n]);
      if ops[n].PollFile? {
        assert (polls + [ops[n].poll])[..|polls|] == polls;
      } else {
        assert polls + [] == polls;
      }
    }
  }

  /** The first handler of a file is told all and only what a loop that starts afresh sends on the polls since: events
      that make sense, from the existence first observed after the handler was added. */
  lemma FirstIsTold(ops: seq<Op>, h: Handler)
    requires AllAllowed(File([h], Some(FRESH)), ops) && forall i :: 0 <= i < |ops| ==> Spares(ops[i], h)
    ensures var told := ToldTo(RunOps(File([], None), [Add(h)] + ops).1, h);
            told == Watched(FRESH, PollsIn(ops)).1 && Coherent(FirstSeen(PollsIn(ops)), told)
  {
    var start := File([h], Some(FRESH));
    assert [] + [h] == [h];
    assert Apply(File([], None), Add(h)) == (start, []);
    OpsAfter(File([], None), Add(h), ops);
    hide RunOps, ToldTo, Coherent, FirstSeen, Watched, Allowed, Spares, Apply;
    HandlerIsTold(start, ops, h);
    EventsAreCoherent(PollsIn(ops));
    assert [] + RunOps(start, ops).1 == RunOps(start, ops).1;
  }

  lemma {:induction false} OpsAfter(s: File, op: Op, ops: seq<Op>)
    ensures var (t, now) := Apply(s, op); var (u, later) := RunOps(t, ops);
            RunOps(s, [op] + ops) == (u, now + later)
  {
    hide Apply;
    if ops == [] {
      assert [op] + ops == [op] && [op][..0] == [] && RunOps(s, []) == (s, []);
      assert [] + Apply(s, op).1 == Apply(s, op).1 && Apply(s, op).1 + [] == Apply(s, op).1;
    } else {
      var n := |ops| - 1;
      var all := [op] + ops;
      assert all[..|all| - 1] == [op] + ops[..n] && all[|all| - 1] == ops[n];
      OpsAfter(s, op, ops[..n]);
      var (t, now) := Apply(s, op);
      var (u, later) := RunOps(t, ops[..n]);
      var (v, last) := Apply(u, ops[n]);
      assert now + later + last == now + (later + last);
    }
  }

  lemma NothingTold(h: Handler)
    ensures ToldTo([], h) == []
  {
  }

  lemma FileIsWatched(s: File, h: Handler)
    requires ValidFile(s) && h in s.handlers
    ensures s.loop.Some?
  {
  }

  /** Who is not registered is told nothing. */
  lemma {:induction false} OthersAreNotTold(s: File, ops: seq<Op>, h: Handler)
    requires ValidFile(s) && AllAllowed(s, ops) && h !in s.handlers && Add(h) !in ops
    ensures var (t, told) := RunOps(s, ops); ValidFile(t) && h !in t.handlers && ToldTo(told, h) == []
  {
    hide Apply, ToldTo, Allowed, ValidFile;
    NothingTold(h);
    if ops != [] {
      var n := |ops| - 1;
      forall i | 0 <= i < n ensures Allowed(RunOps(s, ops[..n][..i]).0, ops[..n][i]) {
        assert ops[..n][..i] == ops[..i];
      }
      assert forall op :: op in ops[..n] ==> op in ops;
      OthersAreNotTold(s, ops[..n], h);
      var (t, before) := RunOps(s, ops[..n]);
      assert Allowed(t, ops[n]) && ops[n] in ops;
      ApplyKeepsValid(t, ops[n]);
      ApplyOmits(t, ops[n], h);
      ToldConcat(before, Apply(t, ops[n]).1, h);
    }
  }

  lemma ApplyOmits(s: File, op: Op, h: Handler)
    requires ValidFile(s) && Allowed(s, op) && h !in s.handlers && op != Add(h)
    ensures h !in Apply(s, op).0.handlers && ToldTo(Apply(s, op).1, h) == []
  {
    hide CallOrder, Deliver, ToldTo, InCallOrder;
    NothingTold(h);
    match op
    case PollFile(p) =>
      if s.loop.Some? {
        var events := Round(s.loop.value, p).1;
        CallOrderSound(s.handlers);
        assert h !in CallOrder(s.handlers) by { SameElements(s.handlers, CallOrder(s.handlers)); }
        ToldOnce(CallOrder(s.handlers), events, h);
      }
    case Add(_) =>
    case Remove(id) =>
      var i := PlaceOf(s.handlers, id);
      if i < |s.handlers| { OthersStay(s.handlers, i); }
    case RemoveAll =>
  }
}
