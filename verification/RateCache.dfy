/**
 Exchange rates behind an expiring cache (pkg/currency/cache.go and pkg/currency/converter.go):
 lookups, double-checked fetches and expiry sweeps in any interleaving.
 */
module RateCache {
  import opened Results

  type Rates = map<string, real>

  datatype Entry = Entry(rates: Rates, fetchedAt: int, validUntil: int)

  type Cache = map<string, Entry>

  /* ---------- the cache ---------- */

  /** What a lookup finds: an entry whose time is not over. */
  function Lookup(data: Cache, base: string, now: int): Option<Entry> {
    if base in data && now <= data[base].validUntil then Some(data[base]) else None
  }

  /** What a sweep leaves. */
  function Swept(data: Cache, now: int): Cache {
    map base | base in data && now <= data[base].validUntil :: data[base]
  }

  function Stored(data: Cache, base: string, rates: Rates, fetchedAt: int, ttl: int): Cache {
    data[base := Entry(rates, fetchedAt, fetchedAt + ttl)]
  }

  class MemoryCache {
    var data: Cache
    const ttl: int

    constructor (ttl: int)
      ensures data == map[] && this.ttl == ttl
    {
      data := map[];
      this.ttl := ttl;
    }

    method Get(base: string, now: int) returns (r: Option<Entry>)
      ensures r == Lookup(data, base, now)
    {
      if base !in data {
        return None;
      }
      if now > data[base].validUntil {
        return None;
      }
      return Some(data[base]);
    }

    method Set(base: string, rates: Rates, fetchedAt: int)
      modifies this
      ensures data == Stored(old(data), base, rates, fetchedAt, ttl)
    {
      data := data[base := Entry(rates, fetchedAt, fetchedAt + ttl)];
    }

    method RemoveExpired(now: int)
      modifies this
      ensures data == Swept(old(data), now)
    {
      var todo := data.Keys;
      while todo != {}
        invariant todo <= old(data).Keys
        invariant data == map b | b in old(data) && (b in todo || now <= old(data)[b].validUntil) :: old(data)[b]
        decreases todo
      {
        var base :| base in todo;
        if now > data[base].validUntil {
          data := data - {base};
        }
        todo := todo - {base};
      }
    }
  }

  /** A sweep leaves what is in time and nothing else, and is never noticed by a later lookup. */
  lemma SweepUnnoticed(data: Cache, base: string, swept: int, now: int)
    requires swept <= now
    ensures Lookup(Swept(data, swept), base, now) == Lookup(data, base, now)
    ensures base in Swept(data, swept) <==> base in data && swept <= data[base].validUntil
  {
  }

  /* ---------- callers ---------- */

  /** Where a call of GetRate is. */
  datatype Call =
    | Idle
    | Missed(base: string, to: string)                          // the first lookup did not serve it
    | Holding(base: string, to: string)                         // it holds the converter's lock
    | Fetching(base: string, to: string)                        // its second lookup found nothing
    | Storing(base: string, to: string, rates: Rates, fetchedAt: int)   // the fetch succeeded

  type ThreadId = nat

  datatype Fetch = Fetch(base: string, at: int, rates: Rates)

  /** What a caller was answered: the rate, or that there is none for the currency; with the time the rates were
      fetched and the time they were looked up or fetched. */
  datatype Answer = Answer(base: string, to: string, rate: Option<real>, fetchedAt: int, readAt: int)

  function RateIn(rates: Rates, to: string): Option<real> { if to in rates then Some(rates[to]) else None }

  datatype State = State(
    now: int,
    data: Cache,
    lock: Option<ThreadId>,
    calls: map<ThreadId, Call>,
    fetches: seq<Fetch>,        // every successful fetch so far
    answers: seq<Answer>)       // every answer given so far, apart from failed fetches

  datatype Step =
    | Tick(later: int)
    | Begin(tid: ThreadId, base: string, to: string)
    | Acquire(tid: ThreadId)
    | Recheck(tid: ThreadId)
    | FetchFails(tid: ThreadId)
    | FetchSucceeds(tid: ThreadId, rates: Rates)
    | Store(tid: ThreadId)
    | Sweep

  function CallOf(s: State, tid: ThreadId): Call { if tid in s.calls then s.calls[tid] else Idle }

  function At(s: State, tid: ThreadId, c: Call): State { s.(calls := s.calls[tid := c]) }

  function Answered(s: State, base: string, to: string, rates: Rates, fetchedAt: int, readAt: int): State {
    s.(answers := s.answers + [Answer(base, to, RateIn(rates, to), fetchedAt, readAt)])
  }

  predicate Enabled(s: State, step: Step) {
    match step
    case Tick(later) => s.now <= later
    case Begin(tid, base, to) => CallOf(s, tid).Idle?
    case Acquire(tid) => CallOf(s, tid).Missed? && s.lock.None?
    case Recheck(tid) => CallOf(s, tid).Holding?
    case FetchFails(tid) => CallOf(s, tid).Fetching?
    case FetchSucceeds(tid, _) => CallOf(s, tid).Fetching?
    case Store(tid) => CallOf(s, tid).Storing?
    case Sweep => true
  }

  function Apply(s: State, step: Step, ttl: int): State
    requires Enabled(s, step)
  {
    match step
    case Tick(later) => s.(now := later)
    case Begin(tid, base, to) =>
      var e := Lookup(s.data, base, s.now);
      if e.Some? && to in e.value.rates then Answered(s, base, to, e.value.rates, e.value.fetchedAt, s.now)
      else At(s, tid, Missed(base, to))
    case Acquire(tid) => At(s, tid, Holding(CallOf(s, tid).base, CallOf(s, tid).to)).(lock := Some(tid))
    case Recheck(tid) =>
      var c := CallOf(s, tid);
      var e := Lookup(s.data, c.base, s.now);
      if e.Some? then Answered(At(s, tid, Idle).(lock := None), c.base, c.to, e.value.rates, e.value.fetchedAt, s.now)
      else At(s, tid, Fetching(c.base, c.to))
    case FetchFails(tid) => At(s, tid, Idle).(lock := None)
    case FetchSucceeds(tid, rates) =>
      var c := CallOf(s, tid);
      At(s, tid, Storing(c.base, c.to, rates, s.now)).(fetches := s.fetches + [Fetch(c.base, s.now, rates)])
    case Store(tid) =>
      var c := CallOf(s, tid);
      Answered(At(s, tid, Idle).(lock := None, data := Stored(s.data, c.base, c.rates, c.fetchedAt, ttl)),
               c.base, c.to, c.rates, c.fetchedAt, c.fetchedAt)
    case Sweep => s.(data := Swept(s.data, s.now))
  }

  function Initial(now: int): State { State(now, map[], None, map[], [], []) }

  ghost predicate Next(s: State, t: State, ttl: int) {
    exists step :: Enabled(s, step) && t == Apply(s, step, ttl)
  }

  ghost predicate IsRun(run: seq<State>, ttl: int) {
    run != [] && (exists now :: run[0] == Initial(now)) && forall i :: 0 <= i < |run| - 1 ==>
      Next(run[i], run[i + 1], ttl)
  }

  /* ---------- the invariant ---------- */

  /** A call in the part of GetRate that the converter's lock protects. */
  predicate Inside(c: Call) { c.Holding? || c.Fetching? || c.Storing? }

  ghost predicate Locked(s: State) {
    forall tid: ThreadId :: Inside(CallOf(s, tid)) <==> s.lock == Some(tid)
  }

  /** Nothing fetched for the base is still in time. */
  ghost predicate AllOver(s: State, base: string, ttl: int) {
    forall i :: 0 <= i < |s.fetches| && s.fetches[i].base == base ==> s.fetches[i].at + ttl < s.now
  }

  /** A fetch that is in time is in the cache, or about to be. */
  ghost predicate Remembered(s: State, f: Fetch, ttl: int) {
    || f.at + ttl < s.now
    || (f.base in s.data && s.data[f.base].fetchedAt == f.at)
    || (exists tid: ThreadId :: StoringFetch(s, tid, f))
  }

  predicate StoringFetch(s: State, tid: ThreadId, f: Fetch) {
    var c := CallOf(s, tid);
    c.Storing? && c.base == f.base && c.fetchedAt == f.at
  }

  /** The cache holds fetched rates, each with its own expiry. */
  ghost predicate Backed(s: State, ttl: int) {
    forall b :: b in s.data ==>
      s.data[b].validUntil == s.data[b].fetchedAt + ttl && Fetch(b, s.data[b].fetchedAt, s.data[b].rates) in s.fetches
  }

  /** Who is about to fetch has nothing in time to lose; who is about to store holds the latest fetch. */
  ghost predicate Ordered(s: State, tid: ThreadId, ttl: int) {
    var c := CallOf(s, tid);
    && (c.Fetching? ==> AllOver(s, c.base, ttl))
    && (c.Storing? ==> s.fetches != [] && s.fetches[|s.fetches| - 1] == Fetch(c.base, c.fetchedAt, c.rates))
  }

  ghost predicate Known(s: State, ttl: int) {
    forall i :: 0 <= i < |s.fetches| ==> s.fetches[i].at <= s.now && Remembered(s, s.fetches[i], ttl)
  }

  ghost predicate Inv(s: State, ttl: int) {
    && Locked(s)
    && Backed(s, ttl)
    && (forall tid: ThreadId :: Ordered(s, tid, ttl))
    && Known(s, ttl)
    && Apart(s, ttl)
    && InTime(s, ttl)
  }

  /** Two fetches for one base are more than one lifetime apart. */
  ghost predicate Apart(s: State, ttl: int) {
    forall i, j :: 0 <= i < j < |s.fetches| && s.fetches[i].base == s.fetches[j].base ==>
      s.fetches[i].at + ttl < s.fetches[j].at
  }

  /** The answer is what the fetch it names gave for the currency. */
  ghost predicate Given(a: Answer, fetches: seq<Fetch>) {
    exists i :: 0 <= i < |fetches| && fetches[i].base == a.base && fetches[i].at == a.fetchedAt
      && a.rate == if a.to in fetches[i].rates then Some(fetches[i].rates[a.to]) else None
  }

  /** Whatever was answered had been fetched at most one lifetime before. */
  ghost predicate InTime(s: State, ttl: int) {
    forall i :: 0 <= i < |s.answers| ==>
      && Given(s.answers[i], s.fetches)
      && s.answers[i].fetchedAt <= s.answers[i].readAt
      && (s.answers[i].readAt <= s.answers[i].fetchedAt + ttl || s.answers[i].readAt == s.answers[i].fetchedAt)
  }

  /** Every fetch stays remembered through every step. */
  lemma StaysRemembered(s: State, step: Step, ttl: int, f: Fetch)
    requires Inv(s, ttl) && Enabled(s, step) && f in s.fetches
    ensures Remembered(Apply(s, step, ttl), f, ttl)
  {
    hide Locked, Backed, InTime, AllOver, Apart, Ordered, Lookup, Swept, Stored;
    var t := Apply(s, step, ttl);
    assert Remembered(s, f, ttl);
    if f.at + ttl < s.now {
    } else if f.base in s.data && s.data[f.base].fetchedAt == f.at {
      StaysCached(s, step, ttl, f);
    } else {
      var tid: ThreadId :| StoringFetch(s, tid, f);
      if step.Store? && step.tid == tid {
        assert t.data == Stored(s.data, f.base, CallOf(s, tid).rates, f.at, ttl);
        StoredIsThere(s.data, f.base, CallOf(s, tid).rates, f.at, ttl);
      } else {
        assert StoringFetch(t, tid, f);
      }
    }
  }

  lemma StoredIsThere(data: Cache, base: string, rates: Rates, fetchedAt: int, ttl: int)
    ensures var t := Stored(data, base, rates, fetchedAt, ttl); base in t && t[base].fetchedAt == fetchedAt
  {
  }

  /** What is cached and in time is neither swept nor replaced by another fetch. */
  lemma StaysCached(s: State, step: Step, ttl: int, f: Fetch)
    requires Inv(s, ttl) && Enabled(s, step) && f in s.fetches && f.at + ttl >= s.now
    requires f.base in s.data && s.data[f.base].fetchedAt == f.at
    ensures var t := Apply(s, step, ttl); f.base in t.data && t.data[f.base].fetchedAt == f.at
  {
    hide Locked, InTime, AllOver, Apart, Known, Lookup;
    if step.Store? {
      assert Ordered(s, step.tid, ttl);
      if CallOf(s, step.tid).base == f.base { LastFetch(s, ttl, f); }
    }
  }

  /** A fetch that is in time is the last for its base. */
  lemma LastFetch(s: State, ttl: int, f: Fetch)
    requires Inv(s, ttl) && f in s.fetches && f.at + ttl >= s.now && s.fetches[|s.fetches| - 1].base == f.base
    ensures f == s.fetches[|s.fetches| - 1]
  {
    var i :| 0 <= i < |s.fetches| && s.fetches[i] == f;
  }

  lemma StaysGiven(a: Answer, fetches: seq<Fetch>, more: seq<Fetch>)
    requires Given(a, fetches) && fetches <= more
    ensures Given(a, more)
  {
    var i :| 0 <= i < |fetches| && fetches[i].base == a.base && fetches[i].at == a.fetchedAt && a.rate == RateIn(fetches[i].rates, a.to);
    assert more[i] == fetches[i];
  }

  lemma LastIsGiven(fetches: seq<Fetch>, to: string, readAt: int)
    requires fetches != []
    ensures var f := fetches[|fetches| - 1]; Given(Answer(f.base, to, RateIn(f.rates, to), f.at, readAt), fetches)
  {
  }

  /** A lookup serves only what was fetched within one lifetime. */
  lemma ServedInTime(s: State, ttl: int, base: string, to: string)
    requires Inv(s, ttl) && Lookup(s.data, base, s.now).Some?
    ensures var e := Lookup(s.data, base, s.now).value;
            Given(Answer(base, to, RateIn(e.rates, to), e.fetchedAt, s.now), s.fetches) && e.fetchedAt <= s.now <= e.fetchedAt + ttl
  {
    hide Locked, InTime, Ordered, Apart;
    var f := Fetch(base, s.data[base].fetchedAt, s.data[base].rates);
    var i :| 0 <= i < |s.fetches| && s.fetches[i] == f;
  }

  /** A second lookup that finds nothing means that everything fetched for the base is over. */
  lemma MissMeansOver(s: State, ttl: int, tid: ThreadId, base: string)
    requires Inv(s, ttl) && CallOf(s, tid).Holding? && Lookup(s.data, base, s.now).None?
    ensures AllOver(s, base, ttl)
  {
    forall i | 0 <= i < |s.fetches| && s.fetches[i].base == base ensures s.fetches[i].at + ttl < s.now {
      var f := s.fetches[i];
      assert Remembered(s, f, ttl);
      forall other: ThreadId ensures !StoringFetch(s, other, f) {
        assert Inside(CallOf(s, tid)) && s.lock == Some(tid);
      }
    }
  }

  lemma StepKeepsInv(s: State, step: Step, ttl: int)
    requires Inv(s, ttl) && Enabled(s, step)
    ensures Inv(Apply(s, step, ttl), ttl)
  {
    hide Enabled, Apply, Locked, Backed, Ordered, Known, Apart, InTime;
    StaysLocked(s, step, ttl);
    StaysBacked(s, step, ttl);
    forall tid: ThreadId ensures Ordered(Apply(s, step, ttl), tid, ttl) { StaysOrdered(s, step, ttl, tid); }
    StaysKnown(s, step, ttl);
    FetchesStayApart(s, step, ttl);
    ServesStayInTime(s, step, ttl);
  }

  lemma StaysLocked(s: State, step: Step, ttl: int)
    requires Locked(s) && Enabled(s, step)
    ensures Locked(Apply(s, step, ttl))
  {
  }

  lemma StaysBacked(s: State, step: Step, ttl: int)
    requires Backed(s, ttl) && Enabled(s, step) && forall tid: ThreadId :: Ordered(s, tid, ttl)
    ensures Backed(Apply(s, step, ttl), ttl)
  {
    hide Locked, AllOver, Lookup;
    if step.Store? { assert Ordered(s, step.tid, ttl); }
  }

  lemma StaysOrdered(s: State, step: Step, ttl: int, tid: ThreadId)
    requires Inv(s, ttl) && Enabled(s, step)
    ensures Ordered(Apply(s, step, ttl), tid, ttl)
  {
    hide Known, Apart, InTime, Backed, Swept, Stored;
    assert Ordered(s, tid, ttl);
    if step.Recheck? && step.tid == tid && Lookup(s.data, CallOf(s, tid).base, s.now).None? {
      MissMeansOver(s, ttl, tid, CallOf(s, tid).base);
    }
  }

  lemma StaysKnown(s: State, step: Step, ttl: int)
    requires Inv(s, ttl) && Enabled(s, step)
    ensures Known(Apply(s, step, ttl), ttl)
  {
    hide Remembered, Swept, Stored, Lookup, Apart, InTime, Backed, Locked, Ordered;
    var t := Apply(s, step, ttl);
    forall f | f in s.fetches ensures Remembered(t, f, ttl) { StaysRemembered(s, step, ttl, f); }
    if step.FetchSucceeds? {
      StoringRemembers(t, step.tid, Fetch(CallOf(s, step.tid).base, s.now, step.rates), ttl);
    }
  }

  lemma FetchesStayApart(s: State, step: Step, ttl: int)
    requires Inv(s, ttl) && Enabled(s, step)
    ensures Apart(Apply(s, step, ttl), ttl)
  {
    hide Known, InTime, Backed, Locked, Swept, Stored, Lookup;
    if step.FetchSucceeds? { assert Ordered(s, step.tid, ttl); }
  }

  lemma ServesStayInTime(s: State, step: Step, ttl: int)
    requires Inv(s, ttl) && Enabled(s, step)
    ensures InTime(Apply(s, step, ttl), ttl)
  {
    hide Known, Backed, Locked, Apart, Swept, Stored, Lookup, Given, AllOver;
    forall a | Given(a, s.fetches) ensures Given(a, Apply(s, step, ttl).fetches) {
      StaysGiven(a, s.fetches, Apply(s, step, ttl).fetches);
    }
    if step.Begin? && Lookup(s.data, step.base, s.now).Some? {
      ServedInTime(s, ttl, step.base, step.to);
    }
    if step.Recheck? && Lookup(s.data, CallOf(s, step.tid).base, s.now).Some? {
      ServedInTime(s, ttl, CallOf(s, step.tid).base, CallOf(s, step.tid).to);
    }
    if step.Store? {
      assert Ordered(s, step.tid, ttl);
      var c := CallOf(s, step.tid);
      LastIsGiven(s.fetches, c.to, c.fetchedAt);
    }
  }

  lemma StoringRemembers(s: State, tid: ThreadId, f: Fetch, ttl: int)
    requires StoringFetch(s, tid, f)
    ensures Remembered(s, f, ttl)
  {
  }

  lemma {:induction false} RunKeepsInv(run: seq<State>, ttl: int, i: nat)
    requires IsRun(run, ttl) && i < |run|
    ensures Inv(run[i], ttl)
  {
    if i > 0 {
      RunKeepsInv(run, ttl, i - 1);
      assert Next(run[i - 1], run[i], ttl);
      var step :| Enabled(run[i - 1], step) && run[i] == Apply(run[i - 1], step, ttl);
      StepKeepsInv(run[i - 1], step, ttl);
    }
  }

  /** In every run: successful fetches for one base currency are more than one lifetime apart. */
  lemma FetchesAreApart(run: seq<State>, ttl: int, n: nat, i: nat, j: nat)
    requires IsRun(run, ttl) && n < |run| && i < j < |run[n].fetches|
             && run[n].fetches[i].base == run[n].fetches[j].base
    ensures run[n].fetches[i].at + ttl < run[n].fetches[j].at
  {
    RunKeepsInv(run, ttl, n);
  }

  /** In every run: what is answered is what a fetch gave for the currency, just now or at most one lifetime before. */
  lemma AnswersAreFresh(run: seq<State>, ttl: int, n: nat, i: nat)
    requires IsRun(run, ttl) && n < |run| && i < |run[n].answers|
    ensures var a := run[n].answers[i];
            && Given(a, run[n].fetches)
            && (a.readAt == a.fetchedAt || a.fetchedAt <= a.readAt <= a.fetchedAt + ttl)
  {
    RunKeepsInv(run, ttl, n);
  }

  /** A fetch that is in time and stored answers every caller it has the rate for, at the first lookup. */
  lemma FetchIsServed(s: State, ttl: int, f: Fetch, tid: ThreadId, to: string)
    requires Inv(s, ttl) && f in s.fetches && s.now <= f.at + ttl && to in f.rates && CallOf(s, tid).Idle?
    requires forall other: ThreadId :: !StoringFetch(s, other, f)
    ensures Enabled(s, Begin(tid, f.base, to))
    ensures Apply(s, Begin(tid, f.base, to), ttl)
            == s.(answers := s.answers + [Answer(f.base, to, Some(f.rates[to]), f.at, s.now)])
  {
    hide Locked, InTime, Ordered;
    assert Remembered(s, f, ttl);
    var e := s.data[f.base];
    var g := Fetch(f.base, e.fetchedAt, e.rates);
    var i :| 0 <= i < |s.fetches| && s.fetches[i] == f;
    var j :| 0 <= j < |s.fetches| && s.fetches[j] == g;
  }

  /** The first lookup answers only with the rate of a fetch that is in time; whoever is not answered goes for the
      lock. */
  lemma FirstLookup(s: State, ttl: int, tid: ThreadId, base: string, to: string)
    requires Inv(s, ttl) && CallOf(s, tid).Idle?
    ensures var t := Apply(s, Begin(tid, base, to), ttl);
            if CallOf(t, tid).Idle? then
              exists f :: f in s.fetches && f.base == base && f.at <= s.now <= f.at + ttl && to in f.rates
                && t.answers == s.answers + [Answer(base, to, Some(f.rates[to]), f.at, s.now)]
            else t.answers == s.answers && CallOf(t, tid) == Missed(base, to)
  {
    hide Locked, InTime, Ordered, Apart, Remembered;
    if base in s.data {
      var f := Fetch(base, s.data[base].fetchedAt, s.data[base].rates);
      assert f in s.fetches;
      var i :| 0 <= i < |s.fetches| && s.fetches[i] == f;
    }
  }

  /** In every run: the lock lets one caller at a time between its second lookup and its store. */
  lemma OneCallerInside(run: seq<State>, ttl: int, n: nat, a: ThreadId, b: ThreadId)
    requires IsRun(run, ttl) && n < |run| && Inside(CallOf(run[n], a)) && Inside(CallOf(run[n], b))
    ensures a == b
  {
    RunKeepsInv(run, ttl, n);
  }
}
