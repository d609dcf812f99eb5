/**
 The windows a cloud-cost ingestor works through (pkg/cloudcost/ingestor.go): backwards from now
 when it builds its store, forwards from the last run when it updates it.
 */
module IngestorWindows {
  import opened Times
  import opened Results

  /** A day, in seconds. */
  const DAY: int := 86400

  datatype Config = Config(
    monthToDateRunInterval: int,
    resolution: int,
    duration: int,
    queryWindow: int,
    runWindow: int)

  ghost predicate Usable(config: Config) {
    config.resolution > 0 && config.queryWindow > 0 && config.monthToDateRunInterval > 0 && config.runWindow >= 0
  }

  predicate Midnight(t: int) { t % DAY == 0 }

  /** What the environment's settings amount to: whole numbers of days. */
  predicate WholeDays(config: Config) {
    config.resolution > 0 && Midnight(config.resolution) && Midnight(config.queryWindow)
  }

  function RoundBack(t: int, resolution: int): (r: int)
    requires resolution > 0
    ensures r <= t < r + resolution && r % resolution == 0
  {
    RemainderGone(t, resolution);
    t - t % resolution
  }

  lemma RemainderGone(t: int, m: int)
    requires m > 0
    ensures (t - t % m) % m == 0
  {
    assert t == m * (t / m) + t % m;
    assert t - t % m == m * (t / m);
    MultipleOf(m, t / m);
  }

  lemma MultipleOf(m: int, k: int)
    requires m > 0
    ensures (m * k) % m == 0
  {
    assert m * k == m * ((m * k) / m) + (m * k) % m;
    var r := k - (m * k) / m;
    assert (r >= 1 ==> m * r >= m) && (r <= -1 ==> m * r <= -m);
    assert m * r == (m * k) % m;
  }

  function RoundForward(t: int, resolution: int): (r: int)
    requires resolution > 0
    ensures t <= r < t + resolution && r % resolution == 0
  {
    var back := RoundBack(t, resolution);
    NextMultiple(back, resolution);
    if back == t then t else back + resolution
  }

  lemma NextMultiple(a: int, m: int)
    requires m > 0 && a % m == 0
    ensures (a + m) % m == 0
  {
    assert a == m * (a / m) + a % m;
    assert a + m == m * (a / m + 1);
    MultipleOf(m, a / m + 1);
  }

  /* ---------- the tilings ---------- */

  /** Neighbouring windows share an endpoint: no gap and no overlap. */
  ghost predicate Contiguous(ws: seq<Window>) {
    && (forall i :: 0 <= i < |ws| ==> ws[i].start < ws[i].end)
    && (forall i :: 0 <= i < |ws| - 1 ==> ws[i].end == ws[i + 1].start)
  }

  ghost predicate ContiguousBack(ws: seq<Window>) {
    && (forall i :: 0 <= i < |ws| ==> ws[i].start < ws[i].end)
    && (forall i :: 0 <= i < |ws| - 1 ==> ws[i].start == ws[i + 1].end)
  }

  /** The number of windows of length `w` it takes to cover a span. */
  function Ceil(span: int, w: int): nat
    requires w > 0
  {
    if span <= 0 then 0 else (span + w - 1) / w
  }

  lemma CeilStep(span: int, w: int)
    requires w > 0 && span > 0
    ensures Ceil(span, w) == 1 + Ceil(span - w, w)
  {
    if span > w {
      assert span + w - 1 == (span - w + w - 1) + w;
      DivStep(span - 1, w);
    } else {
      assert w <= span + w - 1 < w + w;
      DivOne(span + w - 1, w);
    }
  }

  lemma DivStep(a: int, w: int)
    requires w > 0
    ensures (a + w) / w == a / w + 1
  {
    var q := (a + w) / w - a / w - 1;
    assert a == w * (a / w) + a % w;
    assert a + w == w * ((a + w) / w) + (a + w) % w;
    assert (q >= 1 ==> w * q >= w) && (q <= -1 ==> w * q <= -w);
    assert w * q == a % w - (a + w) % w;
  }

  lemma DivOne(a: int, w: int)
    requires 0 < w <= a < w + w
    ensures a / w == 1
  {
    DivStep(a - w, w);
    assert 0 <= a - w < w;
    DivSmall(a - w, w);
  }

  lemma DivSmall(a: int, w: int)
    requires 0 <= a < w
    ensures a / w == 0
  {
  }

  /** What building the store visits: newest first, down to `limit`, and only the first window may
      reach back past it. */
  ghost predicate TilesBack(ws: seq<Window>, limit: int, top: int, w: int)
    requires w > 0
  {
    && ContiguousBack(ws)
    && |ws| == Ceil(top - limit, w)
    && (limit < top ==>
          && ws != [] && ws[0] == Window(top - w, top)
          && ws[|ws| - 1].start == (if top - w < limit then top - w else limit)
          && forall i :: 1 <= i < |ws| ==> limit <= ws[i].start)
  }

  /** Neighbouring windows from `top` down. */
  ghost predicate StartsBack(ws: seq<Window>, top: int, w: int) {
    ContiguousBack(ws) && (ws != [] ==> ws[0] == Window(top - w, top))
  }

  /** What a run visits: from `bottom` to `now`, and only the first window may end past `now` rounded forward. */
  ghost predicate TilesForward(ws: seq<Window>, bottom: int, now: int, w: int, resolution: int)
    requires w > 0 && resolution > 0
  {
    && Contiguous(ws)
    && |ws| == Ceil(now - bottom, w)
    && (bottom < now ==>
          && ws != [] && ws[0] == Window(bottom, bottom + w)
          && now <= ws[|ws| - 1].end
          && forall i :: 1 <= i < |ws| ==> ws[i].end <= RoundForward(now, resolution))
  }

  /** Some window of the tiling holds `t`. */
  ghost predicate Visited(ws: seq<Window>, t: int) {
    exists i :: 0 <= i < |ws| && ws[i].start <= t < ws[i].end
  }

  lemma {:induction false} TilesBackCover(ws: seq<Window>, t: int)
    requires ContiguousBack(ws) && ws != [] && ws[|ws| - 1].start <= t < ws[0].end
    ensures Visited(ws, t)
  {
    if ws[0].start <= t {
    } else {
      assert |ws| > 1 && ws[0].start == ws[1].end;
      forall i | 0 <= i < |ws[1..]| - 1 ensures ws[1..][i].start == ws[1..][i + 1].end {
        assert ws[i + 1].start == ws[i + 2].end;
      }
      TilesBackCover(ws[1..], t);
      var i :| 0 <= i < |ws[1..]| && ws[1..][i].start <= t < ws[1..][i].end;
      assert ws[i + 1].start <= t < ws[i + 1].end;
    }
  }

  lemma {:induction false} TilesForwardCover(ws: seq<Window>, t: int)
    requires Contiguous(ws) && ws != [] && ws[0].start <= t < ws[|ws| - 1].end
    ensures Visited(ws, t)
  {
    if t < ws[0].end {
    } else {
      assert |ws| > 1 && ws[0].end == ws[1].start;
      forall i | 0 <= i < |ws[1..]| - 1 ensures ws[1..][i].end == ws[1..][i + 1].start {
        assert ws[i + 1].end == ws[i + 2].start;
      }
      TilesForwardCover(ws[1..], t);
      var i :| 0 <= i < |ws[1..]| && ws[1..][i].start <= t < ws[1..][i].end;
      assert ws[i + 1].start <= t < ws[i + 1].end;
    }
  }

  /** No instant is visited twice. */
  lemma TilesForwardOnce(ws: seq<Window>, i: nat, j: nat)
    requires Contiguous(ws) && i < j < |ws|
    ensures ws[i].end <= ws[j].start
    decreases j
  {
    if i + 1 < j {
      TilesForwardOnce(ws, i, j - 1);
      assert ws[j - 1].end == ws[j].start;
    } else {
      assert ws[i].end == ws[i + 1].start;
    }
  }

  /* ---------- the provider and the store ---------- */

  /** What the provider and the repository answer: the cost sets for a window, by the day each covers, where None is
      an error; and the days at which the repository fails. A failed Has reports nothing there. */
  datatype Outside = Outside(fetch: Window -> Option<seq<Window>>, putFails: int -> bool, hasFails: int -> bool, expireFails: bool)

  /** Whatever window around the day is asked for, the provider delivers that day's set, and the repository takes it. */
  ghost predicate Served(out: Outside, d: int) {
    && !out.putFails(d)
    && forall w: Window :: w.start <= d < w.end ==> out.fetch(w).Some? && Window(d, d + DAY) in out.fetch(w).value
  }

  function Expand(c: Window, w: Window): Window {
    Window(if w.start < c.start then w.start else c.start, if w.end > c.end then w.end else c.end)
  }

  predicate Holds(c: Window, w: Window) { c.start <= w.start && w.end <= c.end }

  function Hull(c: Window, ws: seq<Window>): (h: Window)
    ensures Holds(h, c) && forall i :: 0 <= i < |ws| ==> Holds(h, ws[i])
  {
    if ws == [] then c else Expand(Hull(c, ws[..|ws| - 1]), ws[|ws| - 1])
  }

  /** Coverage grows no further than it must. */
  lemma {:induction false} HullIsLeast(c: Window, ws: seq<Window>, h: Window)
    requires Holds(h, c) && forall i :: 0 <= i < |ws| ==> Holds(h, ws[i])
    ensures Holds(h, Hull(c, ws))
  {
    if ws != [] { HullIsLeast(c, ws[..|ws| - 1], h); }
  }

  /** The days of sets that the repository takes. */
  function Starts(ws: seq<Window>, out: Outside): set<int> { set w | w in ws && !out.putFails(w.start) :: w.start }

  /** Seconds in whole minutes, towards zero. */
  function WholeMinutes(t: int): int { if t >= 0 then t / 60 else -(-t / 60) }

  /** As the program decides it: in whole minutes, and from a midnight. */
  predicate MadeOfDays(start: int, end: int) {
    WholeMinutes(end - start) % (DAY / 60) == 0 && Midnight(start)
  }

  predicate AreDays(days: seq<Window>, start: int, end: int) {
    && |days| == (if start <= end then (end - start) / DAY else 0)
    && forall i :: 0 <= i < |days| ==> days[i] == Window(start + i * DAY, start + i * DAY + DAY)
  }

  /** opencost.GetWindows for days: the days of a range, if it is made of whole days. */
  method GetDays(start: int, end: int) returns (days: Option<seq<Window>>)
    ensures days.Some? <==> MadeOfDays(start, end)
    ensures days.Some? ==> AreDays(days.value, start, end)
  {
    if WholeMinutes(end - start) % (DAY / 60) != 0 || start != RoundBack(start, DAY) {
      return None;
    }
    var ws: seq<Window> := [];
    var s, e := start, start + DAY;
    while e <= end
      invariant s == start + |ws| * DAY && e == s + DAY && (s <= end || ws == [])
      invariant forall i :: 0 <= i < |ws| ==> ws[i] == Window(start + i * DAY, start + i * DAY + DAY)
      decreases end - e
    {
      ws := ws + [Window(s, e)];
      s := s + DAY;
      e := e + DAY;
    }
    return Some(ws);
  }

  /* ---------- what build and run do to the store and the coverage they share ---------- */

  datatype Shared = Shared(store: set<int>, coverage: Window)

  /** The accesses of the two workers, each under a lock of its own. */
  datatype Action = PutDay(day: int) | Cover(window: Window) | ExpireBefore(limit: int) | ContractTo(limit: int)

  function Act(s: Shared, a: Action): Shared {
    match a
    case PutDay(d) => s.(store := s.store + {d})
    case Cover(w) => s.(coverage := Expand(s.coverage, w))
    case ExpireBefore(limit) => s.(store := set d | d in s.store && limit <= d)
    case ContractTo(limit) =>
      s.(coverage := Window(if limit > s.coverage.start then limit else s.coverage.start, s.coverage.end))
  }

  function Acts(s: Shared, actions: seq<Action>): Shared {
    if actions == [] then s else Act(Acts(s, actions[..|actions| - 1]), actions[|actions| - 1])
  }

  predicate Held(s: Shared, d: int) { d in s.store && Holds(s.coverage, Window(d, d + DAY)) }

  /** The action does not expire the day. */
  predicate Spares(a: Action, d: int) {
    (a.ExpireBefore? || a.ContractTo?) ==> a.limit <= d
  }

  lemma {:induction false} ActsConcat(s: Shared, a: seq<Action>, b: seq<Action>)
    ensures Acts(s, a + b) == Acts(Acts(s, a), b)
  {
    hide Act;
    if b == [] {
      assert a + b == a;
    } else {
      assert (a + b)[..|a + b| - 1] == a + b[..|b| - 1];
      ActsConcat(s, a, b[..|b| - 1]);
    }
  }

  /** In any interleaving of builds and runs, a day that is stored stays stored, and one that is covered stays covered,
      until a run whose limit lies after it. */
  lemma {:induction false} DaysStay(s: Shared, actions: seq<Action>, d: int)
    requires forall i :: 0 <= i < |actions| ==> Spares(actions[i], d)
    ensures d in s.store ==> d in Acts(s, actions).store
    ensures Holds(s.coverage, Window(d, d + DAY)) ==> Holds(Acts(s, actions).coverage, Window(d, d + DAY))
  {
    if actions != [] { DaysStay(s, actions[..|actions| - 1], d); }
  }

  /** So in any interleaving: once some worker has stored a day and some worker covered it, it is held for as long as no
      limit lies after it. */
  lemma BuiltDaysAreHeld(s: Shared, actions: seq<Action>, i: nat, j: nat, d: int)
    requires i < |actions| && actions[i] == PutDay(d)
    requires j < |actions| && actions[j].Cover? && Holds(actions[j].window, Window(d, d + DAY))
    requires forall k :: (i <= k < |actions| || j <= k < |actions|) ==> Spares(actions[k], d)
    ensures Held(Acts(s, actions), d)
  {
    hide Spares;
    SuffixStays(s, actions, i, d);
    SuffixStays(s, actions, j, d);
  }

  lemma SuffixStays(s: Shared, actions: seq<Action>, i: nat, d: int)
    requires i < |actions| && forall k :: i <= k < |actions| ==> Spares(actions[k], d)
    ensures actions[i] == PutDay(d) ==> d in Acts(s, actions).store
    ensures actions[i].Cover? && Holds(actions[i].window, Window(d, d + DAY)) ==>
              Holds(Acts(s, actions).coverage, Window(d, d + DAY))
  {
    hide Spares;
    var a, b := actions[..i + 1], actions[i + 1..];
    assert actions == a + b && a[..i] == actions[..i];
    ActsConcat(s, a, b);
    DaysStay(Acts(s, a), b, d);
  }

  /** What a run expires is gone, also while a build whose own limit was lower is under way. */
  lemma ExpiredIsLost(s: Shared, limit: int, d: int)
    requires d < limit
    ensures !Held(Acts(s, Expiry(limit, false)), d) && !Held(Acts(s, Expiry(limit, true)), d)
  {
    ExpiryActs(s, limit, false);
    ExpiryActs(s, limit, true);
  }

  function Expiry(limit: int, fails: bool): seq<Action> {
    if fails then [ContractTo(limit)] else [ExpireBefore(limit), ContractTo(limit)]
  }

  lemma ExpiryActs(s: Shared, limit: int, fails: bool)
    ensures Acts(s, Expiry(limit, fails)) == Act(if fails then s else Act(s, ExpireBefore(limit)), ContractTo(limit))
  {
    hide Acts, Act;
    if fails {
      ActsStep(s, [], ContractTo(limit));
      assert [] + [ContractTo(limit)] == Expiry(limit, fails);
    } else {
      ActsStep(s, [], ExpireBefore(limit));
      assert [] + [ExpireBefore(limit)] == [ExpireBefore(limit)];
      ActsStep(s, [ExpireBefore(limit)], ContractTo(limit));
      assert [ExpireBefore(limit)] + [ContractTo(limit)] == Expiry(limit, fails);
    }
  }

  lemma ActsStep(s: Shared, actions: seq<Action>, a: Action)
    ensures Acts(s, []) == s && Acts(s, actions + [a]) == Act(Acts(s, actions), a)
  {
    assert (actions + [a])[..|actions|] == actions;
  }

  /** What building a window does, for the sets the provider returns. */
  function Builds(ws: seq<Window>, out: Outside): seq<Action> {
    if ws == [] then []
    else
      var last := ws[|ws| - 1];
      Builds(ws[..|ws| - 1], out) + (if out.putFails(last.start) then [] else [PutDay(last.start)]) + [Cover(last)]
  }

  lemma BuildsNone(s: Shared, out: Outside)
    ensures Acts(s, Builds([], out)) == s
  {
  }

  lemma BuildsMore(s: Shared, ws: seq<Window>, i: nat, out: Outside)
    requires i < |ws|
    ensures Acts(s, Builds(ws[..i + 1], out))
         == Act(if out.putFails(ws[i].start) then Acts(s, Builds(ws[..i], out)) else Act(Acts(s, Builds(ws[..i], out)), PutDay(ws[i].start)), Cover(ws[i]))
  {
    assert ws[..i + 1][..i] == ws[..i];
    var before := Builds(ws[..i], out);
    if out.putFails(ws[i].start) {
      assert before + [] + [Cover(ws[i])] == before + [Cover(ws[i])];
      assert (before + [Cover(ws[i])])[..|before|] == before;
    } else {
      var put := before + [PutDay(ws[i].start)];
      assert (put + [Cover(ws[i])])[..|put|] == put && put[..|before|] == before;
    }
  }

  class Ingestor {
    const config: Config
    var store: set<int>      // the days held in the repository under this ingestor's key
    var coverage: Window
    var lastRun: int
    var runs: nat

    constructor (config: Config, now: int, store: set<int>)
      ensures this.config == config && this.store == store
      ensures lastRun == now && runs == 0
      ensures coverage == Window(RoundForward(now, DAY), RoundForward(now, DAY))
    {
      this.config := config;
      this.store := store;
      lastRun := now;
      runs := 0;
      coverage := Window(RoundForward(now, DAY), RoundForward(now, DAY));
    }

    ghost function Now(): Shared
      reads this
    {
      Shared(store, coverage)
    }

    /** The day is stored and the reported coverage includes it. */
    ghost predicate Has(d: int)
      reads this
    {
      d in store && Holds(coverage, Window(d, d + DAY))
    }

    /** Everything held and covered stays so. */
    twostate predicate Grows()
      reads this
    {
      old(store) <= store && Holds(coverage, old(coverage)) && lastRun == old(lastRun) && runs == old(runs)
    }

    method BuildWindow(w: Window, out: Outside)
      modifies this
      ensures Grows()
      ensures out.fetch(w).None? ==> store == old(store) && coverage == old(coverage)
      ensures out.fetch(w).Some? ==>
                store == old(store) + Starts(out.fetch(w).value, out)
                  && coverage == Hull(old(coverage), out.fetch(w).value)
      ensures out.fetch(w).Some? ==> Now() == Acts(old(Now()), Builds(out.fetch(w).value, out))
      ensures HasAll(out, w)
      ensures forall v :: old(HasAll(out, v)) ==> HasAll(out, v)
    {
      hide Acts, Builds;
      var sets := out.fetch(w);
      if sets.None? {
        return;
      }
      var ws := sets.value;
      BuildsNone(Now(), out);
      for i := 0 to |ws|
        invariant Now() == Acts(old(Now()), Builds(ws[..i], out))
        invariant lastRun == old(lastRun) && runs == old(runs)
        invariant store == old(store) + Starts(ws[..i], out)
        invariant coverage == Hull(old(coverage), ws[..i])
      {
        assert ws[..i + 1] == ws[..i] + [ws[i]];
        BuildsMore(old(Now()), ws, i, out);
        if !out.putFails(ws[i].start) {
          store := store + {ws[i].start};
        }
        coverage := Expand(coverage, ws[i]);
      }
      assert ws[..|ws|] == ws;
      GrowingKeeps(out);
      forall d | w.start <= d < w.end && Served(out, d) ensures Has(d) {
        assert Window(d, d + DAY) in ws;
      }
    }

    /** Every sought day of the window is held. */
    ghost predicate HasAll(out: Outside, w: Window)
      reads this
    {
      forall d :: w.start <= d < w.end && Sought(out, d) ==> Has(d)
    }

    /** Build only if a day of the window is missing, or the repository fails to tell. */
    method LoadWindow(w: Window, out: Outside) returns (fetched: bool)
      modifies this
      ensures Grows()
      ensures Midnight(w.start) && Midnight(w.end) ==> (!fetched <==> Stocked(old(store), out, w))
      ensures !fetched ==> store == old(store)
      ensures Midnight(w.start) && Midnight(w.end) ==> HasAll(out, w)
      ensures forall v :: old(HasAll(out, v)) ==> HasAll(out, v)
    {
      hide Served, HasAll, MadeOfDays, AreDays, Midnight, Stocked;
      var days := GetDays(w.start, w.end);
      if Midnight(w.start) && Midnight(w.end) {
        MidnightsMakeDays(w.start, w.end);
      }
      if days.None? {
        GrowingKeeps(out);
        return false;
      }
      var ds := days.value;
      for i := 0 to |ds|
        invariant store == old(store) && lastRun == old(lastRun) && runs == old(runs)
        invariant Holds(coverage, old(coverage))
        invariant forall k :: 0 <= k < i ==> Has(ds[k].start) && !out.hasFails(ds[k].start)
      {
        if out.hasFails(ds[i].start) || ds[i].start !in store {
          if Midnight(w.start) && Midnight(w.end) { NotStocked(ds, w, store, out, i); }
          BuildWindow(w, out);
          GrowingKeeps(out);
          return true;
        }
        coverage := Expand(coverage, ds[i]);
      }
      GrowingKeeps(out);
      if Midnight(w.start) && Midnight(w.end) {
        AllDaysHeld(ds, w, out);
        AllStocked(ds, w, store, out);
      }
      return false;
    }

    twostate lemma GrowingKeeps(out: Outside)
      requires Grows()
      ensures forall v :: old(HasAll(out, v)) ==> HasAll(out, v)
    {
      hide Sought;
    }

    lemma AllDaysHeld(days: seq<Window>, w: Window, out: Outside)
      requires AreDays(days, w.start, w.end) && Midnight(w.start) && Midnight(w.end)
      requires forall k :: 0 <= k < |days| ==> Has(days[k].start)
      ensures HasAll(out, w)
    {
      hide Served;
      forall d | w.start <= d < w.end && Sought(out, d) ensures Has(d) {
        DayIndex(w.start, w.end, d);
        assert Has(days[(d - w.start) / DAY].start);
      }
    }

    /** What the build loop does with one window. */
    method VisitWindow(rebuild: bool, w: Window, out: Outside) returns (fetched: bool)
      modifies this
      ensures Grows()
      ensures rebuild ==> fetched
      ensures !rebuild && Midnight(w.start) && Midnight(w.end) ==> (!fetched <==> Stocked(old(store), out, w))
      ensures rebuild || (Midnight(w.start) && Midnight(w.end)) ==> HasAll(out, w)
      ensures forall v :: old(HasAll(out, v)) ==> HasAll(out, v)
    {
      if rebuild {
        BuildWindow(w, out);
        fetched := true;
      } else {
        fetched := LoadWindow(w, out);
      }
    }

    lemma TilingHasAll(out: Outside, visited: seq<Window>, limit: int, top: int, w: int)
      requires w > 0 && TilesBack(visited, limit, top, w)
      requires forall i :: 0 <= i < |visited| ==> HasAll(out, visited[i])
      ensures HasAll(out, Window(limit, top))
    {
      hide Sought, Has, Ceil;
      forall d | limit <= d < top && Sought(out, d) ensures Has(d) {
        TilesBackCover(visited, d);
        var i :| 0 <= i < |visited| && visited[i].start <= d < visited[i].end;
        assert HasAll(out, visited[i]);
      }
    }

    /** One build, to its end or to an exit message that the loop finds before its round `exit`. A whole build visits a
        backward tiling, and every sought day from the limit up to now is held afterwards, whether the store is rebuilt
        or only completed; one that ends early has done so for the newest windows. To rebuild is to fetch every window
        visited; to complete a store that has all the days is to fetch none. */
    method Build(rebuild: bool, limitClock: int, clock: int, out: Outside, exit: Option<nat>)
      returns (visited: seq<Window>, fetched: seq<Window>, finished: bool)
      requires Usable(config) && limitClock <= clock
      modifies this
      ensures Grows()
      ensures var limit, top := RoundBack(limitClock - config.duration, config.resolution), RoundBack(clock, config.resolution);
              && (finished <==> exit.None? || exit.value >= Ceil(top - limit, config.queryWindow))
              && (finished ==> TilesBack(visited, limit, top, config.queryWindow))
              && (!finished ==> |visited| == exit.value && StartsBack(visited, top, config.queryWindow))
              && (rebuild || WholeDays(config) ==> forall i :: 0 <= i < |visited| ==> HasAll(out, visited[i]))
              && ((rebuild || WholeDays(config)) && finished ==> HasAll(out, Window(limit, top)))
              && (!rebuild && WholeDays(config) && Stocked(old(store), out, Span(limit, top, config.queryWindow)) ==> fetched == [])
      ensures rebuild ==> fetched == visited
    {
      hide Served, Ceil, ContiguousBack, Sought, HasAll, BackSoFar, TilesBack, StartsBack, Midnight, RoundBack, Stocked, Span;
      var limit := RoundBack(limitClock - config.duration, config.resolution);
      var top := RoundBack(clock, config.resolution);
      var w := config.queryWindow;
      var e := top;
      var s := e - w;
      visited, fetched := [], [];
      BackStart(limit, top, w);
      ghost var stocked := !rebuild && WholeDays(config) && Stocked(old(store), out, Span(limit, top, w));
      ghost var sound := rebuild || WholeDays(config);
      if WholeDays(config) {
        Midnights(limit, config.resolution);
        Midnights(top, config.resolution);
        MidnightMinus(top, w);
      }
      while limit < e
        invariant Grows()
        invariant BackSoFar(visited, s, e, limit, top, w)
        invariant exit.Some? ==> |visited| <= exit.value
        invariant WholeDays(config) ==> Midnight(s) && Midnight(e) && Midnight(limit)
        invariant sound ==> forall i :: 0 <= i < |visited| ==> HasAll(out, visited[i])
        invariant rebuild ==> fetched == visited
        invariant stocked ==> fetched == []
        decreases e - limit
      {
        BackOrder(visited, s, e, limit, top, w);
        if exit == Some(|visited|) {
          return visited, fetched, false;
        }
        if stocked {
          BackInside(visited, s, e, limit, top, w);
          StockedInside(old(store), store, out, Span(limit, top, w), Window(s, e));
        }
        var one := VisitWindow(rebuild, Window(s, e), out);
        if one {
          fetched := fetched + [Window(s, e)];
        }
        if WholeDays(config) {
          MidnightMinus(s, w);
          MidnightMinus(e, w);
        }
        BackStep(visited, s, e, limit, top, w);
        visited := visited + [Window(s, e)];
        s := s - w;
        if s < limit {
          s := limit;
        }
        e := e - w;
      }
      BackEnd(visited, s, e, limit, top, w);
      if sound {
        TilingHasAll(out, visited, limit, top, w);
      }
      finished := true;
    }

    /* ---------- the repeating run ---------- */

    /** Where a run starts: back from the last one, to the first of the month on a month-to-date run. */
    function RunBottom(monthStart: int -> int): int
      requires Usable(config)
      reads this
    {
      var start := lastRun - config.runWindow;
      RoundBack(if runs % config.monthToDateRunInterval == 0 then monthStart(start) else start, config.resolution)
    }

    /** The days before the limit leave the store, and the coverage. */
    method Expire(limit: int, fails: bool)
      modifies this
      ensures lastRun == old(lastRun) && runs == old(runs)
      ensures store == if fails then old(store) else set d | d in old(store) && limit <= d
      ensures coverage == Window(if limit > old(coverage.start) then limit else old(coverage.start), old(coverage.end))
      ensures forall d :: limit <= d && old(Has(d)) ==> Has(d)
      ensures forall d :: d < limit ==> !Has(d)
      ensures Now() == Acts(old(Now()), Expiry(limit, fails))
    {
      hide Acts;
      ExpiryActs(Now(), limit, fails);
      if !fails {
        store := set d | d in store && limit <= d;
      }
      coverage := Window(if limit > coverage.start then limit else coverage.start, coverage.end);
    }

    lemma ForwardHasAll(out: Outside, visited: seq<Window>, bottom: int, now: int, w: int, resolution: int)
      requires w > 0 && resolution > 0 && TilesForward(visited, bottom, now, w, resolution)
      requires forall i :: 0 <= i < |visited| ==> HasAll(out, visited[i])
      ensures HasAll(out, Window(bottom, now))
    {
      hide Sought, Has, Ceil, RoundForward;
      forall d | bottom <= d < now && Sought(out, d) ensures Has(d) {
        TilesForwardCover(visited, d);
        var i :| 0 <= i < |visited| && visited[i].start <= d < visited[i].end;
        assert HasAll(out, visited[i]);
      }
    }

    /** The loop of one run, by a clock that stands still during the run. */
    method RunLoop(bottom: int, now: int, out: Outside) returns (visited: seq<Window>)
      requires Usable(config)
      modifies this
      ensures Grows()
      ensures TilesForward(visited, bottom, now, config.queryWindow, config.resolution)
      ensures HasAll(out, Window(bottom, now))
      ensures forall v :: old(HasAll(out, v)) ==> HasAll(out, v)
    {
      hide Served, Ceil, Contiguous, Sought, HasAll, ForwardSoFar, TilesForward, RoundForward;
      var w, resolution := config.queryWindow, config.resolution;
      var s := bottom;
      var e := s + w;
      visited := [];
      ForwardStart(bottom, now, w, resolution);
      while now > s
        invariant Grows()
        invariant ForwardSoFar(visited, s, e, bottom, now, w, resolution)
        invariant forall i :: 0 <= i < |visited| ==> HasAll(out, visited[i])
        invariant forall v :: old(HasAll(out, v)) ==> HasAll(out, v)
        decreases now - s
      {
        BuildWindow(Window(s, e), out);
        ForwardStep(visited, s, e, bottom, now, w, resolution);
        visited := visited + [Window(s, e)];
        s := s + w;
        e := e + w;
        if e > now {
          e := RoundForward(now, resolution);
        }
      }
      ForwardEnd(visited, s, e, bottom, now, w, resolution);
      ForwardHasAll(out, visited, bottom, now, w, resolution);
    }

    /** Every wanted day since `origin` that retention still allows is held. */
    ghost predicate Complete(want: iset<int>, origin: int)
      requires config.resolution > 0
      reads this
    {
      forall d :: d in want && origin <= d < lastRun && RoundBack(lastRun, config.resolution) - config.duration <= d ==> Has(d)
    }

    /** One run: it visits a forward tiling of everything since the previous run, and a store that
        was complete stays complete, with new days added and expired days gone. */
    method Run(monthStart: int -> int, now: int, out: Outside, ghost want: iset<int>, ghost origin: int)
      returns (visited: seq<Window>)
      requires Usable(config) && lastRun <= now
      requires forall t :: monthStart(t) <= t
      requires forall d :: d in want ==> Sought(out, d)
      modifies this
      ensures TilesForward(visited, old(RunBottom(monthStart)), now, config.queryWindow, config.resolution)
      ensures lastRun == now && runs == old(runs) + 1
      ensures var start := old(lastRun) - config.runWindow;
              var from := if old(runs) % config.monthToDateRunInterval == 0 then monthStart(start) else start;
              && (forall t :: from <= t < now ==> Visited(visited, t))
              && (visited != [] ==> from - config.resolution < visited[0].start <= from && visited[0].start % config.resolution == 0)
      ensures forall d :: Has(d) || (d in store && !out.expireFails) ==>
                RoundBack(now, config.resolution) - config.duration <= d
      ensures old(Complete(want, origin)) ==> Complete(want, origin)
    {
      hide Served, Sought, TilesForward, RoundBack, RoundForward, Holds;
      var bottom := RunBottom(monthStart);
      ghost var before := lastRun;
      assert bottom <= before;
      ghost var limit0 := RoundBack(before, config.resolution) - config.duration;
      ghost var complete := old(Complete(want, origin));
      visited := RunLoop(bottom, now, out);
      ForwardVisits(visited, bottom, now, config.queryWindow, config.resolution);
      GrowingHas();
      assert forall d :: d in want && complete && origin <= d < before && limit0 <= d ==> Has(d);
      assert forall d :: d in want && bottom <= d < now ==> Has(d);
      var limit := RoundBack(now, config.resolution) - config.duration;
      RoundBackMonotone(before, now, config.resolution);
      Finish(now, limit, out.expireFails);
    }

    /** What comes after a run's loop. */
    method Finish(now: int, limit: int, fails: bool)
      modifies this
      ensures lastRun == now && runs == old(runs) + 1
      ensures store == if fails then old(store) else set d | d in old(store) && limit <= d
      ensures forall d :: limit <= d && old(Has(d)) ==> Has(d)
      ensures forall d :: d < limit ==> !Has(d)
    {
      lastRun := now;
      Expire(limit, fails);
      runs := runs + 1;
      forall d | limit <= d && old(Has(d)) ensures Has(d) {
        assert d in old(store) && Holds(old(coverage), Window(d, d + DAY));
      }
    }

    twostate lemma GrowingHas()
      requires Grows()
      ensures forall d :: old(Has(d)) ==> Has(d)
    {
    }
  }

  /** A forward tiling visits every instant from its bottom to now, and begins there. */
  lemma ForwardVisits(ws: seq<Window>, bottom: int, now: int, w: int, resolution: int)
    requires w > 0 && resolution > 0 && TilesForward(ws, bottom, now, w, resolution)
    ensures forall t :: bottom <= t < now ==> Visited(ws, t)
    ensures ws != [] ==> ws[0].start == bottom
  {
    forall t | bottom <= t < now ensures Visited(ws, t) { TilesForwardCover(ws, t); }
    if bottom >= now { CeilNothing(now - bottom, w); }
  }

  lemma CeilNothing(span: int, w: int)
    requires w > 0 && span <= 0
    ensures Ceil(span, w) == 0
  {
  }

  lemma RoundBackMonotone(t: int, u: int, resolution: int)
    requires resolution > 0 && t <= u
    ensures RoundBack(t, resolution) <= RoundBack(u, resolution)
  {
    var x, y := RoundBack(t, resolution), RoundBack(u, resolution);
    hide RoundBack;
    if y < x { MultiplesApart(y, x, resolution); }
  }

  lemma MultiplesApart(y: int, x: int, m: int)
    requires m > 0 && x % m == 0 && y % m == 0 && y < x
    ensures y + m <= x
  {
    var a, b := x / m, y / m;
    assert x == m * a && y == m * b;
    Gap(m, a, b);
  }

  lemma Gap(m: int, a: int, b: int)
    requires m > 0 && m * b < m * a
    ensures m * b + m <= m * a
  {
    var k := a - b;
    assert m * k == m * a - m * b;
    assert k <= 0 ==> m * k <= 0;
    assert k >= 1 ==> m * k >= m;
  }

  /** Every day of the window is stored, and the repository tells so. */
  ghost predicate Stocked(store: set<int>, out: Outside, w: Window) {
    forall d :: w.start <= d < w.end && Midnight(d) ==> d in store && !out.hasFails(d)
  }

  /** What a whole build visits. */
  function Span(limit: int, top: int, w: int): Window { Window(if top - w < limit then top - w else limit, top) }

  lemma NotStocked(days: seq<Window>, w: Window, store: set<int>, out: Outside, i: nat)
    requires AreDays(days, w.start, w.end) && Midnight(w.start) && Midnight(w.end) && i < |days|
    requires out.hasFails(days[i].start) || days[i].start !in store
    ensures !Stocked(store, out, w)
  {
    var d := days[i].start;
    assert d == w.start + i * DAY;
    assert Midnight(d) && w.start <= d < w.end;
  }

  lemma AllStocked(days: seq<Window>, w: Window, store: set<int>, out: Outside)
    requires AreDays(days, w.start, w.end) && Midnight(w.start) && Midnight(w.end)
    requires forall k :: 0 <= k < |days| ==> days[k].start in store && !out.hasFails(days[k].start)
    ensures Stocked(store, out, w)
  {
    forall d | w.start <= d < w.end && Midnight(d) ensures d in store && !out.hasFails(d) {
      DayIndex(w.start, w.end, d);
      assert days[(d - w.start) / DAY].start == d;
    }
  }

  lemma BackInside(visited: seq<Window>, s: int, e: int, limit: int, top: int, w: int)
    requires w > 0 && BackSoFar(visited, s, e, limit, top, w) && limit < e
    ensures Span(limit, top, w).start <= s && e <= Span(limit, top, w).end
  {
    hide Ceil, ContiguousBack;
  }

  lemma StockedInside(store: set<int>, more: set<int>, out: Outside, v: Window, w: Window)
    requires Stocked(store, out, v) && store <= more && v.start <= w.start && w.end <= v.end
    ensures Stocked(more, out, w)
  {
    hide Midnight;
  }

  ghost predicate Sought(out: Outside, d: int) { Midnight(d) && Served(out, d) }

  lemma MidnightsMakeDays(start: int, end: int)
    requires Midnight(start) && Midnight(end)
    ensures MadeOfDays(start, end)
  {
    var k := end / DAY - start / DAY;
    assert end - start == DAY * k;
    WholeDaysMinutes(k);
    MultipleOf(DAY / 60, k);
  }

  /** A range from a midnight is made of days if it is a whole number of days long, up to a minute. */
  lemma DaysUpToAMinute(start: int, days: nat, rest: int)
    requires 0 <= rest < DAY
    ensures MadeOfDays(start, start + DAY * days + rest) <==> Midnight(start) && rest < 60
  {
    var minutes := rest / 60;
    assert DAY * days + rest == 60 * (DAY / 60 * days + minutes) + rest % 60;
    assert WholeMinutes(DAY * days + rest) == DAY / 60 * days + minutes;
    assert (DAY / 60 * days + minutes) % (DAY / 60) == minutes;
  }

  lemma WholeDaysMinutes(k: int)
    ensures WholeMinutes(DAY * k) == DAY / 60 * k
  {
    if k >= 0 {
      assert DAY * k == 60 * (DAY / 60 * k);
    } else {
      assert -(DAY * k) == 60 * (DAY / 60 * -k);
    }
  }

  lemma DayIndex(start: int, end: int, d: int)
    requires start <= d < end && start % DAY == 0 && end % DAY == 0 && d % DAY == 0
    ensures 0 <= (d - start) / DAY < (end - start) / DAY && start + (d - start) / DAY * DAY == d
  {
  }

  lemma Midnights(t: int, resolution: int)
    requires resolution > 0 && Midnight(resolution) && t % resolution == 0
    ensures Midnight(t)
  {
    var k, m := t / resolution, resolution / DAY;
    assert t == resolution * k && resolution == DAY * m;
    assert t == DAY * (m * k) by { Associate(DAY, m, k); }
    MultipleOf(DAY, m * k);
  }

  lemma MidnightMinus(a: int, b: int)
    requires Midnight(a) && Midnight(b)
    ensures Midnight(a - b)
  {
  }

  lemma Associate(a: int, b: int, c: int)
    ensures (a * b) * c == a * (b * c)
  {
  }

  /** The windows visited so far, with the next one in `s` and `e`. */
  ghost predicate BackSoFar(visited: seq<Window>, s: int, e: int, limit: int, top: int, w: int)
    requires w > 0
  {
    && ContiguousBack(visited)
    && |visited| + Ceil(e - limit, w) == Ceil(top - limit, w)
    && (visited == [] ==> e == top && s == top - w)
    && (visited != [] ==>
          && limit < top && e <= top - w && visited[0] == Window(top - w, top)
          && (forall i :: 1 <= i < |visited| ==> limit <= visited[i].start)
          && (if limit < e then visited[|visited| - 1].start == e && s == (if e - w < limit then limit else e - w)
              else visited[|visited| - 1].start == (if top - w < limit then top - w else limit)))
  }

  lemma BackStart(limit: int, top: int, w: int)
    requires w > 0
    ensures BackSoFar([], top - w, top, limit, top, w)
  {
  }

  lemma BackOrder(visited: seq<Window>, s: int, e: int, limit: int, top: int, w: int)
    requires w > 0 && BackSoFar(visited, s, e, limit, top, w) && limit < e
    ensures s < e && StartsBack(visited, top, w) && |visited| < Ceil(top - limit, w)
  {
    CeilStep(e - limit, w);
    CeilNotNegative(e - w - limit, w);
  }

  lemma CeilNotNegative(span: int, w: int)
    requires w > 0
    ensures Ceil(span, w) >= 0
  {
  }

  lemma BackStep(visited: seq<Window>, s: int, e: int, limit: int, top: int, w: int)
    requires w > 0 && BackSoFar(visited, s, e, limit, top, w) && limit < e
    ensures BackSoFar(visited + [Window(s, e)], if s - w < limit then limit else s - w, e - w, limit, top, w)
  {
    hide Ceil;
    CeilStep(e - limit, w);
    var more := visited + [Window(s, e)];
    assert forall i :: 0 <= i < |visited| ==> more[i] == visited[i];
  }

  lemma BackEnd(visited: seq<Window>, s: int, e: int, limit: int, top: int, w: int)
    requires w > 0 && BackSoFar(visited, s, e, limit, top, w) && e <= limit
    ensures TilesBack(visited, limit, top, w) && |visited| == Ceil(top - limit, w)
  {
  }

  ghost predicate ForwardSoFar(visited: seq<Window>, s: int, e: int, bottom: int, now: int, w: int, resolution: int)
    requires w > 0 && resolution > 0
  {
    && Contiguous(visited)
    && |visited| + Ceil(now - s, w) == Ceil(now - bottom, w)
    && (visited == [] ==> s == bottom && e == bottom + w)
    && (visited != [] ==>
          && bottom < now && visited[0] == Window(bottom, bottom + w)
          && (forall i :: 1 <= i < |visited| ==> visited[i].end <= RoundForward(now, resolution))
          && (if s < now then
                visited[|visited| - 1].end == s && e == (if s + w > now then RoundForward(now, resolution) else s + w)
              else visited[|visited| - 1].end >= now))
  }

  lemma ForwardStart(bottom: int, now: int, w: int, resolution: int)
    requires w > 0 && resolution > 0
    ensures ForwardSoFar([], bottom, bottom + w, bottom, now, w, resolution)
  {
  }

  lemma ForwardStep(visited: seq<Window>, s: int, e: int, bottom: int, now: int, w: int, resolution: int)
    requires w > 0 && resolution > 0 && ForwardSoFar(visited, s, e, bottom, now, w, resolution) && s < now
    ensures ForwardSoFar(visited + [Window(s, e)], s + w, if e + w > now then RoundForward(now, resolution) else e + w, bottom, now, w, resolution)
  {
    hide Ceil, RoundBack, RoundForward;
    CeilStep(now - s, w);
    var more := visited + [Window(s, e)];
    assert forall i :: 0 <= i < |visited| ==> more[i] == visited[i];
  }

  lemma ForwardEnd(visited: seq<Window>, s: int, e: int, bottom: int, now: int, w: int, resolution: int)
    requires w > 0 && resolution > 0 && ForwardSoFar(visited, s, e, bottom, now, w, resolution) && now <= s
    ensures TilesForward(visited, bottom, now, w, resolution)
  {
  }
}
