/**
 The share of a persistent volume claim's cost that each pod pays
 (pkg/costmodel/intervals.go, and the clipping in pkg/costmodel/allocation_helpers.go).

 The program sweeps over the sorted starts and ends of the pods' windows. Here the sweep is
 proved equal to the rule it stands for: at every instant the claim is split equally among the
 pods that mount it, and an instant with no pod is charged to the unmounted pod.
 */
module PvcSharing {
  import opened Times
  import opened Results
  import opened Workloads
  import opened Sums
  import opened Sorting

  function UnmountedKey(cluster: string): PodKey {
    PodKey(cluster, UNMOUNTED_SUFFIX, UNMOUNTED_SUFFIX)
  }

  datatype PointType = StartPoint | EndPoint

  datatype IntervalPoint = IntervalPoint(time: int, pointType: PointType, key: PodKey)

  datatype Component = Component(proportion: real, time: real)

  datatype Pvc = Pvc(cluster: string, start: int, end: int) {
    function Duration(): int { end - start }
  }

  type Components = map<PodKey, seq<Component>>

  /** The fraction a stretch of time is of the claim's whole life. */
  function Fraction(span: int, whole: int): real
    requires whole > 0
  {
    span as real / whole as real
  }

  /** One of `n` equal parts. */
  function EqualPart(n: nat): real
    requires n > 0
  {
    1.0 / n as real
  }

  /* ---------- the order of the points ---------- */

  /** By time, and at equal times starts before ends. */
  predicate PointLess(a: IntervalPoint, b: IntervalPoint) {
    if a.time == b.time then a.pointType.StartPoint? && b.pointType.EndPoint? else a.time < b.time
  }

  function StartOf(windows: map<PodKey, Window>, k: PodKey): IntervalPoint
    requires k in windows
  {
    IntervalPoint(windows[k].start, StartPoint, k)
  }

  function EndOf(windows: map<PodKey, Window>, k: PodKey): IntervalPoint
    requires k in windows
  {
    IntervalPoint(windows[k].end, EndPoint, k)
  }

  predicate IsPointOf(p: IntervalPoint, windows: map<PodKey, Window>) {
    p.key in windows && (p == StartOf(windows, p.key) || p == EndOf(windows, p.key))
  }

  /** `points` lists the start and the end of every window once each, in no particular order. */
  ghost predicate Lists(points: seq<IntervalPoint>, windows: map<PodKey, Window>) {
    && Distinct(points)
    && (forall p :: p in points <==> IsPointOf(p, windows))
  }

  /** Everything a run of the program may sweep over: any map order, any way of breaking ties. */
  ghost predicate IsPointList(points: seq<IntervalPoint>, windows: map<PodKey, Window>) {
    Lists(points, windows) && Sorted(points, PointLess)
  }

  lemma PointLessIsStrictWeak()
    ensures StrictWeak(PointLess)
  {
  }

  /** Appending the two points of a window not listed yet. */
  lemma ListsExtend(points: seq<IntervalPoint>, done: map<PodKey, Window>, windows: map<PodKey, Window>, k: PodKey)
    requires Lists(points, done)
    requires k in windows && k !in done
    ensures Lists(points + [StartOf(windows, k), EndOf(windows, k)], done[k := windows[k]])
  {
    var more := points + [StartOf(windows, k), EndOf(windows, k)];
    var done' := done[k := windows[k]];
    forall i | 0 <= i < |points| ensures points[i].key != k {
      assert points[i] in points;
    }
    forall p ensures p in more <==> IsPointOf(p, done') {
      assert p in more <==> p in points || p == StartOf(windows, k) || p == EndOf(windows, k);
      if p.key != k { assert IsPointOf(p, done') == IsPointOf(p, done); }
      if p in points { assert IsPointOf(p, done); }
    }
  }

  lemma ListsPermute(points: seq<IntervalPoint>, sorted: seq<IntervalPoint>, windows: map<PodKey, Window>)
    requires Lists(points, windows) && multiset(points) == multiset(sorted)
    ensures Lists(sorted, windows)
  {
    SameElements(points, sorted);
    DistinctPermutes(points, sorted);
  }

  /** getIntervalPointsFromWindows: whatever order the map is read in, a sorted point list. */
  method GetIntervalPoints(windows: map<PodKey, Window>) returns (points: seq<IntervalPoint>)
    ensures IsPointList(points, windows)
  {
    var intervals: seq<IntervalPoint> := [];
    var todo := windows.Keys;
    ghost var done: map<PodKey, Window> := map[];
    while todo != {}
      invariant todo <= windows.Keys
      invariant done == map k | k in windows && k !in todo :: windows[k]
      invariant Lists(intervals, done)
      decreases todo
    {
      var k :| k in todo;
      ListsExtend(intervals, done, windows, k);
      intervals := intervals + [StartOf(windows, k), EndOf(windows, k)];
      done := done[k := windows[k]];
      todo := todo - {k};
    }
    assert done == windows;
    var a := new IntervalPoint[|intervals|](i requires 0 <= i < |intervals| => intervals[i]);
    assert a[..] == intervals;
    SliceStable(a, PointLess);
    points := a[..];
    PointLessIsStrictWeak();
    StableSortPermutes(intervals, PointLess);
    StableSortSorted(intervals, PointLess);
    ListsPermute(intervals, points, windows);
  }

  /* ---------- the sweep ---------- */

  function ComponentsOf(m: Components, k: PodKey): seq<Component> {
    if k in m then m[k] else []
  }

  /** One component appended to the list of every key in `keys`. */
  function AppendAll(m: Components, keys: set<PodKey>, c: Component): Components {
    map k | k in m.Keys + keys :: if k in keys then ComponentsOf(m, k) + [c] else m[k]
  }

  datatype Sweep = Sweep(components: Components, active: set<PodKey>, now: int)

  /** Charge the stretch from `s.now` to `t`: equally to the active keys, else to unmounted. */
  function Charge(s: Sweep, t: int, pvc: Pvc): Components
    requires pvc.Duration() > 0
  {
    var time := Fraction(t - s.now, pvc.Duration());
    if s.active == {} then AppendAll(s.components, {UnmountedKey(pvc.cluster)}, Component(1.0, time))
    else AppendAll(s.components, s.active, Component(EqualPart(|s.active|), time))
  }

  function Advance(s: Sweep, p: IntervalPoint, pvc: Pvc): Sweep
    requires pvc.Duration() > 0
  {
    Sweep(
      if p.time != s.now then Charge(s, p.time, pvc) else s.components,
      if p.pointType.StartPoint? then s.active + {p.key} else s.active - {p.key},
      p.time)
  }

  function SweepPoints(points: seq<IntervalPoint>, pvc: Pvc): Sweep
    requires pvc.Duration() > 0
  {
    if points == [] then Sweep(map[], {}, pvc.start)
    else Advance(SweepPoints(points[..|points| - 1], pvc), points[|points| - 1], pvc)
  }

  /** After the last point the rest of the claim's life is charged to unmounted. */
  function Finish(s: Sweep, pvc: Pvc): Components
    requires pvc.Duration() > 0
  {
    if s.now < pvc.end then
      AppendAll(s.components, {UnmountedKey(pvc.cluster)}, Component(1.0, Fraction(pvc.end - s.now, pvc.Duration())))
    else s.components
  }

  function CoefficientComponents(points: seq<IntervalPoint>, pvc: Pvc): Components
    requires pvc.Duration() > 0
  {
    Finish(SweepPoints(points, pvc), pvc)
  }

  /** `append(m[key], c)` */
  method AppendComponent(m: Components, key: PodKey, c: Component) returns (r: Components)
    ensures r == AppendAll(m, {key}, c)
  {
    r := m[key := ComponentsOf(m, key) + [c]];
  }

  /** The stretch before a point, charged the way the loop body does it. */
  method ChargeStretch(components: Components, active: set<PodKey>, unmounted: PodKey, time: real)
    returns (r: Components)
    ensures r == if active == {} then AppendAll(components, {unmounted}, Component(1.0, time))
                 else AppendAll(components, active, Component(EqualPart(|active|), time))
  {
    r := components;
    if active != {} {
      r := ChargeActive(r, active, Component(EqualPart(|active|), time));
    }
    if |active| == 0 {
      r := AppendComponent(r, unmounted, Component(1.0, time));
    }
  }

  /** getPVCCostCoefficients: the loop over the points, with the inner loop over the active keys. */
  method GetPVCCostCoefficients(points: seq<IntervalPoint>, pvc: Pvc) returns (r: Result<Components>)
    ensures r.Ok? <==> pvc.Duration() > 0
    ensures r.Ok? ==> r.value == CoefficientComponents(points, pvc)
  {
    hide Fraction, EqualPart, AppendAll;
    var duration := pvc.end - pvc.start;
    if duration <= 0 {
      return Err("detected PVC with window of zero duration");
    }
    var unmounted := UnmountedKey(pvc.cluster);
    var components: Components := map[];
    var active: set<PodKey> := {};
    var now := pvc.start;
    for i := 0 to |points|
      invariant Sweep(components, active, now) == SweepPoints(points[..i], pvc)
    {
      var point := points[i];
      assert points[..i + 1][..i] == points[..i];
      if point.time != now {
        components := ChargeStretch(components, active, unmounted, Fraction(point.time - now, duration));
      }
      if point.pointType == StartPoint {
        active := active + {point.key};
      }
      if point.pointType == EndPoint {
        active := active - {point.key};
      }
      now := point.time;
    }
    assert points[..|points|] == points;
    if now < pvc.end {
      components := AppendComponent(components, unmounted, Component(1.0, Fraction(pvc.end - now, duration)));
    }
    return Ok(components);
  }

  lemma AppendNone(m: Components, c: Component)
    ensures AppendAll(m, {}, c) == m
  {
    assert m.Keys + {} == m.Keys;
  }

  lemma AppendOneMore(m: Components, keys: set<PodKey>, k: PodKey, c: Component)
    requires k !in keys
    ensures AppendAll(AppendAll(m, keys, c), {k}, c) == AppendAll(m, keys + {k}, c)
  {
  }

  /** The loop over the active keys, in the map's own order. */
  method ChargeActive(m: Components, active: set<PodKey>, c: Component) returns (r: Components)
    requires active != {}
    ensures r == AppendAll(m, active, c)
  {
    hide AppendAll;
    r := m;
    var todo := active;
    AppendNone(m, c);
    assert active - todo == {};
    while todo != {}
      invariant todo <= active
      invariant r == AppendAll(m, active - todo, c)
      decreases todo
    {
      var key :| key in todo;
      r := AppendComponent(r, key, c);
      AppendOneMore(m, active - todo, key, c);
      assert active - todo + {key} == active - (todo - {key});
      todo := todo - {key};
    }
    assert active - todo == active;
  }

  /** getCoefficientFromComponents, as a value. */
  function Coefficient(cs: seq<Component>): real {
    if cs == [] then 0.0
    else Coefficient(cs[..|cs| - 1]) + cs[|cs| - 1].proportion * cs[|cs| - 1].time
  }

  method GetCoefficientFromComponents(cs: seq<Component>) returns (coefficient: real)
    ensures coefficient == Coefficient(cs)
  {
    coefficient := 0.0;
    for i := 0 to |cs|
      invariant coefficient == Coefficient(cs[..i])
    {
      assert cs[..i + 1][..i] == cs[..i];
      coefficient := coefficient + cs[i].proportion * cs[i].time;
    }
    assert cs[..|cs|] == cs;
  }

  /** A key's coefficient; a key without components has none. */
  function CoefficientOf(m: Components, k: PodKey): real {
    if k in m then Coefficient(m[k]) else 0.0
  }

  lemma CoefficientAppend(m: Components, keys: set<PodKey>, c: Component, k: PodKey)
    ensures CoefficientOf(AppendAll(m, keys, c), k)
         == CoefficientOf(m, k) + if k in keys then c.proportion * c.time else 0.0
  {
    if k in keys { CoefficientSnoc(ComponentsOf(m, k), c); }
  }

  lemma CoefficientSnoc(cs: seq<Component>, c: Component)
    ensures Coefficient(cs + [c]) == Coefficient(cs) + c.proportion * c.time
  {
    assert (cs + [c])[..|cs|] == cs;
  }

  /* ---------- conservation ---------- */

  ghost function Total(m: Components): real {
    SumOver(m.Keys, k => CoefficientOf(m, k))
  }

  lemma TotalAppend(m: Components, keys: set<PodKey>, c: Component, x: real)
    requires x == c.proportion * c.time
    ensures Total(AppendAll(m, keys, c)) == Total(m) + |keys| as real * x
  {
    hide Coefficient, SumOver;
    var m' := AppendAll(m, keys, c);
    assert m'.Keys == m.Keys + keys;
    hide AppendAll;
    var all := m.Keys + keys;
    var f := (k: PodKey) => CoefficientOf(m, k);
    var g := (k: PodKey) => if k in keys then x else 0.0;
    var h := (k: PodKey) => CoefficientOf(m', k);
    forall k | k in all ensures h(k) == f(k) + g(k) {
      CoefficientAppend(m, keys, c, k);
    }
    SumAdd(all, f, g, h);
    SumWiden(m.Keys, all, f);
    SumWiden(keys, all, g);
    SumConstant(keys, g, x);
  }

  lemma ShareOut(n: nat, x: real)
    requires n > 0
    ensures n as real * (EqualPart(n) * x) == x
  {
    assert n as real * EqualPart(n) == 1.0;
    Regroup(n as real, EqualPart(n), x);
  }

  /** A stretch given out in equal parts is given out whole. */
  lemma TotalShared(m: Components, keys: set<PodKey>, time: real)
    requires keys != {}
    ensures Total(AppendAll(m, keys, Component(EqualPart(|keys|), time))) == Total(m) + time
  {
    hide EqualPart, Total, AppendAll;
    var p := EqualPart(|keys|);
    TotalAppend(m, keys, Component(p, time), p * time);
    ShareOut(|keys|, time);
  }

  lemma TotalUnmounted(m: Components, u: PodKey, time: real)
    ensures Total(AppendAll(m, {u}, Component(1.0, time))) == Total(m) + time
  {
    hide Total, AppendAll;
    TotalAppend(m, {u}, Component(1.0, time), time);
  }

  lemma TotalCharge(s: Sweep, t: int, pvc: Pvc)
    requires pvc.Duration() > 0
    ensures Total(Charge(s, t, pvc)) == Total(s.components) + Fraction(t - s.now, pvc.Duration())
  {
    hide Fraction, EqualPart, Total, AppendAll;
    var time := Fraction(t - s.now, pvc.Duration());
    if s.active == {} {
      TotalUnmounted(s.components, UnmountedKey(pvc.cluster), time);
    } else {
      TotalShared(s.components, s.active, time);
    }
  }

  lemma TotalEmpty()
    ensures Total(map[]) == 0.0
  {
  }

  /** Whatever the points are, the charged stretches telescope. */
  lemma {:induction false} SweepTelescopes(points: seq<IntervalPoint>, pvc: Pvc)
    requires pvc.Duration() > 0
    ensures var s := SweepPoints(points, pvc);
            Total(s.components) == Fraction(s.now - pvc.start, pvc.Duration())
  {
    hide Fraction, EqualPart, Total, Charge;
    if points == [] {
      TotalEmpty();
      SplitFraction(0, 0, pvc.Duration());
    } else {
      var n := |points| - 1;
      var s := SweepPoints(points[..n], pvc);
      SweepTelescopes(points[..n], pvc);
      if points[n].time != s.now {
        TotalCharge(s, points[n].time, pvc);
        SplitFraction(s.now - pvc.start, points[n].time - s.now, pvc.Duration());
      }
    }
  }

  lemma SplitFraction(a: int, b: int, whole: int)
    requires whole > 0
    ensures Fraction(a, whole) + Fraction(b, whole) == Fraction(a + b, whole)
  {
  }

  /** All of the claim is charged, no more and no less, exactly when no point lies after its end.
      Nothing is asked of the points: not their order, not even that they pair up. */
  lemma CoefficientsSumToOne(points: seq<IntervalPoint>, pvc: Pvc)
    requires pvc.Duration() > 0
    ensures Total(CoefficientComponents(points, pvc)) == 1.0
       <==> (points == [] || points[|points| - 1].time <= pvc.end)
  {
    hide Fraction, EqualPart, Total, AppendAll, Charge;
    var s := SweepPoints(points, pvc);
    var d := pvc.Duration();
    SweepTelescopes(points, pvc);
    assert s.now == if points == [] then pvc.start else points[|points| - 1].time;
    if s.now < pvc.end {
      TotalUnmounted(s.components, UnmountedKey(pvc.cluster), Fraction(pvc.end - s.now, d));
      SplitFraction(s.now - pvc.start, pvc.end - s.now, d);
      WholeFraction(d, d);
    } else {
      WholeFraction(s.now - pvc.start, d);
    }
  }

  lemma WholeFraction(span: int, whole: int)
    requires whole > 0
    ensures Fraction(span, whole) == 1.0 <==> span == whole
  {
    assert Fraction(span, whole) * whole as real == span as real;
  }

  /* ---------- the order of ties is irrelevant ---------- */

  /** Which keys are active after a prefix: those whose start was met and whose end was not, or came
      too early to count. */
  lemma {:induction false} ActiveAfter(points: seq<IntervalPoint>, n: nat, windows: map<PodKey, Window>, pvc: Pvc,
                                       k: PodKey)
    requires pvc.Duration() > 0 && n <= |points|
    requires IsPointList(points, windows)
    ensures k in SweepPoints(points[..n], pvc).active
       <==> k in windows && StartOf(windows, k) in points[..n]
            && (EndOf(windows, k) !in points[..n] || windows[k].end < windows[k].start)
  {
    if n > 0 {
      ActiveAfter(points, n - 1, windows, pvc, k);
      assert points[..n][..n - 1] == points[..n - 1];
      var p := points[n - 1];
      assert forall q :: q in points[..n] <==> q in points[..n - 1] || q == p;
      assert p in points && IsPointOf(p, windows);
      if p.key == k {
        EndAndStart(points, n - 1, windows, k);
      }
    }
  }

  lemma EndAndStart(points: seq<IntervalPoint>, i: nat, windows: map<PodKey, Window>, k: PodKey)
    requires IsPointList(points, windows) && i < |points| && k in windows
    ensures points[i] == StartOf(windows, k) && windows[k].start <= windows[k].end ==> EndOf(windows, k) !in points[..i]
    ensures points[i] == EndOf(windows, k) && windows[k].end < windows[k].start ==> StartOf(windows, k) !in points[..i]
  {
    forall j | 0 <= j < i ensures !PointLess(points[i], points[j]) {
    }
  }

  /** Where the time changes, two sorted lists have met the same points. */
  lemma SamePrefix(p: seq<IntervalPoint>, q: seq<IntervalPoint>, n: nat, x: IntervalPoint)
    requires Sorted(p, PointLess) && Sorted(q, PointLess)
    requires |p| == |q| && n < |p| && (forall y :: y in p ==> y in q)
    requires forall i :: 0 <= i < |p| ==> p[i].time == q[i].time
    requires n > 0 ==> p[n - 1].time != p[n].time
    requires x in p[..n]
    ensures x in q[..n]
  {
    var i :| 0 <= i < n && p[i] == x;
    assert !PointLess(p[n], p[n - 1]) && (i < n - 1 ==> !PointLess(p[n - 1], p[i]));
    assert x in q;
    var j :| 0 <= j < |q| && q[j] == x;
    assert j < n by {
      assert forall m :: n < m < |q| ==> !PointLess(q[m], q[n]);
    }
  }

  lemma {:induction false} SweepsAgree(p: seq<IntervalPoint>, q: seq<IntervalPoint>, n: nat,
                                       windows: map<PodKey, Window>, pvc: Pvc)
    requires pvc.Duration() > 0
    requires IsPointList(p, windows) && IsPointList(q, windows)
    requires |p| == |q| && n <= |p|
    requires forall i :: 0 <= i < |p| ==> p[i].time == q[i].time
    ensures SweepPoints(p[..n], pvc).components == SweepPoints(q[..n], pvc).components
    ensures SweepPoints(p[..n], pvc).now == SweepPoints(q[..n], pvc).now
  {
    if n > 0 {
      var m := n - 1;
      SweepsAgree(p, q, m, windows, pvc);
      assert p[..n][..m] == p[..m] && q[..n][..m] == q[..m];
      var s, t := SweepPoints(p[..m], pvc), SweepPoints(q[..m], pvc);
      if p[m].time != s.now {
        assert m > 0 ==> p[..m][m - 1] == p[m - 1];
        forall k ensures k in s.active <==> k in t.active {
          ActiveAfter(p, m, windows, pvc, k);
          ActiveAfter(q, m, windows, pvc, k);
          if k in windows {
            SamePrefixBoth(p, q, m, windows, StartOf(windows, k));
            SamePrefixBoth(p, q, m, windows, EndOf(windows, k));
          }
        }
        assert s.active == t.active;
      }
    }
  }

  lemma SamePrefixBoth(p: seq<IntervalPoint>, q: seq<IntervalPoint>, n: nat, windows: map<PodKey, Window>,
                       x: IntervalPoint)
    requires IsPointList(p, windows) && IsPointList(q, windows)
    requires |p| == |q| && n < |p|
    requires forall i :: 0 <= i < |p| ==> p[i].time == q[i].time
    requires n > 0 ==> p[n - 1].time != p[n].time
    ensures x in p[..n] <==> x in q[..n]
  {
    if x in p[..n] { SamePrefix(p, q, n, x); }
    if x in q[..n] { SamePrefix(q, p, n, x); }
  }

  /** The component map does not depend on the order in which the window map was read, nor on the
      order in which the sort left points that tie. */
  lemma TieOrderIrrelevant(p: seq<IntervalPoint>, q: seq<IntervalPoint>, windows: map<PodKey, Window>, pvc: Pvc)
    requires pvc.Duration() > 0
    requires IsPointList(p, windows) && IsPointList(q, windows)
    ensures CoefficientComponents(p, pvc) == CoefficientComponents(q, pvc)
  {
    DistinctMultisets(p, q);
    PointLessIsStrictWeak();
    SortedPointwise(p, q, PointLess);
    forall i | 0 <= i < |p| ensures p[i].time == q[i].time {
      assert Ties(p[i], q[i], PointLess);
    }
    SweepsAgree(p, q, |p|, windows, pvc);
    assert p[..|p|] == p && q[..|q|] == q;
  }

  /* ---------- the sweep refines the per-instant rule ---------- */

  ghost predicate Forward(windows: map<PodKey, Window>) {
    forall k :: k in windows ==> windows[k].start <= windows[k].end
  }

  /** The pods that mount the claim at instant `t`. */
  ghost function ActiveAt(windows: map<PodKey, Window>, t: int): set<PodKey> {
    set k | k in windows && windows[k].start <= t < windows[k].end
  }

  /** What `k` pays for the instant `t`. */
  ghost function Share(windows: map<PodKey, Window>, cluster: string, k: PodKey, t: int): real {
    ShareOf(ActiveAt(windows, t), cluster, k)
  }

  /** What `k` pays for the instants from `lo` up to `hi`. */
  ghost function Shares(windows: map<PodKey, Window>, cluster: string, k: PodKey, lo: int, hi: int): real {
    SumRange(lo, hi, t => Share(windows, cluster, k, t))
  }

  /** Between two neighbouring points the swept set is the set of mounting pods. */
  lemma ActiveBetween(points: seq<IntervalPoint>, n: nat, windows: map<PodKey, Window>, pvc: Pvc, t: int)
    requires pvc.Duration() > 0 && n <= |points|
    requires IsPointList(points, windows) && Forward(windows)
    requires n > 0 ==> points[n - 1].time <= t
    requires n < |points| ==> t < points[n].time
    ensures SweepPoints(points[..n], pvc).active == ActiveAt(windows, t)
  {
    var active := SweepPoints(points[..n], pvc).active;
    forall k ensures k in active <==> k in ActiveAt(windows, t) {
      ActiveAfter(points, n, windows, pvc, k);
      if k in windows {
        MetBy(points, n, windows, t, StartOf(windows, k));
        MetBy(points, n, windows, t, EndOf(windows, k));
      }
    }
  }

  lemma MetBy(points: seq<IntervalPoint>, n: nat, windows: map<PodKey, Window>, t: int, x: IntervalPoint)
    requires n <= |points| && IsPointList(points, windows) && IsPointOf(x, windows)
    requires n > 0 ==> points[n - 1].time <= t
    requires n < |points| ==> t < points[n].time
    ensures x in points[..n] <==> x.time <= t
  {
    assert x in points;
    var i :| 0 <= i < |points| && points[i] == x;
    if i < n {
      assert i < n - 1 ==> !PointLess(points[n - 1], points[i]);
      assert x in points[..n];
    } else {
      assert i > n ==> !PointLess(points[i], points[n]);
      assert forall j :: 0 <= j < n ==> points[j] != points[i];
    }
  }

  /** What an active set charges `k` per instant. */
  ghost function ShareOf(active: set<PodKey>, cluster: string, k: PodKey): real {
    if active == {} then (if k == UnmountedKey(cluster) then 1.0 else 0.0)
    else if k in active then EqualPart(|active|)
    else 0.0
  }

  /** A stretch over which the mounting pods do not change costs `k` its share times the span. */
  lemma ConstantShares(s: Sweep, t: int, windows: map<PodKey, Window>, cluster: string, k: PodKey)
    requires s.now <= t
    requires forall i :: s.now <= i < t ==> ActiveAt(windows, i) == s.active
    ensures Shares(windows, cluster, k, s.now, t) == (t - s.now) as real * ShareOf(s.active, cluster, k)
  {
    hide ShareOf, ActiveAt;
    SumRangeConstant(s.now, t, i => Share(windows, cluster, k, i), ShareOf(s.active, cluster, k));
  }

  lemma ChargeAppends(s: Sweep, t: int, pvc: Pvc, k: PodKey)
    requires pvc.Duration() > 0
    ensures CoefficientOf(Charge(s, t, pvc), k)
         == CoefficientOf(s.components, k) + ShareOf(s.active, pvc.cluster, k) * Fraction(t - s.now, pvc.Duration())
  {
    hide Fraction, EqualPart, AppendAll, CoefficientOf;
    var time := Fraction(t - s.now, pvc.Duration());
    if s.active == {} {
      CoefficientAppend(s.components, {UnmountedKey(pvc.cluster)}, Component(1.0, time), k);
    } else {
      CoefficientAppend(s.components, s.active, Component(EqualPart(|s.active|), time), k);
    }
  }

  /** The shares of a span, as a fraction of the claim's life. */
  ghost function SharesFraction(windows: map<PodKey, Window>, pvc: Pvc, k: PodKey, lo: int, hi: int): real
    requires pvc.Duration() > 0
  {
    Shares(windows, pvc.cluster, k, lo, hi) / pvc.Duration() as real
  }

  lemma ChargeIsShares(s: Sweep, t: int, windows: map<PodKey, Window>, pvc: Pvc, k: PodKey)
    requires pvc.Duration() > 0 && s.now <= t
    requires forall i :: s.now <= i < t ==> ActiveAt(windows, i) == s.active
    ensures CoefficientOf(Charge(s, t, pvc), k)
            == CoefficientOf(s.components, k) + SharesFraction(windows, pvc, k, s.now, t)
  {
    hide Charge, CoefficientOf, ShareOf, ActiveAt, Shares;
    ChargeAppends(s, t, pvc, k);
    ConstantShares(s, t, windows, pvc.cluster, k);
    Swap(ShareOf(s.active, pvc.cluster, k), t - s.now, pvc.Duration());
  }

  lemma Swap(share: real, span: int, whole: int)
    requires whole > 0
    ensures share * Fraction(span, whole) == (span as real * share) / whole as real
  {
  }

  lemma SharesSplit(windows: map<PodKey, Window>, pvc: Pvc, k: PodKey, lo: int, mid: int, hi: int)
    requires pvc.Duration() > 0 && lo <= mid <= hi
    ensures SharesFraction(windows, pvc, k, lo, hi)
            == SharesFraction(windows, pvc, k, lo, mid) + SharesFraction(windows, pvc, k, mid, hi)
  {
    hide Share;
    SumRangeSplit(lo, mid, hi, t => Share(windows, pvc.cluster, k, t));
  }

  ghost predicate Inside(windows: map<PodKey, Window>, pvc: Pvc) {
    && Forward(windows)
    && forall k :: k in windows ==> pvc.start <= windows[k].start && windows[k].end <= pvc.end
  }

  lemma PointInside(points: seq<IntervalPoint>, i: nat, windows: map<PodKey, Window>, pvc: Pvc)
    requires i < |points| && IsPointList(points, windows) && Inside(windows, pvc)
    ensures pvc.start <= points[i].time <= pvc.end
  {
    assert points[i] in points && IsPointOf(points[i], windows);
  }

  lemma {:induction false} SweepIsShares(points: seq<IntervalPoint>, n: nat, windows: map<PodKey, Window>, pvc: Pvc,
                                         k: PodKey)
    requires pvc.Duration() > 0 && n <= |points|
    requires IsPointList(points, windows) && Inside(windows, pvc)
    ensures var s := SweepPoints(points[..n], pvc);
            && pvc.start <= s.now <= pvc.end
            && CoefficientOf(s.components, k) == SharesFraction(windows, pvc, k, pvc.start, s.now)
  {
    if n > 0 {
      var m := n - 1;
      var s := SweepPoints(points[..m], pvc);
      SweepIsShares(points, m, windows, pvc, k);
      assert points[..n][..m] == points[..m];
      PointInside(points, m, windows, pvc);
      if points[m].time != s.now {
        assert m > 0 ==> points[..m][m - 1] == points[m - 1] && !PointLess(points[m], points[m - 1]);
        StretchIsShares(points, m, s, points[m].time, windows, pvc, k);
      }
    }
  }

  /** One charged stretch, from the last point met up to `t`. */
  lemma StretchIsShares(points: seq<IntervalPoint>, n: nat, s: Sweep, t: int, windows: map<PodKey, Window>, pvc: Pvc,
                        k: PodKey)
    requires pvc.Duration() > 0 && n <= |points|
    requires IsPointList(points, windows) && Inside(windows, pvc)
    requires s == SweepPoints(points[..n], pvc)
    requires s.now == if n == 0 then pvc.start else points[n - 1].time
    requires pvc.start <= s.now <= t && (n < |points| ==> t <= points[n].time)
    requires CoefficientOf(s.components, k) == SharesFraction(windows, pvc, k, pvc.start, s.now)
    ensures CoefficientOf(Charge(s, t, pvc), k) == SharesFraction(windows, pvc, k, pvc.start, t)
  {
    hide Charge, CoefficientOf, SharesFraction, SweepPoints;
    forall i | s.now <= i < t ensures ActiveAt(windows, i) == s.active {
      ActiveBetween(points, n, windows, pvc, i);
    }
    ChargeIsShares(s, t, windows, pvc, k);
    SharesSplit(windows, pvc, k, pvc.start, s.now, t);
  }

  lemma FinishIsCharge(s: Sweep, pvc: Pvc)
    requires pvc.Duration() > 0 && s.now < pvc.end && s.active == {}
    ensures Finish(s, pvc) == Charge(s, pvc.end, pvc)
  {
    hide AppendAll, Fraction;
  }

  /** The refinement: whatever sorted list is swept, every key's coefficient is the per-instant
      sum over the claim's life, divided by that life; for the unmounted key those are exactly the
      instants without an active pod. */
  lemma SweepRefinesPerInstantRule(points: seq<IntervalPoint>, windows: map<PodKey, Window>, pvc: Pvc, k: PodKey)
    requires pvc.Duration() > 0
    requires IsPointList(points, windows) && Inside(windows, pvc)
    ensures CoefficientOf(CoefficientComponents(points, pvc), k)
         == SharesFraction(windows, pvc, k, pvc.start, pvc.end)
  {
    hide Charge, AppendAll, CoefficientOf, SharesFraction, Fraction, EqualPart;
    var n := |points|;
    var s := SweepPoints(points, pvc);
    assert points[..n] == points;
    SweepIsShares(points, n, windows, pvc, k);
    if s.now < pvc.end {
      StretchIsShares(points, n, s, pvc.end, windows, pvc, k);
      ActiveBetween(points, n, windows, pvc, pvc.end);
      assert ActiveAt(windows, pvc.end) == {};
      FinishIsCharge(s, pvc);
    }
  }

  /** The per-instant rule gives out every instant once, so its shares sum to the claim's life. */
  lemma SharesOfInstant(windows: map<PodKey, Window>, cluster: string, t: int)
    ensures SumOver(windows.Keys + {UnmountedKey(cluster)}, k => Share(windows, cluster, k, t)) == 1.0
  {
    var u := UnmountedKey(cluster);
    var all := windows.Keys + {u};
    var active := ActiveAt(windows, t);
    var f := (k: PodKey) => Share(windows, cluster, k, t);
    if active == {} {
      SumPick(all, f, u);
      SumZero(all - {u}, f);
    } else {
      SumWiden(active, all, f);
      SumConstant(active, f, EqualPart(|active|));
      ShareOut(|active|, 1.0);
    }
  }

  /* ---------- clipping the pods' windows to the claim ---------- */

  predicate Within(t: int, w: Window) { w.start <= t < w.end }

  /** The part of a pod's life during which the claim also lives. */
  function Clip(pod: Window, pvc: Pvc): (w: Window)
    ensures forall t: int {:trigger Within(t, w)} ::
        Within(t, w) <==> Within(t, pod) && Within(t, Window(pvc.start, pvc.end))
  {
    Window(if pvc.start > pod.start then pvc.start else pod.start,
           if pvc.end < pod.end then pvc.end else pod.end)
  }

  function Clipped(pods: map<PodKey, Window>, pvc: Pvc): map<PodKey, Window> { map k | k in pods :: Clip(pods[k], pvc) }

  /** Every pod lives at some time of the claim's life, its ends included. */
  ghost predicate AllMeet(pods: map<PodKey, Window>, pvc: Pvc) {
    forall k :: k in pods ==> pods[k].start <= pvc.end && pvc.start <= pods[k].end
  }

  /** Clipping yields windows the refinement covers exactly when every pod meets the claim. */
  lemma ClipInside(pods: map<PodKey, Window>, pvc: Pvc)
    requires pvc.start <= pvc.end
    requires forall k :: k in pods ==> pods[k].start <= pods[k].end
    ensures Inside(Clipped(pods, pvc), pvc) <==> AllMeet(pods, pvc)
  {
    var w := Clipped(pods, pvc);
    forall k | k in pods
      ensures w[k].start <= w[k].end <==> pods[k].start <= pvc.end && pvc.start <= pods[k].end
    {
    }
    if !(forall k :: k in pods ==> pods[k].start <= pvc.end && pvc.start <= pods[k].end) {
      var k :| k in pods && !(pods[k].start <= pvc.end && pvc.start <= pods[k].end);
      assert k in w && !(w[k].start <= w[k].end);
    }
  }

  /** One charge of a positive stretch to an active key raises its coefficient. */
  lemma ChargeRaises(s: Sweep, t: int, pvc: Pvc, k: PodKey)
    requires pvc.Duration() > 0 && s.now < t && k in s.active
    ensures CoefficientOf(Charge(s, t, pvc), k) > CoefficientOf(s.components, k)
  {
    hide Charge, CoefficientOf;
    ChargeAppends(s, t, pvc, k);
    assert |s.active| > 0;
    Positive(EqualPart(|s.active|), Fraction(t - s.now, pvc.Duration()));
  }

  lemma Positive(x: real, y: real)
    requires x > 0.0 && y > 0.0
    ensures x * y > 0.0
  {
  }

  lemma NeverMounts(windows: map<PodKey, Window>, pvc: Pvc, k: PodKey)
    requires pvc.Duration() > 0 && k in windows && windows[k].start >= windows[k].end
    requires k != UnmountedKey(pvc.cluster)
    ensures SharesFraction(windows, pvc, k, pvc.start, pvc.end) == 0.0
  {
    SumRangeConstant(pvc.start, pvc.end, t => Share(windows, pvc.cluster, k, t), 0.0);
  }

  /** A pod that ended before the claim began clips to a window that runs backwards: its end is
      swept before its start, so it stays active and pays although it never mounts the claim. */
  lemma BackwardWindowIsCharged()
    ensures exists pods: map<PodKey, Window>, pvc: Pvc, points, k ::
      && pvc.Duration() > 0 && Lives(pods, pvc) && IsPointList(points, Clipped(pods, pvc))
      && k in pods && pods[k].end < pvc.start
      && CoefficientOf(CoefficientComponents(points, pvc), k) > SharesFraction(Clipped(pods, pvc), pvc, k, pvc.start, pvc.end)
  {
    var pvc := Pvc("c", 10, 20);
    var a, b := PodKey("c", "n", "a"), PodKey("c", "n", "b");
    var pods := map[a := Window(5, 9), b := Window(12, 20)];
    var windows := map[a := Window(10, 9), b := Window(12, 20)];
    assert Clipped(pods, pvc) == windows;
    var points := [EndOf(windows, a), StartOf(windows, a), StartOf(windows, b), EndOf(windows, b)];
    assert "n" != UNMOUNTED_SUFFIX by { assert |"n"| != |UNMOUNTED_SUFFIX|; }
    BackwardExample(pvc, a, b, windows, points);
    NeverMounts(windows, pvc, a);
    BackwardPoints(a, b, windows, points);
    hide IsPointList, CoefficientComponents, CoefficientOf, SharesFraction;
    assert a in pods && pods[a].end < pvc.start;
  }

  lemma BackwardPoints(a: PodKey, b: PodKey, windows: map<PodKey, Window>, points: seq<IntervalPoint>)
    requires a != b && windows == map[a := Window(10, 9), b := Window(12, 20)]
    requires points == [EndOf(windows, a), StartOf(windows, a), StartOf(windows, b), EndOf(windows, b)]
    ensures IsPointList(points, windows)
  {
    assert forall p :: p in points <==> IsPointOf(p, windows);
  }

  lemma BackwardExample(pvc: Pvc, a: PodKey, b: PodKey, windows: map<PodKey, Window>, points: seq<IntervalPoint>)
    requires pvc.start == 10 && pvc.end == 20 && a != b
    requires a != UnmountedKey(pvc.cluster)
    requires windows == map[a := Window(10, 9), b := Window(12, 20)]
    requires points == [EndOf(windows, a), StartOf(windows, a), StartOf(windows, b), EndOf(windows, b)]
    ensures CoefficientOf(CoefficientComponents(points, pvc), a) > 0.0
  {
    hide Charge, CoefficientOf, Fraction;
    var s0, s1 := SweepPoints(points[..0], pvc), SweepPoints(points[..1], pvc);
    var s2, s3 := SweepPoints(points[..2], pvc), SweepPoints(points[..3], pvc);
    var s4 := SweepPoints(points[..4], pvc);
    assert points[..1][..0] == points[..0] && points[..2][..1] == points[..1];
    assert points[..3][..2] == points[..2] && points[..4][..3] == points[..3] && points[..4] == points;
    ChargeAppends(s0, 9, pvc, a);
    ChargeAppends(s1, 10, pvc, a);
    ChargeRaises(s2, 12, pvc, a);
    ChargeRaises(s3, 20, pvc, a);
    NoComponents(a);
  }

  lemma NoComponents(k: PodKey)
    ensures CoefficientOf(map[], k) == 0.0
  {
  }

  /* ---------- exactly when the rule is followed ---------- */

  /** Pods end after they start, and none has the name reserved for unmounted volumes. */
  ghost predicate Lives(pods: map<PodKey, Window>, pvc: Pvc) {
    UnmountedKey(pvc.cluster) !in pods && forall k :: k in pods ==> pods[k].start <= pods[k].end
  }

  ghost predicate AllBefore(pods: map<PodKey, Window>, pvc: Pvc) {
    forall k :: k in pods ==> pods[k].end <= pvc.start
  }

  ghost predicate FollowsRule(points: seq<IntervalPoint>, windows: map<PodKey, Window>, pvc: Pvc)
    requires pvc.Duration() > 0
  {
    forall k ::
        CoefficientOf(CoefficientComponents(points, pvc), k) == SharesFraction(windows, pvc, k, pvc.start, pvc.end)
  }

  /** The sweep follows the per-instant rule exactly when every pod meets the claim, or every pod was over by
      the time the claim began: otherwise a pod that never mounts the claim pays, or the claim is overcharged. */
  lemma FollowsRuleIff(pods: map<PodKey, Window>, points: seq<IntervalPoint>, pvc: Pvc)
    requires pvc.Duration() > 0 && Lives(pods, pvc) && IsPointList(points, Clipped(pods, pvc))
    ensures FollowsRule(points, Clipped(pods, pvc), pvc) <==> AllMeet(pods, pvc) || AllBefore(pods, pvc)
  {
    hide IsPointList, CoefficientComponents, CoefficientOf, SharesFraction, Inside;
    var windows := Clipped(pods, pvc);
    ClipInside(pods, pvc);
    if AllMeet(pods, pvc) {
      forall k
        ensures CoefficientOf(CoefficientComponents(points, pvc), k)
                == SharesFraction(windows, pvc, k, pvc.start, pvc.end)
      {
        SweepRefinesPerInstantRule(points, windows, pvc, k);
      }
    } else if AllBefore(pods, pvc) {
      forall k
        ensures CoefficientOf(CoefficientComponents(points, pvc), k)
                == SharesFraction(windows, pvc, k, pvc.start, pvc.end)
      {
        BeforeIsUnmounted(points, windows, pvc, k);
      }
    } else if late :| late in pods && pods[late].start > pvc.end {
      LateIsOvercharged(points, windows, pvc, late);
    } else {
      var early :| early in pods && pods[early].end < pvc.start;
      var other :| other in pods && pods[other].end > pvc.start;
      EarlyIsCharged(points, windows, pvc, early, other);
      NeverMounts(windows, pvc, early);
    }
  }

  /** With every window over, all is charged to unmounted; stretches back and forth before the claim cancel. */
  lemma {:induction false} BeforeSweep(points: seq<IntervalPoint>, n: nat, windows: map<PodKey, Window>, pvc: Pvc,
                                       k: PodKey)
    requires pvc.Duration() > 0 && n <= |points| && IsPointList(points, windows)
    requires forall j :: j in windows ==> windows[j].start == pvc.start && windows[j].end <= pvc.start
    ensures var s := SweepPoints(points[..n], pvc);
            && s.now <= pvc.start && (s.active == {} || s.now == pvc.start)
            && CoefficientOf(s.components, k) == Owed(ShareOf({}, pvc.cluster, k), s.now - pvc.start, pvc.Duration())
  {
    hide Charge, CoefficientOf, Owed, ShareOf;
    if n == 0 {
      NoComponents(k);
      NoSpan(ShareOf({}, pvc.cluster, k), pvc.Duration());
    } else {
      var m := n - 1;
      var s, p := SweepPoints(points[..m], pvc), points[m];
      BeforeSweep(points, m, windows, pvc, k);
      assert points[..n][..m] == points[..m];
      assert p in points && IsPointOf(p, windows);
      assert m > 0 ==> points[..m][m - 1] == points[m - 1] && !PointLess(p, points[m - 1]);
      if p.time != s.now {
        assert s.active == {};
        ChargeOwes(s, p.time, pvc, k);
        SplitShare(ShareOf({}, pvc.cluster, k), s.now - pvc.start, p.time - s.now, pvc.Duration());
      }
    }
  }

  /** What a share of a stretch of time comes to. */
  function Owed(share: real, span: int, whole: int): real
    requires whole > 0
  {
    share * Fraction(span, whole)
  }

  lemma ChargeOwes(s: Sweep, t: int, pvc: Pvc, k: PodKey)
    requires pvc.Duration() > 0
    ensures CoefficientOf(Charge(s, t, pvc), k)
            == CoefficientOf(s.components, k) + Owed(ShareOf(s.active, pvc.cluster, k), t - s.now, pvc.Duration())
  {
    hide Charge, CoefficientOf, ShareOf, Fraction;
    ChargeAppends(s, t, pvc, k);
  }

  lemma NoSpan(share: real, whole: int)
    requires whole > 0
    ensures Owed(share, 0, whole) == 0.0
  {
  }

  lemma SplitShare(share: real, a: int, b: int, whole: int)
    requires whole > 0
    ensures Owed(share, a, whole) + Owed(share, b, whole) == Owed(share, a + b, whole)
  {
    hide Fraction;
    SplitFraction(a, b, whole);
    assert share * (Fraction(a, whole) + Fraction(b, whole)) == share * Fraction(a, whole) + share * Fraction(b, whole);
  }

  lemma BeforeIsUnmounted(points: seq<IntervalPoint>, windows: map<PodKey, Window>, pvc: Pvc, k: PodKey)
    requires pvc.Duration() > 0 && IsPointList(points, windows)
    requires forall j :: j in windows ==> windows[j].start == pvc.start && windows[j].end <= pvc.start
    ensures CoefficientOf(CoefficientComponents(points, pvc), k) == SharesFraction(windows, pvc, k, pvc.start, pvc.end)
  {
    hide Charge, CoefficientOf, Fraction, AppendAll, SweepPoints;
    var s, d, u := SweepPoints(points, pvc), pvc.Duration(), UnmountedKey(pvc.cluster);
    var share := ShareOf({}, pvc.cluster, k);
    BeforeSweep(points, |points|, windows, pvc, k);
    assert points[..|points|] == points;
    CoefficientAppend(s.components, {u}, Component(1.0, Fraction(pvc.end - s.now, d)), k);
    SplitShare(share, s.now - pvc.start, pvc.end - s.now, d);
    WholeFraction(d, d);
    assert forall t :: ActiveAt(windows, t) == {};
    SumRangeConstant(pvc.start, pvc.end, t => Share(windows, pvc.cluster, k, t), share);
    OverItself(d, share);
  }

  lemma OverItself(d: int, share: real)
    requires d > 0
    ensures (d as real * share) / d as real == share
  {
  }

  /** A pod that was over before the claim began stays active from the claim's start to the last point. */
  lemma {:induction false} EarlySweep(points: seq<IntervalPoint>, n: nat, windows: map<PodKey, Window>, pvc: Pvc,
                                      k: PodKey)
    requires pvc.Duration() > 0 && n <= |points| && IsPointList(points, windows)
    requires k in windows && windows[k].start == pvc.start && windows[k].end < pvc.start
             && k != UnmountedKey(pvc.cluster)
    ensures var c := CoefficientOf(SweepPoints(points[..n], pvc).components, k);
            c >= 0.0 && (n > 0 && points[n - 1].time > pvc.start ==> c > 0.0)
  {
    hide Charge, CoefficientOf, Fraction;
    if n == 0 {
      NoComponents(k);
    } else {
      var m := n - 1;
      var s, p := SweepPoints(points[..m], pvc), points[m];
      EarlySweep(points, m, windows, pvc, k);
      ActiveAfter(points, m, windows, pvc, k);
      assert points[..n][..m] == points[..m];
      assert m > 0 ==> points[..m][m - 1] == points[m - 1] && !PointLess(p, points[m - 1]);
      if p.time > pvc.start { StartIsMet(points, m, windows, pvc, k); }
      if p.time != s.now {
        if k in s.active { ChargeRaises(s, p.time, pvc, k); } else { ChargeAppends(s, p.time, pvc, k); }
      }
    }
  }

  lemma StartIsMet(points: seq<IntervalPoint>, m: nat, windows: map<PodKey, Window>, pvc: Pvc, k: PodKey)
    requires m < |points| && IsPointList(points, windows) && points[m].time > pvc.start
    requires k in windows && windows[k].start == pvc.start
    ensures StartOf(windows, k) in points[..m]
  {
    var x := StartOf(windows, k);
    assert IsPointOf(x, windows) && x in points;
    var i :| 0 <= i < |points| && points[i] == x;
    assert i > m ==> !PointLess(points[i], points[m]);
  }

  lemma EarlyIsCharged(points: seq<IntervalPoint>, windows: map<PodKey, Window>, pvc: Pvc, k: PodKey, other: PodKey)
    requires pvc.Duration() > 0 && IsPointList(points, windows)
    requires k in windows && windows[k].start == pvc.start && windows[k].end < pvc.start
             && k != UnmountedKey(pvc.cluster)
    requires other in windows && windows[other].end > pvc.start
    ensures CoefficientOf(CoefficientComponents(points, pvc), k) > 0.0
  {
    hide Charge, CoefficientOf, Fraction, AppendAll, SweepPoints;
    var s, n := SweepPoints(points, pvc), |points|;
    LastIsLatest(points, windows, EndOf(windows, other));
    EarlySweep(points, n, windows, pvc, k);
    assert points[..n] == points;
    if s.now < pvc.end {
      CoefficientAppend(s.components, {UnmountedKey(pvc.cluster)},
                        Component(1.0, Fraction(pvc.end - s.now, pvc.Duration())), k);
    }
  }

  lemma LastIsLatest(points: seq<IntervalPoint>, windows: map<PodKey, Window>, x: IntervalPoint)
    requires IsPointList(points, windows) && IsPointOf(x, windows)
    ensures points != [] && x.time <= points[|points| - 1].time
  {
    assert x in points;
    var i :| 0 <= i < |points| && points[i] == x;
    assert i < |points| - 1 ==> !PointLess(points[|points| - 1], points[i]);
  }

  /** A point after the claim's end charges more than the claim, which the rule never does. */
  lemma LateIsOvercharged(points: seq<IntervalPoint>, windows: map<PodKey, Window>, pvc: Pvc, k: PodKey)
    requires pvc.Duration() > 0 && IsPointList(points, windows) && k in windows && windows[k].start > pvc.end
    ensures !FollowsRule(points, windows, pvc)
  {
    hide CoefficientOf, SharesFraction, CoefficientComponents, SumOver;
    var m := CoefficientComponents(points, pvc);
    var all := windows.Keys + {UnmountedKey(pvc.cluster)};
    var f := (j: PodKey) => CoefficientOf(m, j);
    var g := RuleOf(windows, pvc);
    LastIsLatest(points, windows, StartOf(windows, k));
    CoefficientsSumToOne(points, pvc);
    ChargedKeys(points, windows, pvc);
    RuleSumsToOne(windows, pvc);
    forall j | j in all && j !in m.Keys ensures f(j) == 0.0 { NoCoefficient(m, j); }
    SumWiden(m.Keys, all, f);
    assert Total(m) == SumOver(m.Keys, f);
    if forall j :: j in all ==> f(j) == g(j) { SumAgree(all, f, g); }
  }

  lemma NoCoefficient(m: Components, k: PodKey)
    requires k !in m
    ensures CoefficientOf(m, k) == 0.0
  {
  }

  /** Only the windows' keys and unmounted are ever charged. */
  lemma ChargedKeys(points: seq<IntervalPoint>, windows: map<PodKey, Window>, pvc: Pvc)
    requires pvc.Duration() > 0 && IsPointList(points, windows)
    ensures CoefficientComponents(points, pvc).Keys <= windows.Keys + {UnmountedKey(pvc.cluster)}
  {
    assert points[..|points|] == points;
    SweptKeys(points, |points|, windows, pvc);
  }

  lemma {:induction false} SweptKeys(points: seq<IntervalPoint>, n: nat, windows: map<PodKey, Window>, pvc: Pvc)
    requires pvc.Duration() > 0 && n <= |points| && IsPointList(points, windows)
    ensures var s := SweepPoints(points[..n], pvc);
            s.active <= windows.Keys && s.components.Keys <= windows.Keys + {UnmountedKey(pvc.cluster)}
  {
    hide Fraction, EqualPart;
    if n > 0 {
      SweptKeys(points, n - 1, windows, pvc);
      assert points[..n][..n - 1] == points[..n - 1];
      assert points[n - 1] in points && IsPointOf(points[n - 1], windows);
    }
  }

  /** The rule, key by key. */
  ghost function RuleOf(windows: map<PodKey, Window>, pvc: Pvc): PodKey -> real
    requires pvc.Duration() > 0
  {
    k => SharesFraction(windows, pvc, k, pvc.start, pvc.end)
  }

  ghost function SharesUpTo(windows: map<PodKey, Window>, cluster: string, lo: int, hi: int): PodKey -> real {
    k => Shares(windows, cluster, k, lo, hi)
  }

  /** The per-instant rule gives out the whole life of the claim. */
  lemma RuleSumsToOne(windows: map<PodKey, Window>, pvc: Pvc)
    requires pvc.Duration() > 0
    ensures SumOver(windows.Keys + {UnmountedKey(pvc.cluster)}, RuleOf(windows, pvc)) == 1.0
  {
    hide Shares, SumOver;
    var all, d := windows.Keys + {UnmountedKey(pvc.cluster)}, pvc.Duration();
    var f := SharesUpTo(windows, pvc.cluster, pvc.start, pvc.end);
    InstantsAddUp(windows, pvc.cluster, pvc.start, pvc.end);
    forall k ensures RuleOf(windows, pvc)(k) == (1.0 / d as real) * f(k) { Invert(f(k), d as real); }
    SumScale(all, f, 1.0 / d as real, RuleOf(windows, pvc));
  }

  lemma Invert(x: real, d: real)
    requires d != 0.0
    ensures x / d == (1.0 / d) * x
  {
  }

  lemma {:induction false} InstantsAddUp(windows: map<PodKey, Window>, cluster: string, lo: int, hi: int)
    requires lo <= hi
    ensures SumOver(windows.Keys + {UnmountedKey(cluster)}, SharesUpTo(windows, cluster, lo, hi)) == (hi - lo) as real
    decreases hi - lo
  {
    hide SumOver, Share;
    var all := windows.Keys + {UnmountedKey(cluster)};
    if lo == hi {
      SumZero(all, SharesUpTo(windows, cluster, lo, hi));
    } else {
      var f := (k: PodKey) => Share(windows, cluster, k, hi - 1);
      InstantsAddUp(windows, cluster, lo, hi - 1);
      SharesOfInstant(windows, cluster, hi - 1);
      SumAgree(all, f, k => Share(windows, cluster, k, hi - 1));
      forall k ensures SharesUpTo(windows, cluster, lo, hi)(k) == SharesUpTo(windows, cluster, lo, hi - 1)(k) + f(k) {
        LastInstant(windows, cluster, k, lo, hi);
      }
      SumAdd(all, SharesUpTo(windows, cluster, lo, hi - 1), f, SharesUpTo(windows, cluster, lo, hi));
    }
  }

  lemma LastInstant(windows: map<PodKey, Window>, cluster: string, k: PodKey, lo: int, hi: int)
    requires lo < hi
    ensures Shares(windows, cluster, k, lo, hi)
            == Shares(windows, cluster, k, lo, hi - 1) + Share(windows, cluster, k, hi - 1)
  {
    hide Share;
    var f := (t: int) => Share(windows, cluster, k, t);
    SumRangeSplit(lo, hi - 1, hi, f);
  }

  /** The sharing part of applyPVCsToPods, end to end: from the pods' lives to one coefficient for
      every key. It is the per-instant rule exactly when every pod meets the claim, or every pod was
      over by the time the claim began. */
  method SharePvc(pods: map<PodKey, Window>, pvc: Pvc) returns (r: Result<map<PodKey, real>>)
    ensures r.Ok? <==> pvc.Duration() > 0
    ensures r.Ok? && Lives(pods, pvc) ==>
              ((forall k :: (if k in r.value then r.value[k] else 0.0)
                  == SharesFraction(Clipped(pods, pvc), pvc, k, pvc.start, pvc.end))
               <==> AllMeet(pods, pvc) || AllBefore(pods, pvc))
    ensures r.Ok? ==> forall k :: k in r.value && k !in pods ==> k == PodKey(pvc.cluster, "__unmounted__", "__unmounted__")
  {
    hide SharesFraction, AllMeet, AllBefore, CoefficientComponents;
    var windows := Clipped(pods, pvc);
    var points := GetIntervalPoints(windows);
    var components := GetPVCCostCoefficients(points, pvc);
    if components.Err? {
      return Err(components.message);
    }
    var m := components.value;
    var coefficients: map<PodKey, real> := map[];
    var todo := m.Keys;
    while todo != {}
      invariant todo <= m.Keys
      invariant coefficients.Keys == m.Keys - todo
      invariant forall k :: k in coefficients ==> coefficients[k] == Coefficient(m[k])
      decreases todo
    {
      var k :| k in todo;
      var c := GetCoefficientFromComponents(m[k]);
      coefficients := coefficients[k := c];
      todo := todo - {k};
    }
    ChargedKeys(points, windows, pvc);
    assert forall k :: (if k in coefficients then coefficients[k] else 0.0) == CoefficientOf(m, k);
    if Lives(pods, pvc) {
      FollowsRuleIff(pods, points, pvc);
    }
    return Ok(coefficients);
  }
}
