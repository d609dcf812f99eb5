/**
 Spreading load balancer costs over the allocations behind each service
 (pkg/costmodel/allocation_helpers.go: applyServicesToPods and applyLoadBalancersToPods).
 */
module LoadBalancers {
  import opened Times
  import opened Results
  import opened Workloads
  import opened Sums
  import opened Sorting

  datatype ServiceKey = ServiceKey(cluster: string, ns: string, service: string)

  datatype LoadBalancer = LoadBalancer(start: int, end: int, totalCost: real)

  type Labels = map<string, string>

  function Unmounted(cluster: string): AllocId {
    AllocId(PodKey(cluster, UNMOUNTED_SUFFIX, UNMOUNTED_SUFFIX), UNMOUNTED_SUFFIX)
  }

  /* ---------- which allocations a service has ---------- */

  /** The service's labels, read as a selector, match the pod's. */
  predicate Selects(selector: Labels, labels: Labels) {
    forall k :: k in selector ==> k in labels && labels[k] == selector[k]
  }

  function ListAt<K, V>(m: map<K, seq<V>>, k: K): seq<V> { if k in m then m[k] else [] }

  /** `xs` holds exactly the elements of `members`, once each. */
  ghost predicate Enumerates<T(!new)>(xs: seq<T>, members: iset<T>) {
    Distinct(xs) && forall x :: x in xs <==> x in members
  }

  /** What the services' labels say: which services a pod belongs to. */
  datatype Labelling = Labelling(services: map<ServiceKey, Labels>, pods: map<PodKey, Labels>) {
    predicate Matches(s: ServiceKey, p: PodKey) {
      && s in services && p in pods
      && s.cluster == p.cluster && s.ns == p.ns
      && Selects(services[s], pods[p])
    }
  }

  ghost function ServicesOf(l: Labelling, p: PodKey, except: set<ServiceKey>): iset<ServiceKey> {
    iset s | s !in except && l.Matches(s, p)
  }

  method MatchServices(l: Labelling) returns (podServices: map<PodKey, seq<ServiceKey>>)
    ensures forall p :: Enumerates(ListAt(podServices, p), ServicesOf(l, p, {}))
    ensures forall p :: p in podServices ==> podServices[p] != []
  {
    podServices := map[];
    var todo := l.services.Keys;
    assert forall p :: Enumerates(ListAt(podServices, p), ServicesOf(l, p, todo));
    hide Enumerates, ServicesOf;
    while todo != {}
      invariant todo <= l.services.Keys
      invariant forall p :: Enumerates(ListAt(podServices, p), ServicesOf(l, p, todo))
      invariant forall p :: p in podServices ==> podServices[p] != []
      decreases todo
    {
      var s :| s in todo;
      podServices := MatchOne(s, l, todo, podServices);
      todo := todo - {s};
    }
  }

  /** The pods of one service. */
  method MatchOne(s: ServiceKey, l: Labelling, ghost todo: set<ServiceKey>, before: map<PodKey, seq<ServiceKey>>)
    returns (after: map<PodKey, seq<ServiceKey>>)
    requires s in l.services && s in todo
    requires forall p :: Enumerates(ListAt(before, p), ServicesOf(l, p, todo))
    requires forall p :: p in before ==> before[p] != []
    ensures forall p :: Enumerates(ListAt(after, p), ServicesOf(l, p, todo - {s}))
    ensures forall p :: p in after ==> after[p] != []
  {
    hide Selects, Enumerates;
    after := before;
    var pods := l.pods.Keys;
    while pods != {}
      invariant pods <= l.pods.Keys
      invariant forall p :: ListAt(after, p) == ListAt(before, p) + Also(p !in pods && l.Matches(s, p), s)
      invariant forall p :: p in after ==> after[p] != []
      decreases pods
    {
      var p :| p in pods;
      pods := pods - {p};
      if s.cluster == p.cluster && s.ns == p.ns && Selects(l.services[s], l.pods[p]) {
        after := after[p := ListAt(after, p) + [s]];
      }
    }
    forall p ensures Enumerates(ListAt(after, p), ServicesOf(l, p, todo - {s})) {
      OneMore(ListAt(before, p), ServicesOf(l, p, todo), s, l.Matches(s, p), ServicesOf(l, p, todo - {s}));
    }
  }

  function Also<T>(added: bool, x: T): seq<T> { if added then [x] else [] }

  lemma OneMore<T(!new)>(xs: seq<T>, members: iset<T>, x: T, added: bool, more: iset<T>)
    requires Enumerates(xs, members) && x !in members
    requires forall y :: y in more <==> y in members || (y == x && added)
    ensures Enumerates(xs + Also(added, x), more)
  {
    var ys := xs + Also(added, x);
    forall y ensures y in ys <==> y in more {
      assert y in ys <==> y in xs || (added && y == x);
    }
  }

  type Pods = map<PodKey, set<string>>

  function AllocsIn(pods: Pods, keys: set<PodKey>): set<AllocId> {
    set p, c | p in keys && p in pods && c in pods[p] :: AllocId(p, c)
  }

  /** The allocations of a service, apart from those in `except`. */
  ghost function AllocsOf(l: Labelling, pods: Pods, s: ServiceKey, except: set<AllocId>): iset<AllocId> {
    iset id: AllocId | id.pod in pods && id.container in pods[id.pod] && id !in except && l.Matches(s, id.pod)
  }

  /** Every service lists its allocations once each, and no service lists nothing. */
  ghost predicate ServiceLists(m: map<ServiceKey, seq<AllocId>>, l: Labelling, pods: Pods, except: set<AllocId>) {
    && (forall s :: Enumerates(ListAt(m, s), AllocsOf(l, pods, s, except)))
    && (forall s :: s in m ==> m[s] != [])
  }

  /** applyServicesToPods: however the maps are read, no allocation is listed twice under a service. */
  method ApplyServices(l: Labelling, pods: Pods) returns (allocsByService: map<ServiceKey, seq<AllocId>>)
    ensures ServiceLists(allocsByService, l, pods, {})
    ensures forall s, id :: s in allocsByService && id in allocsByService[s] ==> BelongsTo(id.pod, s, l)
    ensures forall s, p, c :: p in pods && c in pods[p] && BelongsTo(p, s, l) ==>
              s in allocsByService && AllocId(p, c) in allocsByService[s]
  {
    hide Enumerates, ServicesOf, ServiceLists;
    var podServices := MatchServices(l);
    allocsByService := map[];
    var todo := pods.Keys;
    NothingListed(l, pods, allocsByService);
    while todo != {}
      invariant todo <= pods.Keys
      invariant ServiceLists(allocsByService, l, pods, AllocsIn(pods, todo))
      decreases todo
    {
      var p :| p in todo;
      var containers := pods[p];
      ghost var rest := AllocsIn(pods, todo - {p});
      assert AllocsIn(pods, todo) == rest + set c | c in containers :: AllocId(p, c);
      while containers != {}
        invariant containers <= pods[p]
        invariant ServiceLists(allocsByService, l, pods, rest + set c | c in containers :: AllocId(p, c))
        decreases containers
      {
        var c :| c in containers;
        ghost var except := rest + set c | c in containers :: AllocId(p, c);
        allocsByService := ListUnder(AllocId(p, c), ListAt(podServices, p), l, pods, except, allocsByService);
        assert except - {AllocId(p, c)} == rest + set d | d in containers - {c} :: AllocId(p, d);
        containers := containers - {c};
      }
      assert rest + (set c | c in containers :: AllocId(p, c)) == rest;
      todo := todo - {p};
    }
    assert AllocsIn(pods, todo) == {};
    ListsBelong(allocsByService, l, pods);
  }

  /** The pod is of the service's cluster and namespace and has every label that the service asks for. */
  ghost predicate BelongsTo(p: PodKey, s: ServiceKey, l: Labelling) {
    && s in l.services && p in l.pods && p.cluster == s.cluster && p.ns == s.ns
    && forall k :: k in l.services[s] ==> k in l.pods[p] && l.pods[p][k] == l.services[s][k]
  }

  lemma ListsBelong(m: map<ServiceKey, seq<AllocId>>, l: Labelling, pods: Pods)
    requires ServiceLists(m, l, pods, {})
    ensures forall s, id :: s in m && id in m[s] ==> BelongsTo(id.pod, s, l)
    ensures forall s, p, c :: p in pods && c in pods[p] && BelongsTo(p, s, l) ==> s in m && AllocId(p, c) in m[s]
  {
    hide Distinct;
    forall s, id | s in m && id in m[s] ensures BelongsTo(id.pod, s, l) {
      assert Enumerates(ListAt(m, s), AllocsOf(l, pods, s, {}));
      assert id in AllocsOf(l, pods, s, {});
    }
    forall s, p, c | p in pods && c in pods[p] && BelongsTo(p, s, l) ensures s in m && AllocId(p, c) in m[s] {
      assert Enumerates(ListAt(m, s), AllocsOf(l, pods, s, {}));
      assert AllocId(p, c) in AllocsOf(l, pods, s, {});
    }
  }

  lemma NothingListed(l: Labelling, pods: Pods, m: map<ServiceKey, seq<AllocId>>)
    requires m == map[]
    ensures ServiceLists(m, l, pods, AllocsIn(pods, pods.Keys))
  {
    forall s ensures Enumerates(ListAt(m, s), AllocsOf(l, pods, s, AllocsIn(pods, pods.Keys))) {
    }
  }

  /** One allocation, listed under each service of its pod. */
  method ListUnder(id: AllocId, services: seq<ServiceKey>, l: Labelling, pods: Pods, ghost except: set<AllocId>,
                   before: map<ServiceKey, seq<AllocId>>)
    returns (after: map<ServiceKey, seq<AllocId>>)
    requires id.pod in pods && id.container in pods[id.pod] && id in except
    requires Enumerates(services, ServicesOf(l, id.pod, {}))
    requires ServiceLists(before, l, pods, except)
    ensures ServiceLists(after, l, pods, except - {id})
  {
    after := AppendUnder(id, services, before);
    forall s ensures Enumerates(ListAt(after, s), AllocsOf(l, pods, s, except - {id})) {
      assert s in services <==> l.Matches(s, id.pod);
      OneMore(ListAt(before, s), AllocsOf(l, pods, s, except), id, s in services, AllocsOf(l, pods, s, except - {id}));
    }
  }

  method AppendUnder(id: AllocId, services: seq<ServiceKey>, before: map<ServiceKey, seq<AllocId>>)
    returns (after: map<ServiceKey, seq<AllocId>>)
    requires Distinct(services)
    requires forall s :: s in before ==> before[s] != []
    ensures forall s :: ListAt(after, s) == ListAt(before, s) + Also(s in services, id)
    ensures forall s :: s in after ==> after[s] != []
  {
    after := before;
    for i := 0 to |services|
      invariant forall s :: ListAt(after, s) == ListAt(before, s) + Also(s in services[..i], id)
      invariant forall s :: s in after ==> after[s] != []
    {
      assert services[i] !in services[..i];
      assert forall s :: s in services[..i + 1] <==> s in services[..i] || s == services[i];
      after := after[services[i] := ListAt(after, services[i]) + [id]];
    }
    assert services[..|services|] == services;
  }

  /* ---------- what each allocation pays ---------- */

  type Costs = map<AllocId, real>

  type Lives = AllocId -> Window

  function CostAt(m: Costs, id: AllocId): real { if id in m then m[id] else 0.0 }

  function CostsOf(m: Costs): AllocId -> real { id => CostAt(m, id) }

  ghost function Total(m: Costs): real { SumOver(m.Keys, CostsOf(m)) }

  /** Time both are alive; zero or less if they never are. */
  function Overlap(lb: LoadBalancer, w: Window): int {
    (if lb.end < w.end then lb.end else w.end) - (if lb.start > w.start then lb.start else w.start)
  }

  function Hours(lb: LoadBalancer, lives: Lives, id: AllocId): real {
    if Overlap(lb, lives(id)) > 0 then Overlap(lb, lives(id)) as real else 0.0
  }

  function HoursOf(lb: LoadBalancer, lives: Lives): AllocId -> real { id => Hours(lb, lives, id) }

  /** The allocations of a list that overlap the load balancer's life. */
  function Overlapping(lb: LoadBalancer, lives: Lives, allocs: seq<AllocId>): set<AllocId> {
    set id | id in allocs && Overlap(lb, lives(id)) > 0
  }

  /** The whole list's overlap, each listing counted. */
  ghost function TotalHours(lb: LoadBalancer, lives: Lives, allocs: seq<AllocId>): real {
    SumSeq(allocs, HoursOf(lb, lives))
  }

  function Proportion(cost: real, hours: real, total: real): real { if total == 0.0 then 0.0 else cost * hours / total }

  function ListedIn(allocs: Option<seq<AllocId>>): seq<AllocId> { if allocs.Some? then allocs.value else [] }

  /** An allocation's part of the cost, by the time it overlaps the load balancer's life. */
  ghost function OverlapPart(lb: LoadBalancer, lives: Lives, list: seq<AllocId>, id: AllocId): real {
    if id in Overlapping(lb, lives, list) then Proportion(lb.totalCost, Hours(lb, lives, id), TotalHours(lb, lives, list)) else 0.0
  }

  /** What one load balancer adds to an allocation: its part by overlap; and for the cluster's
      unmounted allocation the whole cost if nothing overlaps, and once more if the service is unknown. */
  ghost function Part(s: ServiceKey, lb: LoadBalancer, lives: Lives, allocs: Option<seq<AllocId>>, id: AllocId): real {
    var list := ListedIn(allocs);
    OverlapPart(lb, lives, list, id)
    + (if id == Unmounted(s.cluster) && Overlapping(lb, lives, list) == {} then lb.totalCost else 0.0)
    + (if id == Unmounted(s.cluster) && allocs.None? then lb.totalCost else 0.0)
  }

  ghost function PartOf(s: ServiceKey, lb: LoadBalancer, lives: Lives, allocs: Option<seq<AllocId>>): AllocId -> real {
    id => Part(s, lb, lives, allocs, id)
  }

  predicate During(t: int, start: int, end: int) { start <= t < end }

  ghost function Instants(start: int, end: int): set<int> { set t | start <= t < end && During(t, start, end) }

  /** The instants at which both the load balancer and the allocation live. */
  ghost function SharedInstants(lb: LoadBalancer, w: Window): set<int> {
    set t | lb.start <= t < lb.end && During(t, w.start, w.end)
  }

  lemma {:induction false} InstantsBetween(lo: int, hi: int)
    ensures |Instants(lo, hi)| == if lo < hi then hi - lo else 0
    decreases hi - lo
  {
    if lo < hi {
      InstantsBetween(lo, hi - 1);
      assert Instants(lo, hi) == Instants(lo, hi - 1) + {hi - 1};
    } else {
      assert Instants(lo, hi) == {};
    }
  }

  /** Hours are counted over exactly the instants that both live. */
  lemma HoursAreShared(lb: LoadBalancer, lives: Lives, id: AllocId)
    ensures Hours(lb, lives, id) == |SharedInstants(lb, lives(id))| as real
  {
    var w := lives(id);
    var lo, hi := if lb.start > w.start then lb.start else w.start, if lb.end < w.end then lb.end else w.end;
    InstantsBetween(lo, hi);
    assert SharedInstants(lb, w) == Instants(lo, hi);
  }

  /** Who shares no instant gets no part, and two parts stand in the ratio of the instants shared. */
  lemma PartsBySharedInstants(lb: LoadBalancer, lives: Lives, list: seq<AllocId>, a: AllocId, b: AllocId)
    ensures SharedInstants(lb, lives(a)) == {} ==> OverlapPart(lb, lives, list, a) == 0.0
    ensures a in list && b in list ==>
              OverlapPart(lb, lives, list, a) * |SharedInstants(lb, lives(b))| as real
              == OverlapPart(lb, lives, list, b) * |SharedInstants(lb, lives(a))| as real
  {
    hide SharedInstants, TotalHours, Proportion;
    HoursAreShared(lb, lives, a);
    HoursAreShared(lb, lives, b);
    if a in list && b in list {
      ProportionRatio(lb.totalCost, Hours(lb, lives, a), Hours(lb, lives, b), TotalHours(lb, lives, list));
    }
  }

  lemma ProportionRatio(cost: real, x: real, y: real, total: real)
    ensures Proportion(cost, x, total) * y == Proportion(cost, y, total) * x
  {
    if total != 0.0 {
      var factor := Proportion(cost, 1.0, total);
      Refactor(cost, x, total, factor);
      Refactor(cost, y, total, factor);
      assert factor * x * y == factor * y * x;
    }
  }

  /** What a load balancer gives goes to listed allocations that it overlaps, or to its own cluster's unmounted one. */
  lemma PartGoesTo(s: ServiceKey, lb: LoadBalancer, lives: Lives, allocs: Option<seq<AllocId>>, id: AllocId)
    requires Part(s, lb, lives, allocs, id) != 0.0
    ensures (id in ListedIn(allocs) && SharedInstants(lb, lives(id)) != {})
            || (id == AllocId(PodKey(s.cluster, "__unmounted__", "__unmounted__"), "__unmounted__")
                && (forall other :: other in ListedIn(allocs) ==> SharedInstants(lb, lives(other)) == {}))
  {
    hide SharedInstants, TotalHours, Proportion;
    forall other ensures Overlap(lb, lives(other)) > 0 <==> SharedInstants(lb, lives(other)) != {} {
      HoursAreShared(lb, lives, other);
      assert |SharedInstants(lb, lives(other))| == 0 <==> SharedInstants(lb, lives(other)) == {};
    }
    var list := ListedIn(allocs);
    if id in Overlapping(lb, lives, list) {
      assert id in list && Overlap(lb, lives(id)) > 0;
    } else {
      assert id == Unmounted(s.cluster) && (Overlapping(lb, lives, list) == {} || list == []);
      forall other | other in list ensures SharedInstants(lb, lives(other)) == {} {
        assert other !in Overlapping(lb, lives, list);
      }
    }
  }

  lemma ProportionsAddUp(keys: set<AllocId>, cost: real, hours: AllocId -> real, total: real, part: AllocId -> real)
    requires total != 0.0 && total == SumOver(keys, hours)
    requires forall id :: id in keys ==> part(id) == Proportion(cost, hours(id), total)
    ensures SumOver(keys, part) == cost
  {
    hide SumOver, Proportion;
    var factor := Proportion(cost, 1.0, total);
    forall id | id in keys ensures part(id) == factor * hours(id) {
      Refactor(cost, hours(id), total, factor);
    }
    SumScale(keys, hours, factor, part);
    Whole(cost, total, factor);
  }

  lemma Refactor(cost: real, hours: real, total: real, factor: real)
    requires total != 0.0 && factor == Proportion(cost, 1.0, total)
    ensures Proportion(cost, hours, total) == factor * hours
  {
    var inverse := 1.0 / total;
    assert factor == cost * inverse;
    assert cost * hours / total == (cost * hours) * inverse;
  }

  lemma Whole(cost: real, total: real, factor: real)
    requires total != 0.0 && factor == Proportion(cost, 1.0, total)
    ensures factor * total == cost
  {
  }

  lemma HoursPositive(lb: LoadBalancer, lives: Lives, allocs: seq<AllocId>)
    requires Overlapping(lb, lives, allocs) != {} && Distinct(allocs)
    ensures TotalHours(lb, lives, allocs) == SumOver(Overlapping(lb, lives, allocs), HoursOf(lb, lives)) > 0.0
  {
    hide SumOver;
    var overlapping := Overlapping(lb, lives, allocs);
    var all := set id | id in allocs;
    SumSeqAsSet(allocs, HoursOf(lb, lives));
    SumWiden(overlapping, all, HoursOf(lb, lives));
    SumPositive(overlapping, HoursOf(lb, lives));
  }

  /** The parts add up to the load balancer's cost: exactly once for a service that is listed,
      without repetition, and twice for one that is not. */
  lemma PartsAddUp(s: ServiceKey, lb: LoadBalancer, lives: Lives, allocs: Option<seq<AllocId>>, keys: set<AllocId>)
    requires allocs.Some? ==> Distinct(allocs.value)
    requires forall id :: id !in keys ==> Part(s, lb, lives, allocs, id) == 0.0
    requires Unmounted(s.cluster) in keys && (allocs.Some? ==> Overlapping(lb, lives, allocs.value) <= keys)
    ensures SumOver(keys, PartOf(s, lb, lives, allocs)) == lb.totalCost * (if allocs.None? then 2.0 else 1.0)
  {
    hide SumOver, TotalHours, Proportion, Overlap;
    var u := Unmounted(s.cluster);
    var list := ListedIn(allocs);
    var overlapping := Overlapping(lb, lives, list);
    var part := PartOf(s, lb, lives, allocs);
    if overlapping == {} {
      SumPick(keys, part, u);
      SumZero(keys - {u}, part);
    } else {
      HoursPositive(lb, lives, list);
      SumWiden(overlapping, keys, part);
      ProportionsAddUp(overlapping, lb.totalCost, HoursOf(lb, lives), TotalHours(lb, lives, list), part);
    }
  }

  /** Adding a part to every allocation adds the sum of the parts to the total. */
  lemma TotalShifts(before: Costs, after: Costs, part: AllocId -> real)
    requires before.Keys <= after.Keys
    requires forall id :: id in after ==> CostAt(after, id) == CostAt(before, id) + part(id)
    ensures Total(after) == Total(before) + SumOver(after.Keys, part)
  {
    SumAdd(after.Keys, CostsOf(before), part, CostsOf(after));
    SumWiden(before.Keys, after.Keys, CostsOf(before));
  }

  /** What an allocation keeps of a load balancer. */
  datatype LbRecord = LbRecord(cost: real, hours: real)

  type Records = map<(AllocId, ServiceKey), LbRecord>

  function RecordAt(m: Records, id: AllocId, s: ServiceKey): LbRecord {
    if (id, s) in m then m[(id, s)] else LbRecord(0.0, 0.0)
  }

  function Grown(r: LbRecord, cost: real, hours: real): LbRecord { LbRecord(r.cost + cost, r.hours + hours) }

  function HoursIn(allocHours: map<AllocId, real>, id: AllocId): real {
    if id in allocHours then allocHours[id] else 0.0
  }

  /** The overlap of every listed allocation, and their sum. */
  method MeasureOverlap(lb: LoadBalancer, lives: Lives, allocs: seq<AllocId>)
    returns (allocHours: map<AllocId, real>, totalHours: real)
    ensures allocHours.Keys == Overlapping(lb, lives, allocs)
    ensures forall id :: id in allocHours ==> allocHours[id] == Hours(lb, lives, id)
    ensures totalHours == TotalHours(lb, lives, allocs)
  {
    allocHours, totalHours := map[], 0.0;
    for i := 0 to |allocs|
      invariant allocHours.Keys == Overlapping(lb, lives, allocs[..i])
      invariant forall id :: id in allocHours ==> allocHours[id] == Hours(lb, lives, id)
      invariant totalHours == SumSeq(allocs[..i], HoursOf(lb, lives))
    {
      var id := allocs[i];
      assert allocs[..i + 1][..i] == allocs[..i];
      assert forall x :: x in allocs[..i + 1] <==> x in allocs[..i] || x == id;
      var w := lives(id);
      var s, e := w.start, w.end;
      if lb.start > w.start { s := lb.start; }
      if lb.end < w.end { e := lb.end; }
      if e - s > 0 {
        totalHours := totalHours + (e - s) as real;
        allocHours := allocHours[id := (e - s) as real];
      }
    }
    assert allocs[..|allocs|] == allocs;
  }

  class Ledger {
    var cost: Costs         // LoadBalancerCost of every allocation
    var recorded: Records   // LoadBalancers[service], by its cost and hours

    method Add(id: AllocId, x: real)
      modifies this`cost
      ensures cost == old(cost)[id := CostAt(old(cost), id) + x]
    {
      cost := cost[id := CostAt(cost, id) + x];
    }

    /** Each overlapping allocation gets its part, in the map's order. */
    method Distribute(total: real, allocHours: map<AllocId, real>, totalHours: real)
      requires allocHours.Keys != {} ==> totalHours != 0.0
      modifies this`cost
      ensures cost.Keys == old(cost).Keys + allocHours.Keys
      ensures forall id :: CostAt(cost, id)
                == CostAt(old(cost), id)
                  + (if id in allocHours then Proportion(total, allocHours[id], totalHours) else 0.0)
    {
      hide Proportion;
      var todo := allocHours.Keys;
      while todo != {}
        invariant todo <= allocHours.Keys
        invariant cost.Keys == old(cost).Keys + (allocHours.Keys - todo)
        invariant forall id :: CostAt(cost, id)
                    == CostAt(old(cost), id)
                      + (if id in allocHours && id !in todo then Proportion(total, allocHours[id], totalHours) else 0.0)
        decreases todo
      {
        var id :| id in todo;
        Add(id, Proportion(total, allocHours[id], totalHours));
        todo := todo - {id};
      }
    }

    /** Each listed allocation records the load balancer, with all the cost it has by now. */
    method Record(s: ServiceKey, allocs: seq<AllocId>, allocHours: map<AllocId, real>)
      modifies this`recorded
      ensures Distinct(allocs) ==> forall id, r ::
                RecordAt(recorded, id, r) == if r == s && id in allocs
                                             then Grown(RecordAt(old(recorded), id, r), CostAt(cost, id), HoursIn(allocHours, id))
                                             else RecordAt(old(recorded), id, r)
    {
      for i := 0 to |allocs|
        invariant Distinct(allocs) ==> forall id, r ::
                    RecordAt(recorded, id, r) == if r == s && id in allocs[..i]
                                                 then Grown(RecordAt(old(recorded), id, r), CostAt(cost, id), HoursIn(allocHours, id))
                                                 else RecordAt(old(recorded), id, r)
      {
        assert allocs[..i + 1] == allocs[..i] + [allocs[i]];
        assert Distinct(allocs) ==> allocs[i] !in allocs[..i];
        var hours := if allocs[i] in allocHours then allocHours[allocs[i]] else 0.0;
        recorded := recorded[(allocs[i], s) := Grown(RecordAt(recorded, allocs[i], s), CostAt(cost, allocs[i]), hours)];
      }
      assert allocs[..|allocs|] == allocs;
    }

    /** The overlapping allocations get their parts, and all listed ones their records. */
    method Share(s: ServiceKey, lb: LoadBalancer, list: seq<AllocId>, lives: Lives) returns (overlap: bool)
      modifies this
      ensures old(cost).Keys <= cost.Keys && overlap == (Overlapping(lb, lives, list) != {})
      ensures forall id :: CostAt(cost, id) == CostAt(old(cost), id) + OverlapPart(lb, lives, list, id)
      ensures Distinct(list) ==> RecordsOne(recorded, old(recorded), old(cost), s, lb, lives, list)
    {
      hide SumOver, SumSeq, Proportion, Overlap, TotalHours, Overlapping, Distinct, Hours;
      var allocHours, totalHours := MeasureOverlap(lb, lives, list);
      if allocHours.Keys != {} { OverlapIsPositive(lb, lives, list); }
      Distribute(lb.totalCost, allocHours, totalHours);
      forall id | id in list ensures HoursIn(allocHours, id) == Hours(lb, lives, id) { NoHours(lb, lives, list, id); }
      Record(s, list, allocHours);
      overlap := |allocHours.Keys| != 0;
    }

    /** The charges and records of one load balancer. */
    method ApplyParts(s: ServiceKey, lb: LoadBalancer, allocs: Option<seq<AllocId>>, lives: Lives)
      modifies this
      ensures old(cost).Keys <= cost.Keys
      ensures forall id :: CostAt(cost, id) == CostAt(old(cost), id) + Part(s, lb, lives, allocs, id)
      ensures Distinct(ListedIn(allocs)) ==>
                RecordsOne(recorded, old(recorded), old(cost), s, lb, lives, ListedIn(allocs))
    {
      hide SumOver, SumSeq, TotalHours, Overlapping, OverlapPart, Distinct, Hours;
      var u := Unmounted(s.cluster);
      if allocs.None? {
        Add(u, lb.totalCost);
      }
      var overlap := Share(s, lb, ListedIn(allocs), lives);
      if !overlap {
        Add(u, lb.totalCost);
      }
    }

    /** One load balancer: every allocation's cost grows by its part, and the total by the load
        balancer's cost, once if its service is listed and twice if not. */
    method ApplyLoadBalancer(s: ServiceKey, lb: LoadBalancer, allocs: Option<seq<AllocId>>, lives: Lives)
      modifies this
      ensures forall id :: CostAt(cost, id) == CostAt(old(cost), id) + Part(s, lb, lives, allocs, id)
      ensures Distinct(ListedIn(allocs)) ==>
                RecordsOne(recorded, old(recorded), old(cost), s, lb, lives, ListedIn(allocs))
      ensures (allocs.Some? ==> Distinct(allocs.value)) ==>
                Total(cost) == Total(old(cost)) + lb.totalCost * (if allocs.None? then 2.0 else 1.0)
    {
      hide Part, Total, CostAt, Distinct, RecordsOne;
      ApplyParts(s, lb, allocs, lives);
      if allocs.Some? ==> Distinct(allocs.value) {
        LedgerAddsUp(old(cost), cost, s, lb, lives, allocs);
      }
    }

    /** applyLoadBalancersToPods: all load balancers, in the map's order. */
    method ApplyLoadBalancers(lbs: Balancers, listed: Listing, lives: Lives) returns (ghost order: seq<ServiceKey>)
      requires forall s :: s in listed ==> Distinct(listed[s])
      modifies this
      ensures Orders(order, lbs.Keys)
      ensures Total(cost) == Total(old(cost)) + SumOver(lbs.Keys, Charged(lbs, listed))
      ensures forall id ::
          CostAt(cost, id) == CostAt(old(cost), id) + SumOver(lbs.Keys, PartsFor(lbs, listed, lives, id))
      ensures forall id, s ::
          RecordAt(recorded, id, s)
            == Recorded(RecordAt(old(recorded), id, s), old(cost), order, lbs, listed, lives, id, s)
    {
      hide SumOver, SumSeq, Part, Distinct, Total, Charged, Recorded, RecordsOne, PartsFor, Orders;
      var todo := lbs.Keys;
      order := [];
      ghost var done: set<ServiceKey> := {};
      SumZero(done, Charged(lbs, listed));
      OrderNone<ServiceKey>();
      NothingYet(recorded, cost, lbs, listed, lives);
      assert forall s :: Distinct(ListAt(listed, s)) by { NoneTwice(listed); }
      while todo != {}
        invariant todo <= lbs.Keys && done == lbs.Keys - todo && Orders(order, done)
        invariant Total(cost) == Total(old(cost)) + SumOver(done, Charged(lbs, listed))
        invariant forall id ::
            CostAt(cost, id) == CostAt(old(cost), id) + SumSeq(order, PartsFor(lbs, listed, lives, id))
        invariant forall id, s ::
            RecordAt(recorded, id, s)
              == Recorded(RecordAt(old(recorded), id, s), old(cost), order, lbs, listed, lives, id, s)
        decreases todo
      {
        var s :| s in todo;
        assert Distinct(ListAt(listed, s));
        ghost var cost0, recorded0 := cost, recorded;
        ApplyLoadBalancer(s, lbs[s], if s in listed then Some(listed[s]) else None, lives);
        ChargedAt(lbs, listed, s);
        SumPick(done + {s}, Charged(lbs, listed), s);
        assert done + {s} - {s} == done;
        OrderMore(order, done, s);
        forall id
          ensures CostAt(cost, id) == CostAt(old(cost), id) + SumSeq(order + [s], PartsFor(lbs, listed, lives, id))
        {
          OnePartMore(order, s, lbs, listed, lives, id);
        }
        RecordsMore(recorded, recorded0, old(recorded), cost0, old(cost), order, done, s, lbs, listed, lives);
        order := order + [s];
        done := done + {s};
        todo := todo - {s};
      }
      assert done == lbs.Keys;
      forall id
        ensures CostAt(cost, id) == CostAt(old(cost), id) + SumOver(lbs.Keys, PartsFor(lbs, listed, lives, id))
      {
        OrderSums(order, lbs.Keys, PartsFor(lbs, listed, lives, id));
      }
    }

    /** Services first, then load balancers, as the cost model runs them. */
    method SpreadLoadBalancers(l: Labelling, pods: Pods, lbs: Balancers, lives: Lives)
      returns (ghost listed: Listing, ghost order: seq<ServiceKey>)
      modifies this
      ensures ServiceLists(listed, l, pods, {}) && Orders(order, lbs.Keys)
      ensures Total(cost) == Total(old(cost)) + SumOver(lbs.Keys, ChargedFor(lbs, l, pods))
      ensures forall id ::
          CostAt(cost, id) == CostAt(old(cost), id) + SumOver(lbs.Keys, PartsFor(lbs, listed, lives, id))
      ensures forall id, s ::
          RecordAt(recorded, id, s)
            == Recorded(RecordAt(old(recorded), id, s), old(cost), order, lbs, listed, lives, id, s)
    {
      hide SumOver, Recorded, PartsFor;
      var lists := ApplyServices(l, pods);
      assert forall s :: s in lists ==> Enumerates(ListAt(lists, s), AllocsOf(l, pods, s, {}));
      order := ApplyLoadBalancers(lbs, lists, lives);
      listed := lists;
      forall s | s in lbs ensures Charged(lbs, listed)(s) == ChargedFor(lbs, l, pods)(s) {
        ListedIff(listed, l, pods, s);
      }
      SumAgree(lbs.Keys, Charged(lbs, listed), ChargedFor(lbs, l, pods));
    }
  }

  /* ---------- what the records hold ---------- */

  type Balancers = map<ServiceKey, LoadBalancer>

  type Listing = map<ServiceKey, seq<AllocId>>

  lemma NoHours(lb: LoadBalancer, lives: Lives, list: seq<AllocId>, id: AllocId)
    requires id in list
    ensures id !in Overlapping(lb, lives, list) ==> Hours(lb, lives, id) == 0.0
  {
  }

  /** One load balancer's records: the hours, and the allocation's whole cost so far. */
  ghost predicate RecordsOne(after: Records, before: Records, cost: Costs, s: ServiceKey, lb: LoadBalancer,
                             lives: Lives, list: seq<AllocId>) {
    forall id, r ::
      RecordAt(after, id, r) == if r == s && id in list
                                then Grown(RecordAt(before, id, r),
                                           CostAt(cost, id) + OverlapPart(lb, lives, list, id), Hours(lb, lives, id))
                                else RecordAt(before, id, r)
  }

  /** What each load balancer adds to one allocation. */
  ghost function PartsFor(lbs: Balancers, listed: Listing, lives: Lives, id: AllocId): ServiceKey -> real {
    s => if s in lbs then Part(s, lbs[s], lives, if s in listed then Some(listed[s]) else None, id) else 0.0
  }

  /** What comes before the key in the order. */
  function Before(order: seq<ServiceKey>, s: ServiceKey): seq<ServiceKey> {
    if order == [] then [] else
      var init := order[..|order| - 1];
      if s in init then Before(init, s) else if order[|order| - 1] == s then init else order
  }

  /** The load balancer's record grows by this much, its own part being the last term. */
  ghost function Growth(cost: Costs, order: seq<ServiceKey>, lbs: Balancers, listed: Listing, lives: Lives, id: AllocId,
                        s: ServiceKey): real
    requires s in lbs && s in listed
  {
    CostAt(cost, id) + SumSeq(Before(order, s), PartsFor(lbs, listed, lives, id))
      + OverlapPart(lbs[s], lives, listed[s], id)
  }

  ghost predicate Listed(lbs: Balancers, listed: Listing, id: AllocId, s: ServiceKey) {
    s in lbs && s in listed && id in listed[s]
  }

  /** A record after the load balancers of `order`. */
  ghost function Recorded(before: LbRecord, cost: Costs, order: seq<ServiceKey>, lbs: Balancers, listed: Listing,
                          lives: Lives, id: AllocId, s: ServiceKey): LbRecord {
    if s in order && Listed(lbs, listed, id, s)
    then Grown(before, Growth(cost, order, lbs, listed, lives, id, s), Hours(lbs[s], lives, id))
    else before
  }

  lemma NoneTwice(listed: Listing)
    requires forall s :: s in listed ==> Distinct(listed[s])
    ensures forall s :: Distinct(ListAt(listed, s))
  {
  }

  lemma NothingYet(recorded: Records, cost: Costs, lbs: Balancers, listed: Listing, lives: Lives)
    ensures forall id, s ::
        RecordAt(recorded, id, s) == Recorded(RecordAt(recorded, id, s), cost, [], lbs, listed, lives, id, s)
    ensures forall id :: SumSeq([], PartsFor(lbs, listed, lives, id)) == 0.0
  {
  }

  lemma OnePartMore(order: seq<ServiceKey>, s: ServiceKey, lbs: Balancers, listed: Listing, lives: Lives, id: AllocId)
    requires s in lbs
    ensures SumSeq(order + [s], PartsFor(lbs, listed, lives, id))
         == SumSeq(order, PartsFor(lbs, listed, lives, id))
           + Part(s, lbs[s], lives, if s in listed then Some(listed[s]) else None, id)
  {
    assert (order + [s])[..|order|] == order;
  }

  lemma BeforeMore(order: seq<ServiceKey>, x: ServiceKey, s: ServiceKey)
    ensures s in order ==> Before(order + [x], s) == Before(order, s)
    ensures s == x && s !in order ==> Before(order + [x], s) == order
  {
    assert (order + [x])[..|order|] == order;
  }

  lemma RecordsMore(after: Records, before: Records, first: Records, cost: Costs, cost0: Costs, order: seq<ServiceKey>,
                    done: set<ServiceKey>,
                    x: ServiceKey, lbs: Balancers, listed: Listing, lives: Lives)
    requires x in lbs && x !in done && Orders(order, done)
    requires forall id :: CostAt(cost, id) == CostAt(cost0, id) + SumSeq(order, PartsFor(lbs, listed, lives, id))
    requires forall id, s ::
        RecordAt(before, id, s) == Recorded(RecordAt(first, id, s), cost0, order, lbs, listed, lives, id, s)
    requires RecordsOne(after, before, cost, x, lbs[x], lives, ListAt(listed, x))
    ensures forall id, s ::
        RecordAt(after, id, s) == Recorded(RecordAt(first, id, s), cost0, order + [x], lbs, listed, lives, id, s)
  {
    hide PartsFor, SumSeq, Before, Hours, OverlapPart, CostAt, RecordAt;
    forall id, s
      ensures RecordAt(after, id, s) == Recorded(RecordAt(first, id, s), cost0, order + [x], lbs, listed, lives, id, s)
    {
      BeforeMore(order, x, s);
      assert RecordAt(before, id, s) == Recorded(RecordAt(first, id, s), cost0, order, lbs, listed, lives, id, s);
      assert CostAt(cost, id) == CostAt(cost0, id) + SumSeq(order, PartsFor(lbs, listed, lives, id));
    }
  }

  lemma OrderSums(order: seq<ServiceKey>, keys: set<ServiceKey>, f: ServiceKey -> real)
    requires Orders(order, keys)
    ensures SumSeq(order, f) == SumOver(keys, f)
  {
    SumSeqAsSet(order, f);
    assert keys == set s | s in order;
  }

  lemma {:induction false} BeforeIsOther(order: seq<ServiceKey>, s: ServiceKey)
    ensures forall x :: x in Before(order, s) ==> x in order && x != s
  {
    if order != [] { BeforeIsOther(order[..|order| - 1], s); }
  }

  lemma {:induction false} SumSeqNothing(order: seq<ServiceKey>, f: ServiceKey -> real)
    requires forall x :: x in order ==> f(x) == 0.0
    ensures SumSeq(order, f) == 0.0
  {
    if order != [] { SumSeqNothing(order[..|order| - 1], f); }
  }

  /** An order that begins with the given keys. */
  lemma OrderFrom(first: seq<ServiceKey>, keys: set<ServiceKey>) returns (order: seq<ServiceKey>)
    requires Distinct(first) && forall x :: x in first ==> x in keys
    ensures Orders(order, keys) && first <= order
  {
    var firsts := set x | x in first;
    var rest := OrderExists(keys - firsts);
    order := first + rest;
    OrdersJoin(first, firsts, rest, keys - firsts);
    assert firsts + (keys - firsts) == keys;
  }

  lemma {:induction false} BeforePrefix(first: seq<ServiceKey>, order: seq<ServiceKey>, s: ServiceKey)
    requires first <= order && s in first
    ensures Before(order, s) == Before(first, s)
    decreases |order|
  {
    if |first| < |order| {
      var init := order[..|order| - 1];
      assert first <= init && s in init;
      BeforePrefix(first, init, s);
    } else {
      assert order == first;
    }
  }

  /** What a pass adds to a listed allocation's record: all the cost gathered by then, and the instants shared. */
  lemma RecordGrows(before: LbRecord, cost: Costs, order: seq<ServiceKey>, lbs: Balancers, listed: Listing, lives: Lives,
                    id: AllocId, s: ServiceKey)
    requires Listed(lbs, listed, id, s) && Orders(order, lbs.Keys)
    ensures var after := Recorded(before, cost, order, lbs, listed, lives, id, s);
            && after.cost == before.cost + Growth(cost, order, lbs, listed, lives, id, s)
            && after.hours == before.hours + |SharedInstants(lbs[s], lives(id))| as real
  {
    hide Growth, Hours, SharedInstants;
    HoursAreShared(lbs[s], lives, id);
  }

  /** A listed allocation's record of a load balancer grows, in every order, by exactly the load balancer's own
      part if and only if the allocation had no cost before and no other load balancer gives it a part. */
  lemma RecordIsOwnPartIff(before: LbRecord, cost: Costs, lbs: Balancers, listed: Listing, lives: Lives, id: AllocId,
                           s: ServiceKey)
    requires Listed(lbs, listed, id, s)
    ensures (forall order :: Orders(order, lbs.Keys) ==>
               Recorded(before, cost, order, lbs, listed, lives, id, s).cost
                 == before.cost + OverlapPart(lbs[s], lives, listed[s], id))
       <==> CostAt(cost, id) == 0.0 && forall r :: r in lbs && r != s ==> PartsFor(lbs, listed, lives, id)(r) == 0.0
  {
    hide Recorded, Growth, PartsFor, OverlapPart, CostAt;
    forall order | Orders(order, lbs.Keys)
      ensures Recorded(before, cost, order, lbs, listed, lives, id, s).cost
              == before.cost + Growth(cost, order, lbs, listed, lives, id, s)
    {
      RecordGrows(before, cost, order, lbs, listed, lives, id, s);
    }
    GrowthIsOwnPartIff(cost, lbs, listed, lives, id, s);
  }

  lemma GrowthIsOwnPartIff(cost: Costs, lbs: Balancers, listed: Listing, lives: Lives, id: AllocId, s: ServiceKey)
    requires Listed(lbs, listed, id, s)
    ensures (forall order :: Orders(order, lbs.Keys) ==>
               Growth(cost, order, lbs, listed, lives, id, s) == OverlapPart(lbs[s], lives, listed[s], id))
       <==> CostAt(cost, id) == 0.0 && forall r :: r in lbs && r != s ==> PartsFor(lbs, listed, lives, id)(r) == 0.0
  {
    hide PartsFor, OverlapPart, CostAt;
    var f := PartsFor(lbs, listed, lives, id);
    if CostAt(cost, id) == 0.0 && forall r :: r in lbs && r != s ==> f(r) == 0.0 {
      forall order | Orders(order, lbs.Keys)
        ensures Growth(cost, order, lbs, listed, lives, id, s) == OverlapPart(lbs[s], lives, listed[s], id)
      {
        BeforeIsOther(order, s);
        SumSeqNothing(Before(order, s), f);
      }
    } else if CostAt(cost, id) != 0.0 {
      var order := OrderFrom([s], lbs.Keys);
      BeforePrefix([s], order, s);
      assert Before([s], s) == [];
    } else {
      var r :| r in lbs && r != s && f(r) != 0.0;
      var order := OrderFrom([r, s], lbs.Keys);
      BeforePrefix([r, s], order, s);
      assert [r, s][..1] == [r] && Before([r, s], s) == [r] && [r][..0] == [];
      assert SumSeq([r], f) == f(r);
    }
  }

  /** Away from the unmounted allocation, the part by overlap is all that a load balancer adds. */
  lemma OverlapIsPart(lbs: Balancers, listed: Listing, lives: Lives, id: AllocId, s: ServiceKey)
    requires Listed(lbs, listed, id, s) && id != Unmounted(s.cluster)
    ensures OverlapPart(lbs[s], lives, listed[s], id) == PartsFor(lbs, listed, lives, id)(s)
  {
  }

  /** One allocation behind two services whose load balancers cost 1 each: the record of the second is 2. */
  lemma SecondRecordHoldsBoth(a: ServiceKey, b: ServiceKey, id: AllocId, lbs: Balancers, listed: Listing, lives: Lives)
    requires a != b && id != Unmounted(a.cluster) && id != Unmounted(b.cluster)
    requires lbs == map[a := LoadBalancer(0, 10, 1.0), b := LoadBalancer(0, 10, 1.0)]
    requires listed == map[a := [id], b := [id]] && lives == (_ => Window(0, 10))
    ensures OverlapPart(lbs[b], lives, listed[b], id) == 1.0
    ensures Growth(map[], [a, b], lbs, listed, lives, id, b) == 2.0
  {
    assert [id][..0] == [] && id in Overlapping(lbs[a], lives, [id]);
    assert Hours(lbs[a], lives, id) == 10.0;
    assert SumSeq([], HoursOf(lbs[a], lives)) == 0.0;
    assert TotalHours(lbs[a], lives, [id]) == 10.0;
    assert [a, b][..1] == [a] && Before([a, b], b) == [a] && [a][..0] == [];
    assert SumSeq([a], PartsFor(lbs, listed, lives, id)) == PartsFor(lbs, listed, lives, id)(a);
    OverlapIsPart(lbs, listed, lives, id, a);
  }

  function CostOf(lbs: Balancers): ServiceKey -> real {
    s => if s in lbs then lbs[s].totalCost else 0.0
  }

  function Charged(lbs: Balancers, listed: map<ServiceKey, seq<AllocId>>): ServiceKey -> real {
    s => CostOf(lbs)(s) * (if s in listed then 1.0 else 2.0)
  }

  lemma ChargedAt(lbs: Balancers, listed: map<ServiceKey, seq<AllocId>>, s: ServiceKey)
    requires s in lbs
    ensures Charged(lbs, listed)(s) == lbs[s].totalCost * (if s in listed then 1.0 else 2.0)
  {
    assert CostOf(lbs)(s) == lbs[s].totalCost;
  }

  /** Some allocation is behind the service. */
  ghost predicate HasAllocation(l: Labelling, pods: Pods, s: ServiceKey) {
    exists id: AllocId :: id.pod in pods && id.container in pods[id.pod] && l.Matches(s, id.pod)
  }

  ghost function ChargedFor(lbs: Balancers, l: Labelling, pods: Pods): ServiceKey -> real {
    s => CostOf(lbs)(s) * (if HasAllocation(l, pods, s) then 1.0 else 2.0)
  }

  lemma ListedIff(listed: map<ServiceKey, seq<AllocId>>, l: Labelling, pods: Pods, s: ServiceKey)
    requires ServiceLists(listed, l, pods, {})
    ensures s in listed <==> HasAllocation(l, pods, s)
  {
    assert Enumerates(ListAt(listed, s), AllocsOf(l, pods, s, {}));
    if s in listed {
      assert listed[s][0] in listed[s];
      assert listed[s][0] in AllocsOf(l, pods, s, {});
    }
    if HasAllocation(l, pods, s) {
      var id: AllocId :| id.pod in pods && id.container in pods[id.pod] && l.Matches(s, id.pod);
      assert id in AllocsOf(l, pods, s, {});
    }
  }

  /** What is charged in all is what the load balancers cost exactly when those without any
      allocation cost nothing: each of these is charged twice. */
  lemma LoadBalancersConservedIff(lbs: Balancers, l: Labelling, pods: Pods)
    ensures SumOver(lbs.Keys, ChargedFor(lbs, l, pods)) == SumOver(lbs.Keys, CostOf(lbs))
       <==> SumOver((set s | s in lbs && !HasAllocation(l, pods, s)), CostOf(lbs)) == 0.0
  {
    hide SumOver, HasAllocation;
    var without := set s | s in lbs && !HasAllocation(l, pods, s);
    var extra := s => if s in without then CostOf(lbs)(s) else 0.0;
    SumAdd(lbs.Keys, CostOf(lbs), extra, ChargedFor(lbs, l, pods));
    SumWiden(without, lbs.Keys, extra);
    SumAgree(without, extra, CostOf(lbs));
  }

  /** A load balancer of cost 1 whose service no pod belongs to is charged 2. */
  lemma UnmatchedIsChargedTwice(s: ServiceKey, lbs: Balancers, l: Labelling)
    requires lbs == map[s := LoadBalancer(0, 10, 1.0)]
    ensures SumOver(lbs.Keys, ChargedFor(lbs, l, map[])) == 2.0 && SumOver(lbs.Keys, CostOf(lbs)) == 1.0
  {
    hide SumOver;
    SumPick(lbs.Keys, ChargedFor(lbs, l, map[]), s);
    SumPick(lbs.Keys, CostOf(lbs), s);
    assert lbs.Keys - {s} == {};
    SumZero({}, ChargedFor(lbs, l, map[]));
    SumZero({}, CostOf(lbs));
    assert !HasAllocation(l, map[], s);
  }

  lemma {:induction false} OverlapIsPositive(lb: LoadBalancer, lives: Lives, allocs: seq<AllocId>)
    requires Overlapping(lb, lives, allocs) != {}
    ensures TotalHours(lb, lives, allocs) > 0.0
  {
    var n := |allocs| - 1;
    var id :| id in Overlapping(lb, lives, allocs);
    assert n >= 0;
    HoursNotNegative(lb, lives, allocs[..n]);
    if allocs[n] != id {
      assert id in allocs[..n] && id in Overlapping(lb, lives, allocs[..n]);
      OverlapIsPositive(lb, lives, allocs[..n]);
    }
  }

  lemma {:induction false} HoursNotNegative(lb: LoadBalancer, lives: Lives, allocs: seq<AllocId>)
    ensures TotalHours(lb, lives, allocs) >= 0.0
  {
    if allocs != [] { HoursNotNegative(lb, lives, allocs[..|allocs| - 1]); }
  }

  lemma LedgerAddsUp(before: Costs, after: Costs, s: ServiceKey, lb: LoadBalancer, lives: Lives,
                     allocs: Option<seq<AllocId>>)
    requires before.Keys <= after.Keys && (allocs.Some? ==> Distinct(allocs.value))
    requires forall id :: CostAt(after, id) == CostAt(before, id) + Part(s, lb, lives, allocs, id)
    ensures Total(after) == Total(before) + lb.totalCost * (if allocs.None? then 2.0 else 1.0)
  {
    hide Part, SumOver, Overlapping;
    var part := PartOf(s, lb, lives, allocs);
    var list := ListedIn(allocs);
    var keys := after.Keys + Overlapping(lb, lives, list) + {Unmounted(s.cluster)};
    TotalShifts(before, after, part);
    forall id | id !in keys ensures Part(s, lb, lives, allocs, id) == 0.0 {
      assert CostAt(after, id) == CostAt(before, id) == 0.0;
    }
    forall id | id in keys && id !in after.Keys ensures part(id) == 0.0 {
      assert CostAt(after, id) == CostAt(before, id) == 0.0;
    }
    SumWiden(after.Keys, keys, part);
    PartsAddUp(s, lb, lives, allocs, keys);
  }
}
