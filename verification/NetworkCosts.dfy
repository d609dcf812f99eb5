/**
 Spreading network costs over the containers of the pods a result is about
 (pkg/costmodel/allocation_helpers.go: applyNetworkAllocation, run once per traffic class).
 */
module NetworkCosts {
  import opened Workloads
  import opened Sums
  import opened Sorting

  datatype TrafficClass = CrossZone | CrossRegion | Internet | NatGatewayEgress | NatGatewayIngress

  datatype Usage = Usage(cluster: string, ns: string, pod: string, gib: real)

  datatype Price = Price(cluster: string, perGiB: real)

  /** The pods of the cost model: their containers, and the keys with a UID that stand for a plain key. */
  datatype Cluster = Cluster(
    defaultId: string,
    pods: map<PodKey, set<string>>,
    uids: map<PodKey, seq<PodKey>>)

  /** The pods among `keys` that exist, in order. */
  function Existing(c: Cluster, keys: seq<PodKey>): (r: seq<PodKey>)
    ensures forall p :: p in r ==> p in c.pods
  {
    if keys == [] then []
    else
      var last := keys[|keys| - 1];
      Existing(c, keys[..|keys| - 1]) + if last in c.pods then [last] else []
  }

  function OrDefault(c: Cluster, cluster: string): string { if cluster == "" then c.defaultId else cluster }

  function KeyOf(c: Cluster, u: Usage): PodKey { PodKey(OrDefault(c, u.cluster), u.ns, u.pod) }

  /** The pods a result is spread over; none if a field is missing or the pod is unknown. */
  function Matched(c: Cluster, u: Usage): (r: seq<PodKey>)
    ensures forall p :: p in r ==> p in c.pods
  {
    var key := KeyOf(c, u);
    if u.ns == "" || u.pod == "" then []
    else if key in c.pods then [key]
    else if key in c.uids then Existing(c, c.uids[key])
    else []
  }

  /** Which pods a result reaches: the one it names or, if there is none of that name, those that stand for it. */
  lemma MatchedPods(c: Cluster, u: Usage, p: PodKey)
    ensures p in Matched(c, u) <==>
              && u.ns != "" && u.pod != "" && p in c.pods
              && var key := PodKey(if u.cluster == "" then c.defaultId else u.cluster, u.ns, u.pod);
                 p == key || (key !in c.pods && key in c.uids && p in c.uids[key])
  {
    var key := KeyOf(c, u);
    if key in c.uids { ExistingPods(c, c.uids[key], p); }
  }

  lemma {:induction false} ExistingPods(c: Cluster, keys: seq<PodKey>, p: PodKey)
    ensures p in Existing(c, keys) <==> p in c.pods && p in keys
  {
    if keys != [] {
      var n := |keys| - 1;
      ExistingPods(c, keys[..n], p);
      assert p in keys <==> p in keys[..n] || p == keys[n];
    }
  }

  /** The last price given for a cluster is in force; without any, traffic is free. */
  lemma {:induction false} PriceIsLast(c: Cluster, prices: seq<Price>, i: nat, cluster: string)
    requires i < |prices| && (if prices[i].cluster == "" then c.defaultId else prices[i].cluster) == cluster
    requires forall j :: i < j < |prices| ==> (if prices[j].cluster == "" then c.defaultId else prices[j].cluster) != cluster
    ensures PriceAt(c, prices, cluster) == prices[i].perGiB
  {
    if i < |prices| - 1 { PriceIsLast(c, prices[..|prices| - 1], i, cluster); }
  }

  lemma {:induction false} NoPriceIsFree(c: Cluster, prices: seq<Price>, cluster: string)
    requires forall j :: 0 <= j < |prices| ==> (if prices[j].cluster == "" then c.defaultId else prices[j].cluster) != cluster
    ensures PriceAt(c, prices, cluster) == 0.0
  {
    if prices != [] { NoPriceIsFree(c, prices[..|prices| - 1], cluster); }
  }

  /** The price in force: the last one given for the cluster. */
  function PriceAt(c: Cluster, prices: seq<Price>, cluster: string): real {
    if prices == [] then 0.0
    else if OrDefault(c, prices[|prices| - 1].cluster) == cluster then prices[|prices| - 1].perGiB
    else PriceAt(c, prices[..|prices| - 1], cluster)
  }

  method PricesByCluster(c: Cluster, prices: seq<Price>) returns (m: map<string, real>)
    ensures forall k :: (if k in m then m[k] else 0.0) == PriceAt(c, prices, k)
  {
    m := map[];
    for i := 0 to |prices|
      invariant forall k :: (if k in m then m[k] else 0.0) == PriceAt(c, prices[..i], k)
    {
      assert prices[..i + 1][..i] == prices[..i];
      m := m[OrDefault(c, prices[i].cluster) := prices[i].perGiB];
    }
    assert prices[..|prices|] == prices;
  }

  /* ---------- what one result adds ---------- */

  type Costs = map<AllocId, real>

  function At(m: Costs, id: AllocId): real { if id in m then m[id] else 0.0 }

  function AtOf(m: Costs): AllocId -> real { id => At(m, id) }

  ghost function Total(m: Costs): real { SumOver(m.Keys, AtOf(m)) }

  function SubAt(m: map<(AllocId, TrafficClass), real>, id: AllocId, t: TrafficClass): real {
    if (id, t) in m then m[(id, t)] else 0.0
  }

  /** What an amount of traffic costs. */
  function Worth(gib: real, perGiB: real): real { gib * perGiB }

  /** A container's share: equal parts among the pods, and then among the pod's containers. */
  function Share(gib: real, perGiB: real, containers: nat, pods: nat): real
    requires containers > 0 && pods > 0
  {
    gib / containers as real * perGiB / pods as real
  }

  function Times(n: nat, x: real): real { n as real * x }

  lemma SharesOfPod(gib: real, perGiB: real, containers: nat, pods: nat)
    requires containers > 0 && pods > 0
    ensures containers as real * Share(gib, perGiB, containers, pods) == gib * perGiB / pods as real
    ensures Times(containers, Share(gib, perGiB, containers, pods)) == Worth(gib, perGiB) / pods as real
  {
    var n, m := containers as real, pods as real;
    var g := gib / n;
    assert n * g == gib;
    var x := g * perGiB;
    assert n * x == gib * perGiB by { Regroup(n, g, perGiB); }
    OverBoth(n, x, m);
  }

  lemma OverBoth(n: real, x: real, m: real)
    requires m != 0.0
    ensures n * (x / m) == (n * x) / m
  {
  }

  lemma TotalPut(m: Costs, id: AllocId, x: real)
    ensures Total(m[id := At(m, id) + x]) == Total(m) + x
  {
    hide SumOver;
    var m' := m[id := At(m, id) + x];
    SumWiden(m.Keys, m.Keys + {id}, AtOf(m));
    SumUpdate(m.Keys + {id}, AtOf(m), AtOf(m'), id);
    assert m'.Keys == m.Keys + {id};
  }

  /** How many of the first `n` matched pods have containers to charge. */
  function Chargeable(c: Cluster, pods: seq<PodKey>): (n: nat)
    requires forall p :: p in pods ==> p in c.pods
    ensures n <= |pods|
    ensures n == |pods| <==> forall p :: p in pods ==> c.pods[p] != {}
  {
    if pods == [] then 0
    else
      var last := pods[|pods| - 1];
      assert last in pods && pods == pods[..|pods| - 1] + [last];
      Chargeable(c, pods[..|pods| - 1]) + if c.pods[last] != {} then 1 else 0
  }

  class Allocations {
    var network: Costs                                  // NetworkCost
    var sub: map<(AllocId, TrafficClass), real>         // the cost of each class

    /** One container: the class cost is assigned, the network cost added to. */
    method Charge(id: AllocId, t: TrafficClass, x: real)
      modifies this
      ensures network == old(network)[id := At(old(network), id) + x]
      ensures sub == old(sub)[(id, t) := x]
    {
      sub := sub[(id, t) := x];
      network := network[id := At(network, id) + x];
    }

    /** One pod: every container gets the same share. */
    method ChargePod(c: Cluster, p: PodKey, t: TrafficClass, gib: real, perGiB: real, pods: nat)
      requires p in c.pods && pods > 0
      modifies this
      ensures forall id ::
          At(network, id) == At(old(network), id) + (if Of(c, p, id) then PodShare(c, p, gib, perGiB, pods) else 0.0)
      ensures forall id, r ::
          SubAt(sub, id, r)
            == if Of(c, p, id) && r == t then PodShare(c, p, gib, perGiB, pods) else SubAt(old(sub), id, r)
      ensures Total(network)
              == Total(old(network)) + (if c.pods[p] == {} then 0.0 else Worth(gib, perGiB) / pods as real)
    {
      hide Share, Total, Worth, Times, At, SubAt;
      var containers := c.pods[p];
      var todo := containers;
      ghost var done := 0;
      ghost var x := PodShare(c, p, gib, perGiB, pods);
      OneMoreShare(0, x);
      while todo != {}
        invariant todo <= containers && done + |todo| == |containers|
        invariant forall id ::
            At(network, id) == At(old(network), id) + (if Of(c, p, id) && id.container !in todo then x else 0.0)
        invariant forall id, r ::
            SubAt(sub, id, r) == if Of(c, p, id) && id.container !in todo && r == t then x else SubAt(old(sub), id, r)
        invariant Total(network) == Total(old(network)) + Times(done, x)
        decreases todo
      {
        var name :| name in todo;
        ghost var sub0, network0 := sub, network;
        assert x == Share(gib, perGiB, |containers|, pods);
        assert forall id: AllocId :: id == AllocId(p, name) <==> id.pod == p && id.container == name;
        TotalPut(network, AllocId(p, name), x);
        Charge(AllocId(p, name), t, Share(gib, perGiB, |containers|, pods));
        SubPut(sub0, sub, AllocId(p, name), t, x);
        AtPut(network0, network, AllocId(p, name), x);
        todo := todo - {name};
        OneMoreShare(done, x);
        done := done + 1;
      }
      if containers != {} { SharesOfPod(gib, perGiB, |containers|, pods); }
    }

    /** The next of the pods that one result matches. */
    method ChargeNext(c: Cluster, u: Usage, t: TrafficClass, perGiB: real, pods: seq<PodKey>, i: nat,
                      ghost network0: Costs, ghost sub0: SubCosts)
      requires i < |pods| && forall p :: p in pods ==> p in c.pods
      requires Billed(t, network, sub, network0, sub0, BillsFor(c, pods[..i], u.gib, perGiB, |pods|))
      requires Total(network) == Total(network0) + Portion(Chargeable(c, pods[..i]), Worth(u.gib, perGiB), |pods|)
      modifies this
      ensures Billed(t, network, sub, network0, sub0, BillsFor(c, pods[..i + 1], u.gib, perGiB, |pods|))
      ensures Total(network) == Total(network0) + Portion(Chargeable(c, pods[..i + 1]), Worth(u.gib, perGiB), |pods|)
    {
      hide Total, PodShare, Portion, At, SubAt, Worth, Billed, Bills, Of;
      ghost var net1, sub1 := network, sub;
      ghost var whole := Worth(u.gib, perGiB);
      assert pods[i] in pods && pods[..i + 1][..i] == pods[..i] && pods[..i] + [pods[i]] == pods[..i + 1];
      ChargePod(c, pods[i], t, u.gib, perGiB, |pods|);
      NextPortion(Chargeable(c, pods[..i]), whole, |pods|);
      BilledMore(c, pods[..i], pods[i], u.gib, perGiB, |pods|, t, network, sub, net1, sub1, network0, sub0);
    }

    /** One result: its cost is spread equally over the pods it matches. */
    method ApplyUsage(c: Cluster, u: Usage, t: TrafficClass, perGiB: real)
      modifies this
      ensures Total(network) == Total(old(network)) + Contribution(c, u, perGiB)
      ensures Billed(t, network, sub, old(network), old(sub), BillsOf(c, u, perGiB))
    {
      hide Total, PodShare, Portion, At, SubAt, Worth, Billed, Bills, Of, Existing, Matched, Chargeable;
      var pods := FindPods(c, u);
      ghost var whole := Worth(u.gib, perGiB);
      NoPortion(whole, |pods|);
      BilledNone(c, u.gib, perGiB, |pods|, t, network, sub);
      assert Chargeable(c, pods[..0]) == 0;
      for i := 0 to |pods|
        invariant Total(network) == Total(old(network)) + Portion(Chargeable(c, pods[..i]), whole, |pods|)
        invariant Billed(t, network, sub, old(network), old(sub), BillsFor(c, pods[..i], u.gib, perGiB, |pods|))
      {
        ChargeNext(c, u, t, perGiB, pods, i, old(network), old(sub));
      }
      assert pods[..|pods|] == pods;
      SameBills(t, network, sub, old(network), old(sub), BillsFor(c, pods, u.gib, perGiB, |pods|),
                BillsOf(c, u, perGiB));
    }

    /** One pass, for one traffic class. */
    method ApplyNetworkAllocation(c: Cluster, usages: seq<Usage>, prices: seq<Price>, t: TrafficClass)
      modifies this
      ensures Total(network) == Total(old(network)) + SumSeq(usages, ContributionAt(c, prices))
      ensures Billed(t, network, sub, old(network), old(sub), PassBillsOf(c, usages, prices))
    {
      hide Total, Billed, At, SubAt, Matched, Contribution, PassBillsOf, BillsOf;
      var byCluster := PricesByCluster(c, prices);
      PassNone(c, prices, t, network, sub);
      for i := 0 to |usages|
        invariant Total(network) == Total(old(network)) + SumSeq(usages[..i], ContributionAt(c, prices))
        invariant Billed(t, network, sub, old(network), old(sub), PassBillsOf(c, usages[..i], prices))
      {
        ghost var net0, sub0 := network, sub;
        assert usages[..i + 1][..i] == usages[..i];
        var cluster := KeyOf(c, usages[i]).cluster;
        ApplyUsage(c, usages[i], t, if cluster in byCluster then byCluster[cluster] else 0.0);
        PassMore(c, usages, i, prices, t, network, sub, net0, sub0, old(network), old(sub));
      }
      assert usages[..|usages|] == usages;
    }

    /** The five passes over fresh allocations: the class costs account for the whole network cost exactly when, for
        every container, the charges that a later one of the same class overwrote sum to zero. */
    method ApplyAllClasses(c: Cluster, usages: TrafficClass -> seq<Usage>, prices: TrafficClass -> seq<Price>)
      requires forall id :: At(network, id) == 0.0
      requires forall id, t :: SubAt(sub, id, t) == 0.0
      modifies this
      ensures Balanced(network, sub) <==> forall id :: Overwritten(c, usages, prices, id) == 0.0
      ensures (forall t :: Distinct(AllMatched(c, usages(t)))) ==> Balanced(network, sub)
      ensures (forall t, i :: 0 <= i < |usages(t)| ==> usages(t)[i].gib >= 0.0)
              && (forall t, i :: 0 <= i < |prices(t)| ==> prices(t)[i].perGiB >= 0.0) ==>
                (Balanced(network, sub)
                 <==> forall t, p :: p in c.pods && c.pods[p] != {} ==>
                   OnlyLastCounts(Hits(c, usages(t), prices(t)), p))
    {
      hide At, SubAt, Distinct, SumSeq, Total, Balanced, Billed, PassBillsOf, Overwritten, OnlyLastCounts, Hits;
      ghost var n0, s0 := network, sub;
      ApplyNetworkAllocation(c, usages(CrossZone), prices(CrossZone), CrossZone);
      ghost var n1, s1 := network, sub;
      ApplyNetworkAllocation(c, usages(CrossRegion), prices(CrossRegion), CrossRegion);
      ghost var n2, s2 := network, sub;
      ApplyNetworkAllocation(c, usages(Internet), prices(Internet), Internet);
      ghost var n3, s3 := network, sub;
      ApplyNetworkAllocation(c, usages(NatGatewayEgress), prices(NatGatewayEgress), NatGatewayEgress);
      ghost var n4, s4 := network, sub;
      ApplyNetworkAllocation(c, usages(NatGatewayIngress), prices(NatGatewayIngress), NatGatewayIngress);
      forall id ensures At(network, id) == ClassSum(sub, id) + Overwritten(c, usages, prices, id) {
        FivePasses(c, usages, prices, id, n0, s0, n1, s1, n2, s2, n3, s3, n4, s4, network, sub);
      }
      BalancedIff(c, usages, prices, network, sub);
      if forall t :: Distinct(AllMatched(c, usages(t))) {
        forall id ensures Overwritten(c, usages, prices, id) == 0.0 { OnceOverwritesNothing(c, usages, prices, id); }
      }
      if (forall t, i :: 0 <= i < |usages(t)| ==> usages(t)[i].gib >= 0.0)
         && (forall t, i :: 0 <= i < |prices(t)| ==> prices(t)[i].perGiB >= 0.0)
      {
        OverwrittenIff(c, usages, prices);
      }
    }
  }

  function ContributionAt(c: Cluster, prices: seq<Price>): Usage -> real {
    u => Contribution(c, u, PriceAt(c, prices, KeyOf(c, u).cluster))
  }

  /** Every pod matched in a pass, as often as it is matched. */
  function AllMatched(c: Cluster, usages: seq<Usage>): seq<PodKey> {
    if usages == [] then [] else AllMatched(c, usages[..|usages| - 1]) + Matched(c, usages[|usages| - 1])
  }

  function ClassSum(sub: SubCosts, id: AllocId): real {
    SubAt(sub, id, CrossZone) + SubAt(sub, id, CrossRegion) + SubAt(sub, id, Internet)
    + SubAt(sub, id, NatGatewayEgress) + SubAt(sub, id, NatGatewayIngress)
  }

  ghost predicate Balanced(network: Costs, sub: SubCosts) {
    forall id :: At(network, id) == ClassSum(sub, id)
  }

  /* ---------- the charges of one container, in order ---------- */

  function Same(x: real): real { x }

  function Bills(c: Cluster, pods: seq<PodKey>, gib: real, perGiB: real, n: nat, id: AllocId): seq<real> {
    if pods == [] then [] else
      var last := pods[|pods| - 1];
      Bills(c, pods[..|pods| - 1], gib, perGiB, n, id)
        + (if Of(c, last, id) && n > 0 then [PodShare(c, last, gib, perGiB, n)] else [])
  }

  function BillsFor(c: Cluster, pods: seq<PodKey>, gib: real, perGiB: real, n: nat): AllocId -> seq<real> {
    id => Bills(c, pods, gib, perGiB, n, id)
  }

  /** What one result charges a container: its share once for every time its pod is matched. */
  function BillsOf(c: Cluster, u: Usage, perGiB: real): AllocId -> seq<real> {
    id => Bills(c, Matched(c, u), u.gib, perGiB, |Matched(c, u)|, id)
  }

  function PassBills(c: Cluster, usages: seq<Usage>, prices: seq<Price>, id: AllocId): seq<real> {
    if usages == [] then [] else
      var u := usages[|usages| - 1];
      PassBills(c, usages[..|usages| - 1], prices, id) + BillsOf(c, u, PriceAt(c, prices, KeyOf(c, u).cluster))(id)
  }

  function PassBillsOf(c: Cluster, usages: seq<Usage>, prices: seq<Price>): AllocId -> seq<real> {
    id => PassBills(c, usages, prices, id)
  }

  /** Every container's network cost has grown by all its bills; of its class cost only the last is left. Nothing else
      has changed. */
  ghost predicate Billed(t: TrafficClass, network: Costs, sub: SubCosts, network0: Costs, sub0: SubCosts,
                         bills: AllocId -> seq<real>) {
    && (forall id, r :: r != t ==> SubAt(sub, id, r) == SubAt(sub0, id, r))
    && (forall id :: At(network, id) == At(network0, id) + SumSeq(bills(id), Same))
    && (forall id :: SubAt(sub, id, t) == LastOr(bills(id), SubAt(sub0, id, t)))
  }

  function LastOr(xs: seq<real>, x: real): real { if xs == [] then x else xs[|xs| - 1] }

  lemma BilledNone(c: Cluster, gib: real, perGiB: real, n: nat, t: TrafficClass, network: Costs, sub: SubCosts)
    ensures Billed(t, network, sub, network, sub, BillsFor(c, [], gib, perGiB, n))
  {
  }

  lemma PassNone(c: Cluster, prices: seq<Price>, t: TrafficClass, network: Costs, sub: SubCosts)
    ensures Billed(t, network, sub, network, sub, PassBillsOf(c, [], prices))
  {
  }

  lemma BilledMore(c: Cluster, pods: seq<PodKey>, p: PodKey, gib: real, perGiB: real, n: nat, t: TrafficClass,
                   network2: Costs, sub2: SubCosts, network1: Costs, sub1: SubCosts, network0: Costs, sub0: SubCosts)
    requires p in c.pods && n > 0
    requires Billed(t, network1, sub1, network0, sub0, BillsFor(c, pods, gib, perGiB, n))
    requires forall id ::
        At(network2, id) == At(network1, id) + (if Of(c, p, id) then PodShare(c, p, gib, perGiB, n) else 0.0)
    requires forall id, r ::
        SubAt(sub2, id, r) == if Of(c, p, id) && r == t then PodShare(c, p, gib, perGiB, n) else SubAt(sub1, id, r)
    ensures Billed(t, network2, sub2, network0, sub0, BillsFor(c, pods + [p], gib, perGiB, n))
  {
    hide At, SubAt, PodShare;
    assert (pods + [p])[..|pods|] == pods;
    var bills, more := BillsFor(c, pods, gib, perGiB, n), BillsFor(c, pods + [p], gib, perGiB, n);
    forall id
      ensures SumSeq(more(id), Same)
              == SumSeq(bills(id), Same) + (if Of(c, p, id) then PodShare(c, p, gib, perGiB, n) else 0.0)
    {
      if Of(c, p, id) {
        assert more(id)[..|bills(id)|] == bills(id);
      } else {
        assert more(id) == bills(id);
      }
    }
  }

  lemma SameBills(t: TrafficClass, network: Costs, sub: SubCosts, network0: Costs, sub0: SubCosts,
                  bills: AllocId -> seq<real>, same: AllocId -> seq<real>)
    requires Billed(t, network, sub, network0, sub0, bills) && forall id :: same(id) == bills(id)
    ensures Billed(t, network, sub, network0, sub0, same)
  {
    hide At, SubAt, SumSeq;
  }

  lemma PassMore(c: Cluster, usages: seq<Usage>, i: nat, prices: seq<Price>, t: TrafficClass,
                 network2: Costs, sub2: SubCosts, network1: Costs, sub1: SubCosts, network0: Costs, sub0: SubCosts)
    requires i < |usages|
    requires Billed(t, network1, sub1, network0, sub0, PassBillsOf(c, usages[..i], prices))
    requires Billed(t, network2, sub2, network1, sub1, BillsOf(c, usages[i], PriceAt(c, prices, KeyOf(c, usages[i]).cluster)))
    ensures Billed(t, network2, sub2, network0, sub0, PassBillsOf(c, usages[..i + 1], prices))
  {
    hide At, SubAt, Bills, PriceAt, SumSeq, Billed, Matched;
    assert usages[..i + 1][..i] == usages[..i];
    var first := PassBillsOf(c, usages[..i], prices);
    var second := BillsOf(c, usages[i], PriceAt(c, prices, KeyOf(c, usages[i]).cluster));
    var both := PassBillsOf(c, usages[..i + 1], prices);
    forall id ensures both(id) == first(id) + second(id) {
      assert both(id) == PassBills(c, usages[..i + 1], prices, id);
    }
    BilledTwice(t, network2, sub2, network1, sub1, network0, sub0, first, second, both);
  }

  /** Bills after bills. */
  lemma BilledTwice(t: TrafficClass, network2: Costs, sub2: SubCosts, network1: Costs, sub1: SubCosts, network0: Costs,
                    sub0: SubCosts,
                    first: AllocId -> seq<real>, second: AllocId -> seq<real>, both: AllocId -> seq<real>)
    requires Billed(t, network1, sub1, network0, sub0, first) && Billed(t, network2, sub2, network1, sub1, second)
    requires forall id :: both(id) == first(id) + second(id)
    ensures Billed(t, network2, sub2, network0, sub0, both)
  {
    hide At, SubAt, SumSeq;
    forall id ensures SumSeq(both(id), Same) == SumSeq(first(id), Same) + SumSeq(second(id), Same) {
      SumSeqConcat(first(id), second(id), Same);
    }
    forall id
      ensures LastOr(both(id), SubAt(sub0, id, t)) == LastOr(second(id), LastOr(first(id), SubAt(sub0, id, t)))
    {
    }
  }

  /** The bills of a pass that a later one overwrote. */
  function AllButLast(xs: seq<real>): seq<real> { if xs == [] then [] else xs[..|xs| - 1] }

  ghost function Lost(c: Cluster, usages: seq<Usage>, prices: seq<Price>, id: AllocId): real {
    SumSeq(AllButLast(PassBills(c, usages, prices, id)), Same)
  }

  ghost function Overwritten(c: Cluster, usages: TrafficClass -> seq<Usage>, prices: TrafficClass -> seq<Price>,
                             id: AllocId): real {
    Lost(c, usages(CrossZone), prices(CrossZone), id) + Lost(c, usages(CrossRegion), prices(CrossRegion), id)
    + Lost(c, usages(Internet), prices(Internet), id) + Lost(c, usages(NatGatewayEgress), prices(NatGatewayEgress), id)
    + Lost(c, usages(NatGatewayIngress), prices(NatGatewayIngress), id)
  }

  /** A pass over a class without cost so far: the network cost grows by the class cost left and what was overwritten. */
  lemma OnePass(c: Cluster, usages: seq<Usage>, prices: seq<Price>, t: TrafficClass, id: AllocId, network1: Costs,
                sub1: SubCosts, network0: Costs, sub0: SubCosts)
    requires Billed(t, network1, sub1, network0, sub0, PassBillsOf(c, usages, prices)) && SubAt(sub0, id, t) == 0.0
    ensures At(network1, id) == At(network0, id) + SubAt(sub1, id, t) + Lost(c, usages, prices, id)
    ensures forall r :: r != t ==> SubAt(sub1, id, r) == SubAt(sub0, id, r)
  {
    hide At, SubAt, PassBills;
    var bills := PassBillsOf(c, usages, prices)(id);
    assert SubAt(sub1, id, t) == LastOr(bills, SubAt(sub0, id, t));
    assert At(network1, id) == At(network0, id) + SumSeq(bills, Same);
  }

  lemma FivePasses(c: Cluster, usages: TrafficClass -> seq<Usage>, prices: TrafficClass -> seq<Price>, id: AllocId,
                   n0: Costs, s0: SubCosts, n1: Costs, s1: SubCosts, n2: Costs, s2: SubCosts, n3: Costs, s3: SubCosts,
                   n4: Costs, s4: SubCosts, n5: Costs, s5: SubCosts)
    requires At(n0, id) == 0.0 && forall t :: SubAt(s0, id, t) == 0.0
    requires Billed(CrossZone, n1, s1, n0, s0, PassBillsOf(c, usages(CrossZone), prices(CrossZone)))
    requires Billed(CrossRegion, n2, s2, n1, s1, PassBillsOf(c, usages(CrossRegion), prices(CrossRegion)))
    requires Billed(Internet, n3, s3, n2, s2, PassBillsOf(c, usages(Internet), prices(Internet)))
    requires Billed(NatGatewayEgress, n4, s4, n3, s3, PassBillsOf(c, usages(NatGatewayEgress), prices(NatGatewayEgress)))
    requires Billed(NatGatewayIngress, n5, s5, n4, s4, PassBillsOf(c, usages(NatGatewayIngress), prices(NatGatewayIngress)))
    ensures At(n5, id) == ClassSum(s5, id) + Overwritten(c, usages, prices, id)
  {
    hide At, SubAt, Billed, PassBillsOf, Lost;
    OnePass(c, usages(CrossZone), prices(CrossZone), CrossZone, id, n1, s1, n0, s0);
    OnePass(c, usages(CrossRegion), prices(CrossRegion), CrossRegion, id, n2, s2, n1, s1);
    OnePass(c, usages(Internet), prices(Internet), Internet, id, n3, s3, n2, s2);
    OnePass(c, usages(NatGatewayEgress), prices(NatGatewayEgress), NatGatewayEgress, id, n4, s4, n3, s3);
    OnePass(c, usages(NatGatewayIngress), prices(NatGatewayIngress), NatGatewayIngress, id, n5, s5, n4, s4);
  }

  lemma BalancedIff(c: Cluster, usages: TrafficClass -> seq<Usage>, prices: TrafficClass -> seq<Price>, network: Costs,
                    sub: SubCosts)
    requires forall id :: At(network, id) == ClassSum(sub, id) + Overwritten(c, usages, prices, id)
    ensures Balanced(network, sub) <==> forall id :: Overwritten(c, usages, prices, id) == 0.0
  {
    hide At, ClassSum, Overwritten;
  }

  /** How often a pod is among the matched. */
  function Count(pods: seq<PodKey>, p: PodKey): nat {
    if pods == [] then 0 else Count(pods[..|pods| - 1], p) + if pods[|pods| - 1] == p then 1 else 0
  }

  lemma {:induction false} CountConcat(a: seq<PodKey>, b: seq<PodKey>, p: PodKey)
    ensures Count(a + b, p) == Count(a, p) + Count(b, p)
  {
    if b == [] {
      assert a + b == a;
    } else {
      assert (a + b)[..|a + b| - 1] == a + b[..|b| - 1];
      CountConcat(a, b[..|b| - 1], p);
    }
  }

  lemma {:induction false} CountDistinct(pods: seq<PodKey>, p: PodKey)
    requires Distinct(pods)
    ensures Count(pods, p) <= 1 && (p !in pods ==> Count(pods, p) == 0)
  {
    if pods != [] { CountDistinct(pods[..|pods| - 1], p); }
  }

  lemma {:induction false} BillsCount(c: Cluster, pods: seq<PodKey>, gib: real, perGiB: real, n: nat, id: AllocId)
    ensures |Bills(c, pods, gib, perGiB, n, id)| <= Count(pods, id.pod)
  {
    hide PodShare;
    if pods != [] { BillsCount(c, pods[..|pods| - 1], gib, perGiB, n, id); }
  }

  lemma {:induction false} PassBillsCount(c: Cluster, usages: seq<Usage>, prices: seq<Price>, id: AllocId)
    ensures |PassBills(c, usages, prices, id)| <= Count(AllMatched(c, usages), id.pod)
  {
    hide Bills, Matched, PriceAt;
    if usages != [] {
      var n := |usages| - 1;
      PassBillsCount(c, usages[..n], prices, id);
      var u := usages[n];
      BillsCount(c, Matched(c, u), u.gib, PriceAt(c, prices, KeyOf(c, u).cluster), |Matched(c, u)|, id);
      CountConcat(AllMatched(c, usages[..n]), Matched(c, u), id.pod);
    }
  }

  /** Where no pod gets two results of one class, nothing is overwritten. */
  lemma OnceOverwritesNothing(c: Cluster, usages: TrafficClass -> seq<Usage>, prices: TrafficClass -> seq<Price>,
                              id: AllocId)
    requires forall t :: Distinct(AllMatched(c, usages(t)))
    ensures Overwritten(c, usages, prices, id) == 0.0
  {
    hide PassBills, Distinct, AllMatched, Count;
    forall t ensures Lost(c, usages(t), prices(t), id) == 0.0 {
      CountDistinct(AllMatched(c, usages(t)), id.pod);
      PassBillsCount(c, usages(t), prices(t), id);
    }
  }

  /* ---------- when non-negative charges balance ---------- */

  /** A pod that a result matches, with the price in force for the result. */
  datatype Hit = Hit(pod: PodKey, gib: real, perGiB: real, pods: nat)

  function HitsOf(pods: seq<PodKey>, gib: real, perGiB: real, n: nat): seq<Hit> {
    seq(|pods|, i requires 0 <= i < |pods| => Hit(pods[i], gib, perGiB, n))
  }

  /** All matches of a pass, in order. */
  function Hits(c: Cluster, usages: seq<Usage>, prices: seq<Price>): seq<Hit> {
    if usages == [] then [] else
      var u := usages[|usages| - 1];
      Hits(c, usages[..|usages| - 1], prices)
      + HitsOf(Matched(c, u), u.gib, PriceAt(c, prices, KeyOf(c, u).cluster), |Matched(c, u)|)
  }

  function HitBills(c: Cluster, hits: seq<Hit>, id: AllocId): seq<real> {
    if hits == [] then [] else
      var h := hits[|hits| - 1];
      HitBills(c, hits[..|hits| - 1], id)
      + (if Of(c, h.pod, id) && h.pods > 0 then [PodShare(c, h.pod, h.gib, h.perGiB, h.pods)] else [])
  }

  lemma {:induction false} HitBillsConcat(c: Cluster, a: seq<Hit>, b: seq<Hit>, id: AllocId)
    ensures HitBills(c, a + b, id) == HitBills(c, a, id) + HitBills(c, b, id)
  {
    hide Of, PodShare;
    if b == [] {
      assert a + b == a;
    } else {
      assert (a + b)[..|a + b| - 1] == a + b[..|b| - 1];
      HitBillsConcat(c, a, b[..|b| - 1], id);
    }
  }

  lemma {:induction false} HitBillsOf(c: Cluster, pods: seq<PodKey>, gib: real, perGiB: real, n: nat, id: AllocId)
    ensures HitBills(c, HitsOf(pods, gib, perGiB, n), id) == Bills(c, pods, gib, perGiB, n, id)
  {
    hide Of, PodShare;
    if pods != [] {
      var init := pods[..|pods| - 1];
      HitBillsOf(c, init, gib, perGiB, n, id);
      assert HitsOf(pods, gib, perGiB, n)[..|pods| - 1] == HitsOf(init, gib, perGiB, n);
    }
  }

  lemma {:induction false} PassIsHits(c: Cluster, usages: seq<Usage>, prices: seq<Price>, id: AllocId)
    ensures PassBills(c, usages, prices, id) == HitBills(c, Hits(c, usages, prices), id)
  {
    hide Bills, HitBills, Matched, PriceAt, HitsOf;
    if usages == [] {
      HitBillsNone(c, id);
    } else {
      var n, u := |usages| - 1, usages[|usages| - 1];
      var perGiB, pods := PriceAt(c, prices, KeyOf(c, u).cluster), Matched(c, u);
      PassIsHits(c, usages[..n], prices, id);
      HitBillsOf(c, pods, u.gib, perGiB, |pods|, id);
      HitBillsConcat(c, Hits(c, usages[..n], prices), HitsOf(pods, u.gib, perGiB, |pods|), id);
    }
  }

  lemma HitBillsNone(c: Cluster, id: AllocId)
    ensures HitBills(c, [], id) == []
  {
  }

  ghost predicate NotNegative(hits: seq<Hit>) {
    forall i :: 0 <= i < |hits| ==> hits[i].gib >= 0.0 && hits[i].perGiB >= 0.0 && hits[i].pods > 0
  }

  lemma ShareIsWorth(gib: real, perGiB: real, containers: nat, pods: nat)
    requires gib >= 0.0 && perGiB >= 0.0 && containers > 0 && pods > 0
    ensures Share(gib, perGiB, containers, pods) >= 0.0
    ensures Share(gib, perGiB, containers, pods) == 0.0 <==> Worth(gib, perGiB) == 0.0
  {
    var x := gib / containers as real;
    assert x * containers as real == gib;
    assert x >= 0.0 && (x == 0.0 <==> gib == 0.0);
    var y := x * perGiB;
    assert y >= 0.0 && (y == 0.0 <==> x == 0.0 || perGiB == 0.0);
    var z := y / pods as real;
    assert z * pods as real == y;
    assert z >= 0.0 && (z == 0.0 <==> y == 0.0);
  }

  lemma {:induction false} BillsOfHits(c: Cluster, hits: seq<Hit>, id: AllocId)
    requires NotNegative(hits) && Of(c, id.pod, id)
    ensures forall n :: 0 <= n < |HitBills(c, hits, id)| ==> HitBills(c, hits, id)[n] >= 0.0
    ensures (forall n :: 0 <= n < |HitBills(c, hits, id)| ==> HitBills(c, hits, id)[n] == 0.0)
       <==> Worthless(hits, id.pod)
  {
    hide Share, Worth, Worthless;
    if hits != [] {
      var n, h := |hits| - 1, hits[|hits| - 1];
      var init := HitBills(c, hits[..n], id);
      BillsOfHits(c, hits[..n], id);
      if h.pod == id.pod {
        ShareIsWorth(h.gib, h.perGiB, |c.pods[id.pod]|, h.pods);
        var x := PodShare(c, h.pod, h.gib, h.perGiB, h.pods);
        assert HitBills(c, hits, id) == init + [x];
        assert (forall m :: 0 <= m < |init + [x]| ==> (init + [x])[m] == 0.0) <==>
               ((forall m :: 0 <= m < |init| ==> init[m] == 0.0) && x == 0.0) by { AllSnoc(init, x); }
      } else {
        assert HitBills(c, hits, id) == init;
      }
      WorthlessSnoc(hits, id.pod);
    } else {
      NothingWorthless(id.pod);
    }
  }

  /** No match of the pod is worth anything. */
  ghost predicate Worthless(hits: seq<Hit>, p: PodKey) {
    forall i :: 0 <= i < |hits| && hits[i].pod == p ==> Worth(hits[i].gib, hits[i].perGiB) == 0.0
  }

  lemma NothingWorthless(p: PodKey)
    ensures Worthless([], p)
  {
  }

  lemma WorthlessSnoc(hits: seq<Hit>, p: PodKey)
    requires hits != []
    ensures var n, h := |hits| - 1, hits[|hits| - 1];
            Worthless(hits, p) <==> Worthless(hits[..n], p) && (h.pod == p ==> Worth(h.gib, h.perGiB) == 0.0)
  {
    hide Worth;
    var n := |hits| - 1;
    if Worthless(hits, p) {
      forall i | 0 <= i < n && hits[..n][i].pod == p ensures Worth(hits[..n][i].gib, hits[..n][i].perGiB) == 0.0 {
        assert hits[..n][i] == hits[i];
      }
    } else {
      var i :| 0 <= i < |hits| && hits[i].pod == p && Worth(hits[i].gib, hits[i].perGiB) != 0.0;
      assert i < n ==> hits[..n][i] == hits[i];
    }
  }

  lemma AllSnoc(xs: seq<real>, x: real)
    ensures (forall m :: 0 <= m < |xs + [x]| ==> (xs + [x])[m] == 0.0) <==>
              ((forall m :: 0 <= m < |xs| ==> xs[m] == 0.0) && x == 0.0)
  {
    if forall m :: 0 <= m < |xs + [x]| ==> (xs + [x])[m] == 0.0 {
      assert (xs + [x])[|xs|] == x;
      forall m | 0 <= m < |xs| ensures xs[m] == 0.0 { assert (xs + [x])[m] == xs[m]; }
    }
  }

  lemma {:induction false} ZeroSum(xs: seq<real>)
    requires forall n :: 0 <= n < |xs| ==> xs[n] >= 0.0
    ensures SumSeq(xs, Same) >= 0.0
    ensures SumSeq(xs, Same) == 0.0 <==> forall n :: 0 <= n < |xs| ==> xs[n] == 0.0
  {
    if xs != [] {
      var n := |xs| - 1;
      ZeroSum(xs[..n]);
      assert xs == xs[..n] + [xs[n]];
      AllSnoc(xs[..n], xs[n]);
    }
  }

  /** Of the matches of one pod, all but the last are worth nothing. */
  ghost predicate OnlyLastCounts(hits: seq<Hit>, p: PodKey) {
    forall i, j :: 0 <= i < j < |hits| && hits[i].pod == hits[j].pod == p ==> Worth(hits[i].gib, hits[i].perGiB) == 0.0
  }

  lemma {:induction false} LostOfHits(c: Cluster, hits: seq<Hit>, id: AllocId)
    requires NotNegative(hits) && Of(c, id.pod, id)
    ensures SumSeq(AllButLast(HitBills(c, hits, id)), Same) >= 0.0
    ensures SumSeq(AllButLast(HitBills(c, hits, id)), Same) == 0.0 <==> OnlyLastCounts(hits, id.pod)
  {
    hide PodShare, Worth, SumSeq;
    if hits == [] {
      ZeroSum([]);
    } else {
      var n, h := |hits| - 1, hits[|hits| - 1];
      var init := HitBills(c, hits[..n], id);
      LostOfHits(c, hits[..n], id);
      assert forall i :: 0 <= i < n ==> hits[..n][i] == hits[i];
      if h.pod == id.pod {
        assert AllButLast(init + [PodShare(c, h.pod, h.gib, h.perGiB, h.pods)]) == init;
        BillsOfHits(c, hits[..n], id);
        ZeroSum(init);
        LastOfPod(hits, n, id.pod);
      } else {
        assert HitBills(c, hits, id) == init;
      }
    }
  }

  lemma LastOfPod(hits: seq<Hit>, n: nat, p: PodKey)
    requires |hits| == n + 1 && hits[n].pod == p
    ensures OnlyLastCounts(hits, p)
       <==> Worthless(hits[..n], p)
  {
    hide Worth;
    if OnlyLastCounts(hits, p) {
      forall i | 0 <= i < n && hits[..n][i].pod == p ensures Worth(hits[..n][i].gib, hits[..n][i].perGiB) == 0.0 {
        assert hits[i].pod == hits[n].pod == p;
      }
    } else {
      var i, j :| 0 <= i < j < |hits| && hits[i].pod == hits[j].pod == p && Worth(hits[i].gib, hits[i].perGiB) != 0.0;
      assert hits[..n][i] == hits[i];
    }
  }

  lemma {:induction false} HitsNotNegative(c: Cluster, usages: seq<Usage>, prices: seq<Price>)
    requires forall i :: 0 <= i < |usages| ==> usages[i].gib >= 0.0
    requires forall i :: 0 <= i < |prices| ==> prices[i].perGiB >= 0.0
    ensures NotNegative(Hits(c, usages, prices))
  {
    hide Matched;
    if usages != [] {
      var u := usages[|usages| - 1];
      HitsNotNegative(c, usages[..|usages| - 1], prices);
      PriceNotNegative(c, prices, KeyOf(c, u).cluster);
    }
  }

  lemma {:induction false} PriceNotNegative(c: Cluster, prices: seq<Price>, cluster: string)
    requires forall i :: 0 <= i < |prices| ==> prices[i].perGiB >= 0.0
    ensures PriceAt(c, prices, cluster) >= 0.0
  {
    if prices != [] { PriceNotNegative(c, prices[..|prices| - 1], cluster); }
  }

  /** For non-negative traffic and prices: nothing of a container's cost is overwritten exactly when, in each class, of
      the results that match its pod all but the last are worth nothing. */
  lemma OverwrittenIff(c: Cluster, usages: TrafficClass -> seq<Usage>, prices: TrafficClass -> seq<Price>)
    requires forall t, i :: 0 <= i < |usages(t)| ==> usages(t)[i].gib >= 0.0
    requires forall t, i :: 0 <= i < |prices(t)| ==> prices(t)[i].perGiB >= 0.0
    ensures (forall id :: Overwritten(c, usages, prices, id) == 0.0)
       <==> (forall t, p :: p in c.pods && c.pods[p] != {} ==> OnlyLastCounts(Hits(c, usages(t), prices(t)), p))
  {
    hide OnlyLastCounts, Hits, Lost, Of;
    forall id: AllocId, t ensures Of(c, id.pod, id) ==>
        Lost(c, usages(t), prices(t), id) >= 0.0
        && (Lost(c, usages(t), prices(t), id) == 0.0 <==> OnlyLastCounts(Hits(c, usages(t), prices(t)), id.pod))
    {
      if Of(c, id.pod, id) { LostIff(c, usages(t), prices(t), id); }
    }
    forall id: AllocId, t ensures !Of(c, id.pod, id) ==> Lost(c, usages(t), prices(t), id) == 0.0 {
      if !Of(c, id.pod, id) { NotLost(c, usages(t), prices(t), id); }
    }
    if forall id :: Overwritten(c, usages, prices, id) == 0.0 {
      forall t, p | p in c.pods && c.pods[p] != {} ensures OnlyLastCounts(Hits(c, usages(t), prices(t)), p) {
        var container :| container in c.pods[p];
        var id := AllocId(p, container);
        ContainerOf(c, p, container);
        assert Overwritten(c, usages, prices, id) == 0.0;
        assert Lost(c, usages(t), prices(t), id) == 0.0 by {
          assert Lost(c, usages(CrossZone), prices(CrossZone), id) >= 0.0
                 && Lost(c, usages(CrossRegion), prices(CrossRegion), id) >= 0.0;
          assert Lost(c, usages(Internet), prices(Internet), id) >= 0.0;
          assert Lost(c, usages(NatGatewayEgress), prices(NatGatewayEgress), id) >= 0.0;
          assert Lost(c, usages(NatGatewayIngress), prices(NatGatewayIngress), id) >= 0.0;
          assert t == CrossZone || t == CrossRegion || t == Internet || t == NatGatewayEgress || t == NatGatewayIngress;
        }
      }
    } else {
      var id :| Overwritten(c, usages, prices, id) != 0.0;
      var t :| Lost(c, usages(t), prices(t), id) != 0.0;
      assert Of(c, id.pod, id);
      ContainedIn(c, id);
    }
  }

  lemma ContainerOf(c: Cluster, p: PodKey, container: string)
    requires p in c.pods && container in c.pods[p]
    ensures Of(c, p, AllocId(p, container))
  {
  }

  lemma ContainedIn(c: Cluster, id: AllocId)
    requires Of(c, id.pod, id)
    ensures id.pod in c.pods && c.pods[id.pod] != {}
  {
  }

  lemma LostIff(c: Cluster, usages: seq<Usage>, prices: seq<Price>, id: AllocId)
    requires Of(c, id.pod, id) && forall i :: 0 <= i < |usages| ==> usages[i].gib >= 0.0
    requires forall i :: 0 <= i < |prices| ==> prices[i].perGiB >= 0.0
    ensures Lost(c, usages, prices, id) >= 0.0
    ensures Lost(c, usages, prices, id) == 0.0 <==> OnlyLastCounts(Hits(c, usages, prices), id.pod)
  {
    hide OnlyLastCounts, HitBills, PassBills, Hits, NotNegative, SumSeq;
    HitsNotNegative(c, usages, prices);
    PassIsHits(c, usages, prices, id);
    LostOfHits(c, Hits(c, usages, prices), id);
  }

  lemma NotLost(c: Cluster, usages: seq<Usage>, prices: seq<Price>, id: AllocId)
    requires !Of(c, id.pod, id)
    ensures Lost(c, usages, prices, id) == 0.0
  {
    PassIsHits(c, usages, prices, id);
    NoHitBills(c, Hits(c, usages, prices), id);
  }

  lemma {:induction false} NoHitBills(c: Cluster, hits: seq<Hit>, id: AllocId)
    requires !Of(c, id.pod, id)
    ensures HitBills(c, hits, id) == []
  {
    if hits != [] { NoHitBills(c, hits[..|hits| - 1], id); }
  }

  /** Two results for one pod in one class: the class cost keeps the second, the network cost has both. */
  lemma SecondResultOverwrites(c: Cluster, p: PodKey, usages: seq<Usage>, prices: seq<Price>)
    requires c.pods == map[p := {"main"}] && p.cluster != "" && p.ns != "" && p.pod != ""
    requires usages == [Usage(p.cluster, p.ns, p.pod, 1.0), Usage(p.cluster, p.ns, p.pod, 2.0)]
    requires prices == [Price(p.cluster, 1.0)]
    ensures PassBills(c, usages, prices, AllocId(p, "main")) == [1.0, 2.0]
    ensures Lost(c, usages, prices, AllocId(p, "main")) == 1.0
  {
    var id := AllocId(p, "main");
    assert usages[..1] == [usages[0]] && usages[..1][..0] == [] && prices[..0] == [];
    assert forall u :: u in usages ==> Matched(c, u) == [p] && PriceAt(c, prices, KeyOf(c, u).cluster) == 1.0;
    assert usages[0] in usages && usages[1] in usages && [p][..0] == [];
    assert Bills(c, [p], 1.0, 1.0, 1, id) == [1.0] && Bills(c, [p], 2.0, 1.0, 1, id) == [2.0];
    assert PassBills(c, usages[..1], prices, id) == [] + [1.0];
    assert [1.0] + [2.0] == [1.0, 2.0] && [1.0, 2.0][..1] == [1.0] && [1.0][..0] == [];
    assert SumSeq([1.0], Same) == SumSeq([], Same) + 1.0;
  }

  lemma AtPut(m: Costs, more: Costs, id: AllocId, x: real)
    requires more == m[id := At(m, id) + x]
    ensures forall j :: At(more, j) == At(m, j) + if j == id then x else 0.0
  {
  }

  lemma SubPut(sub: SubCosts, more: SubCosts, id: AllocId, t: TrafficClass, x: real)
    requires more == sub[(id, t) := x]
    ensures forall j, r :: SubAt(more, j, r) == if j == id && r == t then x else SubAt(sub, j, r)
  {
    forall j, r ensures SubAt(more, j, r) == if j == id && r == t then x else SubAt(sub, j, r) {
      var key := (j, r);
      assert key.0 == j && key.1 == r;
      assert key == (id, t) <==> j == id && r == t;
    }
  }

  predicate Of(c: Cluster, p: PodKey, id: AllocId) { id.pod == p && p in c.pods && id.container in c.pods[p] }

  function PodShare(c: Cluster, p: PodKey, gib: real, perGiB: real, pods: nat): real
    requires p in c.pods && pods > 0
  {
    if c.pods[p] == {} then 0.0 else Share(gib, perGiB, |c.pods[p]|, pods)
  }

  /** `n` of `m` equal parts. */
  function Portion(n: nat, x: real, m: nat): real { if m == 0 then 0.0 else Times(n, x / m as real) }

  lemma NextPortion(n: nat, x: real, m: nat)
    requires m > 0
    ensures Portion(n + 1, x, m) == Portion(n, x, m) + x / m as real
  {
    OneMoreShare(n, x / m as real);
  }

  lemma NoPortion(x: real, m: nat)
    ensures Portion(0, x, m) == 0.0
  {
  }

  /** What a result adds to the network cost of all containers together. */
  function Contribution(c: Cluster, u: Usage, perGiB: real): real {
    Portion(Chargeable(c, Matched(c, u)), Worth(u.gib, perGiB), |Matched(c, u)|)
  }

  /** A matched result's whole cost is given out exactly when every pod it matches has containers,
      or there is nothing to give out. */
  lemma UsageConservedIff(c: Cluster, u: Usage, perGiB: real)
    requires Matched(c, u) != []
    ensures Contribution(c, u, perGiB) == u.gib * perGiB
       <==> u.gib * perGiB == 0.0 || forall p :: p in Matched(c, u) ==> c.pods[p] != {}
  {
    hide Portion;
    var pods := Matched(c, u);
    PortionIsWhole(Chargeable(c, pods), Worth(u.gib, perGiB), |pods|);
  }

  lemma PortionIsWhole(n: nat, x: real, m: nat)
    requires n <= m && m > 0
    ensures Portion(n, x, m) == x <==> x == 0.0 || n == m
  {
    var part := x / m as real;
    assert m as real * part == x;
    assert (m - n) as real * part == x - Portion(n, x, m);
    assert m > n && part != 0.0 ==> (m - n) as real * part != 0.0;
  }

  method FindPods(c: Cluster, u: Usage) returns (pods: seq<PodKey>)
    ensures pods == Matched(c, u)
  {
    pods := [];
    if u.ns == "" || u.pod == "" {
      return;
    }
    var key := PodKey(if u.cluster == "" then c.defaultId else u.cluster, u.ns, u.pod);
    if key in c.pods {
      return [key];
    }
    if key in c.uids {
      var keys := c.uids[key];
      for i := 0 to |keys|
        invariant pods == Existing(c, keys[..i])
      {
        assert keys[..i + 1][..i] == keys[..i];
        if keys[i] in c.pods {
          pods := pods + [keys[i]];
        }
      }
      assert keys[..|keys|] == keys;
    }
  }

  type SubCosts = map<(AllocId, TrafficClass), real>

  lemma OneMoreShare(n: nat, x: real)
    ensures Times(n + 1, x) == Times(n, x) + x && Times(0, x) == 0.0
  {
  }
}
