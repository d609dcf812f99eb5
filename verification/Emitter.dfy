/**
 The node part of the metrics emitter (pkg/costmodel/metrics.go): running averages that keep price
 spikes out, and a mark-and-sweep that takes down the metrics of nodes that are gone.
 */
module Emitter {
  import opened Results

  type Labels = seq<string>

  /* ---------- label tuples and their keys ---------- */

  function Join(ls: Labels): string {
    if ls == [] then "" else if |ls| == 1 then ls[0] else ls[0] + "," + Join(ls[1..])
  }

  function Split(s: string): (ls: Labels)
    ensures ls != []
  {
    if s == [] then [""] else
      var rest := Split(s[1..]);
      if s[0] == ',' then [""] + rest else [[s[0]] + rest[0]] + rest[1..]
  }

  predicate CommaFree(ls: Labels) { forall i :: 0 <= i < |ls| ==> ',' !in ls[i] }

  /** A piece without a comma is what splitting takes off first. */
  lemma {:induction false} SplitPiece(piece: string, rest: string)
    requires ',' !in piece
    ensures Split(piece) == [piece]
    ensures Split(piece + "," + rest) == [piece] + Split(rest)
  {
    if piece == [] {
      assert piece + "," + rest == "," + rest;
    } else {
      SplitPiece(piece[1..], rest);
      assert [piece[0]] + piece[1..] == piece;
      assert (piece + "," + rest)[1..] == piece[1..] + "," + rest;
    }
  }

  lemma {:induction false} SplitPieces(s: string)
    ensures CommaFree(Split(s))
  {
    if s != [] { SplitPieces(s[1..]); }
  }

  lemma {:induction false} SplitOfJoin(ls: Labels)
    requires ls != [] && CommaFree(ls)
    ensures Split(Join(ls)) == ls
  {
    if |ls| == 1 {
      SplitPiece(ls[0], "");
    } else {
      SplitPiece(ls[0], Join(ls[1..]));
      SplitOfJoin(ls[1..]);
    }
  }

  lemma {:induction false} JoinOfSplit(s: string)
    ensures Join(Split(s)) == s
  {
    hide Split, Join;
    if s == [] {
      SplitPiece("", "");
      JoinStep([""]);
    } else {
      var rest := Split(s[1..]);
      JoinOfSplit(s[1..]);
      SplitStep(s);
      JoinStep(Split(s));
      JoinStep(rest);
      if s[0] == ',' {
        assert ([""] + rest)[1..] == rest && "" + "," == ",";
      } else {
        assert Split(s)[1..] == rest[1..];
      }
    }
  }

  lemma JoinStep(ls: Labels)
    requires ls != []
    ensures Join(ls) == if |ls| == 1 then ls[0] else ls[0] + "," + Join(ls[1..])
  {
  }

  /** Splitting a key gives its labels back exactly when no label has a comma. */
  lemma SplitJoinIff(ls: Labels)
    requires ls != []
    ensures Split(Join(ls)) == ls <==> CommaFree(ls)
  {
    SplitPieces(Join(ls));
    if CommaFree(ls) { SplitOfJoin(ls); }
  }

  lemma SplitStep(s: string)
    requires s != []
    ensures var rest := Split(s[1..]);
            Split(s) == if s[0] == ',' then [""] + rest else [[s[0]] + rest[0]] + rest[1..]
  {
  }

  /** Splitting a joined pair of strings splits both. */
  lemma {:induction false} SplitBoth(a: string, b: string)
    ensures Split(a + "," + b) == Split(a) + Split(b)
  {
    hide Split;
    var whole := a + "," + b;
    SplitStep(whole);
    if a == [] {
      SplitPiece(a, "");
      assert whole[1..] == b;
    } else {
      SplitBoth(a[1..], b);
      SplitStep(a);
      assert whole[1..] == a[1..] + "," + b;
      assert (Split(a[1..]) + Split(b))[1..] == Split(a[1..])[1..] + Split(b);
    }
  }

  lemma {:induction false} CommaSplits(s: string)
    requires ',' in s
    ensures |Split(s)| >= 2
  {
    if s[0] != ',' { CommaSplits(s[1..]); }
  }

  lemma {:induction false} SplitIsNoShorter(ls: Labels)
    requires ls != []
    ensures |Split(Join(ls))| >= |ls|
    ensures !CommaFree(ls) ==> |Split(Join(ls))| > |ls|
  {
    if |ls| == 1 {
      if !CommaFree(ls) { CommaSplits(ls[0]); }
    } else {
      SplitBoth(ls[0], Join(ls[1..]));
      SplitIsNoShorter(ls[1..]);
      if ',' in ls[0] { CommaSplits(ls[0]); }
      assert ',' !in ls[0] && CommaFree(ls[1..]) ==> CommaFree(ls);
    }
  }

  /** A comma-free tuple shares its key with no other tuple of its length. */
  lemma KeyIsOwn(ls: Labels, other: Labels)
    requires ls != [] && CommaFree(ls) && |other| == |ls| && Join(other) == Join(ls)
    ensures other == ls
  {
    SplitOfJoin(ls);
    SplitIsNoShorter(other);
    SplitJoinIff(other);
  }

  /* ---------- what is kept ---------- */

  /** A running average over `count` data points. */
  datatype Running = Running(mean: real, count: nat)

  datatype Averages = Averages(cpu: Running, ram: Running)

  /** What one tick learns of one node. */
  datatype Observation = Observation(
    name: string, nodeType: string, region: string, providerID: string, arch: string, uid: string,
    cpu: real, cpuCost: real, ramBytes: real, ramCost: real, gpu: real, gpuCost: real, spot: bool)
  {
    function Labels(): (ls: Labels)
      ensures |ls| == 7
    {
      [name, name, nodeType, region, providerID, arch, uid]
    }

    function Key(): string { Join(Labels()) }

    function TotalCost(): real { cpu * cpuCost + ramCost * (ramBytes / 1024.0 / 1024.0 / 1024.0) + gpu * gpuCost }
  }

  datatype Gauges = Gauges(
    gpuCount: map<Labels, real>, gpuPrice: map<Labels, real>, cpuPrice: map<Labels, real>,
    ramPrice: map<Labels, real>, totalPrice: map<Labels, real>, spot: map<Labels, bool>)
  {
    function Without(gone: set<Labels>): Gauges {
      Gauges(gpuCount - gone, gpuPrice - gone, cpuPrice - gone, ramPrice - gone, totalPrice - gone, spot - gone)
    }
  }

  lemma WithoutBoth(g: Gauges, a: set<Labels>, b: set<Labels>)
    ensures g.Without({}) == g
    ensures g.Without(a).Without(b) == g.Without(a + b)
  {
    AwayBoth(g.gpuCount, a, b);
    AwayBoth(g.gpuPrice, a, b);
    AwayBoth(g.cpuPrice, a, b);
    AwayBoth(g.ramPrice, a, b);
    AwayBoth(g.totalPrice, a, b);
    AwayBoth(g.spot, a, b);
  }

  lemma AwayBoth<V>(m: map<Labels, V>, a: set<Labels>, b: set<Labels>)
    ensures m - {} == m && m - a - b == m - (a + b)
  {
  }

  datatype State = State(seen: map<string, bool>, averages: map<string, Averages>, gauges: Gauges)

  const OUTLIER_FACTOR: real := 30.0

  predicate Accepts(r: Running, price: real) { price < OUTLIER_FACTOR * r.mean }

  /** One more data point. */
  function Extend(r: Running, price: real): Running {
    Running((r.mean * (r.count as real) + price) / ((r.count as real) + 1.0), r.count + 1)
  }

  function Absorb(r: Running, price: real): Running { if Accepts(r, price) then Extend(r, price) else r }

  function First(o: Observation): Averages { Averages(Running(o.cpuCost, 1), Running(o.ramCost, 1)) }

  function Held(averages: map<string, Averages>, o: Observation): Averages {
    if o.Key() in averages then averages[o.Key()] else First(o)
  }

  function Observe(s: State, o: Observation): State {
    var held := Held(s.averages, o);
    var ls := o.Labels();
    State(
      s.seen[o.Key() := true],
      s.averages[o.Key() := Averages(Absorb(held.cpu, o.cpuCost), Absorb(held.ram, o.ramCost))],
      Gauges(
        s.gauges.gpuCount[ls := o.gpu],
        s.gauges.gpuPrice[ls := o.gpuCost],
        if Accepts(held.cpu, o.cpuCost) then s.gauges.cpuPrice[ls := o.cpuCost] else s.gauges.cpuPrice,
        if Accepts(held.ram, o.ramCost) then s.gauges.ramPrice[ls := o.ramCost] else s.gauges.ramPrice,
        if Accepts(held.cpu, o.cpuCost) && Accepts(held.ram, o.ramCost) then s.gauges.totalPrice[ls := o.TotalCost()]
        else s.gauges.totalPrice,
        s.gauges.spot[ls := o.spot]))
  }

  function ObserveAll(s: State, obs: seq<Observation>): State {
    if obs == [] then s else Observe(ObserveAll(s, obs[..|obs| - 1]), obs[|obs| - 1])
  }

  function Stale(seen: map<string, bool>): set<string> { set k | k in seen && !seen[k] }

  function Pieces(keys: set<string>): set<Labels> { set k | k in keys :: Split(k) }

  function Sweep(s: State): State {
    State(
      map k | k in s.seen && s.seen[k] :: false,
      s.averages - Stale(s.seen),
      s.gauges.Without(Pieces(Stale(s.seen))))
  }

  function Tick(s: State, obs: seq<Observation>): State { Sweep(ObserveAll(s, obs)) }

  const FRESH: State := State(map[], map[], Gauges(map[], map[], map[], map[], map[], map[]))

  function RunTicks(ticks: seq<seq<Observation>>): State {
    if ticks == [] then FRESH else Tick(RunTicks(ticks[..|ticks| - 1]), ticks[|ticks| - 1])
  }

  class NodeEmitter {
    var seen: map<string, bool>
    var averages: map<string, Averages>
    var gauges: Gauges

    ghost function Now(): State reads this { State(seen, averages, gauges) }

    constructor ()
      ensures Now() == FRESH
    {
      seen, averages, gauges := map[], map[], Gauges(map[], map[], map[], map[], map[], map[]);
    }

    method ObserveNode(o: Observation)
      modifies this
      ensures Now() == Observe(old(Now()), o)
    {
      hide Extend, Join, Observation.TotalCost;
      var key, ls := o.Key(), o.Labels();
      if key !in averages {
        averages := averages[key := Averages(Running(o.cpuCost, 1), Running(o.ramCost, 1))];
      }
      var avg := averages[key];
      ghost var held := avg;
      assert held == Held(old(averages), o);
      gauges := gauges.(gpuCount := gauges.gpuCount[ls := o.gpu]);
      gauges := gauges.(gpuPrice := gauges.gpuPrice[ls := o.gpuCost]);
      var cpuCutoff := OUTLIER_FACTOR * avg.cpu.mean;
      if o.cpuCost < cpuCutoff {
        gauges := gauges.(cpuPrice := gauges.cpuPrice[ls := o.cpuCost]);
        avg := avg.(cpu := Extend(avg.cpu, o.cpuCost));
      }
      var ramCutoff := OUTLIER_FACTOR * avg.ram.mean;
      if o.ramCost < ramCutoff {
        gauges := gauges.(ramPrice := gauges.ramPrice[ls := o.ramCost]);
        avg := avg.(ram := Extend(avg.ram, o.ramCost));
      }
      if o.cpuCost < cpuCutoff && o.ramCost < ramCutoff {
        gauges := gauges.(totalPrice := gauges.totalPrice[ls := o.TotalCost()]);
      }
      assert avg == Averages(Absorb(held.cpu, o.cpuCost), Absorb(held.ram, o.ramCost));
      averages := averages[key := avg];
      assert averages == old(averages)[key := avg];
      gauges := gauges.(spot := gauges.spot[ls := o.spot]);
      seen := seen[key := true];
      assert gauges == Observe(old(Now()), o).gauges;
    }

    /** The sweep may meet the tracked keys in any order. */
    method SweepNodes()
      modifies this
      ensures Now() == Sweep(old(Now()))
    {
      hide Split, Gauges.Without;
      var todo := seen.Keys;
      ghost var gone: set<string> := {};
      WithoutBoth(gauges, {}, {});
      assert Pieces(gone) == {};
      while todo != {}
        invariant todo <= old(seen).Keys
        invariant gone == set k | k in Stale(old(seen)) && k !in todo
        invariant seen == map k | k in old(seen) && k !in gone :: old(seen)[k] && k in todo
        invariant averages == old(averages) - gone
        invariant gauges == old(gauges).Without(Pieces(gone))
        decreases todo
      {
        var key :| key in todo;
        if !seen[key] {
          WithoutBoth(old(gauges), Pieces(gone), {Split(key)});
          assert Pieces(gone + {key}) == Pieces(gone) + {Split(key)};
          gone := gone + {key};
          gauges := gauges.Without({Split(key)});
          seen := seen - {key};
          averages := averages - {key};
        } else {
          seen := seen[key := false];
        }
        todo := todo - {key};
      }
      assert gone == Stale(old(seen));
    }

    method TickOnce(nodes: seq<Observation>)
      modifies this
      ensures Now() == Tick(old(Now()), nodes)
    {
      for i := 0 to |nodes|
        invariant Now() == ObserveAll(old(Now()), nodes[..i])
      {
        ObserveNode(nodes[i]);
        assert nodes[..i + 1][..i] == nodes[..i];
      }
      assert nodes[..|nodes|] == nodes;
      SweepNodes();
    }
  }

  /* ---------- what is tracked after a tick ---------- */

  function KeysOf(obs: seq<Observation>): set<string> { set o | o in obs :: o.Key() }

  lemma ObserveMarks(s: State, o: Observation)
    ensures Observe(s, o).seen == s.seen[o.Key() := true]
    ensures Observe(s, o).averages.Keys == s.averages.Keys + {o.Key()}
  {
  }

  lemma {:induction false} ObservedAreSeen(s: State, obs: seq<Observation>)
    ensures var t := ObserveAll(s, obs);
            && t.seen.Keys == s.seen.Keys + KeysOf(obs)
            && t.averages.Keys == s.averages.Keys + KeysOf(obs)
            && (forall k :: k in KeysOf(obs) ==> t.seen[k])
            && (forall k :: k in s.seen && k !in KeysOf(obs) ==> t.seen[k] == s.seen[k])
  {
    hide Observe, Observation.Key;
    if obs != [] {
      var init := obs[..|obs| - 1];
      ObservedAreSeen(s, init);
      ObserveMarks(ObserveAll(s, init), obs[|obs| - 1]);
      assert obs == init + [obs[|obs| - 1]];
      assert KeysOf(obs) == KeysOf(init) + {obs[|obs| - 1].Key()};
    }
  }

  /** Between ticks nothing is marked and every tracked key has an average. */
  ghost predicate Quiet(s: State) {
    s.seen.Keys == s.averages.Keys && forall k :: k in s.seen ==> !s.seen[k]
  }

  /** A tick leaves exactly the keys that it observed. */
  lemma TickTracks(s: State, obs: seq<Observation>)
    requires Quiet(s)
    ensures Quiet(Tick(s, obs)) && Tick(s, obs).averages.Keys == KeysOf(obs)
  {
    hide ObserveAll, KeysOf;
    ObservedAreSeen(s, obs);
  }

  /** After every tick of every run, tracked keys and averages are those observed in that tick. */
  lemma {:induction false} TrackedAreObserved(ticks: seq<seq<Observation>>)
    ensures Quiet(RunTicks(ticks))
    ensures ticks != [] ==> RunTicks(ticks).averages.Keys == KeysOf(ticks[|ticks| - 1])
  {
    hide Tick;
    if ticks != [] {
      TrackedAreObserved(ticks[..|ticks| - 1]);
      TickTracks(RunTicks(ticks[..|ticks| - 1]), ticks[|ticks| - 1]);
    }
  }

  /* ---------- each node alone ---------- */

  /** What is held of one node: its averages and what its gauges show. */
  datatype Node = Absent | Present(
    averages: Averages, gpuCount: real, gpuPrice: real, cpuPrice: Option<real>, ramPrice: Option<real>,
    totalPrice: Option<real>, spot: bool)

  function Lookup<V>(m: map<Labels, V>, ls: Labels): Option<V> { if ls in m then Some(m[ls]) else None }

  ghost predicate Shows(s: State, ls: Labels, n: Node) {
    var g := s.gauges;
    if n.Absent? then
      && Join(ls) !in s.averages && ls !in g.gpuCount && ls !in g.gpuPrice && ls !in g.cpuPrice
      && ls !in g.ramPrice && ls !in g.totalPrice && ls !in g.spot
    else
      && Join(ls) in s.averages && s.averages[Join(ls)] == n.averages
      && Lookup(g.gpuCount, ls) == Some(n.gpuCount) && Lookup(g.gpuPrice, ls) == Some(n.gpuPrice)
      && Lookup(g.cpuPrice, ls) == n.cpuPrice && Lookup(g.ramPrice, ls) == n.ramPrice
      && Lookup(g.totalPrice, ls) == n.totalPrice && Lookup(g.spot, ls) == Some(n.spot)
  }

  /** One observation of a node, with no other node in sight. */
  function NodeStep(n: Node, o: Observation): Node {
    var held := if n.Absent? then First(o) else n.averages;
    var cpuOk, ramOk := Accepts(held.cpu, o.cpuCost), Accepts(held.ram, o.ramCost);
    Present(
      Averages(Absorb(held.cpu, o.cpuCost), Absorb(held.ram, o.ramCost)),
      o.gpu, o.gpuCost,
      if cpuOk then Some(o.cpuCost) else if n.Absent? then None else n.cpuPrice,
      if ramOk then Some(o.ramCost) else if n.Absent? then None else n.ramPrice,
      if cpuOk && ramOk then Some(o.TotalCost()) else if n.Absent? then None else n.totalPrice,
      o.spot)
  }

  function NodeRun(n: Node, obs: seq<Observation>): Node {
    if obs == [] then n else NodeStep(NodeRun(n, obs[..|obs| - 1]), obs[|obs| - 1])
  }

  /** The observations of one label tuple. */
  function Of(obs: seq<Observation>, ls: Labels): seq<Observation> {
    if obs == [] then [] else
      var init := Of(obs[..|obs| - 1], ls);
      if obs[|obs| - 1].Labels() == ls then init + [obs[|obs| - 1]] else init
  }

  /** What was observed of a node since the last tick that missed it. */
  function Streak(ticks: seq<seq<Observation>>, ls: Labels): seq<Observation> {
    if ticks == [] || Of(ticks[|ticks| - 1], ls) == [] then [] else
      Streak(ticks[..|ticks| - 1], ls) + Of(ticks[|ticks| - 1], ls)
  }

  lemma ObserveShows(s: State, o: Observation, ls: Labels, n: Node)
    requires |ls| == 7 && CommaFree(ls) && Shows(s, ls, n)
    ensures Shows(Observe(s, o), ls, if o.Labels() == ls then NodeStep(n, o) else n)
  {
    hide Absorb, Accepts, Join, CommaFree;
    if Join(o.Labels()) == Join(ls) { KeyIsOwn(ls, o.Labels()); }
  }

  lemma {:induction false} ObserveAllShows(s: State, obs: seq<Observation>, ls: Labels, n: Node)
    requires |ls| == 7 && CommaFree(ls) && Shows(s, ls, n)
    ensures Shows(ObserveAll(s, obs), ls, NodeRun(n, Of(obs, ls)))
  {
    hide Shows, NodeStep, Observe, CommaFree;
    if obs != [] {
      var init, last := obs[..|obs| - 1], obs[|obs| - 1];
      ObserveAllShows(s, init, ls, n);
      ObserveShows(ObserveAll(s, init), last, ls, NodeRun(n, Of(init, ls)));
      assert (Of(init, ls) + [last])[..|Of(init, ls)|] == Of(init, ls);
    }
  }

  lemma {:induction false} OfIsObserved(obs: seq<Observation>, ls: Labels)
    requires |ls| == 7 && CommaFree(ls)
    ensures Of(obs, ls) != [] <==> Join(ls) in KeysOf(obs)
  {
    hide Join, CommaFree;
    if obs != [] {
      var init, last := obs[..|obs| - 1], obs[|obs| - 1];
      OfIsObserved(init, ls);
      assert obs == init + [last];
      assert KeysOf(obs) == KeysOf(init) + {last.Key()};
      if last.Key() == Join(ls) { KeyIsOwn(ls, last.Labels()); }
    }
  }

  /** A sweep takes down a comma-free tuple when its key is stale, and leaves it alone otherwise. */
  lemma SweepShows(s: State, ls: Labels, n: Node)
    requires ls != [] && CommaFree(ls) && Shows(s, ls, n) && s.seen.Keys == s.averages.Keys
    ensures Shows(Sweep(s), ls, if Join(ls) in Stale(s.seen) then Absent else n)
  {
    hide Join, CommaFree, Split;
    SplitOfJoin(ls);
    var gone := Pieces(Stale(s.seen));
    forall k | k in Stale(s.seen) && Split(k) == ls ensures k == Join(ls) { JoinOfSplit(k); }
    assert ls in gone <==> Join(ls) in Stale(s.seen);
  }

  lemma {:induction false} NodeRunConcat(n: Node, a: seq<Observation>, b: seq<Observation>)
    ensures NodeRun(n, a + b) == NodeRun(NodeRun(n, a), b)
  {
    hide NodeStep;
    if b == [] {
      assert a + b == a;
    } else {
      NodeRunConcat(n, a, b[..|b| - 1]);
      assert (a + b)[..|a + b| - 1] == a + b[..|b| - 1];
    }
  }

  /** The emitter refines one small machine for each node: after every run, whatever is kept and shown of a
      comma-free tuple is what its own observations since it was last missed produce. */
  lemma {:induction false} EachNodeAlone(ticks: seq<seq<Observation>>, ls: Labels)
    requires |ls| == 7 && CommaFree(ls)
    ensures Shows(RunTicks(ticks), ls, NodeRun(Absent, Streak(ticks, ls)))
  {
    hide ObserveAll, Sweep, KeysOf, Shows, CommaFree, Of, NodeRun, Join;
    if ticks == [] {
      FreshShows(ls);
    } else {
      var before, obs := ticks[..|ticks| - 1], ticks[|ticks| - 1];
      var s := RunTicks(before);
      var n := NodeRun(Absent, Streak(before, ls));
      EachNodeAlone(before, ls);
      TrackedAreObserved(before);
      ObserveAllShows(s, obs, ls, n);
      ObservedAreSeen(s, obs);
      OfIsObserved(obs, ls);
      var mid := ObserveAll(s, obs);
      SweepShows(mid, ls, NodeRun(n, Of(obs, ls)));
      if Of(obs, ls) != [] {
        NodeRunConcat(Absent, Streak(before, ls), Of(obs, ls));
      } else {
        MissedIsAbsent(s, obs, ls, n);
      }
    }
  }

  lemma FreshShows(ls: Labels)
    ensures Shows(FRESH, ls, NodeRun(Absent, []))
  {
  }

  lemma MissedIsAbsent(s: State, obs: seq<Observation>, ls: Labels, n: Node)
    requires |ls| == 7 && CommaFree(ls) && Of(obs, ls) == [] && Quiet(s) && Shows(s, ls, n)
    ensures Shows(Tick(s, obs), ls, NodeRun(Absent, []))
  {
    hide KeysOf, CommaFree, Join, Of, NodeStep, ObserveAll;
    ObserveAllShows(s, obs, ls, n);
    ObservedAreSeen(s, obs);
    OfIsObserved(obs, ls);
    assert NodeRun(n, Of(obs, ls)) == n;
    SweepShows(ObserveAll(s, obs), ls, n);
  }

  datatype Gauge = GpuCount | GpuPrice | CpuPrice | RamPrice | TotalPrice | Spot

  /** The tuples a gauge shows. */
  function Shown(g: Gauges, q: Gauge): set<Labels> {
    match q
    case GpuCount => g.gpuCount.Keys
    case GpuPrice => g.gpuPrice.Keys
    case CpuPrice => g.cpuPrice.Keys
    case RamPrice => g.ramPrice.Keys
    case TotalPrice => g.totalPrice.Keys
    case Spot => g.spot.Keys
  }

  lemma {:induction false} ObserveKeepsGauge(s: State, obs: seq<Observation>, ls: Labels, q: Gauge)
    ensures ls in Shown(s.gauges, q) ==> ls in Shown(ObserveAll(s, obs).gauges, q)
    ensures Of(obs, ls) != [] && (q.GpuCount? || q.GpuPrice? || q.Spot?) ==> ls in Shown(ObserveAll(s, obs).gauges, q)
  {
    hide Absorb, Accepts, Join;
    if obs != [] { ObserveKeepsGauge(s, obs[..|obs| - 1], ls, q); }
  }

  /** A sweep takes down the pieces of keys, which have no comma. */
  lemma SweepKeepsGauge(s: State, ls: Labels, q: Gauge)
    ensures Shown(Sweep(s).gauges, q) == Shown(s.gauges, q) - Pieces(Stale(s.seen))
    ensures !CommaFree(ls) ==> ls !in Pieces(Stale(s.seen))
  {
    hide Split, CommaFree;
    if !CommaFree(ls) {
      forall k ensures Split(k) != ls { SplitPieces(k); }
    }
  }

  /** A tuple with a comma is never taken down. */
  lemma CommaStays(s: State, obs: seq<Observation>, ls: Labels, q: Gauge)
    requires !CommaFree(ls) && ls in Shown(s.gauges, q)
    ensures ls in Shown(Tick(s, obs).gauges, q)
  {
    hide Sweep, CommaFree, ObserveAll, Shown;
    ObserveKeepsGauge(s, obs, ls, q);
    SweepKeepsGauge(ObserveAll(s, obs), ls, q);
  }

  /** The GPU and spot gauges show every node that the last tick observed. */
  lemma ObservedIsShown(ticks: seq<seq<Observation>>, ls: Labels, q: Gauge)
    requires |ls| == 7 && ticks != [] && Of(ticks[|ticks| - 1], ls) != [] && (q.GpuCount? || q.GpuPrice? || q.Spot?)
    ensures ls in Shown(RunTicks(ticks).gauges, q)
  {
    hide Sweep, CommaFree, ObserveAll, Of, Shows, Join, NodeRun, Streak;
    var s := RunTicks(ticks[..|ticks| - 1]);
    var obs := ticks[|ticks| - 1];
    if CommaFree(ls) {
      EachNodeAlone(ticks, ls);
      StreakIsRun(ticks, ls);
      PresentIsShown(RunTicks(ticks), ls, NodeRun(Absent, Streak(ticks, ls)), q);
    } else {
      ObserveKeepsGauge(s, obs, ls, q);
      SweepKeepsGauge(ObserveAll(s, obs), ls, q);
    }
  }

  lemma StreakIsRun(ticks: seq<seq<Observation>>, ls: Labels)
    requires ticks != [] && Of(ticks[|ticks| - 1], ls) != []
    ensures NodeRun(Absent, Streak(ticks, ls)).Present?
  {
  }

  lemma PresentIsShown(s: State, ls: Labels, n: Node, q: Gauge)
    requires Shows(s, ls, n)
    ensures n.Absent? ==> ls !in Shown(s.gauges, q)
    ensures n.Present? && (q.GpuCount? || q.GpuPrice? || q.Spot?) ==> ls in Shown(s.gauges, q)
  {
  }

  /** What any gauge has shown of a node that is missed now is taken down exactly when no label has a comma; with a
      comma it stays for ever. */
  lemma {:induction false} GaugesLeakIff(ticks: seq<seq<Observation>>, i: nat, ls: Labels, q: Gauge)
    requires |ls| == 7 && i < |ticks| && ls in Shown(RunTicks(ticks[..i + 1]).gauges, q)
             && Of(ticks[|ticks| - 1], ls) == []
    ensures ls in Shown(RunTicks(ticks).gauges, q) <==> !CommaFree(ls)
  {
    hide Of, Tick, CommaFree, Join, Shows, Shown, NodeStep;
    if CommaFree(ls) {
      EachNodeAlone(ticks, ls);
      PresentIsShown(RunTicks(ticks), ls, NodeRun(Absent, Streak(ticks, ls)), q);
    } else {
      StaysUp(ticks, i, ls, q);
    }
  }

  lemma {:induction false} StaysUp(ticks: seq<seq<Observation>>, i: nat, ls: Labels, q: Gauge)
    requires i < |ticks| && ls in Shown(RunTicks(ticks[..i + 1]).gauges, q) && !CommaFree(ls)
    ensures ls in Shown(RunTicks(ticks).gauges, q)
  {
    hide Tick, CommaFree, Shown;
    if i == |ticks| - 1 {
      assert ticks[..i + 1] == ticks;
    } else {
      var before := ticks[..|ticks| - 1];
      assert before[..i + 1] == ticks[..i + 1];
      StaysUp(before, i, ls, q);
      CommaStays(RunTicks(before), ticks[|ticks| - 1], ls, q);
    }
  }

  /* ---------- what the averages mean ---------- */

  function Total(ps: seq<real>): real { if ps == [] then 0.0 else Total(ps[..|ps| - 1]) + ps[|ps| - 1] }

  /** The plain average of a first price and of the prices accepted after it. */
  function MeanWith(first: real, ps: seq<real>): real { (first + Total(ps)) / ((1 + |ps|) as real) }

  /** The prices that are not outliers: each is below thirty times the plain average of the first price and
      the prices accepted before. */
  function Accepted(ps: seq<real>): seq<real> {
    if ps == [] then [] else
      var before := Accepted(ps[..|ps| - 1]);
      if ps[|ps| - 1] < 30.0 * MeanWith(ps[0], before) then before + [ps[|ps| - 1]] else before
  }

  function CpuPrices(obs: seq<Observation>): seq<real> { seq(|obs|, i requires 0 <= i < |obs| => obs[i].cpuCost) }

  function RamPrices(obs: seq<Observation>): seq<real> { seq(|obs|, i requires 0 <= i < |obs| => obs[i].ramCost) }

  function Last(ps: seq<real>): Option<real> { if ps == [] then None else Some(ps[|ps| - 1]) }

  ghost predicate IsMean(r: Running, first: real, ps: seq<real>) {
    r.mean == MeanWith(first, ps) && r.count == 1 + |ps|
  }

  lemma AbsorbMean(r: Running, first: real, ps: seq<real>, price: real)
    requires IsMean(r, first, ps)
    ensures IsMean(Absorb(r, price), first, if price < 30.0 * MeanWith(first, ps) then ps + [price] else ps)
    ensures Accepts(r, price) <==> price < 30.0 * MeanWith(first, ps)
  {
    var n := r.count as real;
    assert (ps + [price])[..|ps|] == ps;
    assert r.mean * n == first + Total(ps);
  }

  /** What a node's machine holds: the mean of its first price and all accepted ones, and on the gauge the
      last accepted price, if any. */
  lemma {:induction false} AverageMeaning(obs: seq<Observation>)
    requires obs != []
    ensures var n := NodeRun(Absent, obs); var cpu, ram := CpuPrices(obs), RamPrices(obs);
            && n.Present?
            && IsMean(n.averages.cpu, cpu[0], Accepted(cpu)) && n.cpuPrice == Last(Accepted(cpu))
            && IsMean(n.averages.ram, ram[0], Accepted(ram)) && n.ramPrice == Last(Accepted(ram))
  {
    hide IsMean, Absorb, Accepts, MeanWith;
    var init, o := obs[..|obs| - 1], obs[|obs| - 1];
    var cpu, ram := CpuPrices(obs), RamPrices(obs);
    assert cpu[..|cpu| - 1] == CpuPrices(init) && ram[..|ram| - 1] == RamPrices(init);
    if init == [] {
      FirstIsMean(o.cpuCost);
      FirstIsMean(o.ramCost);
      AbsorbMean(Running(o.cpuCost, 1), cpu[0], [], o.cpuCost);
      AbsorbMean(Running(o.ramCost, 1), ram[0], [], o.ramCost);
      assert Accepted(CpuPrices(init)) == [] && Accepted(RamPrices(init)) == [];
    } else {
      AverageMeaning(init);
      var n := NodeRun(Absent, init);
      AbsorbMean(n.averages.cpu, cpu[0], Accepted(CpuPrices(init)), o.cpuCost);
      AbsorbMean(n.averages.ram, ram[0], Accepted(RamPrices(init)), o.ramCost);
    }
  }

  lemma FirstIsMean(price: real)
    ensures IsMean(Running(price, 1), price, [])
  {
  }

  /** The latest price is not an outlier. */
  ghost predicate AcceptsLast(ps: seq<real>) {
    ps != [] && ps[|ps| - 1] < 30.0 * MeanWith(ps[0], Accepted(ps[..|ps| - 1]))
  }

  /** The latest observation at which neither price was an outlier. */
  ghost function LastSound(obs: seq<Observation>): Option<Observation> {
    if obs == [] then None
    else if AcceptsLast(CpuPrices(obs)) && AcceptsLast(RamPrices(obs)) then Some(obs[|obs| - 1])
    else LastSound(obs[..|obs| - 1])
  }

  /** What an hour of a node costs: its cores, its memory by the GiB of 1073741824 bytes, and its GPUs. */
  lemma TotalCostMeaning(o: Observation)
    ensures (o.TotalCost() - o.cpu * o.cpuCost - o.gpu * o.gpuCost) * 1073741824.0 == o.ramCost * o.ramBytes
  {
    var gib := o.ramBytes / 1024.0 / 1024.0 / 1024.0;
    assert gib * 1073741824.0 == o.ramBytes;
    GibCost(o.ramCost, gib, o.ramBytes);
  }

  lemma GibCost(cost: real, gib: real, bytes: real)
    requires gib * 1073741824.0 == bytes
    ensures cost * gib * 1073741824.0 == cost * bytes
  {
  }

  /** A node's other gauges: GPUs and spot as last observed, and the total cost of the last observation at which neither
      price was an outlier. */
  lemma {:induction false} OtherGauges(obs: seq<Observation>)
    requires obs != []
    ensures var n, o := NodeRun(Absent, obs), obs[|obs| - 1];
            && n.Present? && n.gpuCount == o.gpu && n.gpuPrice == o.gpuCost && n.spot == o.spot
            && n.totalPrice == if LastSound(obs).None? then None else Some(LastSound(obs).value.TotalCost())
  {
    hide IsMean, Absorb, Accepts, MeanWith, Observation.TotalCost;
    var init, o := obs[..|obs| - 1], obs[|obs| - 1];
    var cpu, ram := CpuPrices(obs), RamPrices(obs);
    assert cpu[..|cpu| - 1] == CpuPrices(init) && ram[..|ram| - 1] == RamPrices(init);
    if init == [] {
      FirstIsMean(o.cpuCost);
      FirstIsMean(o.ramCost);
      AbsorbMean(Running(o.cpuCost, 1), cpu[0], [], o.cpuCost);
      AbsorbMean(Running(o.ramCost, 1), ram[0], [], o.ramCost);
      assert Accepted(CpuPrices(init)) == [] && Accepted(RamPrices(init)) == [];
    } else {
      OtherGauges(init);
      AverageMeaning(init);
      var n := NodeRun(Absent, init);
      AbsorbMean(n.averages.cpu, cpu[0], Accepted(CpuPrices(init)), o.cpuCost);
      AbsorbMean(n.averages.ram, ram[0], Accepted(RamPrices(init)), o.ramCost);
    }
  }

  /** After every run, what the other gauges show of an observed comma-free tuple. */
  lemma GaugesAfterRun(ticks: seq<seq<Observation>>, ls: Labels)
    requires |ls| == 7 && CommaFree(ls) && ticks != [] && Of(ticks[|ticks| - 1], ls) != []
    ensures var g, obs := RunTicks(ticks).gauges, Streak(ticks, ls);
            && obs != [] && var o := obs[|obs| - 1];
            && Lookup(g.gpuCount, ls) == Some(o.gpu) && Lookup(g.gpuPrice, ls) == Some(o.gpuCost)
            && Lookup(g.spot, ls) == Some(o.spot)
            && Lookup(g.totalPrice, ls) == if LastSound(obs).None? then None else Some(LastSound(obs).value.TotalCost())
  {
    hide RunTicks, NodeRun, Of, LastSound, CommaFree, Join, Observation.TotalCost;
    EachNodeAlone(ticks, ls);
    OtherGauges(Streak(ticks, ls));
  }

  /** A node's tuple names it by all that it is known by. */
  lemma LabelsNameNode(a: Observation, b: Observation)
    ensures a.Labels() == b.Labels() <==>
              a.name == b.name && a.nodeType == b.nodeType && a.region == b.region && a.providerID == b.providerID
                && a.arch == b.arch && a.uid == b.uid
  {
    var x, y := a.Labels(), b.Labels();
    if x == y {
      assert x[1] == y[1] && x[2] == y[2] && x[3] == y[3] && x[4] == y[4] && x[5] == y[5] && x[6] == y[6];
    }
  }

  /** After every run, for every observed comma-free tuple: average times count is the first price since the
      node was last missed plus every accepted one, and the gauge shows the last accepted one. */
  lemma AveragesAfterRun(ticks: seq<seq<Observation>>, ls: Labels)
    requires |ls| == 7 && CommaFree(ls) && ticks != [] && Of(ticks[|ticks| - 1], ls) != []
    ensures var s, cpu, ram := RunTicks(ticks), CpuPrices(Streak(ticks, ls)), RamPrices(Streak(ticks, ls));
            && cpu != [] && ram != [] && Join(ls) in s.averages
            && var avg := s.averages[Join(ls)];
            && avg.cpu.count == 1 + |Accepted(cpu)| && avg.ram.count == 1 + |Accepted(ram)|
            && avg.cpu.mean * (avg.cpu.count as real) == cpu[0] + Total(Accepted(cpu))
            && avg.ram.mean * (avg.ram.count as real) == ram[0] + Total(Accepted(ram))
            && Lookup(s.gauges.cpuPrice, ls) == Last(Accepted(cpu))
            && Lookup(s.gauges.ramPrice, ls) == Last(Accepted(ram))
  {
    hide RunTicks, NodeRun, Of, Accepted, CommaFree, Join, Total;
    EachNodeAlone(ticks, ls);
    AverageMeaning(Streak(ticks, ls));
  }

  /** Nothing is accepted exactly when no price is below thirty times the first: in particular when the
      first price is zero and none is negative. */
  lemma {:induction false} NothingAcceptedIff(ps: seq<real>)
    requires ps != []
    ensures Accepted(ps) == [] <==> forall i :: 0 <= i < |ps| ==> ps[i] >= 30.0 * ps[0]
  {
    var init := ps[..|ps| - 1];
    assert MeanWith(ps[0], []) == ps[0];
    if init != [] {
      NothingAcceptedIff(init);
      assert forall i :: 0 <= i < |init| ==> init[i] == ps[i];
    }
  }

  /** The first price enters the average a second time exactly when it is positive. */
  lemma {:induction false} FirstCountsTwiceIff(ps: seq<real>)
    requires ps != []
    ensures ps[0] > 0.0 <==> Accepted(ps[..1]) != []
    ensures ps[0] > 0.0 ==> Accepted(ps) != [] && Accepted(ps)[0] == ps[0]
  {
    assert MeanWith(ps[0], []) == ps[0];
    assert ps[..1][..0] == [];
    if |ps| > 1 {
      FirstCountsTwiceIff(ps[..|ps| - 1]);
    }
  }

  /** A price gauge shows nothing of a node exactly when no price since it was last missed is below thirty times the
      first of them. */
  lemma NothingShownIff(ticks: seq<seq<Observation>>, ls: Labels)
    requires |ls| == 7 && CommaFree(ls) && ticks != [] && Of(ticks[|ticks| - 1], ls) != []
    ensures var s, cpu, ram := RunTicks(ticks), CpuPrices(Streak(ticks, ls)), RamPrices(Streak(ticks, ls));
            && cpu != [] && ram != []
            && (ls !in s.gauges.cpuPrice <==> forall i :: 0 <= i < |cpu| ==> cpu[i] >= 30.0 * cpu[0])
            && (ls !in s.gauges.ramPrice <==> forall i :: 0 <= i < |ram| ==> ram[i] >= 30.0 * ram[0])
  {
    hide RunTicks, NodeRun, Of, Accepted, CommaFree, Join, Total, Streak;
    AveragesAfterRun(ticks, ls);
    NothingAcceptedIff(CpuPrices(Streak(ticks, ls)));
    NothingAcceptedIff(RamPrices(Streak(ticks, ls)));
  }

  predicate ZeroStart(ps: seq<real>) { ps != [] && ps[0] == 0.0 && forall i :: 0 <= i < |ps| ==> ps[i] >= 0.0 }

  /** Non-negative prices that start at zero are never shown while the node stays. */
  lemma ZeroStartNeverShows(ticks: seq<seq<Observation>>, ls: Labels)
    requires |ls| == 7 && CommaFree(ls) && ticks != [] && Of(ticks[|ticks| - 1], ls) != []
    ensures ZeroStart(CpuPrices(Streak(ticks, ls))) ==> ls !in RunTicks(ticks).gauges.cpuPrice
    ensures ZeroStart(RamPrices(Streak(ticks, ls))) ==> ls !in RunTicks(ticks).gauges.ramPrice
  {
    hide RunTicks, Of, CommaFree, Streak;
    NothingShownIff(ticks, ls);
  }
}
