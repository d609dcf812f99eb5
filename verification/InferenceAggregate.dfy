/**
 Grouping inference costs by dimensions and adding them up over time steps
 (pkg/inferencecost/aggregate.go). The query service groups every step and then accumulates the
 steps; this is shown to give what accumulating first and grouping once would give, for exactly
 the dimensions that the entries' natural keys determine.
 */
module InferenceAggregate {
  import opened Results
  import opened Sums

  datatype Dimension =
    | ModelName | ModelVersion | Namespace | Cluster | Pod
    | Controller | ControllerKind | Container | WorkloadType
    | Unknown(name: string)

  datatype Properties = Properties(
    modelName: string, modelVersion: string, ns: string, cluster: string, pod: string,
    controller: string, controllerKind: string, container: string, workloadType: string)

  /** The fields that are summed. */
  datatype Amounts = Amounts(
    totalCost: real, promptTokens: real, generationTokens: real, totalTokens: real,
    inputCost: real, outputCost: real, cachedTokens: real)

  datatype Field = TotalCost | PromptTokens | GenerationTokens | TotalTokens | InputCost | OutputCost | CachedTokens

  function Get(a: Amounts, f: Field): real {
    match f
    case TotalCost => a.totalCost
    case PromptTokens => a.promptTokens
    case GenerationTokens => a.generationTokens
    case TotalTokens => a.totalTokens
    case InputCost => a.inputCost
    case OutputCost => a.outputCost
    case CachedTokens => a.cachedTokens
  }

  /** The fields that are derived from the summed ones. */
  datatype Rates = Rates(perMillion: real, inputPerMillion: real, outputPerMillion: real, cacheSavings: real)

  datatype Response = Response(properties: Properties, amounts: Amounts, rates: Rates, method_: string)

  type CostSet = map<string, Response>

  const UNALLOCATED := "__unallocated__"

  /* ---------- one merge ---------- */

  /** Cost per million tokens, or zero without tokens. */
  function PerMillion(cost: real, tokens: real): real {
    if tokens > 0.0 then cost / tokens * 1000000.0 else 0.0
  }

  function RatesOf(a: Amounts): Rates {
    Rates(
      PerMillion(a.totalCost, a.totalTokens),
      PerMillion(a.inputCost, a.promptTokens),
      PerMillion(a.outputCost, a.generationTokens),
      if a.promptTokens > 0.0 then
        (if a.cachedTokens / a.promptTokens < 1.0 then a.cachedTokens / a.promptTokens else 1.0)
      else 0.0)
  }

  /** Every rate is the ratio of what has been summed. */
  predicate Consistent(r: Response) { r.rates == RatesOf(r.amounts) }

  datatype Rate = Blended | Input | Output | CacheSavings

  /** At this rate a million tokens cost what the tokens did in proportion; without tokens there is no rate. */
  predicate CostsPerMillion(rate: real, cost: real, tokens: real) {
    if tokens > 0.0 then rate * tokens == cost * 1000000.0 else rate == 0.0
  }

  /** The part of the prompt that was served from the cache, at most all of it. */
  predicate IsPartSaved(part: real, cached: real, prompt: real) {
    if prompt <= 0.0 then part == 0.0 else if cached < prompt then part * prompt == cached else part == 1.0
  }

  /** One rate is the ratio of what has been summed. */
  predicate IsRatio(r: Response, q: Rate) {
    var a := r.amounts;
    match q
    case Blended => CostsPerMillion(r.rates.perMillion, a.totalCost, a.totalTokens)
    case Input => CostsPerMillion(r.rates.inputPerMillion, a.inputCost, a.promptTokens)
    case Output => CostsPerMillion(r.rates.outputPerMillion, a.outputCost, a.generationTokens)
    case CacheSavings => IsPartSaved(r.rates.cacheSavings, a.cachedTokens, a.promptTokens)
  }

  lemma PerMillionCosts(rate: real, cost: real, tokens: real)
    ensures CostsPerMillion(rate, cost, tokens) <==> rate == PerMillion(cost, tokens)
  {
    if tokens > 0.0 {
      var each := cost / tokens;
      assert each * tokens == cost;
      Reorder(each, 1000000.0, tokens);
      if rate * tokens == cost * 1000000.0 { SameFactor(rate, each * 1000000.0, tokens); }
    }
  }

  lemma Reorder(x: real, y: real, z: real)
    ensures x * y * z == x * z * y
  {
  }

  lemma SameFactor(x: real, y: real, z: real)
    requires z > 0.0 && x * z == y * z
    ensures x == y
  {
    assert (x - y) * z == 0.0;
  }

  lemma PartIsSaved(part: real, cached: real, prompt: real)
    requires prompt > 0.0
    ensures IsPartSaved(part, cached, prompt) <==> part == if cached / prompt < 1.0 then cached / prompt else 1.0
  {
    var ratio := cached / prompt;
    assert ratio * prompt == cached;
    assert ratio < 1.0 <==> cached < prompt by { LessThanOne(ratio, prompt); }
    if part * prompt == cached { SameFactor(part, ratio, prompt); }
  }

  lemma LessThanOne(ratio: real, whole: real)
    requires whole > 0.0
    ensures ratio < 1.0 <==> ratio * whole < whole
  {
    assert (1.0 - ratio) * whole == whole - ratio * whole;
  }

  /** A sum's own rates are ratios, and rates that are ratios are the sum's own. */
  lemma RatesOfAreRatios(r: Response)
    ensures Consistent(r) <==> forall q :: IsRatio(r, q)
    ensures forall q :: IsRatio(r.(rates := RatesOf(r.amounts)), q)
  {
    hide PerMillion, CostsPerMillion, IsPartSaved;
    var a := r.amounts;
    PerMillionCosts(r.rates.perMillion, a.totalCost, a.totalTokens);
    PerMillionCosts(r.rates.inputPerMillion, a.inputCost, a.promptTokens);
    PerMillionCosts(r.rates.outputPerMillion, a.outputCost, a.generationTokens);
    PerMillionCosts(PerMillion(a.totalCost, a.totalTokens), a.totalCost, a.totalTokens);
    PerMillionCosts(PerMillion(a.inputCost, a.promptTokens), a.inputCost, a.promptTokens);
    PerMillionCosts(PerMillion(a.outputCost, a.generationTokens), a.outputCost, a.generationTokens);
    NoPartSaved(r.rates.cacheSavings, a.cachedTokens, a.promptTokens);
    NoPartSaved(RatesOf(a).cacheSavings, a.cachedTokens, a.promptTokens);
    if a.promptTokens > 0.0 {
      PartIsSaved(r.rates.cacheSavings, a.cachedTokens, a.promptTokens);
      PartIsSaved(RatesOf(a).cacheSavings, a.cachedTokens, a.promptTokens);
    }
    if forall q :: IsRatio(r, q) {
      assert IsRatio(r, Blended) && IsRatio(r, Input) && IsRatio(r, Output) && IsRatio(r, CacheSavings);
    }
  }

  lemma NoPartSaved(part: real, cached: real, prompt: real)
    ensures prompt <= 0.0 ==> (IsPartSaved(part, cached, prompt) <==> part == 0.0)
  {
  }

  /** Whatever the two had, the rates of a merged response are ratios of what it sums. */
  lemma MergedRatesAreRatios(dst: Response, src: Response, q: Rate)
    ensures IsRatio(AddResponse(dst, src), q)
  {
    hide RatesOf, IsRatio;
    RatesOfAreRatios(AddResponse(dst, src));
  }

  function Plus(a: Amounts, b: Amounts): (c: Amounts)
    ensures forall f: Field :: Get(c, f) == Get(a, f) + Get(b, f)
  {
    Amounts(a.totalCost + b.totalCost, a.promptTokens + b.promptTokens, a.generationTokens + b.generationTokens,
            a.totalTokens + b.totalTokens, a.inputCost + b.inputCost, a.outputCost + b.outputCost,
            a.cachedTokens + b.cachedTokens)
  }

  /** addResponse */
  function AddResponse(dst: Response, src: Response): Response {
    var sum := Plus(dst.amounts, src.amounts);
    Response(dst.properties, sum, RatesOf(sum), if dst.method_ != src.method_ then "" else dst.method_)
  }

  /* ---------- what a grouping is ---------- */

  const NO_RESPONSE := Response(
    Properties("", "", "", "", "", "", "", "", ""), Amounts(0.0, 0.0, 0.0, 0.0, 0.0, 0.0, 0.0), Rates(0.0, 0.0, 0.0, 0.0), "")

  function At(m: CostSet, k: string): Response { if k in m then m[k] else NO_RESPONSE }

  /** The map, as a function. */
  function Look(m: CostSet): string -> Response { k => At(m, k) }

  ghost predicate Unanimous<K(!new)>(x: string, keys: set<K>, v: K -> Response) {
    forall k :: k in keys ==> v(k).method_ == x
  }

  /** The method all of `keys` agree on, or none. */
  ghost predicate Agreed<K(!new)>(x: string, keys: set<K>, v: K -> Response) {
    if x != "" then Unanimous(x, keys, v) else forall m :: Unanimous(m, keys, v) ==> m == ""
  }

  /** One field of every entry. */
  function FieldOf<K>(v: K -> Response, f: Field): K -> real { k => Get(v(k).amounts, f) }

  ghost function FieldSum<K(!new)>(keys: set<K>, v: K -> Response, f: Field): real {
    SumOver(keys, FieldOf(v, f))
  }

  /** One group: its amounts are the sums over its members and its method is what they agree on. */
  ghost predicate IsGroup<K(!new)>(r: Response, members: set<K>, v: K -> Response) {
    && members != {}
    && (forall f: Field :: Get(r.amounts, f) == FieldSum(members, v, f))
    && Agreed(r.method_, members, v)
    && Rated(r, members, v)
  }

  /** A lone entry keeps its rates; a sum's rates are ratios of the sums. */
  ghost predicate Rated<K(!new)>(r: Response, members: set<K>, v: K -> Response) {
    if |members| == 1 then forall k :: k in members ==> r.rates == v(k).rates else Consistent(r)
  }

  /** `w` on `groups` is the grouping of `v` on `keys` by `t`. */
  ghost predicate Groups<K(!new), J(!new)>(keys: set<K>, v: K -> Response, t: K -> J, groups: set<J>,
                                           w: J -> Response) {
    && (forall k :: k in keys ==> t(k) in groups)
    && (forall j :: j in groups ==> IsGroup(w(j), Fiber(keys, t, j), v))
  }

  lemma SameAmounts(a: Amounts, b: Amounts)
    requires forall f: Field :: Get(a, f) == Get(b, f)
    ensures a == b
  {
    assert Get(a, TotalCost) == Get(b, TotalCost) && Get(a, PromptTokens) == Get(b, PromptTokens);
    assert Get(a, GenerationTokens) == Get(b, GenerationTokens) && Get(a, TotalTokens) == Get(b, TotalTokens);
    assert Get(a, InputCost) == Get(b, InputCost) && Get(a, OutputCost) == Get(b, OutputCost);
    assert Get(a, CachedTokens) == Get(b, CachedTokens);
  }

  lemma SoleMember<K(!new)>(v: K -> Response, k: K)
    ensures IsGroup(v(k), {k}, v)
  {
    forall f: Field ensures Get(v(k).amounts, f) == FieldSum({k}, v, f) {
      SumPick({k}, FieldOf(v, f), k);
    }
    var members := {k};
    assert k in members;
  }

  lemma OneMoreMember<K(!new)>(r: Response, members: set<K>, v: K -> Response, k: K)
    requires IsGroup(r, members, v) && k !in members
    ensures IsGroup(AddResponse(r, v(k)), members + {k}, v)
  {
    hide SumOver, RatesOf;
    var sum := AddResponse(r, v(k));
    forall f: Field ensures Get(sum.amounts, f) == FieldSum(members + {k}, v, f) {
      SumPick(members + {k}, FieldOf(v, f), k);
      assert members + {k} - {k} == members;
    }
    assert |members + {k}| == |members| + 1;
    MoreAgreed(r.method_, members, v, k);
  }

  lemma MoreAgreed<K(!new)>(x: string, members: set<K>, v: K -> Response, k: K)
    requires Agreed(x, members, v) && members != {}
    ensures Agreed(if x != v(k).method_ then "" else x, members + {k}, v)
  {
    var more := members + {k};
    forall m | Unanimous(m, more, v) ensures Unanimous(m, members, v) && m == v(k).method_ {
      assert k in more;
      assert forall j :: j in members ==> j in more;
    }
    var j :| j in members;
    assert x != "" ==> v(j).method_ == x;
  }

  /** One more key is added to the group it belongs to, or founds it. */
  lemma GroupsStep<K(!new), J(!new)>(keys: set<K>, v: K -> Response, t: K -> J, groups: set<J>, w: J -> Response, k: K,
                                     w': J -> Response)
    requires Groups(keys, v, t, groups, w) && k !in keys
    requires forall j :: j in groups && j != t(k) ==> w'(j) == w(j)
    requires if t(k) in groups then w'(t(k)).amounts == AddResponse(w(t(k)), v(k)).amounts
                                 && w'(t(k)).rates == AddResponse(w(t(k)), v(k)).rates
                                 && w'(t(k)).method_ == AddResponse(w(t(k)), v(k)).method_
             else w'(t(k)).amounts == v(k).amounts && w'(t(k)).rates == v(k).rates && w'(t(k)).method_ == v(k).method_
    ensures Groups(keys + {k}, v, t, groups + {t(k)}, w')
  {
    hide IsGroup, AddResponse;
    forall j | j in groups + {t(k)} ensures IsGroup(w'(j), Fiber(keys + {k}, t, j), v) {
      if j != t(k) {
        assert Fiber(keys + {k}, t, j) == Fiber(keys, t, j);
      } else if j in groups {
        assert Fiber(keys + {k}, t, j) == Fiber(keys, t, j) + {k};
        OneMoreMember(w(j), Fiber(keys, t, j), v, k);
        SameGroup(AddResponse(w(j), v(k)), w'(j), Fiber(keys + {k}, t, j), v);
      } else {
        assert Fiber(keys + {k}, t, j) == {k};
        SoleMember(v, k);
        SameGroup(v(k), w'(j), {k}, v);
      }
    }
  }

  lemma SameGroup<K(!new)>(r: Response, s: Response, members: set<K>, v: K -> Response)
    requires IsGroup(r, members, v) && s.amounts == r.amounts && s.rates == r.rates && s.method_ == r.method_
    ensures IsGroup(s, members, v)
  {
  }

  /* ---------- groupings compose ---------- */

  lemma FieldCompose<K(!new), I(!new), J(!new)>(keys: set<K>, v: K -> Response, t: K -> I, mid: set<I>,
                                                w: I -> Response, u: I -> J, g: K -> J, j: J, f: Field)
    requires Groups(keys, v, t, mid, w)
    requires forall k :: k in keys ==> u(t(k)) == g(k)
    ensures FieldSum(Fiber(mid, u, j), w, f) == FieldSum(Fiber(keys, g, j), v, f)
  {
    hide SumOver;
    var members := Fiber(keys, g, j);
    var parts := Fiber(mid, u, j);
    var h := FieldOf(v, f);
    SumFibers(members, t, parts, h);
    forall i | i in parts ensures Get(w(i).amounts, f) == SumOver(Fiber(members, t, i), h) {
      assert Fiber(members, t, i) == Fiber(keys, t, i);
      assert IsGroup(w(i), Fiber(keys, t, i), v);
    }
    SumAgree(parts, FieldOf(w, f), i => SumOver(Fiber(members, t, i), h));
  }

  lemma AgreedCompose<K(!new), I(!new), J(!new)>(keys: set<K>, v: K -> Response, t: K -> I, mid: set<I>,
                                                 w: I -> Response, u: I -> J, g: K -> J, j: J, x: string)
    requires Groups(keys, v, t, mid, w)
    requires forall k :: k in keys ==> u(t(k)) == g(k)
    requires Agreed(x, Fiber(mid, u, j), w)
    ensures Agreed(x, Fiber(keys, g, j), v)
  {
    hide SumOver;
    if x != "" {
      forall k | k in Fiber(keys, g, j) ensures v(k).method_ == x {
        assert t(k) in Fiber(mid, u, j) && IsGroup(w(t(k)), Fiber(keys, t, t(k)), v);
        assert k in Fiber(keys, t, t(k));
      }
    } else {
      forall m | Unanimous(m, Fiber(keys, g, j), v) ensures m == "" {
        forall i | i in Fiber(mid, u, j) ensures w(i).method_ == m {
          var part := Fiber(keys, t, i);
          assert IsGroup(w(i), part, v);
          assert forall k :: k in part ==> k in Fiber(keys, g, j);
          assert Unanimous(m, part, v);
          var k :| k in part;
        }
        assert Unanimous(m, Fiber(mid, u, j), w);
      }
    }
  }

  lemma RatedCompose<K(!new), I(!new), J(!new)>(keys: set<K>, v: K -> Response, t: K -> I, mid: set<I>,
                                                w: I -> Response, u: I -> J, g: K -> J, j: J, x: Response)
    requires Groups(keys, v, t, mid, w)
    requires forall k :: k in keys ==> u(t(k)) == g(k)
    requires IsGroup(x, Fiber(mid, u, j), w)
    ensures Rated(x, Fiber(keys, g, j), v)
  {
    hide SumOver, RatesOf, FieldSum, Agreed;
    var members, parts := Fiber(keys, g, j), Fiber(mid, u, j);
    if |members| == 1 {
      var k :| k in members;
      Alone(members, k);
      forall i | i in parts ensures i == t(k) {
        assert IsGroup(w(i), Fiber(keys, t, i), v);
        var l :| l in Fiber(keys, t, i);
        assert l in members;
      }
      assert parts == {t(k)};
    }
    if |parts| == 1 {
      var i :| i in parts;
      Alone(parts, i);
      assert IsGroup(w(i), Fiber(keys, t, i), v);
      forall k | k in members ensures t(k) == i { assert t(k) in parts; }
      assert Fiber(keys, t, i) == members;
      OneSum(w, i, x.amounts);
    }
  }

  lemma Alone<T>(s: set<T>, x: T)
    requires |s| == 1 && x in s
    ensures s == {x}
  {
    assert |s - {x}| == 0;
    assert s == s - {x} + {x};
  }

  /** Grouping a grouping is grouping at once, for the amounts, the rates and the agreed methods. */
  ghost predicate Totals<K(!new), J(!new)>(keys: set<K>, v: K -> Response, g: K -> J, groups: set<J>,
                                           w: J -> Response) {
    && (forall k :: k in keys ==> g(k) in groups)
    && (forall j :: j in groups ==>
          && Fiber(keys, g, j) != {}
          && (forall f: Field :: Get(w(j).amounts, f) == FieldSum(Fiber(keys, g, j), v, f))
          && Agreed(w(j).method_, Fiber(keys, g, j), v)
          && Rated(w(j), Fiber(keys, g, j), v))
  }

  lemma Compose<K(!new), I(!new), J(!new)>(keys: set<K>, v: K -> Response, t: K -> I, mid: set<I>, w: I -> Response,
                                           u: I -> J, g: K -> J, groups: set<J>, x: J -> Response)
    requires Groups(keys, v, t, mid, w) && Groups(mid, w, u, groups, x)
    requires forall k :: k in keys ==> u(t(k)) == g(k)
    ensures Totals(keys, v, g, groups, x)
  {
    hide FieldSum, Agreed, Rated;
    forall j | j in groups
      ensures Fiber(keys, g, j) != {}
      ensures forall f: Field :: Get(x(j).amounts, f) == FieldSum(Fiber(keys, g, j), v, f)
      ensures Agreed(x(j).method_, Fiber(keys, g, j), v)
      ensures Rated(x(j), Fiber(keys, g, j), v)
    {
      assert IsGroup(x(j), Fiber(mid, u, j), w);
      var i :| i in Fiber(mid, u, j);
      assert IsGroup(w(i), Fiber(keys, t, i), v);
      var k :| k in Fiber(keys, t, i);
      assert k in Fiber(keys, g, j);
      forall f: Field ensures Get(x(j).amounts, f) == FieldSum(Fiber(keys, g, j), v, f) {
        FieldCompose(keys, v, t, mid, w, u, g, j, f);
      }
      AgreedCompose(keys, v, t, mid, w, u, g, j, x(j).method_);
      RatedCompose(keys, v, t, mid, w, u, g, j, x(j));
    }
  }

  lemma AgreedUnique<K(!new)>(x: string, y: string, keys: set<K>, v: K -> Response)
    requires Agreed(x, keys, v) && Agreed(y, keys, v) && keys != {}
    ensures x == y
  {
    var k :| k in keys;
    assert Agreed(x, keys, v) && Agreed(y, keys, v);
  }

  lemma RatedUnique<K(!new)>(x: Response, y: Response, members: set<K>, v: K -> Response)
    requires Rated(x, members, v) && Rated(y, members, v) && x.amounts == y.amounts
    ensures x.rates == y.rates
  {
    if |members| == 1 { var k :| k in members; }
  }

  /** Totals are determined: the same groups, amounts, rates and methods. */
  lemma TotalsUnique<K(!new), J(!new)>(keys: set<K>, v: K -> Response, g: K -> J, groups: set<J>, w: J -> Response,
                                       groups': set<J>, w': J -> Response)
    requires Totals(keys, v, g, groups, w) && Totals(keys, v, g, groups', w')
    ensures groups == groups'
    ensures forall j :: j in groups ==>
              w(j).amounts == w'(j).amounts && w(j).method_ == w'(j).method_ && w(j).rates == w'(j).rates
  {
    hide FieldSum, Agreed, Rated;
    forall j | j in groups ensures j in groups' { var k :| k in Fiber(keys, g, j); }
    forall j | j in groups' ensures j in groups { var k :| k in Fiber(keys, g, j); }
    forall j | j in groups
      ensures w(j).amounts == w'(j).amounts && w(j).method_ == w'(j).method_ && w(j).rates == w'(j).rates
    {
      SameAmounts(w(j).amounts, w'(j).amounts);
      AgreedUnique(w(j).method_, w'(j).method_, Fiber(keys, g, j), v);
      RatedUnique(w(j), w'(j), Fiber(keys, g, j), v);
    }
  }

  /** Every additive field is conserved by a grouping. */
  lemma GroupingConserves<K(!new), J(!new)>(keys: set<K>, v: K -> Response, t: K -> J, groups: set<J>, w: J -> Response,
                                            f: Field)
    requires Groups(keys, v, t, groups, w)
    ensures FieldSum(groups, w, f) == FieldSum(keys, v, f)
  {
    hide SumOver;
    var h := FieldOf(v, f);
    SumFibers(keys, t, groups, h);
    forall j | j in groups ensures Get(w(j).amounts, f) == SumOver(Fiber(keys, t, j), h) {
      assert IsGroup(w(j), Fiber(keys, t, j), v);
    }
    SumAgree(groups, FieldOf(w, f), j => SumOver(Fiber(keys, t, j), h));
  }

  /** If every source's rate is the ratio of its own amounts, so is every group's. */
  lemma GroupingKeepsRates<K(!new), J(!new)>(keys: set<K>, v: K -> Response, t: K -> J, groups: set<J>,
                                             w: J -> Response, q: Rate)
    requires Groups(keys, v, t, groups, w) && forall k :: k in keys ==> IsRatio(v(k), q)
    ensures forall j :: j in groups ==> IsRatio(w(j), q)
  {
    hide RatesOf, SumOver;
    forall j | j in groups ensures IsRatio(w(j), q) {
      assert IsGroup(w(j), Fiber(keys, t, j), v);
      if |Fiber(keys, t, j)| == 1 {
        var k :| k in Fiber(keys, t, j);
        Alone(Fiber(keys, t, j), k);
        OneSum(v, k, w(j).amounts);
      } else {
        RatesOfAreRatios(w(j));
      }
    }
  }

  lemma OneSum<K(!new)>(v: K -> Response, k: K, a: Amounts)
    requires forall f: Field :: Get(a, f) == FieldSum({k}, v, f)
    ensures a == v(k).amounts
  {
    SoleMember(v, k);
    SameAmounts(a, v(k).amounts);
  }

  /* ---------- keys ---------- */

  function Value(p: Properties, d: Dimension): string {
    match d
    case ModelName => p.modelName
    case ModelVersion => p.modelVersion
    case Namespace => p.ns
    case Cluster => p.cluster
    case Pod => p.pod
    case Controller => p.controller
    case ControllerKind => p.controllerKind
    case Container => p.container
    case WorkloadType => p.workloadType
    case Unknown(_) => ""
  }

  function OrUnallocated(s: string): string { if s == "" then UNALLOCATED else s }

  /** The key of an entry that is not grouped. */
  function NaturalKey(p: Properties): string { p.modelName + ":" + OrUnallocated(p.ns) }

  function Parts(p: Properties, dims: seq<Dimension>): seq<string> {
    seq(|dims|, i requires 0 <= i < |dims| => OrUnallocated(Value(p, dims[i])))
  }

  /** strings.Join(parts, "/") */
  function Join(parts: seq<string>): string {
    if parts == [] then "" else if |parts| == 1 then parts[0] else parts[0] + "/" + Join(parts[1..])
  }

  predicate Supported(dims: seq<Dimension>) { forall i :: 0 <= i < |dims| ==> !dims[i].Unknown? }

  function KeyOf(p: Properties, dims: seq<Dimension>): string {
    if dims == [] then NaturalKey(p) else Join(Parts(p, dims))
  }

  /** A key names the dimensions' values in order, behind slashes, with a stand-in for those that are not set. */
  lemma KeyNamesValues(p: Properties, d: Dimension, dims: seq<Dimension>)
    requires dims != []
    ensures KeyOf(p, [d]) == if Value(p, d) == "" then "__unallocated__" else Value(p, d)
    ensures KeyOf(p, [d] + dims) == KeyOf(p, [d]) + "/" + KeyOf(p, dims)
    ensures KeyOf(p, []) == p.modelName + ":" + if p.ns == "" then "__unallocated__" else p.ns
  {
    assert Parts(p, [d]) == [OrUnallocated(Value(p, d))];
    assert Parts(p, [d] + dims)[1..] == Parts(p, dims);
  }

  /** aggKey: the key, or an error at the first dimension that is not supported. */
  method AggKey(p: Properties, dims: seq<Dimension>) returns (r: Result<string>)
    ensures r.Ok? <==> Supported(dims)
    ensures r.Ok? ==> r.value == KeyOf(p, dims)
  {
    if |dims| == 0 {
      var ns := p.ns;
      if ns == "" {
        ns := UNALLOCATED;
      }
      return Ok(p.modelName + ":" + ns);
    }
    var parts: seq<string> := [];
    for i := 0 to |dims|
      invariant Supported(dims[..i])
      invariant parts == Parts(p, dims)[..i]
    {
      if dims[i].Unknown? {
        return Err("unsupported aggregation dimension");
      }
      var val := Value(p, dims[i]);
      if val == "" {
        val := UNALLOCATED;
      }
      parts := parts + [val];
    }
    assert dims[..|dims|] == dims && parts == Parts(p, dims);
    return Ok(Join(parts));
  }

  /** What a merged entry still shows of the properties of the first entry it was made from. */
  function Cleared(p: Properties, dims: seq<Dimension>): Properties {
    var model := ModelName in dims;
    var controller := Controller in dims;
    Properties(
      if model then p.modelName else "",
      if model then p.modelVersion else "",
      if Namespace in dims then p.ns else "",
      if Cluster in dims then p.cluster else "",
      if Pod in dims then p.pod else "",
      if controller then p.controller else "",
      if controller && ControllerKind in dims then p.controllerKind else "",
      if Container in dims then p.container else "",
      if WorkloadType in dims then p.workloadType else "")
  }

  /* ---------- aggregate and accumulate ---------- */

  function GroupKey(s: CostSet, dims: seq<Dimension>): string -> string { k => KeyOf(At(s, k).properties, dims) }

  /** `out` is what grouping `s` can yield; the properties shown depend on the map's order. */
  ghost predicate IsAggregate(out: CostSet, s: CostSet, dims: seq<Dimension>) {
    && Groups(s.Keys, Look(s), GroupKey(s, dims), out.Keys, Look(out))
    && Shows(out, s, dims)
  }

  /** Every group shows the grouped properties of one of its members. */
  ghost predicate Shows(out: CostSet, s: CostSet, dims: seq<Dimension>) {
    forall j :: j in out ==>
      exists k :: k in s && KeyOf(s[k].properties, dims) == j && out[j].properties == Cleared(s[k].properties, dims)
  }

  ghost function Entries(sets: seq<CostSet>): set<(nat, string)> {
    set i: nat, k | i < |sets| && k in sets[i] :: (i, k)
  }

  function EntryAt(sets: seq<CostSet>, e: (nat, string)): Response {
    if e.0 < |sets| then At(sets[e.0], e.1) else NO_RESPONSE
  }

  function LookAll(sets: seq<CostSet>): ((nat, string)) -> Response { (e: (nat, string)) => EntryAt(sets, e) }

  function NameOf(e: (nat, string)): string { e.1 }

  ghost predicate IsAccumulate(out: CostSet, sets: seq<CostSet>) {
    && Groups(Entries(sets), LookAll(sets), NameOf, out.Keys, Look(out))
    && ShowsSome(out, sets)
  }

  datatype Window = Open | Closed(start: int, end: int)

  ghost predicate Spans(w: Window, ws: seq<Window>) {
    && w.Closed?
    && (forall i :: 0 <= i < |ws| && ws[i].Closed? ==> w.start <= ws[i].start && ws[i].end <= w.end)
    && (exists i :: 0 <= i < |ws| && ws[i].Closed? && ws[i].start == w.start)
    && (exists i :: 0 <= i < |ws| && ws[i].Closed? && ws[i].end == w.end)
  }

  /** One entry joins what has been grouped of the others. */
  method Merge(out: CostSet, key: string, ic: Response, shown: Properties) returns (r: CostSet)
    ensures r.Keys == out.Keys + {key}
    ensures forall j :: j in out && j != key ==> r[j] == out[j]
    ensures r[key] == if key in out then AddResponse(out[key], ic) else ic.(properties := shown)
  {
    if key in out {
      r := out[key := AddResponse(out[key], ic)];
    } else {
      r := out[key := ic.(properties := shown)];
    }
  }

  /** One round of aggregate's loop. */
  method AggregateOne(s: CostSet, dims: seq<Dimension>, ghost done: set<string>, out: CostSet, k: string)
    returns (ok: bool, next: CostSet)
    requires dims != [] && k in s && k !in done
    requires Groups(done, Look(s), GroupKey(s, dims), out.Keys, Look(out)) && Shows(out, s, dims)
    ensures ok <==> Supported(dims)
    ensures ok ==> Groups(done + {k}, Look(s), GroupKey(s, dims), next.Keys, Look(next)) && Shows(next, s, dims)
  {
    hide KeyOf, Cleared, AddResponse, Groups, Shows, Supported;
    var key := AggKey(s[k].properties, dims);
    if key.Err? {
      return false, out;
    }
    next := Merge(out, key.value, s[k], Cleared(s[k].properties, dims));
    MergeGroups(done, Look(s), GroupKey(s, dims), out, k, next);
    AggregateProperties(s, dims, out, k, next);
    ok := true;
  }

  class InferenceCostSet {
    var costs: CostSet
    var window: Window

    constructor (window: Window)
      ensures costs == map[] && this.window == window
    {
      costs := map[];
      this.window := window;
    }

    method Aggregate(dims: seq<Dimension>) returns (ok: bool)
      modifies this`costs
      ensures dims == [] ==> ok && costs == old(costs)
      ensures dims != [] ==> (ok <==> old(costs).Keys == {} || Supported(dims))
      ensures !ok ==> costs == old(costs)
      ensures ok && dims != [] ==> IsAggregate(costs, old(costs), dims)
    {
      hide IsAggregate, Supported;
      if |dims| == 0 {
        return true;
      }
      var aggregated;
      ok, aggregated := AggregateAll(costs, dims);
      if ok {
        costs := aggregated;
      }
    }
  }

  /** aggregate's loop. */
  method AggregateAll(s: CostSet, dims: seq<Dimension>) returns (ok: bool, aggregated: CostSet)
    requires dims != []
    ensures ok <==> s.Keys == {} || Supported(dims)
    ensures ok ==> IsAggregate(aggregated, s, dims)
  {
    hide *;
    aggregated := map[];
    StartGroups(Look(s), GroupKey(s, dims), aggregated);
    ShowsNothing(aggregated, s, dims);
    var todo := s.Keys;
    ghost var done: set<string> := {};
    while todo != {}
      invariant todo <= s.Keys && done == s.Keys - todo
      invariant done != {} ==> Supported(dims)
      invariant Groups(done, Look(s), GroupKey(s, dims), aggregated.Keys, Look(aggregated))
      invariant Shows(aggregated, s, dims)
      decreases todo
    {
      var k :| k in todo;
      ok, aggregated := AggregateOne(s, dims, done, aggregated, k);
      if !ok {
        return;
      }
      done := done + {k};
      todo := todo - {k};
    }
    assert done == s.Keys;
    MakesAggregate(aggregated, s, dims);
    ok := true;
  }

  lemma MakesAggregate(out: CostSet, s: CostSet, dims: seq<Dimension>)
    requires Groups(s.Keys, Look(s), GroupKey(s, dims), out.Keys, Look(out)) && Shows(out, s, dims)
    ensures IsAggregate(out, s, dims)
  {
  }

  /** The entries of the first `i` sets, and those of set `i` in `names`. */
  ghost function EntriesUpTo(sets: seq<CostSet>, i: nat, names: set<string>): set<(nat, string)> {
    Entries(sets[..if i <= |sets| then i else |sets|]) + set k | k in names :: (i, k)
  }

  ghost predicate ShowsSome(out: CostSet, sets: seq<CostSet>) {
    forall k :: k in out ==> exists i: nat :: i < |sets| && k in sets[i] && out[k].properties == sets[i][k].properties
  }

  /** One round of accumulate's inner loop. */
  method AccumulateOne(sets: seq<CostSet>, i: nat, ghost done: set<(nat, string)>, out: CostSet, k: string)
    returns (r: CostSet)
    requires i < |sets| && k in sets[i] && (i, k) !in done
    requires Groups(done, LookAll(sets), NameOf, out.Keys, Look(out)) && ShowsSome(out, sets)
    ensures Groups(done + {(i, k)}, LookAll(sets), NameOf, r.Keys, Look(r)) && ShowsSome(r, sets)
  {
    hide RatesOf, Plus, Groups;
    var ic := sets[i][k];
    r := Merge(out, k, ic, ic.properties);
    MergeGroups(done, LookAll(sets), NameOf, out, (i, k), r);
    assert ShowsSome(r, sets) by {
      forall j | j in r
        ensures exists i: nat :: i < |sets| && j in sets[i] && r[j].properties == sets[i][j].properties
      {
        if j in out { assert r[j].properties == out[j].properties; } else { assert j == k; }
      }
    }
  }

  /** accumulate's inner loop, over the entries of one set. */
  method AccumulateSet(sets: seq<CostSet>, i: nat, out: CostSet) returns (r: CostSet)
    requires i < |sets|
    requires Groups(EntriesUpTo(sets, i, {}), LookAll(sets), NameOf, out.Keys, Look(out)) && ShowsSome(out, sets)
    ensures Groups(EntriesUpTo(sets, i + 1, {}), LookAll(sets), NameOf, r.Keys, Look(r)) && ShowsSome(r, sets)
  {
    hide Groups, ShowsSome, Look, LookAll;
    r := out;
    var todo := sets[i].Keys;
    assert sets[i].Keys - todo == {};
    while todo != {}
      invariant todo <= sets[i].Keys
      invariant Groups(EntriesUpTo(sets, i, sets[i].Keys - todo), LookAll(sets), NameOf, r.Keys, Look(r))
                && ShowsSome(r, sets)
      decreases todo
    {
      var k :| k in todo;
      r := AccumulateOne(sets, i, EntriesUpTo(sets, i, sets[i].Keys - todo), r, k);
      assert EntriesUpTo(sets, i, sets[i].Keys - todo) + {(i, k)} == EntriesUpTo(sets, i, sets[i].Keys - (todo - {k}));
      todo := todo - {k};
    }
    EntriesNext(sets, i);
    assert sets[i].Keys - todo == sets[i].Keys;
  }

  lemma EntriesNext(sets: seq<CostSet>, i: nat)
    requires i < |sets|
    ensures EntriesUpTo(sets, i, sets[i].Keys) == EntriesUpTo(sets, i + 1, {})
  {
  }

  function CostsOf(sets: seq<InferenceCostSet>): (ms: seq<CostSet>)
    reads sets
    ensures |ms| == |sets| && forall i :: 0 <= i < |sets| ==> ms[i] == sets[i].costs
  {
    seq(|sets|, i requires 0 <= i < |sets| reads sets => sets[i].costs)
  }

  function WindowsOf(sets: seq<InferenceCostSet>): (ws: seq<Window>)
    reads sets
    ensures |ws| == |sets| && forall i :: 0 <= i < |sets| ==> ws[i] == sets[i].window
  {
    seq(|sets|, i requires 0 <= i < |sets| reads sets => sets[i].window)
  }

  /** accumulate: every set added into one, with a window that spans them all. */
  method Accumulate(sets: seq<InferenceCostSet>) returns (r: InferenceCostSet)
    requires sets != [] ==> sets[0].window.Closed?
    ensures fresh(r)
    ensures sets == [] ==> r.costs == map[] && r.window == Open
    ensures IsAccumulate(r.costs, CostsOf(sets))
    ensures sets != [] ==> Spans(r.window, WindowsOf(sets))
  {
    hide Groups, Spans, Look, LookAll;
    var windows := WindowsOf(sets);
    var combined := CombinedWindow(windows);
    r := new InferenceCostSet(combined);
    var maps := CostsOf(sets);
    var out: CostSet := map[];
    StartGroups(LookAll(maps), NameOf, out);
    assert EntriesUpTo(maps, 0, {}) == {};
    for i := 0 to |sets|
      invariant r.window == combined && (sets == [] ==> out == map[])
      invariant Groups(EntriesUpTo(maps, i, {}), LookAll(maps), NameOf, out.Keys, Look(out)) && ShowsSome(out, maps)
    {
      out := AccumulateSet(maps, i, out);
    }
    assert maps[..|maps|] == maps;
    assert EntriesUpTo(maps, |sets|, {}) == Entries(maps);
    r.costs := out;
    assert CostsOf(sets) == maps && WindowsOf(sets) == windows;
  }

  function Widen(c: Window, w: Window): Window
    requires c.Closed?
  {
    if w.Open? then c
    else Closed(if w.start < c.start then w.start else c.start, if w.end > c.end then w.end else c.end)
  }

  method CombinedWindow(ws: seq<Window>) returns (combined: Window)
    requires ws != [] ==> ws[0].Closed?
    ensures ws == [] ==> combined == Open
    ensures ws != [] ==> Spans(combined, ws)
  {
    hide Spans;
    if |ws| == 0 {
      return Open;
    }
    combined := ws[0];
    SpansFirst(ws);
    for i := 1 to |ws|
      invariant combined.Closed? && Spans(combined, ws[..i])
    {
      SpansNext(combined, ws, i);
      if ws[i].Closed? && ws[i].start < combined.start {
        combined := Closed(ws[i].start, combined.end);
      }
      if ws[i].Closed? && ws[i].end > combined.end {
        combined := Closed(combined.start, ws[i].end);
      }
    }
    assert ws[..|ws|] == ws;
  }

  lemma SpansFirst(ws: seq<Window>)
    requires ws != [] && ws[0].Closed?
    ensures Spans(ws[0], ws[..1])
  {
    assert ws[..1][0] == ws[0];
  }

  lemma SpansNext(c: Window, ws: seq<Window>, i: nat)
    requires i < |ws| && Spans(c, ws[..i])
    ensures Spans(Widen(c, ws[i]), ws[..i + 1])
  {
    var more := ws[..i + 1];
    assert more[i] == ws[i] && forall k :: 0 <= k < i ==> more[k] == ws[..i][k];
    var a :| 0 <= a < i && ws[..i][a].Closed? && ws[..i][a].start == c.start;
    var b :| 0 <= b < i && ws[..i][b].Closed? && ws[..i][b].end == c.end;
    assert more[a].start == c.start && more[b].end == c.end;
  }

  lemma StartGroups<K(!new)>(v: K -> Response, t: K -> string, out: CostSet)
    requires out == map[]
    ensures Groups({}, v, t, out.Keys, Look(out))
  {
  }

  lemma ShowsNothing(out: CostSet, s: CostSet, dims: seq<Dimension>)
    requires out == map[]
    ensures Shows(out, s, dims)
  {
  }

  lemma MergeGroups<K(!new)>(done: set<K>, v: K -> Response, t: K -> string, out: CostSet, k: K, next: CostSet)
    requires Groups(done, v, t, out.Keys, Look(out)) && k !in done
    requires next.Keys == out.Keys + {t(k)}
    requires forall j :: j in out && j != t(k) ==> next[j] == out[j]
    requires if t(k) in out then next[t(k)] == AddResponse(out[t(k)], v(k)) else next[t(k)] == v(k).(properties := next[t(k)].properties)
    ensures Groups(done + {k}, v, t, next.Keys, Look(next))
  {
    hide Groups, AddResponse;
    GroupsStep(done, v, t, out.Keys, Look(out), k, Look(next));
  }

  lemma AggregateProperties(s: CostSet, dims: seq<Dimension>, out: CostSet, k: string, next: CostSet)
    requires k in s
    requires Shows(out, s, dims)
    requires var key := KeyOf(s[k].properties, dims);
             && next.Keys == out.Keys + {key}
             && (forall j :: j in out && j != key ==> next[j] == out[j])
             && next[key]
                  == if key in out then AddResponse(out[key], s[k]) else s[k].(properties := Cleared(s[k].properties, dims))
    ensures Shows(next, s, dims)
  {
    hide KeyOf, Cleared, RatesOf, Plus;
  }

  /* ---------- grouping commutes with accumulating ---------- */

  /** As the query service fills its sets: under natural keys, and no namespace holds a colon. */
  ghost predicate WellKeyed(sets: seq<CostSet>) {
    forall i: nat, k :: i < |sets| && k in sets[i] ==>
      k == NaturalKey(sets[i][k].properties) && ':' !in sets[i][k].properties.ns
  }

  /** The dimensions a natural key determines. */
  predicate Determined(dims: seq<Dimension>) {
    forall i :: 0 <= i < |dims| ==> dims[i] == ModelName || dims[i] == Namespace
  }

  lemma NaturalKeySplits(p: Properties, q: Properties)
    requires NaturalKey(p) == NaturalKey(q) && ':' !in p.ns && ':' !in q.ns
    ensures p.modelName == q.modelName && OrUnallocated(p.ns) == OrUnallocated(q.ns)
  {
    var a, b := OrUnallocated(p.ns), OrUnallocated(q.ns);
    assert ':' !in a && ':' !in b;
    var s := NaturalKey(p);
    LastColon(p.modelName, a, s);
    LastColon(q.modelName, b, s);
    assert forall i :: |s| - |a| <= i < |s| ==> s[i] == a[i - (|s| - |a|)];
    assert forall i :: |s| - |b| <= i < |s| ==> s[i] == b[i - (|s| - |b|)];
    assert |a| == |b|;
    assert p.modelName == s[..|s| - 1 - |a|] && q.modelName == s[..|s| - 1 - |b|];
    assert a == s[|s| - |a|..] && b == s[|s| - |b|..];
  }

  lemma LastColon(model: string, ns: string, s: string)
    requires s == model + ":" + ns
    ensures |s| == |model| + 1 + |ns| && s[|s| - 1 - |ns|] == ':'
    ensures forall i :: 0 <= i < |ns| ==> s[|s| - |ns| + i] == ns[i]
    ensures forall i :: 0 <= i < |model| ==> s[i] == model[i]
  {
  }

  lemma SameKeySameGroup(p: Properties, q: Properties, dims: seq<Dimension>)
    requires NaturalKey(p) == NaturalKey(q) && ':' !in p.ns && ':' !in q.ns && Determined(dims)
    ensures KeyOf(p, dims) == KeyOf(q, dims)
  {
    NaturalKeySplits(p, q);
    assert Parts(p, dims) == Parts(q, dims);
  }

  /** The step an entry came from, and the group it goes to. */
  function StepGroup(sets: seq<CostSet>, dims: seq<Dimension>): ((nat, string)) -> (nat, string) {
    (e: (nat, string)) => (e.0, KeyOf(EntryAt(sets, e).properties, dims))
  }

  function EntryGroup(sets: seq<CostSet>, dims: seq<Dimension>): ((nat, string)) -> string {
    (e: (nat, string)) => KeyOf(EntryAt(sets, e).properties, dims)
  }

  lemma RenamedGroup(r: Response, members: set<string>, v: string -> Response, i: nat, renamed: set<(nat, string)>,
                     v': ((nat, string)) -> Response)
    requires IsGroup(r, members, v)
    requires renamed == set k | k in members :: (i, k)
    requires forall k :: k in members ==> v'((i, k)) == v(k)
    ensures IsGroup(r, renamed, v')
  {
    hide SumOver, RatesOf;
    var name := (k: string) => (i, k);
    var k0 :| k0 in members;
    assert (i, k0) in renamed;
    forall f: Field ensures Get(r.amounts, f) == FieldSum(renamed, v', f) {
      SumRename(members, FieldOf(v, f), name, renamed, FieldOf(v', f));
    }
    assert Agreed(r.method_, renamed, v') by {
      forall m ensures Unanimous(m, members, v) == Unanimous(m, renamed, v') {
        if Unanimous(m, renamed, v') {
          forall k | k in members ensures v(k).method_ == m { assert (i, k) in renamed; }
        }
      }
    }
    RenamedSize(members, i, renamed);
  }

  lemma {:induction false} RenamedSize(members: set<string>, i: nat, renamed: set<(nat, string)>)
    requires renamed == set k | k in members :: (i, k)
    ensures |renamed| == |members|
  {
    if members != {} {
      var k :| k in members;
      RenamedSize(members - {k}, i, renamed - {(i, k)});
      assert (i, k) in renamed;
    }
  }

  /** Grouping every step is one grouping of all entries by step and group. */
  lemma StepsGroup(sets: seq<CostSet>, dims: seq<Dimension>, aggs: seq<CostSet>)
    requires |aggs| == |sets| && forall i :: 0 <= i < |sets| ==> IsAggregate(aggs[i], sets[i], dims)
    ensures Groups(Entries(sets), LookAll(sets), StepGroup(sets, dims), Entries(aggs), LookAll(aggs))
  {
    hide KeyOf, IsGroup, Shows;
    var E, t := Entries(sets), StepGroup(sets, dims);
    forall e | e in E ensures t(e) in Entries(aggs) {
      assert IsAggregate(aggs[e.0], sets[e.0], dims);
      assert GroupKey(sets[e.0], dims)(e.1) in aggs[e.0].Keys;
    }
    forall d | d in Entries(aggs) ensures IsGroup(LookAll(aggs)(d), Fiber(E, t, d), LookAll(sets)) {
      var (i, j) := d;
      assert IsAggregate(aggs[i], sets[i], dims);
      var members := Fiber(sets[i].Keys, GroupKey(sets[i], dims), j);
      assert Fiber(E, t, d) == set k | k in members :: (i, k);
      RenamedGroup(aggs[i][j], members, Look(sets[i]), i, Fiber(E, t, d), LookAll(sets));
    }
  }

  /** Entries of one key go to one group, whatever step they are of. */
  ghost predicate SameGroups(sets: seq<CostSet>, dims: seq<Dimension>) {
    forall i: nat, j: nat, k :: i < |sets| && j < |sets| && k in sets[i] && k in sets[j] ==>
      KeyOf(sets[i][k].properties, dims) == KeyOf(sets[j][k].properties, dims)
  }

  lemma AccumulatedGroup(sets: seq<CostSet>, dims: seq<Dimension>, acc: CostSet, e: (nat, string))
    requires SameGroups(sets, dims) && IsAccumulate(acc, sets) && e in Entries(sets)
    ensures GroupKey(acc, dims)(NameOf(e)) == EntryGroup(sets, dims)(e)
  {
    hide KeyOf, Groups, ShowsSome, SameGroups;
    GroupsHas(Entries(sets), LookAll(sets), NameOf, acc.Keys, Look(acc), e);
    ShownKey(sets, acc, e.1, e.0, dims);
  }

  lemma GroupsHas<K(!new), J(!new)>(keys: set<K>, v: K -> Response, t: K -> J, groups: set<J>, w: J -> Response, k: K)
    requires Groups(keys, v, t, groups, w) && k in keys
    ensures t(k) in groups
  {
    hide IsGroup;
  }

  lemma ShownKey(sets: seq<CostSet>, acc: CostSet, k: string, i: nat, dims: seq<Dimension>)
    requires SameGroups(sets, dims) && ShowsSome(acc, sets) && k in acc && i < |sets| && k in sets[i]
    ensures KeyOf(acc[k].properties, dims) == KeyOf(sets[i][k].properties, dims)
  {
    hide KeyOf;
    var l: nat :| l < |sets| && k in sets[l] && acc[k].properties == sets[l][k].properties;
  }

  /** The two ways to the total of a time range. */
  ghost predicate GroupedThenAccumulated(a: CostSet, sets: seq<CostSet>, dims: seq<Dimension>) {
    exists aggs: seq<CostSet> ::
      && |aggs| == |sets|
      && (forall i :: 0 <= i < |sets| ==> IsAggregate(aggs[i], sets[i], dims))
      && IsAccumulate(a, aggs)
  }

  ghost predicate AccumulatedThenGrouped(b: CostSet, sets: seq<CostSet>, dims: seq<Dimension>) {
    exists acc: CostSet :: IsAccumulate(acc, sets) && IsAggregate(b, acc, dims)
  }

  ghost predicate SameTotals(a: CostSet, b: CostSet) {
    a.Keys == b.Keys && forall j :: j in a ==>
      a[j].amounts == b[j].amounts && a[j].rates == b[j].rates && a[j].method_ == b[j].method_
  }

  lemma FirstWay(a: CostSet, sets: seq<CostSet>, dims: seq<Dimension>)
    requires GroupedThenAccumulated(a, sets, dims)
    ensures Totals(Entries(sets), LookAll(sets), EntryGroup(sets, dims), a.Keys, Look(a))
  {
    hide IsAggregate, Groups, Totals, KeyOf;
    var aggs: seq<CostSet> :| |aggs| == |sets| && (forall i :: 0 <= i < |sets| ==>
      IsAggregate(aggs[i], sets[i], dims)) && IsAccumulate(a, aggs);
    StepsGroup(sets, dims, aggs);
    Compose(Entries(sets), LookAll(sets), StepGroup(sets, dims), Entries(aggs), LookAll(aggs), NameOf,
            EntryGroup(sets, dims), a.Keys, Look(a));
  }

  lemma SecondWay(b: CostSet, sets: seq<CostSet>, dims: seq<Dimension>)
    requires SameGroups(sets, dims) && AccumulatedThenGrouped(b, sets, dims)
    ensures Totals(Entries(sets), LookAll(sets), EntryGroup(sets, dims), b.Keys, Look(b))
  {
    hide IsAccumulate, IsAggregate, Totals, SameGroups;
    var acc: CostSet :| IsAccumulate(acc, sets) && IsAggregate(b, acc, dims);
    SecondWayOver(b, sets, dims, acc);
  }

  lemma SecondWayOver(b: CostSet, sets: seq<CostSet>, dims: seq<Dimension>, acc: CostSet)
    requires SameGroups(sets, dims) && IsAccumulate(acc, sets) && IsAggregate(b, acc, dims)
    ensures Totals(Entries(sets), LookAll(sets), EntryGroup(sets, dims), b.Keys, Look(b))
  {
    hide Groups, Totals, Shows, ShowsSome, SameGroups, Entries, GroupKey, EntryGroup, NameOf, Look, LookAll;
    forall e | e in Entries(sets) ensures GroupKey(acc, dims)(NameOf(e)) == EntryGroup(sets, dims)(e) {
      AccumulatedGroup(sets, dims, acc, e);
    }
    Compose(Entries(sets), LookAll(sets), NameOf, acc.Keys, Look(acc), GroupKey(acc, dims), EntryGroup(sets, dims),
            b.Keys, Look(b));
  }

  /** Grouping each step and then accumulating gives the totals and rates of accumulating and then grouping,
      whatever order any of the maps is read in. */
  lemma GroupingCommutes(a: CostSet, b: CostSet, sets: seq<CostSet>, dims: seq<Dimension>)
    requires WellKeyed(sets) && Determined(dims)
    requires GroupedThenAccumulated(a, sets, dims) && AccumulatedThenGrouped(b, sets, dims)
    ensures SameTotals(a, b)
  {
    hide GroupedThenAccumulated, AccumulatedThenGrouped, KeyOf, NaturalKey, Determined, SameTotals;
    forall i: nat, j: nat, k | i < |sets| && j < |sets| && k in sets[i] && k in sets[j]
      ensures KeyOf(sets[i][k].properties, dims) == KeyOf(sets[j][k].properties, dims)
    {
      SameKeySameGroup(sets[i][k].properties, sets[j][k].properties, dims);
    }
    SameGroupsCommute(a, b, sets, dims);
  }

  /** It is enough that every key's entries go to one group. */
  lemma SameGroupsCommute(a: CostSet, b: CostSet, sets: seq<CostSet>, dims: seq<Dimension>)
    requires SameGroups(sets, dims)
    requires GroupedThenAccumulated(a, sets, dims) && AccumulatedThenGrouped(b, sets, dims)
    ensures SameTotals(a, b)
  {
    hide Totals, GroupedThenAccumulated, AccumulatedThenGrouped, SameGroups, KeyOf;
    FirstWay(a, sets, dims);
    SecondWay(b, sets, dims);
    TotalsUnique(Entries(sets), LookAll(sets), EntryGroup(sets, dims), a.Keys, Look(a), b.Keys, Look(b));
    forall j | j in a ensures a[j].amounts == b[j].amounts && a[j].rates == b[j].rates && a[j].method_ == b[j].method_ {
      assert Look(a)(j) == a[j] && Look(b)(j) == b[j];
    }
  }

  /** A rate that is a ratio in every entry is the ratio of the sums in every group of the total. */
  lemma TotalKeepsRates(a: CostSet, sets: seq<CostSet>, dims: seq<Dimension>, q: Rate)
    requires GroupedThenAccumulated(a, sets, dims)
    requires forall i: nat, k :: i < |sets| && k in sets[i] ==> IsRatio(sets[i][k], q)
    ensures forall j :: j in a ==> IsRatio(a[j], q)
  {
    hide IsAggregate, IsAccumulate, IsRatio;
    var aggs: seq<CostSet> :| |aggs| == |sets| && (forall i :: 0 <= i < |sets| ==>
      IsAggregate(aggs[i], sets[i], dims)) && IsAccumulate(a, aggs);
    forall i: nat | i < |sets| ensures forall j :: j in aggs[i] ==> IsRatio(aggs[i][j], q) {
      AggregateKeepsRates(aggs[i], sets[i], dims, q);
    }
    AccumulateKeepsRates(a, aggs, q);
  }

  lemma AggregateKeepsRates(out: CostSet, s: CostSet, dims: seq<Dimension>, q: Rate)
    requires IsAggregate(out, s, dims) && forall k :: k in s ==> IsRatio(s[k], q)
    ensures forall j :: j in out ==> IsRatio(out[j], q)
  {
    hide Groups, IsRatio, Shows;
    GroupingKeepsRates(s.Keys, Look(s), GroupKey(s, dims), out.Keys, Look(out), q);
    forall j | j in out ensures IsRatio(out[j], q) { assert Look(out)(j) == out[j]; }
  }

  lemma AccumulateKeepsRates(out: CostSet, sets: seq<CostSet>, q: Rate)
    requires IsAccumulate(out, sets) && forall i: nat, k :: i < |sets| && k in sets[i] ==> IsRatio(sets[i][k], q)
    ensures forall j :: j in out ==> IsRatio(out[j], q)
  {
    hide Groups, IsRatio, ShowsSome;
    GroupingKeepsRates(Entries(sets), LookAll(sets), NameOf, out.Keys, Look(out), q);
    forall j | j in out ensures IsRatio(out[j], q) { assert Look(out)(j) == out[j]; }
  }

  /** Nothing is lost on the way to the total: every additive field adds up to what went in. */
  lemma TotalConserves(a: CostSet, sets: seq<CostSet>, dims: seq<Dimension>, f: Field)
    requires GroupedThenAccumulated(a, sets, dims)
    ensures FieldSum(a.Keys, Look(a), f) == FieldSum(Entries(sets), LookAll(sets), f)
  {
    hide Groups, Shows, ShowsSome, FieldSum, IsAggregate;
    var aggs: seq<CostSet> :| |aggs| == |sets| && (forall i :: 0 <= i < |sets| ==>
      IsAggregate(aggs[i], sets[i], dims)) && IsAccumulate(a, aggs);
    StepsGroup(sets, dims, aggs);
    GroupingConserves(Entries(sets), LookAll(sets), StepGroup(sets, dims), Entries(aggs), LookAll(aggs), f);
    GroupingConserves(Entries(aggs), LookAll(aggs), NameOf, a.Keys, Look(a), f);
  }

  /* ---------- for exactly which dimensions ---------- */

  lemma {:induction false} JoinInjective(p: seq<string>, q: seq<string>)
    requires |p| == |q| && (forall i :: 0 <= i < |p| ==> |p[i]| == |q[i]|)
    requires Join(p) == Join(q)
    ensures p == q
  {
    if |p| > 1 {
      var m := |p[0]|;
      assert Join(p)[..m] == p[0] && Join(q)[..m] == q[0];
      assert Join(p)[m + 1..] == Join(p[1..]) && Join(q)[m + 1..] == Join(q[1..]);
      JoinInjective(p[1..], q[1..]);
      assert p == [p[0]] + p[1..] && q == [q[0]] + q[1..];
    }
  }

  /** The properties with one of them replaced. */
  function With(p: Properties, d: Dimension, x: string): Properties {
    match d
    case ModelName => p.(modelName := x)
    case ModelVersion => p.(modelVersion := x)
    case Namespace => p.(ns := x)
    case Cluster => p.(cluster := x)
    case Pod => p.(pod := x)
    case Controller => p.(controller := x)
    case ControllerKind => p.(controllerKind := x)
    case Container => p.(container := x)
    case WorkloadType => p.(workloadType := x)
    case Unknown(_) => p
  }

  /** Properties that are empty but for one dimension. */
  function Only(d: Dimension, x: string): Properties { With(NO_RESPONSE.properties, d, x) }

  function Plain(p: Properties): Response {
    NO_RESPONSE.(properties := p)
  }

  lemma WithKeysDiffer(p: Properties, d: Dimension, dims: seq<Dimension>)
    requires dims != [] && d in dims && !d.Unknown?
    ensures KeyOf(With(p, d, "x"), dims) != KeyOf(With(p, d, "y"), dims)
  {
    hide With, Value, OrUnallocated, Join;
    var xs, ys := Parts(With(p, d, "x"), dims), Parts(With(p, d, "y"), dims);
    forall i | 0 <= i < |dims| ensures |xs[i]| == |ys[i]| && (dims[i] == d ==> xs[i] != ys[i]) {
      WithPart(p, d, dims[i], "x");
      WithPart(p, d, dims[i], "y");
      assert "x"[0] != "y"[0];
    }
    var i :| 0 <= i < |dims| && dims[i] == d;
    assert xs[i] != ys[i];
    if Join(xs) == Join(ys) { JoinInjective(xs, ys); }
  }

  lemma WithPart(p: Properties, d: Dimension, e: Dimension, x: string)
    requires !d.Unknown? && x != ""
    ensures OrUnallocated(Value(With(p, d, x), e)) == if e == d then x else OrUnallocated(Value(p, e))
  {
  }

  lemma SoleAggregate(k: string, p: Properties, dims: seq<Dimension>)
    ensures IsAggregate(map[KeyOf(p, dims) := Plain(Cleared(p, dims))], map[k := Plain(p)], dims)
  {
    hide KeyOf, Cleared, Groups;
    var s: CostSet := map[k := Plain(p)];
    var none: CostSet := map[];
    var out: CostSet := map[KeyOf(p, dims) := Plain(Cleared(p, dims))];
    StartGroups(Look(s), GroupKey(s, dims), none);
    MergeGroups({}, Look(s), GroupKey(s, dims), none, k, out);
    assert {} + {k} == s.Keys;
    assert k in s;
  }

  lemma PairAccumulate(k: string, p: Properties, l: string, q: Properties, out: CostSet)
    requires out == if k == l then map[k := AddResponse(Plain(p), Plain(q))] else map[k := Plain(p), l := Plain(q)]
    ensures IsAccumulate(out, [map[k := Plain(p)], map[l := Plain(q)]])
  {
    hide Groups, RatesOf;
    var sets: seq<CostSet> := [map[k := Plain(p)], map[l := Plain(q)]];
    var none: CostSet := map[];
    var one: CostSet := map[k := Plain(p)];
    var v := LookAll(sets);
    StartGroups(v, NameOf, none);
    assert v((0, k)) == Plain(p) && v((1, l)) == Plain(q);
    MergeGroups({}, v, NameOf, none, (0, k), one);
    assert {} + {(0, k)} == {(0, k)};
    MergeGroups({(0, k)}, v, NameOf, one, (1, l), out);
    assert Entries(sets) == {(0, k), (1, l)};
    assert {(0, k)} + {(1, l)} == Entries(sets);
    assert ShowsSome(out, sets) by {
      forall j | j in out
        ensures exists i: nat :: i < |sets| && j in sets[i] && out[j].properties == sets[i][j].properties
      {
        if j == k { assert j in sets[0]; } else { assert j in sets[1]; }
      }
    }
  }

  /** Two steps of one entry each, that differ in one dimension only. */
  function TwoSteps(p: Properties, d: Dimension): seq<CostSet> {
    [map[NaturalKey(With(p, d, "x")) := Plain(With(p, d, "x"))], map[NaturalKey(With(p, d, "y")) := Plain(With(p, d, "y"))]]
  }

  /** A dimension the natural key does not determine breaks it: entries of two steps that differ
      only there stay apart if grouped first, and fall together if accumulated first. */
  lemma UndeterminedBreaks(p: Properties, dims: seq<Dimension>, d: Dimension)
    requires Supported(dims) && d in dims && d != ModelName && d != Namespace && ':' !in p.ns
    ensures WellKeyed(TwoSteps(p, d))
    ensures exists a, b ::
      GroupedThenAccumulated(a, TwoSteps(p, d), dims) && AccumulatedThenGrouped(b, TwoSteps(p, d), dims)
        && !SameTotals(a, b)
  {
    hide IsAggregate, IsAccumulate, KeyOf, Cleared, RatesOf, AddResponse;
    var u, v := With(p, d, "x"), With(p, d, "y");
    var k := NaturalKey(u);
    assert k == NaturalKey(v);
    var x, y := KeyOf(u, dims), KeyOf(v, dims);
    WithKeysDiffer(p, d, dims);
    var sets := TwoSteps(p, d);
    assert sets == [map[k := Plain(u)], map[k := Plain(v)]];
    hide With, TwoSteps;
    var u', v' := Cleared(u, dims), Cleared(v, dims);
    var aggs: seq<CostSet> := [map[x := Plain(u')], map[y := Plain(v')]];
    var a: CostSet := map[x := Plain(u'), y := Plain(v')];
    SoleAggregate(k, u, dims);
    SoleAggregate(k, v, dims);
    PairAccumulate(x, u', y, v', a);
    assert GroupedThenAccumulated(a, sets, dims);
    var acc: CostSet := map[k := AddResponse(Plain(u), Plain(v))];
    PairAccumulate(k, u, k, v, acc);
    AddedZeros(u, v);
    var b: CostSet := map[x := Plain(u')];
    assert AccumulatedThenGrouped(b, sets, dims);
    assert y in a && y !in b;
  }

  lemma AddedZeros(p: Properties, q: Properties)
    ensures AddResponse(Plain(p), Plain(q)) == Plain(p)
  {
  }

  /** The two ways agree on every well-keyed input exactly for the dimensions that natural keys determine. */
  lemma GroupingCommutesIff(dims: seq<Dimension>)
    requires dims != [] && Supported(dims)
    ensures (forall sets, a, b :: WellKeyed(sets) && GroupedThenAccumulated(a, sets, dims) && AccumulatedThenGrouped(b, sets, dims) ==> SameTotals(a, b))
       <==> Determined(dims)
  {
    hide WellKeyed, GroupedThenAccumulated, AccumulatedThenGrouped, SameTotals;
    if Determined(dims) {
      forall sets, a, b | WellKeyed(sets) && GroupedThenAccumulated(a, sets, dims)
        && AccumulatedThenGrouped(b, sets, dims)
        ensures SameTotals(a, b)
      {
        GroupingCommutes(a, b, sets, dims);
      }
    } else {
      var i :| 0 <= i < |dims| && dims[i] != ModelName && dims[i] != Namespace;
      UndeterminedBreaks(NO_RESPONSE.properties, dims, dims[i]);
    }
  }

  /* ---------- which properties a merged entry shows ---------- */

  /** `shown` has the grouped properties of `p` and no others. */
  ghost predicate ShowsGrouped(shown: Properties, p: Properties, dims: seq<Dimension>) {
    forall d: Dimension :: !d.Unknown? ==> Value(shown, d) == if d in dims then Value(p, d) else ""
  }

  /** The version goes with the model's name, and the kind needs the controller. */
  predicate Tidy(dims: seq<Dimension>) {
    (ModelVersion in dims <==> ModelName in dims) && (ControllerKind in dims ==> Controller in dims)
  }

  /** Clearing leaves exactly the grouped properties, whatever they are, if and only if the dimensions are tidy. */
  lemma ClearedShowsIff(dims: seq<Dimension>)
    ensures (forall p :: ShowsGrouped(Cleared(p, dims), p, dims)) <==> Tidy(dims)
  {
    if !Tidy(dims) {
      UntidyShows(dims);
    }
  }

  /** An entry on which clearing keeps what is not grouped on, or wipes what is. */
  lemma UntidyShows(dims: seq<Dimension>)
    requires !Tidy(dims)
    ensures var d := if ModelVersion in dims <==> ModelName in dims then ControllerKind else ModelVersion;
            Value(Cleared(Only(d, "x"), dims), d) != (if d in dims then Value(Only(d, "x"), d) else "")
            && !ShowsGrouped(Cleared(Only(d, "x"), dims), Only(d, "x"), dims)
  {
    var d := if ModelVersion in dims <==> ModelName in dims then ControllerKind else ModelVersion;
    assert Value(Only(d, "x"), d) == "x";
    assert "x" != "";
  }

  /** Grouping by name alone still shows the version; grouping by version alone shows none, and
      grouping by controller kind alone shows no kind. */
  lemma ShownVersionAndKind(p: Properties)
    requires p.modelVersion != "" && p.controllerKind != ""
    ensures Cleared(p, [ModelName]).modelVersion == p.modelVersion
            && !ShowsGrouped(Cleared(p, [ModelName]), p, [ModelName])
    ensures Cleared(p, [ModelVersion]).modelVersion == ""
            && !ShowsGrouped(Cleared(p, [ModelVersion]), p, [ModelVersion])
    ensures Cleared(p, [ControllerKind]).controllerKind == ""
            && !ShowsGrouped(Cleared(p, [ControllerKind]), p, [ControllerKind])
  {
    assert Value(p, ModelVersion) == p.modelVersion && Value(p, ControllerKind) == p.controllerKind;
    assert Value(Cleared(p, [ModelName]), ModelVersion) == p.modelVersion;
    assert Value(Cleared(p, [ModelVersion]), ModelVersion) == "" && ModelVersion in [ModelVersion];
    assert Value(Cleared(p, [ControllerKind]), ControllerKind) == "" && ControllerKind in [ControllerKind];
  }

  /** Every group shows exactly what was grouped on, of one of its members. */
  ghost predicate AllShowGrouped(out: CostSet, s: CostSet, dims: seq<Dimension>) {
    forall j :: j in out ==>
      exists k :: k in s && KeyOf(s[k].properties, dims) == j && ShowsGrouped(out[j].properties, s[k].properties, dims)
  }

  /** What grouping promises of the properties holds for every set exactly for tidy dimensions. */
  lemma AggregateShowsIff(dims: seq<Dimension>)
    ensures (forall s, out :: IsAggregate(out, s, dims) ==> AllShowGrouped(out, s, dims)) <==> Tidy(dims)
  {
    hide Groups, KeyOf, Cleared, ShowsGrouped, Tidy, Only;
    ClearedShowsIff(dims);
    if Tidy(dims) {
      forall s, out | IsAggregate(out, s, dims) ensures AllShowGrouped(out, s, dims) {
        assert Shows(out, s, dims);
      }
    } else {
      UntidyShows(dims);
      var d := if ModelVersion in dims <==> ModelName in dims then ControllerKind else ModelVersion;
      var p := Only(d, "x");
      var s: CostSet := map["k" := Plain(p)];
      var j := KeyOf(p, dims);
      var out: CostSet := map[j := Plain(Cleared(p, dims))];
      SoleAggregate("k", p, dims);
      assert j in out && out[j].properties == Cleared(p, dims);
      assert !AllShowGrouped(out, s, dims);
    }
  }
}
