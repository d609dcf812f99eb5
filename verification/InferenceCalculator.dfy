/**
 Splitting a model's cost into input and output (pkg/inferencecost/calculator.go), scaling usage cost
 by utilisation (pkg/inferencecost/collector.go), and what the query service gets to add up.
 */
module InferenceCalculator {
  import opened Results
  import opened InferenceReconcile
  import Agg = InferenceAggregate

  datatype Basis = Usage | Allocated

  datatype Config = Config(computeTimeMode: bool, outputTokenCostMultiplier: real)

  const DEFAULT_MULTIPLIER: real := 2.5

  /* ---------- the split, as values ---------- */

  function Multiplier(c: Config): real {
    if c.outputTokenCostMultiplier <= 0.0 then DEFAULT_MULTIPLIER else c.outputTokenCostMultiplier
  }

  function Times(a: real, b: real): real { a * b }

  function Weighted(r: Record, c: Config): real {
    r.effectiveInputTokens + Times(r.generationTokens, Multiplier(c))
  }

  /** Usage costs nothing without tokens. */
  function CostOn(r: Record, b: Basis): real {
    if b.Allocated? then r.allocation.allocationTotalCost
    else if r.totalTokens == 0.0 then 0.0
    else r.allocation.usageTotalCost
  }

  predicate Applicable(r: Record) {
    r.totalTokens != 0.0 && !(CostOn(r, Allocated) == 0.0 && CostOn(r, Usage) == 0.0)
  }

  predicate Timed(r: Record, c: Config) {
    c.computeTimeMode && r.inputProcessingTime > 0.0 && r.outputProcessingTime > 0.0
  }

  predicate IsSplit(r: Record, c: Config) { Applicable(r) && (Timed(r, c) || Weighted(r, c) != 0.0) }

  function Ratio(part: real, whole: real): real
    requires whole != 0.0
  {
    part / whole
  }

  function InputShare(r: Record, c: Config): real
    requires IsSplit(r, c)
  {
    if Timed(r, c) then Ratio(r.inputProcessingTime, r.inputProcessingTime + r.outputProcessingTime)
    else Ratio(r.effectiveInputTokens, Weighted(r, c))
  }

  function OutputShare(r: Record, c: Config): real
    requires IsSplit(r, c)
  {
    if Timed(r, c) then Ratio(r.outputProcessingTime, r.inputProcessingTime + r.outputProcessingTime)
    else Ratio(Times(r.generationTokens, Multiplier(c)), Weighted(r, c))
  }

  function InputCost(r: Record, c: Config, b: Basis): real {
    if IsSplit(r, c) then Times(CostOn(r, b), InputShare(r, c)) else 0.0
  }

  function OutputCost(r: Record, c: Config, b: Basis): real {
    if IsSplit(r, c) then Times(CostOn(r, b), OutputShare(r, c)) else 0.0
  }

  predicate CachingOff(r: Record) { r.cacheConfigKnown && !r.prefixCachingEnabled }

  function Savings(r: Record): real {
    if !Applicable(r) || CachingOff(r) || r.promptTokens <= 0.0 then 0.0
    else if Ratio(r.cachedTokens, r.promptTokens) < 1.0 then Ratio(r.cachedTokens, r.promptTokens) else 1.0
  }

  function MethodOf(r: Record, c: Config): string {
    if !Applicable(r) then ""
    else if !Timed(r, c) then "multiplier"
    else if CachingOff(r) then "prefix_caching_off"
    else "compute_time"
  }

  /** What the query service makes of a calculated record, for one cost basis. */
  function Priced(r: Record, c: Config, b: Basis): Agg.Response {
    var a := r.allocation;
    Agg.Response(
      Agg.Properties(r.modelName, "", r.ns, a.cluster, a.pod, a.controller, a.controllerKind, a.container, "inference"),
      Agg.Amounts(CostOn(r, b), r.promptTokens, r.generationTokens, r.totalTokens, InputCost(r, c, b), OutputCost(r, c, b), r.cachedTokens),
      Agg.Rates(
        Agg.PerMillion(CostOn(r, b), r.totalTokens),
        if IsSplit(r, c) then Agg.PerMillion(InputCost(r, c, b), r.promptTokens) else 0.0,
        if IsSplit(r, c) then Agg.PerMillion(OutputCost(r, c, b), r.generationTokens) else 0.0,
        Savings(r)),
      MethodOf(r, c))
  }

  /* ---------- the calculator ---------- */

  function Entry(m: map<Basis, real>, b: Basis): real { if b in m then m[b] else 0.0 }

  class InferenceCost {
    const collected: Record
    var usageTotalCost: real
    var allocationMethod: string
    var cacheSavingsFraction: real
    var costPerMillion: map<Basis, real>
    var inputPerMillion: map<Basis, real>
    var outputPerMillion: map<Basis, real>
    var inputCost: map<Basis, real>
    var outputCost: map<Basis, real>

    constructor (r: Record)
      ensures Valid() && collected == r
    {
      collected, usageTotalCost, allocationMethod, cacheSavingsFraction := r, r.allocation.usageTotalCost, "", 0.0;
      costPerMillion, inputPerMillion, outputPerMillion, inputCost, outputCost := map[], map[], map[], map[], map[];
    }

    /** As collected, or calculated before. */
    ghost predicate Valid()
      reads this
    {
      && (usageTotalCost == collected.allocation.usageTotalCost
           || (usageTotalCost == 0.0 && collected.totalTokens == 0.0))
      && (cacheSavingsFraction == 0.0 || cacheSavingsFraction == Savings(collected))
    }

    function Total(b: Basis): real
      reads this
    {
      if b.Usage? then usageTotalCost else collected.allocation.allocationTotalCost
    }

    /** newInferenceCostResponse */
    function Response(b: Basis): Agg.Response
      reads this
    {
      var a := collected.allocation;
      Agg.Response(
        Agg.Properties(collected.modelName, "", collected.ns, a.cluster, a.pod, a.controller, a.controllerKind, a.container, "inference"),
        Agg.Amounts(Total(b), collected.promptTokens, collected.generationTokens, collected.totalTokens,
                    Entry(inputCost, b), Entry(outputCost, b), collected.cachedTokens),
        Agg.Rates(Entry(costPerMillion, b), Entry(inputPerMillion, b), Entry(outputPerMillion, b), cacheSavingsFraction),
        allocationMethod)
    }

    /** One basis gets its two costs, and their rates where there are tokens. */
    method SetSplit(b: Basis, input: real, output: real)
      modifies this`inputCost, this`outputCost, this`inputPerMillion, this`outputPerMillion
      requires b !in inputPerMillion && b !in outputPerMillion
      ensures inputCost == old(inputCost)[b := input] && outputCost == old(outputCost)[b := output]
      ensures Entry(inputPerMillion, b) == Agg.PerMillion(input, collected.promptTokens)
      ensures Entry(outputPerMillion, b) == Agg.PerMillion(output, collected.generationTokens)
      ensures forall o :: o != b ==>
                Entry(inputPerMillion, o) == old(Entry(inputPerMillion, o))
                  && (o in inputPerMillion <==> o in old(inputPerMillion))
      ensures forall o :: o != b ==>
                Entry(outputPerMillion, o) == old(Entry(outputPerMillion, o))
                  && (o in outputPerMillion <==> o in old(outputPerMillion))
    {
      inputCost, outputCost := inputCost[b := input], outputCost[b := output];
      if collected.promptTokens > 0.0 {
        inputPerMillion := inputPerMillion[b := input / collected.promptTokens * 1000000.0];
      }
      if collected.generationTokens > 0.0 {
        outputPerMillion := outputPerMillion[b := output / collected.generationTokens * 1000000.0];
      }
    }

    ghost predicate Blank()
      reads this
    {
      inputCost == map[] && outputCost == map[] && inputPerMillion == map[] && outputPerMillion == map[]
    }

    /** Both bases are split by these shares. */
    ghost predicate SplitBy(input: real, output: real)
      reads this
    {
      forall b :: b in {Usage, Allocated} ==>
        && Entry(inputCost, b) == Times(Total(b), input) && Entry(outputCost, b) == Times(Total(b), output)
        && Entry(inputPerMillion, b) == Agg.PerMillion(Times(Total(b), input), collected.promptTokens)
        && Entry(outputPerMillion, b) == Agg.PerMillion(Times(Total(b), output), collected.generationTokens)
    }

    /** Both bases are split by weighted tokens, if there are any. */
    ghost predicate SplitByTokens(c: Config)
      reads this
    {
      var weighted := Weighted(collected, c);
      if weighted == 0.0 then Blank()
      else SplitBy(Ratio(collected.effectiveInputTokens, weighted), Ratio(Times(collected.generationTokens, Multiplier(c)), weighted))
    }

    method ComputeTimeSplit(c: Config)
      modifies this`allocationMethod, this`inputCost, this`outputCost, this`inputPerMillion, this`outputPerMillion
      requires Blank()
      ensures var t := collected.inputProcessingTime + collected.outputProcessingTime;
              if t == 0.0 then allocationMethod == "multiplier" && SplitByTokens(c)
              else allocationMethod == (if CachingOff(collected) then "prefix_caching_off" else "compute_time")
                   && SplitBy(Ratio(collected.inputProcessingTime, t), Ratio(collected.outputProcessingTime, t))
    {
      hide Times, Ratio, Agg.PerMillion, Weighted, Multiplier;
      var totalTime := collected.inputProcessingTime + collected.outputProcessingTime;
      if totalTime == 0.0 {
        MultiplierSplit(c);
        return;
      }
      var inputFraction := Ratio(collected.inputProcessingTime, totalTime);
      var outputFraction := 1.0 - inputFraction;
      Complement(collected.inputProcessingTime, collected.outputProcessingTime);
      if collected.cacheConfigKnown && !collected.prefixCachingEnabled {
        allocationMethod := "prefix_caching_off";
      } else {
        allocationMethod := "compute_time";
      }
      SetSplit(Usage, Times(Total(Usage), inputFraction), Times(Total(Usage), outputFraction));
      SetSplit(Allocated, Times(Total(Allocated), inputFraction), Times(Total(Allocated), outputFraction));
    }

    method MultiplierSplit(c: Config)
      modifies this`allocationMethod, this`inputCost, this`outputCost, this`inputPerMillion, this`outputPerMillion
      requires Blank()
      ensures allocationMethod == "multiplier" && SplitByTokens(c)
    {
      hide Times, Ratio, Agg.PerMillion;
      allocationMethod := "multiplier";
      var multiplier := c.outputTokenCostMultiplier;
      if multiplier <= 0.0 {
        multiplier := DEFAULT_MULTIPLIER;
      }
      var weightedTokens := collected.effectiveInputTokens + Times(collected.generationTokens, multiplier);
      if weightedTokens == 0.0 { return; }
      var perToken := Ratio(Total(Usage), weightedTokens);
      PerToken(Total(Usage), weightedTokens, collected.effectiveInputTokens, collected.generationTokens, multiplier);
      SetSplit(Usage, Times(perToken, collected.effectiveInputTokens),
               Times(Times(perToken, multiplier), collected.generationTokens));
      perToken := Ratio(Total(Allocated), weightedTokens);
      PerToken(Total(Allocated), weightedTokens, collected.effectiveInputTokens, collected.generationTokens,
               multiplier);
      SetSplit(Allocated, Times(perToken, collected.effectiveInputTokens),
               Times(Times(perToken, multiplier), collected.generationTokens));
    }

    /** The maps are made anew, usage without tokens is struck out and the blended rates are set. */
    method SetBlended()
      modifies this`usageTotalCost, this`costPerMillion, this`inputPerMillion, this`outputPerMillion, this`inputCost, this`outputCost
      requires Valid()
      ensures Blank()
      ensures forall b ::
          Total(b) == CostOn(collected, b)
            && Entry(costPerMillion, b) == Agg.PerMillion(Total(b), collected.totalTokens)
    {
      costPerMillion, inputPerMillion, outputPerMillion, inputCost, outputCost := map[], map[], map[], map[], map[];
      if collected.totalTokens == 0.0 {
        usageTotalCost := 0.0;
      }
      if collected.totalTokens > 0.0 {
        costPerMillion := costPerMillion[Allocated := Total(Allocated) / collected.totalTokens * 1000000.0];
        costPerMillion := costPerMillion[Usage := Total(Usage) / collected.totalTokens * 1000000.0];
      }
    }

    method SetSavings()
      modifies this`cacheSavingsFraction
      requires Applicable(collected) && Valid()
      ensures cacheSavingsFraction == Savings(collected)
    {
      if collected.cacheConfigKnown && !collected.prefixCachingEnabled {
        cacheSavingsFraction := 0.0;
      } else if collected.promptTokens > 0.0 {
        var ratio := collected.cachedTokens / collected.promptTokens;
        cacheSavingsFraction := if ratio < 1.0 then ratio else 1.0;
      }
    }

    /** calculateModelCosts: afterwards both projections of the record are the priced ones, however often it is called. */
    method CalculateModelCosts(c: Config)
      modifies this
      requires Valid()
      ensures Valid() && forall b :: Response(b) == Priced(collected, c, b)
    {
      hide Times, Ratio, Agg.PerMillion, Weighted;
      SetBlended();
      assert Total(Allocated) == CostOn(collected, Allocated) && Total(Usage) == CostOn(collected, Usage);
      if collected.totalTokens == 0.0 || (Total(Allocated) == 0.0 && Total(Usage) == 0.0) {
        allocationMethod := "";
        return;
      }
      SetSavings();
      if c.computeTimeMode && collected.inputProcessingTime > 0.0 && collected.outputProcessingTime > 0.0 {
        ComputeTimeSplit(c);
      } else {
        MultiplierSplit(c);
      }
    }
  }

  lemma Complement(a: real, b: real)
    requires a + b != 0.0
    ensures 1.0 - Ratio(a, a + b) == Ratio(b, a + b)
  {
    OverWhole(a, b, a + b);
  }

  lemma PerToken(total: real, weighted: real, effective: real, generation: real, multiplier: real)
    requires weighted != 0.0
    ensures Times(Ratio(total, weighted), effective) == Times(total, Ratio(effective, weighted))
    ensures Times(Times(Ratio(total, weighted), multiplier), generation)
            == Times(total, Ratio(Times(generation, multiplier), weighted))
  {
    assert total / weighted * effective == total * (effective / weighted);
    Reorder(total / weighted, multiplier, generation);
    Swap(total, weighted, generation * multiplier);
  }

  lemma Reorder(x: real, y: real, z: real)
    ensures x * y * z == x * (z * y)
  {
  }

  lemma Swap(total: real, weighted: real, part: real)
    requires weighted != 0.0
    ensures total / weighted * part == total * (part / weighted)
  {
  }

  /* ---------- what the split keeps ---------- */

  /** As the collector fills a record, from counters that do not go down. */
  predicate Collected(r: Record) {
    && r.promptTokens >= 0.0 && r.generationTokens >= 0.0 && r.cachedTokens >= 0.0
    && r.totalTokens == r.promptTokens + r.generationTokens
    && r.effectiveInputTokens == if r.promptTokens - r.cachedTokens < 0.0 then 0.0 else r.promptTokens - r.cachedTokens
  }

  /** Records of non-negative metrics are of this kind. */
  lemma RecordsAreCollected(key: string, allocs: map<string, Allocation>, m: Metrics)
    requires Amount(m.prompt, key) >= 0.0 && Amount(m.generation, key) >= 0.0 && Amount(m.cached, key) >= 0.0
    ensures Collected(RecordOf(key, allocs, m))
  {
    hide ParseKey;
  }

  lemma GenerationWeighs(r: Record, c: Config)
    requires Collected(r)
    ensures Times(r.generationTokens, Multiplier(c)) >= 0.0
    ensures Weighted(r, c) != 0.0 <==> r.generationTokens > 0.0 || r.promptTokens > r.cachedTokens
  {
    assert Multiplier(c) > 0.0;
  }

  lemma OverWhole(a: real, b: real, whole: real)
    requires whole != 0.0 && a + b == whole
    ensures a / whole + b / whole == 1.0
  {
    var x, y := a / whole, b / whole;
    assert x * whole == a && y * whole == b;
    assert (x + y) * whole == x * whole + y * whole;
  }

  lemma SharesAreFractions(a: real, b: real)
    requires a >= 0.0 && b >= 0.0 && a + b != 0.0
    ensures 0.0 <= Ratio(a, a + b) && 0.0 <= Ratio(b, a + b) && Ratio(a, a + b) + Ratio(b, a + b) == 1.0
  {
    OverWhole(a, b, a + b);
  }

  lemma SharesOfOne(r: Record, c: Config)
    requires Collected(r) && IsSplit(r, c)
    ensures 0.0 <= InputShare(r, c) && 0.0 <= OutputShare(r, c) && InputShare(r, c) + OutputShare(r, c) == 1.0
  {
    hide Ratio;
    if Timed(r, c) {
      SharesAreFractions(r.inputProcessingTime, r.outputProcessingTime);
    } else {
      GenerationWeighs(r, c);
      SharesAreFractions(r.effectiveInputTokens, Times(r.generationTokens, Multiplier(c)));
    }
  }

  lemma Distribute(x: real, a: real, b: real)
    requires a + b == 1.0
    ensures Times(x, a) + Times(x, b) == x
    ensures x >= 0.0 && a >= 0.0 && b >= 0.0 ==> 0.0 <= Times(x, a) <= x && 0.0 <= Times(x, b) <= x
  {
    assert x * a + x * b == x * (a + b);
  }

  /** Input and output cost make up the whole cost of the basis exactly when there is no cost, or there are
      tokens and either complete timings, or a generated token, or a prompt token that was not cached. */
  lemma SplitConservesIff(r: Record, c: Config, b: Basis)
    requires Collected(r)
    ensures InputCost(r, c, b) + OutputCost(r, c, b) == CostOn(r, b)
            <==> CostOn(r, b) == 0.0
                 || (r.totalTokens > 0.0
                      && (Timed(r, c) || r.generationTokens > 0.0 || r.promptTokens > r.cachedTokens))
  {
    hide Times, InputShare, OutputShare, Weighted;
    GenerationWeighs(r, c);
    if IsSplit(r, c) {
      SharesOfOne(r, c);
      Distribute(CostOn(r, b), InputShare(r, c), OutputShare(r, c));
    }
  }

  /** What the two bases cost: usage nothing without tokens; and which way the cost was split, if it was. */
  lemma PricedAs(r: Record, c: Config, b: Basis)
    ensures Priced(r, c, Allocated).amounts.totalCost == r.allocation.allocationTotalCost
    ensures Priced(r, c, Usage).amounts.totalCost == if r.totalTokens == 0.0 then 0.0 else r.allocation.usageTotalCost
    ensures Priced(r, c, b).method_ == "" <==>
              r.totalTokens == 0.0 || (r.allocation.allocationTotalCost == 0.0 && r.allocation.usageTotalCost == 0.0)
    ensures Priced(r, c, b).method_ in {"compute_time", "prefix_caching_off"} ==>
              c.computeTimeMode && r.inputProcessingTime > 0.0 && r.outputProcessingTime > 0.0
    ensures Priced(r, c, b).method_ == "prefix_caching_off" ==> r.cacheConfigKnown && !r.prefixCachingEnabled
    ensures Priced(r, c, b).method_ == "compute_time" ==> !r.cacheConfigKnown || r.prefixCachingEnabled
    ensures Priced(r, c, b).method_ == "multiplier" ==>
              !(c.computeTimeMode && r.inputProcessingTime > 0.0 && r.outputProcessingTime > 0.0)
    ensures Priced(r, c, b).method_ in {"", "compute_time", "prefix_caching_off", "multiplier"}
  {
    var method_ := MethodOf(r, c);
    assert |"compute_time"| == 12 && |"prefix_caching_off"| == 18 && |"multiplier"| == 10 && |""| == 0;
    assert Priced(r, c, b).method_ == method_;
  }

  /** By time, the parts stand in the ratio of the processing times. By tokens, a generated token costs as many times an
      input token as the multiplier says, 2.5 if none is given. */
  lemma SplitProportion(r: Record, c: Config, b: Basis)
    requires IsSplit(r, c)
    ensures c.computeTimeMode && r.inputProcessingTime > 0.0 && r.outputProcessingTime > 0.0 ==>
              InputCost(r, c, b) * r.outputProcessingTime == OutputCost(r, c, b) * r.inputProcessingTime
    ensures !(c.computeTimeMode && r.inputProcessingTime > 0.0 && r.outputProcessingTime > 0.0) ==>
              OutputCost(r, c, b) * r.effectiveInputTokens
              == InputCost(r, c, b) * (r.generationTokens * if c.outputTokenCostMultiplier > 0.0 then c.outputTokenCostMultiplier else 2.5)
  {
    if Timed(r, c) {
      CrossParts(CostOn(r, b), r.inputProcessingTime, r.outputProcessingTime, r.inputProcessingTime + r.outputProcessingTime);
    } else {
      CrossParts(CostOn(r, b), r.effectiveInputTokens, Times(r.generationTokens, Multiplier(c)), Weighted(r, c));
    }
  }

  lemma CrossParts(cost: real, x: real, y: real, whole: real)
    requires whole != 0.0
    ensures Times(cost, Ratio(x, whole)) * y == Times(cost, Ratio(y, whole)) * x
  {
    Swap(cost, whole, x);
    Swap(cost, whole, y);
    var each := cost / whole;
    assert each * x * y == each * y * x;
  }

  /** A prompt that was served from the cache and got no answer: its cost is in neither part. */
  lemma CachedPromptLosesCost(c: Config, r: Record)
    requires !c.computeTimeMode && Collected(r) && r.promptTokens == r.cachedTokens == 1.0 && r.generationTokens == 0.0
    requires r.allocation.allocationTotalCost == 1.0
    ensures InputCost(r, c, Allocated) == 0.0 && OutputCost(r, c, Allocated) == 0.0 && CostOn(r, Allocated) == 1.0
  {
    GenerationWeighs(r, c);
  }

  /** Neither part is negative or more than the whole. */
  lemma PartsWithinWhole(r: Record, c: Config, b: Basis)
    requires Collected(r) && CostOn(r, b) >= 0.0
    ensures 0.0 <= InputCost(r, c, b) <= CostOn(r, b) && 0.0 <= OutputCost(r, c, b) <= CostOn(r, b)
  {
    hide Times, InputShare, OutputShare;
    if IsSplit(r, c) {
      SharesOfOne(r, c);
      Distribute(CostOn(r, b), InputShare(r, c), OutputShare(r, c));
    }
  }

  /** The three cost rates of a calculated record are always ratios of its amounts. The cache savings are
      exactly when nothing was cached, or the split applies and caching is not known to be off. */
  lemma PricedRatesAreRatios(r: Record, c: Config, b: Basis, q: Agg.Rate)
    requires Collected(r)
    ensures Agg.IsRatio(Priced(r, c, b), q)
            <==> q.CacheSavings? ==> r.promptTokens == 0.0 || r.cachedTokens == 0.0 || (Applicable(r) && !CachingOff(r))
  {
    hide Times, InputShare, OutputShare, Agg.PerMillion, Agg.CostsPerMillion, Agg.IsPartSaved;
    var p := Priced(r, c, b);
    Agg.PerMillionCosts(p.rates.perMillion, p.amounts.totalCost, r.totalTokens);
    Agg.PerMillionCosts(p.rates.inputPerMillion, p.amounts.inputCost, r.promptTokens);
    Agg.PerMillionCosts(p.rates.outputPerMillion, p.amounts.outputCost, r.generationTokens);
    NothingPerMillion(r.promptTokens);
    NothingPerMillion(r.generationTokens);
    SavingsAreRatio(r);
  }

  lemma NothingPerMillion(tokens: real)
    ensures Agg.PerMillion(0.0, tokens) == 0.0
  {
  }

  lemma SavingsAreRatio(r: Record)
    requires Collected(r)
    ensures Agg.IsPartSaved(Savings(r), r.cachedTokens, r.promptTokens)
            <==> r.promptTokens == 0.0 || r.cachedTokens == 0.0 || (Applicable(r) && !CachingOff(r))
  {
    hide Applicable, CachingOff;
    if r.promptTokens > 0.0 {
      Agg.PartIsSaved(Savings(r), r.cachedTokens, r.promptTokens);
      assert Ratio(r.cachedTokens, r.promptTokens) == 0.0 <==> r.cachedTokens == 0.0;
    }
  }

  /** So in a total over any time steps and any grouping, every cost rate is the ratio of summed cost to summed tokens. */
  lemma RangeRatesAreRatios(a: Agg.CostSet, sets: seq<Agg.CostSet>, dims: seq<Agg.Dimension>, c: Config, b: Basis,
                            q: Agg.Rate)
    requires Agg.GroupedThenAccumulated(a, sets, dims) && !q.CacheSavings?
    requires forall i: nat, k :: i < |sets| && k in sets[i] ==>
               exists r :: Collected(r) && sets[i][k] == Priced(r, c, b)
    ensures forall j :: j in a ==> Agg.IsRatio(a[j], q)
  {
    hide Agg.GroupedThenAccumulated, Agg.IsRatio, Priced, Collected;
    forall i: nat, k | i < |sets| && k in sets[i] ensures Agg.IsRatio(sets[i][k], q) {
      var r :| Collected(r) && sets[i][k] == Priced(r, c, b);
      PricedRatesAreRatios(r, c, b, q);
    }
    Agg.TotalKeepsRates(a, sets, dims, q);
  }

  /* ---------- grouping what the service makes ---------- */

  /** The entries are calculated records, as the query service fills its sets. */
  ghost predicate ServiceMade(sets: seq<Agg.CostSet>, c: Config, b: Basis) {
    forall i: nat, k :: i < |sets| && k in sets[i] ==> exists r :: Collected(r) && sets[i][k] == Priced(r, c, b)
  }

  /** The dimensions that a natural key determines, and those that are the same in all entries the service makes. */
  predicate Steady(dims: seq<Agg.Dimension>) {
    forall i :: 0 <= i < |dims| ==> dims[i] in {Agg.ModelName, Agg.Namespace, Agg.ModelVersion, Agg.WorkloadType}
  }

  lemma SteadyGroups(r: Record, s: Record, c: Config, b: Basis, dims: seq<Agg.Dimension>)
    requires Steady(dims)
    requires var p, q := Priced(r, c, b).properties, Priced(s, c, b).properties;
             Agg.NaturalKey(p) == Agg.NaturalKey(q) && ':' !in p.ns && ':' !in q.ns
    ensures Agg.KeyOf(Priced(r, c, b).properties, dims) == Agg.KeyOf(Priced(s, c, b).properties, dims)
  {
    var p, q := Priced(r, c, b).properties, Priced(s, c, b).properties;
    assert p.modelVersion == q.modelVersion && p.workloadType == q.workloadType;
    hide Priced;
    Agg.NaturalKeySplits(p, q);
    assert Agg.Parts(p, dims) == Agg.Parts(q, dims);
  }

  /** A record without tokens and cost. */
  function Idle(p: Agg.Properties): Record {
    Record(p.modelName, p.ns, Allocation(0.0, 0.0, p.ns, p.cluster, p.pod, p.controller, p.controllerKind, p.container),
           0.0, 0.0, 0.0, 0.0, 0.0, 0.0, 0.0, false, false)
  }

  lemma IdleIsPlain(p: Agg.Properties, c: Config, b: Basis)
    requires p.modelVersion == "" && p.workloadType == "inference"
    ensures Collected(Idle(p)) && Priced(Idle(p), c, b) == Agg.Plain(p)
  {
  }

  /** Over the sets that the service makes, grouping commutes with accumulating exactly for the model's name and
      version, the namespace and the workload type. */
  lemma ServiceCommutesIff(dims: seq<Agg.Dimension>, c: Config, b: Basis)
    requires Agg.Supported(dims)
    ensures (forall sets, x, y | ServiceMade(sets, c, b) && Agg.WellKeyed(sets) ::
               Agg.GroupedThenAccumulated(x, sets, dims) && Agg.AccumulatedThenGrouped(y, sets, dims) ==>
                 Agg.SameTotals(x, y))
       <==> Steady(dims)
  {
    hide Agg.GroupedThenAccumulated, Agg.AccumulatedThenGrouped, Agg.SameTotals, ServiceMade, Agg.WellKeyed;
    if Steady(dims) {
      forall sets, x, y |
        && ServiceMade(sets, c, b) && Agg.WellKeyed(sets)
        && Agg.GroupedThenAccumulated(x, sets, dims)
             && Agg.AccumulatedThenGrouped(y, sets, dims) ensures Agg.SameTotals(x, y)
      {
        SteadySets(sets, c, b, dims);
        Agg.SameGroupsCommute(x, y, sets, dims);
      }
    } else {
      var i :| 0 <= i < |dims| && dims[i] !in {Agg.ModelName, Agg.Namespace, Agg.ModelVersion, Agg.WorkloadType};
      var p := Agg.Properties("m", "", "n", "", "", "", "", "", "inference");
      ServiceMakesTwo(p, dims[i], c, b);
      Agg.UndeterminedBreaks(p, dims, dims[i]);
    }
  }

  lemma SteadySets(sets: seq<Agg.CostSet>, c: Config, b: Basis, dims: seq<Agg.Dimension>)
    requires ServiceMade(sets, c, b) && Agg.WellKeyed(sets) && Steady(dims)
    ensures Agg.SameGroups(sets, dims)
  {
    hide Priced, Steady, Collected, Agg.KeyOf, Agg.NaturalKey;
    forall i: nat, j: nat, k | i < |sets| && j < |sets| && k in sets[i] && k in sets[j]
      ensures Agg.KeyOf(sets[i][k].properties, dims) == Agg.KeyOf(sets[j][k].properties, dims)
    {
      var r :| Collected(r) && sets[i][k] == Priced(r, c, b);
      var s :| Collected(s) && sets[j][k] == Priced(s, c, b);
      SteadyGroups(r, s, c, b, dims);
    }
  }

  lemma ServiceMakesTwo(p: Agg.Properties, d: Agg.Dimension, c: Config, b: Basis)
    requires p.modelVersion == "" && p.workloadType == "inference" && d != Agg.ModelVersion && d != Agg.WorkloadType
    ensures ServiceMade(Agg.TwoSteps(p, d), c, b)
  {
    IdleIsPlain(Agg.With(p, d, "x"), c, b);
    IdleIsPlain(Agg.With(p, d, "y"), c, b);
    hide Priced, Collected, Idle, Agg.Plain;
    var sets := Agg.TwoSteps(p, d);
    forall i: nat, k | i < |sets| && k in sets[i] ensures exists r :: Collected(r) && sets[i][k] == Priced(r, c, b) {
      assert sets[i][k] == Agg.Plain(Agg.With(p, d, if i == 0 then "x" else "y"));
    }
  }

  /** Over those sets, a merged entry shows exactly what was grouped on if and only if the controller's kind is grouped on
      only together with the controller; there is no version to be shown or wiped. */
  lemma ServiceShowsIff(dims: seq<Agg.Dimension>, c: Config, b: Basis)
    ensures (forall s, out :: ServiceMade([s], c, b) && Agg.IsAggregate(out, s, dims) ==>
              Agg.AllShowGrouped(out, s, dims))
       <==> (Agg.ControllerKind in dims ==> Agg.Controller in dims)
  {
    hide ServiceMade, Agg.IsAggregate, Agg.AllShowGrouped;
    if Agg.ControllerKind in dims ==> Agg.Controller in dims {
      forall s, out | ServiceMade([s], c, b) && Agg.IsAggregate(out, s, dims) ensures Agg.AllShowGrouped(out, s, dims) {
        ServiceShows(s, out, dims, c, b);
      }
    } else {
      KindIsWiped(dims, c, b);
    }
  }

  lemma ServiceShows(s: Agg.CostSet, out: Agg.CostSet, dims: seq<Agg.Dimension>, c: Config, b: Basis)
    requires ServiceMade([s], c, b) && Agg.IsAggregate(out, s, dims)
             && (Agg.ControllerKind in dims ==> Agg.Controller in dims)
    ensures Agg.AllShowGrouped(out, s, dims)
  {
    hide Agg.Groups, Agg.KeyOf, Agg.Cleared, Agg.ShowsGrouped, Priced, Collected;
    forall k | k in s ensures Agg.ShowsGrouped(Agg.Cleared(s[k].properties, dims), s[k].properties, dims) {
      assert k in [s][0] && [s][0] == s;
      var r :| Collected(r) && s[k] == Priced(r, c, b);
      NoVersion(r, c, b);
      ClearedShows(s[k].properties, dims);
    }
    assert Agg.Shows(out, s, dims);
  }

  lemma NoVersion(r: Record, c: Config, b: Basis)
    ensures Priced(r, c, b).properties.modelVersion == ""
  {
  }

  lemma ClearedShows(p: Agg.Properties, dims: seq<Agg.Dimension>)
    requires p.modelVersion == "" && (Agg.ControllerKind in dims ==> Agg.Controller in dims)
    ensures Agg.ShowsGrouped(Agg.Cleared(p, dims), p, dims)
  {
  }

  lemma KindIsWiped(dims: seq<Agg.Dimension>, c: Config, b: Basis)
    requires Agg.ControllerKind in dims && Agg.Controller !in dims
    ensures exists s, out ::
        ServiceMade([s], c, b) && Agg.IsAggregate(out, s, dims) && !Agg.AllShowGrouped(out, s, dims)
  {
    hide *;
    var p := Agg.Properties("m", "", "n", "", "", "", "Deployment", "", "inference");
    var s: Agg.CostSet := map["k" := Agg.Plain(p)];
    var out: Agg.CostSet := map[Agg.KeyOf(p, dims) := Agg.Plain(Agg.Cleared(p, dims))];
    SoleIsMade(p, c, b);
    Agg.SoleAggregate("k", p, dims);
    WipedShows(p, dims);
  }

  lemma SoleIsMade(p: Agg.Properties, c: Config, b: Basis)
    requires p.modelVersion == "" && p.workloadType == "inference"
    ensures ServiceMade([map["k" := Agg.Plain(p)]], c, b)
  {
    IdleIsPlain(p, c, b);
    hide Priced, Collected, Idle, Agg.Plain;
  }

  lemma WipedShows(p: Agg.Properties, dims: seq<Agg.Dimension>)
    requires Agg.ControllerKind in dims && Agg.Controller !in dims && p.controllerKind != ""
    ensures !Agg.AllShowGrouped(map[Agg.KeyOf(p, dims) := Agg.Plain(Agg.Cleared(p, dims))], map["k" := Agg.Plain(p)], dims)
  {
    hide Agg.KeyOf, Agg.Plain;
    var s: Agg.CostSet := map["k" := Agg.Plain(p)];
    var out: Agg.CostSet := map[Agg.KeyOf(p, dims) := Agg.Plain(Agg.Cleared(p, dims))];
    PlainShows(p);
    PlainShows(Agg.Cleared(p, dims));
    assert Agg.Value(Agg.Cleared(p, dims), Agg.ControllerKind) == ""
           && Agg.Value(p, Agg.ControllerKind) == p.controllerKind;
    assert !Agg.ShowsGrouped(Agg.Cleared(p, dims), p, dims);
    hide Agg.ShowsGrouped, Agg.Cleared;
    assert Agg.KeyOf(p, dims) in out;
  }

  lemma PlainShows(p: Agg.Properties)
    ensures Agg.Plain(p).properties == p
  {
  }

  /* ---------- usage cost ---------- */

  /** What usage cost is made of; `other` is network, volumes, load balancers, shared and external cost. */
  datatype Resources = Resources(
    cpuCost: real, gpuCost: real, ramCost: real, other: real,
    gpuUsage: Option<real>, cpuRequest: real, cpuUsage: real, ramRequest: real, ramUsage: real)
  {
    function TotalCost(): real { cpuCost + gpuCost + ramCost + other }
  }

  lemma LessThanWhole(part: real, whole: real)
    requires 0.0 < part < whole
    ensures 0.0 < part / whole < 1.0
  {
    var q := part / whole;
    assert q * whole == part;
    assert q >= 1.0 ==> q * whole >= whole;
  }

  /** The part of a reservation that is charged. */
  function Utilised(request: real, usage: real): (u: real)
    ensures 0.0 < u <= 1.0
    ensures if request > 0.0 && 0.0 < usage < request then u * request == usage else u == 1.0
  {
    if request > 0.0 && usage > 0.0 && usage < request then
      LessThanWhole(usage, request);
      usage / request
    else 1.0
  }

  function Clamped(usage: Option<real>): (u: real)
    ensures 0.0 <= u <= 1.0
    ensures usage.None? ==> u == 1.0
    ensures usage.Some? ==> forall v :: 0.0 <= v <= 1.0 ==> Distance(usage.value, u) <= Distance(usage.value, v)
  {
    if usage.None? then 1.0 else if usage.value < 0.0 then 0.0 else if usage.value > 1.0 then 1.0 else usage.value
  }

  function Distance(a: real, b: real): real { if a < b then b - a else a - b }

  /** Each resource is scaled by its own utilisation; for non-negative costs the result never exceeds the
      whole and never falls below what is not scaled. */
  method UsageCost(a: Resources) returns (cost: real)
    ensures cost == a.other + Times(a.gpuCost, Clamped(a.gpuUsage))
            + Times(a.cpuCost, Utilised(a.cpuRequest, a.cpuUsage))
                    + Times(a.ramCost, Utilised(a.ramRequest, a.ramUsage))
    ensures a.cpuCost >= 0.0 && a.gpuCost >= 0.0 && a.ramCost >= 0.0 ==> a.other <= cost <= a.TotalCost()
  {
    hide Times;
    AtMost(a.gpuCost, Clamped(a.gpuUsage));
    AtMost(a.cpuCost, Utilised(a.cpuRequest, a.cpuUsage));
    AtMost(a.ramCost, Utilised(a.ramRequest, a.ramUsage));
    cost := a.TotalCost();
    if a.gpuUsage.Some? {
      var util := a.gpuUsage.value;
      if util < 0.0 { util := 0.0; } else if util > 1.0 { util := 1.0; }
      cost := cost - a.gpuCost + Times(a.gpuCost, util);
    }
    if a.cpuRequest > 0.0 && a.cpuUsage > 0.0 && a.cpuUsage < a.cpuRequest {
      cost := cost - a.cpuCost + Times(a.cpuCost, a.cpuUsage / a.cpuRequest);
    }
    if a.ramRequest > 0.0 && a.ramUsage > 0.0 && a.ramUsage < a.ramRequest {
      cost := cost - a.ramCost + Times(a.ramCost, a.ramUsage / a.ramRequest);
    }
  }

  lemma AtMost(cost: real, util: real)
    requires 0.0 <= util <= 1.0
    ensures Times(cost, 1.0) == cost
    ensures cost >= 0.0 ==> 0.0 <= Times(cost, util) <= cost
  {
  }
}
