/**
 Joining inference metrics to allocation costs (pkg/inferencecost/collector.go). A metric may name
 its model with an organisation prefix that the allocation's label lacks, so metric keys are first
 moved to the allocation key of the same short name and namespace.
 */
module InferenceReconcile {
  import opened Sums
  import opened Sorting

  /* ---------- keys ---------- */

  /** strings.IndexByte and strings.LastIndex, with |s| for a character that does not occur. */
  function First(s: string, c: char): (i: nat)
    ensures i <= |s| && (i < |s| ==> s[i] == c) && forall j :: 0 <= j < i ==> s[j] != c
  {
    if s == [] || s[0] == c then 0 else 1 + First(s[1..], c)
  }

  /** The position behind the last `c`, 0 if there is none. */
  function AfterLast(s: string, c: char): (i: nat)
    ensures i <= |s| && (i > 0 ==> s[i - 1] == c) && forall j :: i <= j < |s| ==> s[j] != c
  {
    if s == [] then 0 else if s[|s| - 1] == c then |s| else AfterLast(s[..|s| - 1], c)
  }

  function ModelNamespaceKey(model: string, ns: string): string { model + ":" + ns }

  function ParseKey(key: string): (string, string) {
    var i := First(key, ':');
    if i == |key| then (key, "unknown") else (key[..i], key[i + 1..])
  }

  /** The model name without what comes before its last slash. */
  function CanonicalModelName(model: string): string { model[AfterLast(model, '/')..] }

  function ShortKey(key: string): string {
    var (model, ns) := ParseKey(key);
    ModelNamespaceKey(CanonicalModelName(model), ns)
  }

  /** A key parses back to what it was made of exactly when the model name has no colon. */
  lemma ParseKeyRoundTrip(model: string, ns: string)
    ensures ParseKey(ModelNamespaceKey(model, ns)) == (model, ns) <==> ':' !in model
    ensures ':' !in model ==> ParseKey(model) == (model, "unknown")
  {
    var key := ModelNamespaceKey(model, ns);
    var i := First(key, ':');
    assert key[|model|] == ':';
    assert i <= |model|;
    if i == |model| {
      assert key[..i] == model && key[i + 1..] == ns;
      assert forall j :: 0 <= j < |model| ==> model[j] == key[j];
    } else {
      assert model[i] == key[i] == ':';
      assert |ParseKey(key).0| == i;
    }
  }

  lemma CanonicalHasNoSlash(model: string)
    ensures '/' !in CanonicalModelName(model)
    ensures CanonicalModelName(CanonicalModelName(model)) == CanonicalModelName(model)
  {
    var c := CanonicalModelName(model);
    assert forall j :: 0 <= j < |c| ==> c[j] == model[AfterLast(model, '/') + j];
    assert AfterLast(c, '/') == 0;
  }

  /** What stands behind the last slash is the model's name, and a name without one is its own. */
  lemma CanonicalIsLastPart(prefix: string, name: string)
    requires '/' !in name
    ensures CanonicalModelName(prefix + "/" + name) == name && CanonicalModelName(name) == name
  {
    var model := prefix + "/" + name;
    assert model[|prefix|] == '/';
    assert forall j :: |prefix| < j < |model| ==> model[j] == name[j - |prefix| - 1];
    assert AfterLast(model, '/') == |prefix| + 1;
    assert model[|prefix| + 1..] == name;
    assert AfterLast(name, '/') == 0;
  }

  /** A metric under the model's full name and an allocation under its last part have one short key. */
  lemma ShortKeyOfLastPart(prefix: string, name: string, ns: string)
    requires '/' !in name && ':' !in prefix && ':' !in name
    ensures ShortKey(ModelNamespaceKey(prefix + "/" + name, ns)) == ModelNamespaceKey(name, ns)
    ensures ShortKey(ModelNamespaceKey(name, ns)) == ModelNamespaceKey(name, ns)
  {
    var model := prefix + "/" + name;
    assert ':' !in model by {
      assert forall c :: c in model <==> c in prefix || c == '/' || c in name;
    }
    ParseKeyRoundTrip(model, ns);
    ParseKeyRoundTrip(name, ns);
    CanonicalIsLastPart(prefix, name);
  }

  /** Shortening a short key changes nothing: short keys are the representatives of their classes. */
  lemma ShortKeyIdempotent(key: string)
    ensures ShortKey(ShortKey(key)) == ShortKey(key)
  {
    var (model, ns) := ParseKey(key);
    var c := CanonicalModelName(model);
    assert ':' !in model by { assert forall j :: 0 <= j < |model| ==> model[j] == key[j]; }
    assert ':' !in c by { assert forall j :: 0 <= j < |c| ==> c[j] == model[AfterLast(model, '/') + j]; }
    ParseKeyRoundTrip(c, ns);
    CanonicalHasNoSlash(model);
  }

  /* ---------- the index of allocation keys ---------- */

  /** The key is already in short form. */
  predicate IsShort(key: string) { ParseKey(key).0 == CanonicalModelName(ParseKey(key).0) }

  /** Every short key leads to some allocation key with that short key. */
  ghost predicate Indexes(index: map<string, string>, allocKeys: set<string>) {
    && (forall a :: a in allocKeys ==> ShortKey(a) in index)
    && (forall s :: s in index ==> index[s] in allocKeys && ShortKey(index[s]) == s)
  }

  /** What building the index can yield: some allocation key for every short key, a short one if there is any. */
  ghost predicate IsIndex(index: map<string, string>, allocKeys: set<string>) {
    && Indexes(index, allocKeys)
    && (forall a :: a in allocKeys && IsShort(a) ==> IsShort(index[ShortKey(a)]))
  }

  lemma SameShortName(a: string, b: string)
    requires ShortKey(a) == ShortKey(b)
    ensures CanonicalModelName(ParseKey(a).0) == CanonicalModelName(ParseKey(b).0)
  {
    ShortNameOf(a);
    ShortNameOf(b);
  }

  lemma ShortNameOf(a: string)
    ensures ParseKey(ShortKey(a)).0 == CanonicalModelName(ParseKey(a).0)
  {
    var (model, ns) := ParseKey(a);
    var c := CanonicalModelName(model);
    assert ':' !in model by { assert forall j :: 0 <= j < |model| ==> model[j] == a[j]; }
    assert ':' !in c by { assert forall j :: 0 <= j < |c| ==> c[j] == model[AfterLast(model, '/') + j]; }
    ParseKeyRoundTrip(c, ns);
  }

  method BuildIndex(allocKeys: set<string>) returns (index: map<string, string>)
    ensures IsIndex(index, allocKeys)
  {
    hide ShortKey, ParseKey, CanonicalModelName;
    index := map[];
    var todo := allocKeys;
    ghost var done: set<string> := {};
    while todo != {}
      invariant todo <= allocKeys && done == allocKeys - todo
      invariant IsIndex(index, done)
      decreases todo
    {
      var a :| a in todo;
      var (model, ns) := ParseKey(a);
      var shortName := CanonicalModelName(model);
      var shortKey := ShortKey(a);
      if shortKey in index { SameShortName(a, index[shortKey]); }
      if shortKey in index && ParseKey(index[shortKey]).0 == shortName {
      } else {
        index := index[shortKey := a];
      }
      done := done + {a};
      todo := todo - {a};
    }
    assert done == allocKeys;
  }

  /** No two allocation keys have the same short name and namespace. */
  ghost predicate Unambiguous(allocKeys: set<string>) {
    forall a, b :: a in allocKeys && b in allocKeys && ShortKey(a) == ShortKey(b) ==> a == b
  }

  /** Where a metric key goes. */
  function Target(index: map<string, string>, k: string): string {
    if ShortKey(k) in index then index[ShortKey(k)] else k
  }

  /** A target stays where it is; so does everything that is not moved. */
  lemma TargetIsFixed(index: map<string, string>, allocKeys: set<string>, k: string)
    requires Indexes(index, allocKeys)
    ensures Target(index, Target(index, k)) == Target(index, k)
    ensures Target(index, k) != k ==> Target(index, k) in allocKeys
  {
  }

  /** With unambiguous allocation keys every index says the same, and no allocation key is moved. */
  lemma UnambiguousTargets(index: map<string, string>, index': map<string, string>, allocKeys: set<string>, k: string)
    requires Indexes(index, allocKeys) && Indexes(index', allocKeys) && Unambiguous(allocKeys)
    ensures Target(index, k) == Target(index', k)
    ensures k in allocKeys ==> Target(index, k) == k
  {
    hide ShortKey;
  }

  /* ---------- moving the tokens ---------- */

  type Tokens = map<string, real>

  function Amount(m: Tokens, k: string): real { if k in m then m[k] else 0.0 }

  function AmountOf(m: Tokens): string -> real { k => Amount(m, k) }

  ghost function Total(m: Tokens): real { SumOver(m.Keys, AmountOf(m)) }

  /** One round of the loop: a moved key is added to its target, any other key is assigned. */
  function Put(out: Tokens, index: map<string, string>, k: string, v: real): Tokens {
    var a := Target(index, k);
    if a != k then out[a := Amount(out, a) + v] else out[k := v]
  }

  /** The reconciled map, for one order of reading the metric map. */
  function Reconciled(order: seq<string>, tokens: Tokens, index: map<string, string>): Tokens {
    if order == [] then map[]
    else Put(Reconciled(order[..|order| - 1], tokens, index), index, order[|order| - 1], Amount(tokens, order[|order| - 1]))
  }

  /** The keys that are moved, in whatever order. */
  function Moved(keys: set<string>, index: map<string, string>): set<string> {
    set k | k in keys && Target(index, k) != k
  }

  /** One key of the loop. */
  method PutKey(before: Tokens, moved: set<string>, index: map<string, string>, k: string, v: real)
    returns (out: Tokens, remapped: set<string>)
    ensures out == Put(before, index, k, v)
    ensures remapped == moved + Moved({k}, index)
  {
    hide ShortKey;
    out, remapped := before, moved;
    var shortKey := ShortKey(k);
    if shortKey in index && k != index[shortKey] {
      var allocKey := index[shortKey];
      out := out[allocKey := Amount(out, allocKey) + v];
      remapped := remapped + {k};
    } else {
      out := out[k := v];
    }
  }

  lemma ReconciledMore(order: seq<string>, done: set<string>, tokens: Tokens, index: map<string, string>, k: string)
    ensures Reconciled([], tokens, index) == map[] && Moved({}, index) == {}
    ensures Reconciled(order + [k], tokens, index) == Put(Reconciled(order, tokens, index), index, k, Amount(tokens, k))
    ensures Moved(done + {k}, index) == Moved(done, index) + Moved({k}, index)
  {
    hide Target;
    assert (order + [k])[..|order|] == order;
  }

  /** reconcileTokenKeys */
  method ReconcileTokenKeys(tokens: Tokens, allocKeys: set<string>)
    returns (out: Tokens, remapped: set<string>)
    ensures IsReconciled(out, remapped, tokens, allocKeys)
  {
    hide ShortKey, IsIndex, Orders, Put, Reconciled, Moved;
    var shortIndex := BuildIndex(allocKeys);
    out, remapped := map[], {};
    ghost var order: seq<string> := [];
    var todo := tokens.Keys;
    ghost var done: set<string> := {};
    OrderNone<string>();
    ReconciledMore(order, done, tokens, shortIndex, "");
    while todo != {}
      invariant todo <= tokens.Keys && done == tokens.Keys - todo
      invariant Orders(order, done)
      invariant out == Reconciled(order, tokens, shortIndex)
      invariant remapped == Moved(done, shortIndex)
      decreases todo
    {
      var k :| k in todo;
      out, remapped := PutKey(out, remapped, shortIndex, k, tokens[k]);
      OrderMore(order, done, k);
      ReconciledMore(order, done, tokens, shortIndex, k);
      order := order + [k];
      done := done + {k};
      todo := todo - {k};
    }
    assert done == tokens.Keys;
  }

  /* ---------- conservation of a token map ---------- */

  /** What the keys of `order` bring to `a` from elsewhere. */
  ghost function Onto(order: seq<string>, tokens: Tokens, index: map<string, string>, a: string): real {
    if order == [] then 0.0
    else
      var k := order[|order| - 1];
      Onto(order[..|order| - 1], tokens, index, a)
      + if Target(index, k) == a && k != a then Amount(tokens, k) else 0.0
  }

  /** What assignments wipe out: all that had come to a key before the key itself is met. */
  ghost function Lost(order: seq<string>, tokens: Tokens, index: map<string, string>): real {
    if order == [] then 0.0
    else
      var n := |order| - 1;
      Lost(order[..n], tokens, index)
      + if Target(index, order[n]) == order[n] then Amount(Reconciled(order[..n], tokens, index), order[n]) else 0.0
  }

  lemma TotalPut(m: Tokens, k: string, x: real)
    ensures Total(m[k := x]) == Total(m) - Amount(m, k) + x
  {
    hide SumOver;
    var m' := m[k := x];
    SumWiden(m.Keys, m.Keys + {k}, AmountOf(m));
    SumUpdate(m.Keys + {k}, AmountOf(m), AmountOf(m'), k);
    assert m'.Keys == m.Keys + {k};
  }

  lemma {:induction false} ReconciledAccount(order: seq<string>, tokens: Tokens, index: map<string, string>)
    ensures Total(Reconciled(order, tokens, index)) == SumSeq(order, AmountOf(tokens)) - Lost(order, tokens, index)
  {
    hide Target, SumOver;
    if order == [] {
      SumZero(Reconciled(order, tokens, index).Keys, AmountOf(Reconciled(order, tokens, index)));
    } else {
      var n := |order| - 1;
      var k := order[n];
      var out := Reconciled(order[..n], tokens, index);
      ReconciledAccount(order[..n], tokens, index);
      hide Total;
      var a := Target(index, k);
      TotalPut(out, a, if a != k then Amount(out, a) + Amount(tokens, k) else Amount(tokens, k));
    }
  }

  /** A key that has not been met holds exactly what was brought to it. */
  lemma {:induction false} HeldAt(order: seq<string>, tokens: Tokens, index: map<string, string>, a: string)
    requires a !in order
    ensures Amount(Reconciled(order, tokens, index), a) == Onto(order, tokens, index, a)
  {
    hide Target;
    if order != [] {
      var n := |order| - 1;
      assert order[n] in order && forall k :: k in order[..n] ==> k in order;
      HeldAt(order[..n], tokens, index, a);
    }
  }

  lemma ListedTotal(order: seq<string>, tokens: Tokens)
    requires Orders(order, tokens.Keys)
    ensures SumSeq(order, AmountOf(tokens)) == Total(tokens)
  {
    SumSeqAsSet(order, AmountOf(tokens));
    assert (set k | k in order) == tokens.Keys;
  }

  /** A key that is moved onto another metric key brings nothing. */
  ghost predicate NoOverwrite(tokens: Tokens, index: map<string, string>) {
    forall k :: k in tokens && Target(index, k) != k && Target(index, k) in tokens ==> tokens[k] == 0.0
  }

  lemma {:induction false} NothingOnto(order: seq<string>, tokens: Tokens, index: map<string, string>, a: string)
    requires NoOverwrite(tokens, index) && a in tokens
    ensures Onto(order, tokens, index, a) == 0.0
  {
    hide Target;
    if order != [] { NothingOnto(order[..|order| - 1], tokens, index, a); }
  }

  lemma {:induction false} NothingLost(order: seq<string>, tokens: Tokens, index: map<string, string>)
    requires NoOverwrite(tokens, index) && Distinct(order) && forall k :: k in order ==> k in tokens
    ensures Lost(order, tokens, index) == 0.0
  {
    hide Target;
    if order != [] {
      var n := |order| - 1;
      assert forall k :: k in order[..n] ==> k in order;
      NothingLost(order[..n], tokens, index);
      assert order[n] !in order[..n];
      HeldAt(order[..n], tokens, index, order[n]);
      NothingOnto(order[..n], tokens, index, order[n]);
    }
  }

  lemma Conserved(order: seq<string>, tokens: Tokens, index: map<string, string>)
    requires NoOverwrite(tokens, index) && Orders(order, tokens.Keys)
    ensures Total(Reconciled(order, tokens, index)) == Total(tokens)
  {
    hide Total, Reconciled, NoOverwrite;
    ReconciledAccount(order, tokens, index);
    ListedTotal(order, tokens);
    NothingLost(order, tokens, index);
  }

  lemma {:induction false} UnmovedBringNothing(order: seq<string>, tokens: Tokens, index: map<string, string>,
                                               a: string)
    requires forall k :: k in order ==> Target(index, k) == k
    ensures Onto(order, tokens, index, a) == 0.0
  {
    hide Target;
    if order != [] {
      var n := |order| - 1;
      assert order[n] in order && forall k :: k in order[..n] ==> k in order;
      UnmovedBringNothing(order[..n], tokens, index, a);
    }
  }

  lemma {:induction false} UnmovedLoseNothing(order: seq<string>, tokens: Tokens, index: map<string, string>)
    requires Distinct(order) && forall k :: k in order ==> Target(index, k) == k
    ensures Lost(order, tokens, index) == 0.0
  {
    hide Target;
    if order != [] {
      var n := |order| - 1;
      assert order[n] !in order[..n] && forall k :: k in order[..n] ==> k in order;
      UnmovedLoseNothing(order[..n], tokens, index);
      HeldAt(order[..n], tokens, index, order[n]);
      UnmovedBringNothing(order[..n], tokens, index, order[n]);
    }
  }

  lemma {:induction false} MovedLoseNothing(before: seq<string>, order: seq<string>, tokens: Tokens,
                                            index: map<string, string>)
    requires forall k :: k in order ==> Target(index, k) != k
    ensures Lost(before + order, tokens, index) == Lost(before, tokens, index)
  {
    hide Target, Reconciled;
    if order == [] {
      assert before + order == before;
    } else {
      var n := |order| - 1;
      assert order[n] in order && forall k :: k in order[..n] ==> k in order;
      assert (before + order)[..|before + order| - 1] == before + order[..n];
      MovedLoseNothing(before, order[..n], tokens, index);
    }
  }

  lemma MovedThenMet(before: seq<string>, tokens: Tokens, index: map<string, string>, r: string, a: string)
    requires Distinct(before) && forall k :: k in before ==> Target(index, k) == k
    requires Target(index, r) == a && a != r && Target(index, a) == a && a !in before
    ensures Lost(before + [r, a], tokens, index) == Amount(tokens, r)
  {
    hide Target, Reconciled, Amount;
    var both := before + [r, a];
    var one := before + [r];
    assert both[..|both| - 1] == one && one[..|one| - 1] == before;
    UnmovedLoseNothing(before, tokens, index);
    assert Lost(one, tokens, index) == 0.0;
    HeldAt(one, tokens, index, a);
    UnmovedBringNothing(before, tokens, index, a);
    assert Onto(one, tokens, index, a) == Amount(tokens, r);
  }

  /** An order that meets the moved key just before its target, every other unmoved key before both
      and every other moved key after, loses exactly what was moved. */
  lemma OverwritingOrder(tokens: Tokens, index: map<string, string>, r: string, a: string) returns (order: seq<string>)
    requires r in tokens && a in tokens && Target(index, r) == a && a != r && Target(index, a) == a
    ensures Orders(order, tokens.Keys) && Lost(order, tokens, index) == tokens[r]
  {
    hide Target, Lost;
    var unmoved := set k | k in tokens && Target(index, k) == k && k != a;
    var others := set k | k in tokens && Target(index, k) != k && k != r;
    var before := OrderExists(unmoved);
    var after := OrderExists(others);
    MovedThenMet(before, tokens, index, r, a);
    MovedLoseNothing(before + [r, a], after, tokens, index);
    order := before + [r, a] + after;
    OrderMore(before, unmoved, r);
    OrderMore(before + [r], unmoved + {r}, a);
    assert before + [r] + [a] == before + [r, a];
    OrdersJoin(before + [r, a], unmoved + {r} + {a}, after, others);
    assert unmoved + {r} + {a} + others == tokens.Keys;
  }

  /** A token map's total survives reconciliation, whatever order the map is read in, exactly when
      no key with tokens is moved onto another key of the same map. */
  lemma TokensConservedIff(tokens: Tokens, index: map<string, string>, allocKeys: set<string>)
    requires Indexes(index, allocKeys)
    ensures (forall order :: Orders(order, tokens.Keys) ==> Total(Reconciled(order, tokens, index)) == Total(tokens))
       <==> NoOverwrite(tokens, index)
  {
    hide Total, Reconciled, Lost, Indexes;
    if NoOverwrite(tokens, index) {
      forall order | Orders(order, tokens.Keys) ensures Total(Reconciled(order, tokens, index)) == Total(tokens) {
        Conserved(order, tokens, index);
      }
    } else {
      var r :| r in tokens && Target(index, r) != r && Target(index, r) in tokens && tokens[r] != 0.0;
      TargetIsFixed(index, allocKeys, r);
      var order := OverwritingOrder(tokens, index, r, Target(index, r));
      ReconciledAccount(order, tokens, index);
      ListedTotal(order, tokens);
    }
  }

  /* ---------- the join ---------- */

  datatype Allocation = Allocation(
    allocationTotalCost: real, usageTotalCost: real,
    ns: string, cluster: string, pod: string, controller: string, controllerKind: string, container: string)

  datatype Metrics = Metrics(
    prompt: Tokens, generation: Tokens, inputTime: Tokens, outputTime: Tokens, cached: Tokens,
    prefixCaching: map<string, bool>)

  datatype Record = Record(
    modelName: string, ns: string, allocation: Allocation,
    promptTokens: real, generationTokens: real, inputProcessingTime: real, outputProcessingTime: real, cachedTokens: real,
    totalTokens: real, effectiveInputTokens: real, prefixCachingEnabled: bool, cacheConfigKnown: bool)

  const NO_ALLOCATION := Allocation(0.0, 0.0, "", "", "", "", "", "")

  /** The metrics after reconciliation, and all keys that were moved on the way. */
  datatype Joined = Joined(metrics: Metrics, remapped: set<string>)

  function KeysOf(m: Metrics): set<string> {
    m.prompt.Keys + m.generation.Keys + m.inputTime.Keys + m.outputTime.Keys + m.cached.Keys + m.prefixCaching.Keys
  }

  /** The keys that get a record. */
  function Surviving(allocs: map<string, Allocation>, j: Joined): set<string> {
    allocs.Keys + KeysOf(j.metrics) - j.remapped
  }

  function RecordOf(key: string, allocs: map<string, Allocation>, m: Metrics): Record {
    var (model, ns) := ParseKey(key);
    var a := if key in allocs then allocs[key] else NO_ALLOCATION;
    var prompt, generation, cached := Amount(m.prompt, key), Amount(m.generation, key), Amount(m.cached, key);
    Record(model, if key in allocs && ns == "" then a.ns else ns, a,
           prompt, generation, Amount(m.inputTime, key), Amount(m.outputTime, key), cached,
           prompt + generation, if prompt - cached < 0.0 then 0.0 else prompt - cached,
           key in m.prefixCaching && m.prefixCaching[key], key in m.prefixCaching)
  }

  /** `out` and `remapped` are what reconciling `tokens` can yield. */
  ghost predicate IsReconciled(out: Tokens, remapped: set<string>, tokens: Tokens, allocKeys: set<string>) {
    exists index, order ::
      IsIndex(index, allocKeys) && Orders(order, tokens.Keys) && out == Reconciled(order, tokens, index)
        && remapped == Moved(tokens.Keys, index)
  }

  /** The same for the cache configurations, of which the last one assigned wins. */
  ghost predicate IsReconfigured(out: map<string, bool>, remapped: set<string>, configs: map<string, bool>,
                                 allocKeys: set<string>) {
    exists index ::
      && Indexes(index, allocKeys) && remapped == Moved(configs.Keys, index)
      && out.Keys == (set k | k in configs :: Target(index, k))
      && forall a :: a in out ==> exists k :: k in configs && Target(index, k) == a && configs[k] == out[a]
  }

  method ReconcileCacheConfigKeys(configs: map<string, bool>, allocKeys: set<string>)
    returns (out: map<string, bool>, remapped: set<string>)
    ensures IsReconfigured(out, remapped, configs, allocKeys)
  {
    hide ShortKey;
    var index := FirstIndex(allocKeys);
    out, remapped := map[], {};
    var todo := configs.Keys;
    ghost var done: set<string> := {};
    while todo != {}
      invariant todo <= configs.Keys && done == configs.Keys - todo
      invariant remapped == Moved(done, index)
      invariant out.Keys == (set k | k in done :: Target(index, k))
      invariant forall a :: a in out ==> exists k :: k in configs && Target(index, k) == a && configs[k] == out[a]
      decreases todo
    {
      var k :| k in todo;
      out := out[Target(index, k) := configs[k]];
      if Target(index, k) != k {
        remapped := remapped + {k};
      }
      done := done + {k};
      todo := todo - {k};
    }
    assert done == configs.Keys;
  }

  method FirstIndex(allocKeys: set<string>) returns (index: map<string, string>)
    ensures Indexes(index, allocKeys)
  {
    hide ShortKey;
    index := map[];
    var todo := allocKeys;
    ghost var done: set<string> := {};
    while todo != {}
      invariant todo <= allocKeys && done == allocKeys - todo
      invariant Indexes(index, done)
      decreases todo
    {
      var a :| a in todo;
      if ShortKey(a) !in index {
        index := index[ShortKey(a) := a];
      }
      done := done + {a};
      todo := todo - {a};
    }
    assert done == allocKeys;
  }

  /** Everything the join can make of the metrics. */
  ghost predicate IsJoin(j: Joined, m: Metrics, allocKeys: set<string>) {
    exists p, g, i, o, c, f ::
      && IsReconciled(j.metrics.prompt, p, m.prompt, allocKeys)
      && IsReconciled(j.metrics.generation, g, m.generation, allocKeys)
      && IsReconciled(j.metrics.inputTime, i, m.inputTime, allocKeys)
      && IsReconciled(j.metrics.outputTime, o, m.outputTime, allocKeys)
      && IsReconciled(j.metrics.cached, c, m.cached, allocKeys)
      && IsReconfigured(j.metrics.prefixCaching, f, m.prefixCaching, allocKeys)
      && j.remapped == p + g + i + o + c + f
  }

  /** What combining the metrics with the allocations can yield. */
  ghost predicate IsCombined(records: seq<Record>, allocs: map<string, Allocation>, m: Metrics) {
    exists keys, j :: IsJoin(j, m, allocs.Keys) && AreRecords(records, keys, allocs, j)
  }

  /** combineMetrics: one record for every surviving key. */
  method CombineMetrics(allocs: map<string, Allocation>, m: Metrics) returns (records: seq<Record>)
    ensures IsCombined(records, allocs, m)
    ensures Unambiguous(allocs.Keys) ==> SumSeq(records, RecordCost) == SumOver(allocs.Keys, CostOf(allocs))
  {
    hide IsReconciled, IsReconfigured, Orders, RecordOf, Unambiguous, SumSeq, SumOver;
    var prompt, p := ReconcileTokenKeys(m.prompt, allocs.Keys);
    var generation, g := ReconcileTokenKeys(m.generation, allocs.Keys);
    var inputTime, i := ReconcileTokenKeys(m.inputTime, allocs.Keys);
    var outputTime, o := ReconcileTokenKeys(m.outputTime, allocs.Keys);
    var cached, c := ReconcileTokenKeys(m.cached, allocs.Keys);
    var prefixCaching, f := ReconcileCacheConfigKeys(m.prefixCaching, allocs.Keys);
    var remapped := p + g + i + o + c + f;
    var metrics := Metrics(prompt, generation, inputTime, outputTime, cached, prefixCaching);
    ghost var j := Joined(metrics, remapped);
    ghost var keys;
    records, keys := MakeRecords(allocs.Keys + KeysOf(metrics), remapped, allocs, metrics);
    assert IsJoin(j, m, allocs.Keys) && AreRecords(records, keys, allocs, j);
    if Unambiguous(allocs.Keys) {
      CostConserved(records, keys, allocs, m, j);
    }
  }

  method MakeRecords(all: set<string>, remapped: set<string>, allocs: map<string, Allocation>, m: Metrics)
    returns (records: seq<Record>, ghost keys: seq<string>)
    ensures Orders(keys, all - remapped) && |records| == |keys|
    ensures forall i :: 0 <= i < |keys| ==> records[i] == RecordOf(keys[i], allocs, m)
  {
    hide Orders, RecordOf;
    records, keys := [], [];
    var todo := all;
    ghost var done: set<string> := {};
    OrderNone<string>();
    assert done - remapped == {};
    while todo != {}
      invariant todo <= all && done == all - todo
      invariant Orders(keys, done - remapped) && |records| == |keys|
      invariant forall i :: 0 <= i < |keys| ==> records[i] == RecordOf(keys[i], allocs, m)
      decreases todo
    {
      var k :| k in todo;
      todo := todo - {k};
      ghost var before := done;
      done := done + {k};
      if k in remapped {
        assert done - remapped == before - remapped;
        continue;
      }
      OrderMore(keys, before - remapped, k);
      assert done - remapped == before - remapped + {k};
      records := records + [RecordOf(k, allocs, m)];
      keys := keys + [k];
    }
    assert done == all;
  }

  /* ---------- what the join conserves ---------- */

  datatype TokenField = Prompt | Generation | InputTime | OutputTime | Cached

  function MapOf(m: Metrics, f: TokenField): Tokens {
    match f
    case Prompt => m.prompt
    case Generation => m.generation
    case InputTime => m.inputTime
    case OutputTime => m.outputTime
    case Cached => m.cached
  }

  function FieldOf(f: TokenField): Record -> real {
    (r: Record) =>
      match f
      case Prompt => r.promptTokens
      case Generation => r.generationTokens
      case InputTime => r.inputProcessingTime
      case OutputTime => r.outputProcessingTime
      case Cached => r.cachedTokens
  }

  function CostOf(allocs: map<string, Allocation>): string -> real {
    k => if k in allocs then allocs[k].allocationTotalCost else 0.0
  }

  function RecordCost(r: Record): real { r.allocation.allocationTotalCost }

  /** The records are those of the surviving keys, once each. */
  ghost predicate AreRecords(records: seq<Record>, keys: seq<string>, allocs: map<string, Allocation>, j: Joined) {
    && Orders(keys, Surviving(allocs, j)) && |records| == |keys|
    && forall i :: 0 <= i < |keys| ==> records[i] == RecordOf(keys[i], allocs, j.metrics)
  }

  lemma RecordSum(records: seq<Record>, keys: seq<string>, allocs: map<string, Allocation>, j: Joined,
                  f: Record -> real, g: string -> real)
    requires AreRecords(records, keys, allocs, j)
    requires forall k :: f(RecordOf(k, allocs, j.metrics)) == g(k)
    ensures SumSeq(records, f) == SumOver(Surviving(allocs, j), g)
  {
    hide RecordOf, Surviving;
    SumSeqAgree(records, f, keys, g);
    SumSeqAsSet(keys, g);
    assert (set k | k in keys) == Surviving(allocs, j);
  }

  /** Always: the records carry the cost of every allocation key that was not moved, and no other. */
  lemma RecordsCarryUnmovedCost(records: seq<Record>, keys: seq<string>, allocs: map<string, Allocation>, j: Joined)
    requires AreRecords(records, keys, allocs, j)
    ensures SumSeq(records, RecordCost) == SumOver(allocs.Keys - j.remapped, CostOf(allocs))
  {
    hide ParseKey;
    RecordSum(records, keys, allocs, j, RecordCost, CostOf(allocs));
    SumWiden(allocs.Keys - j.remapped, Surviving(allocs, j), CostOf(allocs));
  }

  /** A key that was moved is a metric key, moved by an index: one that prefers short keys, but for configurations. */
  lemma JoinIndexes(j: Joined, m: Metrics, allocKeys: set<string>, k: string) returns (index: map<string, string>)
    requires IsJoin(j, m, allocKeys) && k in j.remapped
    ensures Indexes(index, allocKeys) && Target(index, k) != k
    ensures k in m.prefixCaching || (k in TokenKeys(m) && IsIndex(index, allocKeys))
  {
    hide IsReconciled, IsReconfigured, Target, Indexes, IsIndex;
    var p, g, i, o, c, f :|
      && IsReconciled(j.metrics.prompt, p, m.prompt, allocKeys)
      && IsReconciled(j.metrics.generation, g, m.generation, allocKeys)
      && IsReconciled(j.metrics.inputTime, i, m.inputTime, allocKeys)
      && IsReconciled(j.metrics.outputTime, o, m.outputTime, allocKeys)
      && IsReconciled(j.metrics.cached, c, m.cached, allocKeys)
      && IsReconfigured(j.metrics.prefixCaching, f, m.prefixCaching, allocKeys)
      && j.remapped == p + g + i + o + c + f;
    if k in p { index := MovedBy(j.metrics.prompt, p, m.prompt, allocKeys, k); }
    else if k in g { index := MovedBy(j.metrics.generation, g, m.generation, allocKeys, k); }
    else if k in i { index := MovedBy(j.metrics.inputTime, i, m.inputTime, allocKeys, k); }
    else if k in o { index := MovedBy(j.metrics.outputTime, o, m.outputTime, allocKeys, k); }
    else if k in c { index := MovedBy(j.metrics.cached, c, m.cached, allocKeys, k); }
    else { index := ReconfiguredBy(j.metrics.prefixCaching, f, m.prefixCaching, allocKeys, k); }
  }

  lemma ReconfiguredBy(out: map<string, bool>, remapped: set<string>, configs: map<string, bool>, allocKeys: set<string>,
                       k: string) returns (index: map<string, string>)
    requires IsReconfigured(out, remapped, configs, allocKeys) && k in remapped
    ensures Indexes(index, allocKeys) && Target(index, k) != k && k in configs
  {
    hide Target, Indexes;
    index :| Indexes(index, allocKeys) && remapped == Moved(configs.Keys, index);
  }

  lemma MovedBy(out: Tokens, remapped: set<string>, tokens: Tokens, allocKeys: set<string>, k: string)
    returns (index: map<string, string>)
    requires IsReconciled(out, remapped, tokens, allocKeys) && k in remapped
    ensures IsIndex(index, allocKeys) && Indexes(index, allocKeys) && Target(index, k) != k && k in tokens
  {
    hide Reconciled, Orders, Target, Indexes;
    var order;
    index, order :| IsIndex(index, allocKeys) && Orders(order, tokens.Keys) && out == Reconciled(order, tokens, index)
      && remapped == Moved(tokens.Keys, index);
  }

  /** With unambiguous allocation keys nothing the records are about was moved. */
  lemma TargetsSurvive(j: Joined, m: Metrics, allocKeys: set<string>, index: map<string, string>, k: string)
    requires IsJoin(j, m, allocKeys) && Unambiguous(allocKeys) && Indexes(index, allocKeys)
    ensures Target(index, k) !in j.remapped
    ensures k in allocKeys ==> k !in j.remapped
  {
    hide Target, Indexes, IsJoin, Unambiguous;
    TargetIsFixed(index, allocKeys, k);
    if Target(index, k) in j.remapped {
      var other := JoinIndexes(j, m, allocKeys, Target(index, k));
      UnambiguousTargets(index, other, allocKeys, Target(index, k));
    }
    if k in allocKeys && k in j.remapped {
      var other := JoinIndexes(j, m, allocKeys, k);
      UnambiguousTargets(other, other, allocKeys, k);
    }
  }

  /** The join conserves the allocation cost when no two allocation keys share a short key. */
  lemma CostConserved(records: seq<Record>, keys: seq<string>, allocs: map<string, Allocation>, m: Metrics, j: Joined)
    requires AreRecords(records, keys, allocs, j) && IsJoin(j, m, allocs.Keys) && Unambiguous(allocs.Keys)
    ensures SumSeq(records, RecordCost) == SumOver(allocs.Keys, CostOf(allocs))
    ensures allocs.Keys <= Surviving(allocs, j)
  {
    hide AreRecords, IsJoin, Unambiguous, Indexes, Target;
    RecordsCarryUnmovedCost(records, keys, allocs, j);
    var index := IndexExists(allocs.Keys);
    forall a | a in allocs ensures a !in j.remapped { TargetsSurvive(j, m, allocs.Keys, index, a); }
    assert allocs.Keys - j.remapped == allocs.Keys;
  }

  lemma {:induction false} IndexExists(allocKeys: set<string>) returns (index: map<string, string>)
    ensures IsIndex(index, allocKeys) && Indexes(index, allocKeys)
    decreases allocKeys
  {
    hide ShortKey, ParseKey, CanonicalModelName;
    if allocKeys == {} {
      index := map[];
    } else {
      var a :| a in allocKeys;
      index := IndexExists(allocKeys - {a});
      if ShortKey(a) !in index || IsShort(a) {
        index := index[ShortKey(a) := a];
      }
    }
  }

  lemma {:induction false} ReconciledKeys(order: seq<string>, tokens: Tokens, index: map<string, string>)
    ensures Reconciled(order, tokens, index).Keys == set k | k in order :: Target(index, k)
  {
    hide Target;
    if order != [] {
      var n := |order| - 1;
      ReconciledKeys(order[..n], tokens, index);
      assert forall k :: k in order <==> k in order[..n] || k == order[n];
    }
  }

  lemma MapReconciled(j: Joined, m: Metrics, allocKeys: set<string>, f: TokenField)
    returns (index: map<string, string>, order: seq<string>)
    requires IsJoin(j, m, allocKeys)
    ensures IsIndex(index, allocKeys) && Orders(order, MapOf(m, f).Keys)
            && MapOf(j.metrics, f) == Reconciled(order, MapOf(m, f), index)
  {
    hide Reconciled, Orders, IsIndex, IsReconfigured, IsReconciled;
    var remapped :| IsReconciled(MapOf(j.metrics, f), remapped, MapOf(m, f), allocKeys);
    index, order := PickReconciled(MapOf(j.metrics, f), remapped, MapOf(m, f), allocKeys);
  }

  lemma PickReconciled(out: Tokens, remapped: set<string>, tokens: Tokens, allocKeys: set<string>)
    returns (index: map<string, string>, order: seq<string>)
    requires IsReconciled(out, remapped, tokens, allocKeys)
    ensures IsIndex(index, allocKeys) && Orders(order, tokens.Keys) && out == Reconciled(order, tokens, index)
  {
    hide Reconciled, Orders, IsIndex, Moved;
    index, order :| IsIndex(index, allocKeys) && Orders(order, tokens.Keys) && out == Reconciled(order, tokens, index)
      && remapped == Moved(tokens.Keys, index);
  }

  /** Always, whatever the allocation keys: the records carry the tokens that reconciliation left at keys that no map
      moved, and no others. */
  lemma RecordsCarryUnmovedTokens(records: seq<Record>, keys: seq<string>, allocs: map<string, Allocation>, j: Joined,
                                  f: TokenField)
    requires AreRecords(records, keys, allocs, j)
    ensures SumSeq(records, FieldOf(f)) == SumOver(MapOf(j.metrics, f).Keys - j.remapped, AmountOf(MapOf(j.metrics, f)))
  {
    hide ParseKey, SumOver, SumSeq;
    var out := MapOf(j.metrics, f);
    RecordSum(records, keys, allocs, j, FieldOf(f), AmountOf(out));
    SumWiden(out.Keys - j.remapped, Surviving(allocs, j), AmountOf(out));
  }

  /** With unambiguous allocation keys the records carry all tokens that reconciliation left. */
  lemma RecordsCarryTokens(records: seq<Record>, keys: seq<string>, allocs: map<string, Allocation>, m: Metrics,
                           j: Joined, f: TokenField)
    requires AreRecords(records, keys, allocs, j) && IsJoin(j, m, allocs.Keys) && Unambiguous(allocs.Keys)
    ensures SumSeq(records, FieldOf(f)) == Total(MapOf(j.metrics, f))
  {
    hide IsJoin, Unambiguous, Orders, Indexes, Target, ParseKey, SumOver, SumSeq;
    var index, order := MapReconciled(j, m, allocs.Keys, f);
    var out := MapOf(j.metrics, f);
    RecordSum(records, keys, allocs, j, FieldOf(f), AmountOf(out));
    ReconciledKeys(order, MapOf(m, f), index);
    forall a | a in out ensures a in Surviving(allocs, j) {
      var k :| k in order && Target(index, k) == a;
      TargetsSurvive(j, m, allocs.Keys, index, k);
    }
    SumWiden(out.Keys, Surviving(allocs, j), AmountOf(out));
  }

  /** The metric keys of an allocation key's short key. */
  function Variants(tokens: Tokens, a: string): set<string> { set k | k in tokens && ShortKey(k) == ShortKey(a) }

  lemma {:induction false} OntoSums(order: seq<string>, tokens: Tokens, index: map<string, string>, a: string)
    requires Distinct(order)
    ensures Onto(order, tokens, index, a) == SumOver((set k | k in order && Target(index, k) == a && k != a), AmountOf(tokens))
  {
    hide Target, SumOver;
    var all := set k | k in order && Target(index, k) == a && k != a;
    if order == [] {
      SumZero(all, AmountOf(tokens));
    } else {
      var n := |order| - 1;
      var k := order[n];
      OntoSums(order[..n], tokens, index, a);
      var before := set x | x in order[..n] && Target(index, x) == a && x != a;
      assert forall x :: x in order <==> x in order[..n] || x == k;
      assert k !in order[..n];
      if Target(index, k) == a && k != a {
        SumPick(all, AmountOf(tokens), k);
        assert all - {k} == before;
      } else {
        assert all == before;
      }
    }
  }

  /** The record of an allocation key without a metric of its own gathers every metric under its short key. */
  lemma RecordGathers(records: seq<Record>, allocs: map<string, Allocation>, m: Metrics, f: TokenField, a: string)
    requires IsCombined(records, allocs, m) && Unambiguous(allocs.Keys) && a in allocs && a !in MapOf(m, f)
    ensures exists i :: 0 <= i < |records| && records[i].allocation == allocs[a] && records[i].modelName == ParseKey(a).0
              && FieldOf(f)(records[i]) == SumOver(Variants(MapOf(m, f), a), AmountOf(MapOf(m, f)))
  {
    hide IsJoin, SumOver, SumSeq, ParseKey, IsIndex, Orders, Variants, Unambiguous, Reconciled, Surviving;
    var keys, j :| IsJoin(j, m, allocs.Keys) && AreRecords(records, keys, allocs, j);
    CostConserved(records, keys, allocs, m, j);
    var i := PlaceIn(keys, Surviving(allocs, j), a);
    var index, order := MapReconciled(j, m, allocs.Keys, f);
    GatheredAt(MapOf(m, f), order, index, allocs.Keys, a);
    assert records[i] == RecordOf(a, allocs, j.metrics);
    assert FieldOf(f)(records[i]) == Amount(MapOf(j.metrics, f), a);
  }

  lemma PlaceIn(keys: seq<string>, all: set<string>, a: string) returns (i: nat)
    requires Orders(keys, all) && a in all
    ensures i < |keys| && keys[i] == a
  {
    assert a in keys;
    i :| 0 <= i < |keys| && keys[i] == a;
  }

  lemma GatheredAt(tokens: Tokens, order: seq<string>, index: map<string, string>, allocKeys: set<string>, a: string)
    requires IsIndex(index, allocKeys) && Orders(order, tokens.Keys) && Unambiguous(allocKeys) && a in allocKeys && a !in tokens
    ensures Amount(Reconciled(order, tokens, index), a) == SumOver(Variants(tokens, a), AmountOf(tokens))
  {
    hide ShortKey, SumOver, Reconciled, Amount;
    HeldAt(order, tokens, index, a);
    OntoSums(order, tokens, index, a);
    assert index[ShortKey(a)] == a;
    assert (set k | k in order && Target(index, k) == a && k != a) == Variants(tokens, a);
  }

  /** A metric under the model's full name reaches the record of the allocation under its last part. */
  lemma FullNameIsJoined(records: seq<Record>, allocs: map<string, Allocation>, m: Metrics, f: TokenField,
                         prefix: string, name: string, ns: string)
    requires '/' !in name && ':' !in prefix && ':' !in name
    requires IsCombined(records, allocs, m) && Unambiguous(allocs.Keys) && ModelNamespaceKey(name, ns) in allocs
    requires ModelNamespaceKey(prefix + "/" + name, ns) in MapOf(m, f)
    requires forall k :: k in MapOf(m, f) && ShortKey(k) == ModelNamespaceKey(name, ns) ==>
               k == ModelNamespaceKey(prefix + "/" + name, ns)
    ensures exists i ::
        0 <= i < |records| && records[i].allocation == allocs[ModelNamespaceKey(name, ns)] && records[i].modelName == name
          && FieldOf(f)(records[i]) == MapOf(m, f)[ModelNamespaceKey(prefix + "/" + name, ns)]
  {
    hide IsCombined, SumOver, Unambiguous, FieldOf, ShortKey;
    var a, full := ModelNamespaceKey(name, ns), ModelNamespaceKey(prefix + "/" + name, ns);
    assert a != full by { assert |a| < |full|; }
    ShortKeyOfLastPart(prefix, name, ns);
    assert Variants(MapOf(m, f), a) == {full};
    ParseKeyRoundTrip(name, ns);
    RecordGathers(records, allocs, m, f, a);
    SumPick({full}, AmountOf(MapOf(m, f)), full);
    assert {full} - {full} == {};
    SumZero({}, AmountOf(MapOf(m, f)));
  }

  /** What is known of the cache under the model's full name reaches that record too; without any, it is unknown. */
  lemma FullNameConfigIsJoined(records: seq<Record>, allocs: map<string, Allocation>, m: Metrics,
                               prefix: string, name: string, ns: string)
    requires '/' !in name && ':' !in prefix && ':' !in name
    requires IsCombined(records, allocs, m) && Unambiguous(allocs.Keys) && ModelNamespaceKey(name, ns) in allocs
    requires forall k :: k in m.prefixCaching && ShortKey(k) == ModelNamespaceKey(name, ns) ==>
               k == ModelNamespaceKey(prefix + "/" + name, ns)
    ensures exists i ::
        0 <= i < |records| && records[i].allocation == allocs[ModelNamespaceKey(name, ns)] && records[i].modelName == name
          && (records[i].cacheConfigKnown <==> ModelNamespaceKey(prefix + "/" + name, ns) in m.prefixCaching)
          && (records[i].cacheConfigKnown ==>
                records[i].prefixCachingEnabled == m.prefixCaching[ModelNamespaceKey(prefix + "/" + name, ns)])
  {
    hide IsJoin, Orders, ShortKey, Unambiguous, Surviving, IsReconfigured;
    var a, full := ModelNamespaceKey(name, ns), ModelNamespaceKey(prefix + "/" + name, ns);
    var keys, j :| IsJoin(j, m, allocs.Keys) && AreRecords(records, keys, allocs, j);
    CostConserved(records, keys, allocs, m, j);
    var i := PlaceIn(keys, Surviving(allocs, j), a);
    ParseKeyRoundTrip(name, ns);
    ShortKeyOfLastPart(prefix, name, ns);
    var moved := ConfigsOf(j, m, allocs.Keys);
    ConfigAt(j.metrics.prefixCaching, moved, m.prefixCaching, allocs.Keys, full, a);
    assert records[i] == RecordOf(a, allocs, j.metrics);
  }

  lemma ConfigsOf(j: Joined, m: Metrics, allocKeys: set<string>) returns (moved: set<string>)
    requires IsJoin(j, m, allocKeys)
    ensures IsReconfigured(j.metrics.prefixCaching, moved, m.prefixCaching, allocKeys)
  {
    hide IsReconciled, IsReconfigured;
    moved :| IsReconfigured(j.metrics.prefixCaching, moved, m.prefixCaching, allocKeys);
  }

  lemma ConfigAt(out: map<string, bool>, moved: set<string>, configs: map<string, bool>, allocKeys: set<string>,
                 k: string, a: string)
    requires IsReconfigured(out, moved, configs, allocKeys) && Unambiguous(allocKeys) && a in allocKeys
    requires ShortKey(k) == ShortKey(a) && forall x :: x in configs && ShortKey(x) == ShortKey(a) ==> x == k
    ensures a in out <==> k in configs
    ensures k in configs ==> out[a] == configs[k]
  {
    hide ShortKey;
    var index :| Indexes(index, allocKeys) && moved == Moved(configs.Keys, index)
                 && out.Keys == (set x | x in configs :: Target(index, x))
                 && forall b :: b in out ==> exists x :: x in configs && Target(index, x) == b && configs[x] == out[b];
    assert index[ShortKey(a)] == a;
    assert Target(index, k) == a;
    assert forall x :: x in configs && Target(index, x) == a ==> ShortKey(x) == ShortKey(a);
  }

  /** No model is dropped: whatever has a cost, a metric or a known configuration has a record, under its own name or
      one with the same last part. */
  lemma NoModelIsDropped(records: seq<Record>, allocs: map<string, Allocation>, m: Metrics, k: string)
    requires IsCombined(records, allocs, m) && Unambiguous(allocs.Keys)
    requires k in allocs || k in m.prompt || k in m.generation || k in m.inputTime || k in m.outputTime || k in m.cached
             || k in m.prefixCaching
    ensures exists i ::
        0 <= i < |records| && CanonicalModelName(records[i].modelName) == CanonicalModelName(ParseKey(k).0)
  {
    hide IsJoin, Orders, ShortKey, Unambiguous, ParseKey, CanonicalModelName;
    var keys, j :| IsJoin(j, m, allocs.Keys) && AreRecords(records, keys, allocs, j);
    var index, a := KeptUnder(j, m, allocs, k);
    TargetsSurvive(j, m, allocs.Keys, index, k);
    var i := PlaceIn(keys, Surviving(allocs, j), a);
    assert records[i] == RecordOf(a, allocs, j.metrics);
    SameShortName(a, k);
  }

  /** The key that the model is joined under. */
  lemma KeptUnder(j: Joined, m: Metrics, allocs: map<string, Allocation>, k: string)
    returns (index: map<string, string>, a: string)
    requires IsJoin(j, m, allocs.Keys) && Unambiguous(allocs.Keys) && (k in allocs || k in KeysOf(m))
    ensures Indexes(index, allocs.Keys) && a == Target(index, k) && ShortKey(a) == ShortKey(k)
    ensures a in allocs || a in KeysOf(j.metrics)
  {
    hide IsJoin, Unambiguous, ShortKey, Reconciled, Orders;
    if k in m.prefixCaching {
      var moved := ConfigsOf(j, m, allocs.Keys);
      index :| Indexes(index, allocs.Keys) && j.metrics.prefixCaching.Keys == (set x | x in m.prefixCaching :: Target(index, x));
    } else if f: TokenField :| k in MapOf(m, f) {
      var order;
      index, order := MapReconciled(j, m, allocs.Keys, f);
      ReconciledKeys(order, MapOf(m, f), index);
      OrderHas(order, MapOf(m, f).Keys, k);
      assert Target(index, k) in MapOf(j.metrics, f);
    } else {
      assert k in allocs by {
        assert k !in MapOf(m, Prompt) && k !in MapOf(m, Generation) && k !in MapOf(m, InputTime)
               && k !in MapOf(m, OutputTime) && k !in MapOf(m, Cached);
      }
      index := IndexExists(allocs.Keys);
      UnambiguousTargets(index, index, allocs.Keys, k);
    }
    a := Target(index, k);
  }

  lemma OrderHas(order: seq<string>, keys: set<string>, k: string)
    requires Orders(order, keys) && k in keys
    ensures k in order
  {
  }

  /** A record is about the model and the namespace of its key, or of its allocation if the key has none. */
  lemma RecordNamesKey(model: string, ns: string, allocs: map<string, Allocation>, m: Metrics)
    requires ':' !in model
    ensures var key := ModelNamespaceKey(model, ns); var r := RecordOf(key, allocs, m);
            && r.modelName == model
            && r.ns == (if ns == "" && key in allocs then allocs[key].ns else ns)
            && (key in allocs ==> r.allocation == allocs[key])
            && (key !in allocs ==> r.allocation.allocationTotalCost == 0.0 && r.allocation.usageTotalCost == 0.0)
  {
    ParseKeyRoundTrip(model, ns);
  }

  /** No key with tokens shares the short key of an allocation key that has a metric of its own. */
  ghost predicate NoneShadowed(tokens: Tokens, allocKeys: set<string>) {
    forall k, a :: k in tokens && a in tokens && a in allocKeys && k != a && ShortKey(k) == ShortKey(a) ==>
      tokens[k] == 0.0
  }

  lemma ShadowedIsOverwritten(tokens: Tokens, index: map<string, string>, allocKeys: set<string>)
    requires Indexes(index, allocKeys) && Unambiguous(allocKeys)
    ensures NoOverwrite(tokens, index) <==> NoneShadowed(tokens, allocKeys)
  {
    hide ShortKey;
    if NoOverwrite(tokens, index) {
      forall k, a | k in tokens && a in tokens && a in allocKeys && k != a && ShortKey(k) == ShortKey(a)
        ensures tokens[k] == 0.0
      {
        assert index[ShortKey(a)] == a;
      }
    }
  }

  /** The join conserves each token total too, unless a key with tokens is moved onto another key of the same map. */
  lemma TokensConserved(records: seq<Record>, allocs: map<string, Allocation>, m: Metrics, f: TokenField)
    requires IsCombined(records, allocs, m) && Unambiguous(allocs.Keys) && NoneShadowed(MapOf(m, f), allocs.Keys)
    ensures SumSeq(records, FieldOf(f)) == Total(MapOf(m, f))
  {
    hide IsJoin, AreRecords, Unambiguous, Orders, NoOverwrite, NoneShadowed, SumSeq, Indexes, Reconciled, Total;
    var keys, j :| IsJoin(j, m, allocs.Keys) && AreRecords(records, keys, allocs, j);
    RecordsCarryTokens(records, keys, allocs, m, j, f);
    var index, order := MapReconciled(j, m, allocs.Keys, f);
    ShadowedIsOverwritten(MapOf(m, f), index, allocs.Keys);
    Conserved(order, MapOf(m, f), index);
  }

  function TokenKeys(m: Metrics): set<string> {
    m.prompt.Keys + m.generation.Keys + m.inputTime.Keys + m.outputTime.Keys + m.cached.Keys
  }

  /** Any orders in which the metric maps may be read make a join. */
  lemma JoinExists(m: Metrics, allocKeys: set<string>, index: map<string, string>, configIndex: map<string, string>,
                   orders: TokenField -> seq<string>) returns (j: Joined)
    requires IsIndex(index, allocKeys) && Indexes(configIndex, allocKeys)
    requires Orders(orders(Prompt), m.prompt.Keys) && Orders(orders(Generation), m.generation.Keys)
             && Orders(orders(InputTime), m.inputTime.Keys)
    requires Orders(orders(OutputTime), m.outputTime.Keys) && Orders(orders(Cached), m.cached.Keys)
    ensures IsJoin(j, m, allocKeys) && forall g :: MapOf(j.metrics, g) == Reconciled(orders(g), MapOf(m, g), index)
    ensures j.remapped == Moved(TokenKeys(m), index) + Moved(m.prefixCaching.Keys, configIndex)
  {
    hide Reconciled, IsIndex, Indexes, Orders, Moved, IsReconciled, IsReconfigured, IsJoin;
    var configs := ConfigsExist(m.prefixCaching, allocKeys, configIndex);
    ReconciledBy(m.prompt, allocKeys, index, orders(Prompt));
    ReconciledBy(m.generation, allocKeys, index, orders(Generation));
    ReconciledBy(m.inputTime, allocKeys, index, orders(InputTime));
    ReconciledBy(m.outputTime, allocKeys, index, orders(OutputTime));
    ReconciledBy(m.cached, allocKeys, index, orders(Cached));
    var p, g := Moved(m.prompt.Keys, index), Moved(m.generation.Keys, index);
    var i, o := Moved(m.inputTime.Keys, index), Moved(m.outputTime.Keys, index);
    var c, f := Moved(m.cached.Keys, index), Moved(m.prefixCaching.Keys, configIndex);
    var metrics := Metrics(
      Reconciled(orders(Prompt), m.prompt, index), Reconciled(orders(Generation), m.generation, index),
      Reconciled(orders(InputTime), m.inputTime, index), Reconciled(orders(OutputTime), m.outputTime, index),
      Reconciled(orders(Cached), m.cached, index), configs);
    j := Joined(metrics, p + g + i + o + c + f);
    MakesJoin(j, m, allocKeys, p, g, i, o, c, f);
    MovedTokens(m, index);
  }

  lemma MovedTokens(m: Metrics, index: map<string, string>)
    ensures Moved(TokenKeys(m), index)
            == Moved(m.prompt.Keys, index) + Moved(m.generation.Keys, index) + Moved(m.inputTime.Keys, index)
               + Moved(m.outputTime.Keys, index) + Moved(m.cached.Keys, index)
  {
    hide Target;
  }

  lemma MakesJoin(j: Joined, m: Metrics, allocKeys: set<string>, p: set<string>, g: set<string>, i: set<string>,
                  o: set<string>, c: set<string>, f: set<string>)
    requires IsReconciled(j.metrics.prompt, p, m.prompt, allocKeys)
             && IsReconciled(j.metrics.generation, g, m.generation, allocKeys)
    requires IsReconciled(j.metrics.inputTime, i, m.inputTime, allocKeys)
             && IsReconciled(j.metrics.outputTime, o, m.outputTime, allocKeys)
    requires IsReconciled(j.metrics.cached, c, m.cached, allocKeys)
             && IsReconfigured(j.metrics.prefixCaching, f, m.prefixCaching, allocKeys)
    requires j.remapped == p + g + i + o + c + f
    ensures IsJoin(j, m, allocKeys)
  {
    hide IsReconciled, IsReconfigured;
  }

  lemma ReconciledBy(tokens: Tokens, allocKeys: set<string>, index: map<string, string>, order: seq<string>)
    requires IsIndex(index, allocKeys) && Orders(order, tokens.Keys)
    ensures IsReconciled(Reconciled(order, tokens, index), Moved(tokens.Keys, index), tokens, allocKeys)
  {
    hide Reconciled, IsIndex, Orders, Moved;
  }

  lemma ConfigsExist(configs: map<string, bool>, allocKeys: set<string>, index: map<string, string>)
    returns (out: map<string, bool>)
    requires Indexes(index, allocKeys)
    ensures IsReconfigured(out, Moved(configs.Keys, index), configs, allocKeys)
  {
    hide Target, ShortKey, Moved;
    var targets := set k | k in configs :: Target(index, k);
    out := map a | a in targets :: var k :| k in configs && Target(index, k) == a; configs[k];
    forall a | a in out ensures exists k :: k in configs && Target(index, k) == a && configs[k] == out[a] {
      var k :| k in configs && Target(index, k) == a && out[a] == configs[k];
    }
    assert out.Keys == targets;
  }

  lemma RecordsExist(allocs: map<string, Allocation>, j: Joined) returns (records: seq<Record>, keys: seq<string>)
    ensures AreRecords(records, keys, allocs, j)
  {
    keys := OrderExists(Surviving(allocs, j));
    records := seq(|keys|, i requires 0 <= i < |keys| => RecordOf(keys[i], allocs, j.metrics));
  }

  /** With unambiguous allocation keys, a token total reaches the records whole in every order of reading the maps if and
      only if no key with tokens shares the short key of an allocation key that has a metric of its own. */
  lemma TokensReachRecordsIff(allocs: map<string, Allocation>, m: Metrics, f: TokenField)
    requires Unambiguous(allocs.Keys)
    ensures (forall records :: IsCombined(records, allocs, m) ==> SumSeq(records, FieldOf(f)) == Total(MapOf(m, f)))
       <==> NoneShadowed(MapOf(m, f), allocs.Keys)
  {
    hide Unambiguous, NoneShadowed, IsCombined, SumSeq, Total;
    if NoneShadowed(MapOf(m, f), allocs.Keys) {
      forall records | IsCombined(records, allocs, m) ensures SumSeq(records, FieldOf(f)) == Total(MapOf(m, f)) {
        TokensConserved(records, allocs, m, f);
      }
    } else {
      var records := ShadowedLoses(allocs, m, f);
    }
  }

  lemma ShadowedLoses(allocs: map<string, Allocation>, m: Metrics, f: TokenField) returns (records: seq<Record>)
    requires Unambiguous(allocs.Keys) && !NoneShadowed(MapOf(m, f), allocs.Keys)
    ensures IsCombined(records, allocs, m) && SumSeq(records, FieldOf(f)) != Total(MapOf(m, f))
  {
    hide Unambiguous, NoneShadowed, SumSeq, Total, IsJoin, AreRecords, Reconciled, Lost, Orders, IsIndex, Indexes;
    hide Target, MapOf, FieldOf;
    var tokens := MapOf(m, f);
    var index := IndexExists(allocs.Keys);
    ShadowedIsOverwritten(tokens, index, allocs.Keys);
    var k :| k in tokens && Target(index, k) != k && Target(index, k) in tokens && tokens[k] != 0.0;
    TargetIsFixed(index, allocs.Keys, k);
    var losing := OverwritingOrder(tokens, index, k, Target(index, k));
    var j := JoinWith(m, allocs.Keys, index, f, losing);
    var keys;
    records, keys := RecordsExist(allocs, j);
    RecordsCarryTokens(records, keys, allocs, m, j, f);
    ReconciledAccount(losing, tokens, index);
    ListedTotal(losing, tokens);
  }

  /** A join that reads one map in the given order. */
  lemma JoinWith(m: Metrics, allocKeys: set<string>, index: map<string, string>, f: TokenField, order: seq<string>)
    returns (j: Joined)
    requires IsIndex(index, allocKeys) && Indexes(index, allocKeys) && Orders(order, MapOf(m, f).Keys)
    ensures IsJoin(j, m, allocKeys) && MapOf(j.metrics, f) == Reconciled(order, MapOf(m, f), index)
  {
    hide IsJoin, Orders, IsIndex, Indexes, Reconciled, Moved;
    var orders := OrdersWith(m, f, order);
    assert forall g :: Orders(orders(g), MapOf(m, g).Keys);
    assert MapOf(m, Prompt) == m.prompt && MapOf(m, Generation) == m.generation && MapOf(m, InputTime) == m.inputTime;
    assert MapOf(m, OutputTime) == m.outputTime && MapOf(m, Cached) == m.cached;
    j := JoinExists(m, allocKeys, index, index, orders);
  }

  lemma OrdersWith(m: Metrics, f: TokenField, order: seq<string>) returns (orders: TokenField -> seq<string>)
    requires Orders(order, MapOf(m, f).Keys)
    ensures orders(f) == order && forall g :: Orders(orders(g), MapOf(m, g).Keys)
  {
    hide Orders;
    var p := OrderExists(m.prompt.Keys);
    var g := OrderExists(m.generation.Keys);
    var i := OrderExists(m.inputTime.Keys);
    var o := OrderExists(m.outputTime.Keys);
    var c := OrderExists(m.cached.Keys);
    orders := (h: TokenField) =>
      if h == f then order else
        match h
        case Prompt => p
        case Generation => g
        case InputTime => i
        case OutputTime => o
        case Cached => c;
  }

  /* ---------- ambiguous allocation keys lose cost ---------- */

  lemma NothingReconciled(allocKeys: set<string>)
    ensures IsReconciled(map[], {}, map[], allocKeys) && IsReconfigured(map[], {}, map[], allocKeys)
  {
    hide ShortKey;
    var index := IndexExists(allocKeys);
    var none: Tokens := map[];
    assert Orders([], none.Keys) && Reconciled([], none, index) == none && Moved(none.Keys, index) == {};
    var nothing: map<string, bool> := map[];
    assert Moved(nothing.Keys, index) == {} && nothing.Keys == (set k | k in nothing :: Target(index, k));
  }

  lemma AmbiguousJoin(allocKeys: set<string>, a: string, b: string) returns (m: Metrics, j: Joined)
    requires a in allocKeys && b in allocKeys && a != b && ShortKey(a) == ShortKey(b)
    ensures IsJoin(j, m, allocKeys) && j.remapped * allocKeys != {}
  {
    hide ShortKey, Reconciled, IsReconfigured;
    var index := IndexExists(allocKeys);
    var prompt: Tokens := map[a := 0.0, b := 0.0];
    var moved := Moved(prompt.Keys, index);
    assert a in moved || b in moved;
    var order := [a, b];
    var out := Reconciled(order, prompt, index);
    assert IsReconciled(out, moved, prompt, allocKeys) by {
      assert Orders(order, prompt.Keys);
    }
    NothingReconciled(allocKeys);
    m := Metrics(prompt, map[], map[], map[], map[], map[]);
    j := Joined(Metrics(out, map[], map[], map[], map[], map[]), moved);
    hide IsReconciled;
    assert j.remapped == moved + {} + {} + {} + {} + {};
  }

  /** An index may lead from the short key to this allocation key: it is short, or no allocation key of them is. */
  ghost predicate Preferable(b: string, allocKeys: set<string>) {
    IsShort(b) || forall a :: a in allocKeys && ShortKey(a) == ShortKey(b) ==> !IsShort(a)
  }

  /** The metric key can be moved onto another allocation key: any of its short key for a configuration, a preferable
      one for tokens. */
  ghost predicate Movable(k: string, m: Metrics, allocKeys: set<string>) {
    exists b :: b in allocKeys && b != k && ShortKey(b) == ShortKey(k)
      && (k in m.prefixCaching || (k in TokenKeys(m) && Preferable(b, allocKeys)))
  }

  lemma MovedIsMovable(j: Joined, m: Metrics, allocKeys: set<string>, k: string)
    requires IsJoin(j, m, allocKeys) && k in j.remapped
    ensures Movable(k, m, allocKeys)
  {
    hide IsJoin, ShortKey;
    var index := JoinIndexes(j, m, allocKeys, k);
    var b := Target(index, k);
    assert b in allocKeys && b != k && ShortKey(b) == ShortKey(k);
  }

  lemma MovingJoin(m: Metrics, allocKeys: set<string>, k: string) returns (j: Joined)
    requires Movable(k, m, allocKeys)
    ensures IsJoin(j, m, allocKeys) && k in j.remapped
  {
    hide ShortKey, IsJoin, Orders, Reconciled, TokenKeys, IsShort;
    var b :| b in allocKeys && b != k && ShortKey(b) == ShortKey(k)
             && (k in m.prefixCaching || (k in TokenKeys(m) && Preferable(b, allocKeys)));
    var index := IndexExists(allocKeys);
    var moving := index[ShortKey(b) := b];
    assert Indexes(moving, allocKeys) && Target(moving, k) == b;
    var order := OrderExists(m.prompt.Keys);
    var orders := OrdersWith(m, Prompt, order);
    assert forall g :: Orders(orders(g), MapOf(m, g).Keys);
    assert MapOf(m, Prompt) == m.prompt && MapOf(m, Generation) == m.generation && MapOf(m, InputTime) == m.inputTime;
    if k in m.prefixCaching {
      j := JoinExists(m, allocKeys, index, moving, orders);
    } else {
      assert IsIndex(moving, allocKeys);
      j := JoinExists(m, allocKeys, moving, index, orders);
    }
  }

  /** For the metrics of one call: the join conserves the allocation cost in every order of reading exactly when no
      allocation key with cost is a metric key that can be moved. */
  lemma JoinKeepsCostIff(allocs: map<string, Allocation>, m: Metrics)
    requires forall a :: a in allocs ==> allocs[a].allocationTotalCost >= 0.0
    ensures (forall j :: IsJoin(j, m, allocs.Keys) ==>
               SumOver(allocs.Keys - j.remapped, CostOf(allocs)) == SumOver(allocs.Keys, CostOf(allocs)))
       <==> (forall a :: a in allocs && allocs[a].allocationTotalCost > 0.0 ==> !Movable(a, m, allocs.Keys))
  {
    hide IsJoin, SumOver, Movable;
    if forall a :: a in allocs && allocs[a].allocationTotalCost > 0.0 ==> !Movable(a, m, allocs.Keys) {
      forall j | IsJoin(j, m, allocs.Keys)
        ensures SumOver(allocs.Keys - j.remapped, CostOf(allocs)) == SumOver(allocs.Keys, CostOf(allocs))
      {
        forall a | a in allocs && a in j.remapped ensures CostOf(allocs)(a) == 0.0 {
          MovedIsMovable(j, m, allocs.Keys, a);
        }
        SumWiden(allocs.Keys - j.remapped, allocs.Keys, CostOf(allocs));
      }
    } else {
      var a :| a in allocs && allocs[a].allocationTotalCost > 0.0 && Movable(a, m, allocs.Keys);
      var j := MovingJoin(m, allocs.Keys, a);
      var lost := j.remapped * allocs.Keys;
      assert allocs.Keys == (allocs.Keys - j.remapped) + lost;
      SumUnion(allocs.Keys - j.remapped, lost, CostOf(allocs));
      SumPick(lost, CostOf(allocs), a);
      SumNotNegative(lost - {a}, CostOf(allocs));
    }
  }

  lemma {:induction false} SumNotNegative(keys: set<string>, f: string -> real)
    requires forall k :: k in keys ==> f(k) >= 0.0
    ensures SumOver(keys, f) >= 0.0
  {
    if keys != {} {
      var k :| k in keys;
      SumPick(keys, f, k);
      SumNotNegative(keys - {k}, f);
    }
  }

  /** With positive costs, the join conserves the allocation cost for all metrics exactly when no
      two allocation keys share a short name and namespace. */
  lemma CostConservedIff(allocs: map<string, Allocation>)
    requires forall a :: a in allocs ==> allocs[a].allocationTotalCost > 0.0
    ensures (forall m, j :: IsJoin(j, m, allocs.Keys) ==>
               SumOver(allocs.Keys - j.remapped, CostOf(allocs)) == SumOver(allocs.Keys, CostOf(allocs)))
       <==> Unambiguous(allocs.Keys)
  {
    hide IsJoin, SumOver, Indexes, IsIndex, Target, ShortKey;
    if Unambiguous(allocs.Keys) {
      var index := IndexExists(allocs.Keys);
      forall m, j | IsJoin(j, m, allocs.Keys)
        ensures SumOver(allocs.Keys - j.remapped, CostOf(allocs)) == SumOver(allocs.Keys, CostOf(allocs))
      {
        forall a | a in allocs ensures a !in j.remapped { TargetsSurvive(j, m, allocs.Keys, index, a); }
        assert allocs.Keys - j.remapped == allocs.Keys;
      }
    } else {
      var a, b :| a in allocs && b in allocs && ShortKey(a) == ShortKey(b) && a != b;
      var m, j := AmbiguousJoin(allocs.Keys, a, b);
      var lost := j.remapped * allocs.Keys;
      assert allocs.Keys == (allocs.Keys - j.remapped) + lost;
      SumUnion(allocs.Keys - j.remapped, lost, CostOf(allocs));
      SumPositive(lost, CostOf(allocs));
    }
  }
}
