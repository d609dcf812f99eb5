# OpenCost, verified

OpenCost measures what a Kubernetes cluster costs and splits the bill among its workloads. This project
models the parts of it where a cost is divided, moved or added up, and the parts that run as small state
machines, and proves what they keep. `dafny verify dfyconfig.toml` checks everything.

| file | models |
|---|---|
| `PvcSharing.dfy` | the sweep that shares a volume claim among the pods that mount it |
| `IngestorLifecycle.dfy` | starting and stopping cloud-cost ingestors: every interleaving of manager operations and workers |
| `IngestorOutcomes.dfy` | what each operation of the ingestion manager achieves, whatever the workers do meanwhile |
| `IngestorWindows.dfy` | the windows an ingestor builds and runs over, its store and its coverage |
| `QueryView.dfy` | the view table (two sorts, paging) and the view graph ("Other") |
| `InferenceReconcile.dfy` | joining inference metrics with allocations under differing model names |
| `InferenceCalculator.dfy` | splitting a model's cost into input and output; scaling usage cost |
| `InferenceAggregate.dfy` | grouping inference costs and accumulating them over time steps |
| `LoadBalancers.dfy` | matching services to pods and spreading load balancer costs |
| `NetworkCosts.dfy` | spreading network costs over pods and containers |
| `CsvMerge.dfy` | the CSV export: header union, row merge, new dates only |
| `Emitter.dfy` | node metrics: running averages, outliers, mark and sweep |
| `ConfigWatcher.dfy` | the configuration file watcher and its handlers |
| `RateCache.dfy` | exchange rates behind an expiring cache, with concurrent callers |
| `Janitor.dfy` | retention in the cluster snapshot store |
| `Common.dfy`, `Sums.dfy`, `Sorting.dfy` | results, pod names, windows of time, finite sums, stable sorting and reading orders, used by the others |

Conventions. `float64` is `real`; instants are integers. A Go map is read in an arbitrary order (a loop that
picks any remaining key), and results are shown not to depend on it, or the exact condition is given.
Errors of foreign calls are values of the inputs. Where a method changes a map or a list in place, the model
is a class with that field.

Where the code and what one would expect of it differ, the code is modelled and the condition under which it
does meet the expectation is proved:

- The shares of a claim sum to one exactly when no point lies after its end (`CoefficientsSumToOne`). A pod that
  never met the claim clips to a window that runs backwards and may be charged (`BackwardWindowIsCharged`): the
  sweep follows the per-instant rule exactly when every pod meets the claim, or every pod was over by the time the
  claim began (`FollowsRuleIff`).
- `Stop` on an ingestor that was started once and is down never returns, because its channels stay non-nil
  (`StopReturnsIff`). PutConfig, StopAll, StopAll is a run from the initial state that keeps the manager's lock for
  ever (`LockIsLost`).
- The names on a graph, unlike its values, depend on the map's order exactly when a tie reaches into the places that
  keep their names (`GraphIsFixedIff`, `TiedNamesSwap`).
- A token sum moved onto a key is lost when that key's own metric is read afterwards (`TokensConservedIff`,
  `TokensReachRecordsIff`).
- Grouping commutes with accumulation, over all sets under natural keys, exactly for model name and namespace
  (`GroupingCommutesIff`); over the sets that the query service makes, whose entries all have one workload type and
  no model version, exactly for these four (`ServiceCommutesIff`). The comment at
  `pkg/inferencecost/aggregate.go:120-123` says that a merged entry shows what was grouped on and nothing else. The
  model version is kept with the model name, is wiped when grouped on without it, and so is the controller kind
  without the controller (`ShownVersionAndKind`); the comment holds exactly when the version is grouped on together
  with the name and the kind only together with the controller (`AggregateShowsIff`). Of these failures only the one of
  the kind is in reach of the query service, which sets no version (`ServiceShowsIff`).
- An allocation key that is also a metric key loses its cost if the metrics can be moved off it (`JoinKeepsCostIff`).
- With every prompt token cached and none generated, the multiplier split gives out nothing (`SplitConservesIff`,
  `CachedPromptLosesCost`).
- A single record's cache savings need not be the ratio of its own fields, its cost rates always are
  (`PricedRatesAreRatios`).
- A load balancer whose service lists no allocation is charged twice (`LoadBalancersConservedIff`,
  `UnmatchedIsChargedTwice`). What an
  allocation records for a load balancer is all the load balancer cost it has gathered so far
  (`SecondRecordHoldsBoth`); it is the load balancer's own part, in every order, exactly when the allocation had no
  cost before and no other load balancer gives it a part (`RecordIsOwnPartIff`).
- A container's class cost is assigned where its network cost is added to: the two agree exactly when the charges
  that were overwritten sum to zero (`ApplyAllClasses`, `SecondResultOverwrites`), and for non-negative traffic and
  prices exactly when of the results that match a pod in a class all but the last are worth nothing (`OverwrittenIff`).
- A merged CSV file can be read by the next update exactly when the previous one had a Date column or no rows
  (`UpdatedIsDatedIff`, `RenamedDateFails`).
- A change whose read fails is not reported at any later poll that fails or shows the same time (`ChangeReportedIff`).
- The gauges of a node with a comma in a label are never taken down (`GaugesLeakIff`); a first price of zero keeps
  every non-negative price off the gauge (`NothingShownIff`).

## Model

| member | source | states |
|---|---|---|
| `PvcSharing.PointLessIsStrictWeak` | pkg/costmodel/intervals.go:29-34 | the order of points is a strict weak order, so that a sort is well defined up to ties |
| `PvcSharing.GetIntervalPoints` | pkg/costmodel/intervals.go:61-78 | in whatever order the window map is read, a sorted list with the start and the end of every window once each |
| `PvcSharing.GetPVCCostCoefficients` | pkg/costmodel/intervals.go:83-156 | an error exactly for a claim without a positive life; else the swept components, for any point list |
| `PvcSharing.ChargeStretch` | pkg/costmodel/intervals.go:106-130 | a stretch goes in equal parts to the active keys, or whole to the unmounted key |
| `PvcSharing.ChargeActive` | pkg/costmodel/intervals.go:109-118 | whatever the order of the active keys, each gets the component once and no other key changes |
| `PvcSharing.GetCoefficientFromComponents` | pkg/costmodel/intervals.go:161-175 | the sum of proportion times time, by the loop |
| `PvcSharing.SweepTelescopes` | pkg/costmodel/intervals.go:97-135 | after any points, what has been charged to all keys is the fraction of the claim's life up to the last point |
| `PvcSharing.CoefficientsSumToOne` | pkg/costmodel/intervals.go:83-156 | the coefficients of all keys, unmounted included, sum to 1 if and only if the last point is not after the claim's end |
| `PvcSharing.TieOrderIrrelevant` | pkg/costmodel/intervals.go:29-156 | any two sorted point lists of the same windows, forward or backward, give the same component map |
| `PvcSharing.SweepRefinesPerInstantRule` | pkg/costmodel/intervals.go:83-175 | for windows inside the claim, every key's coefficient is the sum over the instants of its share, 1/(pods active then) or all of an instant without pods for unmounted, over the claim's life |
| `PvcSharing.SharesOfInstant` | pkg/costmodel/intervals.go:106-130 | the per-instant rule gives out every instant exactly once |
| `PvcSharing.Clip` | pkg/costmodel/allocation_helpers.go:2299-2312 | the clipped window holds exactly the instants of both the pod's and the claim's life |
| `PvcSharing.ClipInside` | pkg/costmodel/allocation_helpers.go:2299-2312 | clipped windows lie forward inside the claim if and only if every pod meets the claim |
| `PvcSharing.RuleSumsToOne` | pkg/costmodel/intervals.go:83-156 | over the claim's life the per-instant rule gives out exactly the whole claim |
| `PvcSharing.FollowsRuleIff` | pkg/costmodel/allocation_helpers.go:2299-2345 | for any pods' lives, the swept coefficients are the per-instant rule if and only if every pod meets the claim or every pod was over by its start |
| `PvcSharing.SharePvc` | pkg/costmodel/allocation_helpers.go:2292-2360 | end to end from the pods' lives: an error exactly without a positive life, else one coefficient a key, the per-instant rule under exactly that condition; a key that is no pod is the unmounted one of the claim's own cluster |
| `PvcSharing.BackwardWindowIsCharged` | pkg/costmodel/allocation_helpers.go:2299-2312 | concrete pods of which one was over before the claim began and is charged all the same |
| `IngestorLifecycle.StepKeepsInv` | pkg/cloudcost/ingestor.go:132-187 | every step of every manager goroutine, sender and worker keeps the invariant |
| `IngestorLifecycle.RunKeepsInv` | pkg/cloudcost/ingestionmanager.go:43-146 | the invariant holds throughout every run |
| `IngestorLifecycle.OneWorkerOfEachKind` | pkg/cloudcost/ingestor.go:132-187 | at every moment an ingestor has at most one live build worker and one live run worker, of one generation |
| `IngestorLifecycle.RemovedIngestorIsSettled` | pkg/cloudcost/ingestionmanager.go:191-222 | an ingestor outside the manager's map has no live worker |
| `IngestorLifecycle.UpOrDownBetweenOperations` | pkg/cloudcost/ingestionmanager.go:43-146 | with the lock free, every ingestor of the map is fully up or fully down |
| `IngestorLifecycle.StoppedWorkersNeverWork` | pkg/cloudcost/ingestor.go:152-187 | once Stop has returned, no worker of that or an earlier generation is alive at any later moment |
| `IngestorLifecycle.StopCanReturn` | pkg/cloudcost/ingestor.go:152-187 | from wherever it is in a Stop that found its ingestor running or never started, and wherever everyone else is, some continuation lets it return |
| `IngestorLifecycle.StopIsNeverTrapped` | pkg/cloudcost/ingestor.go:152-187 | so no step of a worker, a sender or another goroutine traps it: at every moment of every run it has returned or can |
| `IngestorLifecycle.StuckForever` | pkg/cloudcost/ingestor.go:152-187 | on one that was started and is down, no continuation does |
| `IngestorLifecycle.StopReturnsIff` | pkg/cloudcost/ingestor.go:152-187 | Stop can return if and only if the ingestor is running or was never started |
| `IngestorLifecycle.SecondStopAllHoldsTheLock` | pkg/cloudcost/ingestionmanager.go:92-105 | in every run from the initial state, StopAll over an ingestor that was started and is down never gives the lock back |
| `IngestorLifecycle.LockIsLost` | pkg/cloudcost/ingestionmanager.go:43-105 | there is such a run: PutConfig and a first StopAll come to their end, and no continuation of a second StopAll frees the lock |
| `IngestorLifecycle.LiveCanWork` | pkg/cloudcost/ingestor.go:229-282 | a live run worker can get to work at any time, and so can a build worker at the head of its loop |
| `IngestorOutcomes.OperationAchieves` | pkg/cloudcost/ingestionmanager.go:43-146 | from the step that takes the lock to the first state with it free, in any interleaving: after SetConfigs exactly the keys whose last configuration is valid have an ingestor, each new and with both workers alive; PutConfig gives its key a new one, or none if invalid, and DeleteConfig none, and the other keys keep theirs; StartAll, RebuildAll and Rebuild leave the ingestors concerned up, with the workers they had, launched once or launched anew; StopAll leaves them down; and these four leave the table as it was |
| `IngestorOutcomes.TableOutcome` | pkg/cloudcost/ingestionmanager.go:43-75 | PutConfig, DeleteConfig and SetConfigs for one key: kept, gone, or new and up |
| `IngestorOutcomes.FleetOutcome` | pkg/cloudcost/ingestionmanager.go:77-146 | StartAll, StopAll, RebuildAll and Rebuild for one key: up or down, and how often its workers were launched |
| `IngestorOutcomes.CallStep` | pkg/cloudcost/ingestor.go:132-187 | a step inside Start or Stop touches one ingestor and no other goroutine; a Start that begins launches a new generation, and either returns with the ingestor up or down |
| `IngestorWindows.RoundBack` | core/pkg/opencost/window.go:49-59 | the last multiple of the resolution that is not after the time; weeks and time zones apart |
| `IngestorWindows.RoundForward` | core/pkg/opencost/window.go:61-71 | the first multiple that is not before it; weeks and time zones apart |
| `IngestorWindows.GetDays` | core/pkg/opencost/window.go:1032-1066 | days if and only if the range, in whole minutes, is made of days from a midnight, and then exactly its days in order; none for one that runs backwards |
| `IngestorWindows.DaysUpToAMinute` | core/pkg/opencost/window.go:1032-1045 | a range from a midnight is made of days if and only if it is a whole number of days long, up to a minute |
| `IngestorWindows.CeilStep` | pkg/cloudcost/ingestor.go:229-256 | each window takes one from the number still needed |
| `IngestorWindows.Ingestor.constructor` | pkg/cloudcost/ingestor.go:69-91 | a new ingestor covers nothing |
| `IngestorWindows.Ingestor.BuildWindow` | pkg/cloudcost/ingestor.go:115-130 | an error of the provider changes nothing; else the sets that the repository takes are stored, the coverage grows over all of them, and every sought day of the window is held |
| `IngestorWindows.HullIsLeast` | pkg/cloudcost/ingestor.go:337-348 | expanding the coverage over windows gives the least range around it and them |
| `IngestorWindows.Ingestor.LoadWindow` | pkg/cloudcost/ingestor.go:93-113 | held days are not lost, also where the repository fails to tell, and for whole-day windows every sought day is held afterwards; the provider is asked exactly if some day is not stored or cannot be told, and otherwise the store stays as it is |
| `IngestorWindows.Ingestor.VisitWindow` | pkg/cloudcost/ingestor.go:241-246 | rebuilding or loading, every sought day of the window is held afterwards; rebuilding always asks the provider, loading exactly if a day is missing |
| `IngestorWindows.Ingestor.Build` | pkg/cloudcost/ingestor.go:207-264 | with no run beside it: to its end, the windows tile backwards from rounded now to the limit in ceil(span/window) steps, only the first may reach before the limit, and every sought day between is held; ended by an exit message, exactly when it comes in time, after that many of the newest windows; rebuilding fetches every window visited, and without it a store that has all days of the span fetches none |
| `IngestorWindows.Ingestor.RunLoop` | pkg/cloudcost/ingestor.go:284-318 | by a clock that stands still during the run: the windows tile forwards from the start to now in ceil(span/window) steps, only the first may end past now rounded forward; every sought day between is held |
| `IngestorWindows.Ingestor.Run` | pkg/cloudcost/ingestor.go:283-335 | with no build beside it and by a clock that stands still: it visits every instant from one run window before the last run, or from the first of that month on a month-to-date run, and begins less than one resolution before; every wanted day since the origin that retention allows stays held, and nothing older is held, nor stored unless expiring fails |
| `IngestorWindows.Ingestor.Expire` | pkg/cloudcost/ingestor.go:319-330 | exactly the older days leave the store unless that fails; they leave the coverage in any case, and no later day does |
| `IngestorWindows.DaysStay` | pkg/cloudcost/ingestor.go:93-130 | in any interleaving of the accesses of build and run to store and coverage, a stored day stays stored and a covered one covered until a limit that lies after it |
| `IngestorWindows.BuiltDaysAreHeld` | pkg/cloudcost/ingestor.go:115-130 | so once any worker has stored a day and any has covered it, it is held for as long as no limit lies after it |
| `IngestorWindows.ExpiredIsLost` | pkg/cloudcost/ingestor.go:319-330 | what a run expires is gone, whatever a build beside it still wants |
| `IngestorWindows.TilesBackCover` | pkg/cloudcost/ingestor.go:229-256 | a backward tiling visits every instant of its span |
| `IngestorWindows.TilesForwardCover` | pkg/cloudcost/ingestor.go:284-318 | so does a forward tiling |
| `IngestorWindows.TilesForwardOnce` | pkg/cloudcost/ingestor.go:284-318 | no instant is visited twice |
| `QueryView.CollectRows` | pkg/cloudcost/repositoryquerier.go:253-268 | every entry of the map once, in the map's order |
| `QueryView.SortRowsMakesTable` | pkg/cloudcost/repositoryquerier.go:269-312 | whatever the order, name sort and then stable column sort make the table ordered by column, ties by name descending |
| `QueryView.TableIsUnique` | pkg/cloudcost/repositoryquerier.go:269-312 | there is exactly one such table |
| `QueryView.TableReads` | pkg/cloudcost/repositoryquerier.go:253-312 | the table shows every entry's own figures, and for each column and direction an earlier row stands before a later one as asked for, ties by name descending |
| `QueryView.StringLessIsLexicographic` | pkg/cloudcost/repositoryquerier.go:269-285 | names are compared at the first place where they differ, and a name comes before its continuations |
| `QueryView.QueryViewTable` | pkg/cloudcost/repositoryquerier.go:253-330 | an error exactly for an unknown column; else the requested page of that table, whose rows run up or down the requested column, ties by name descending |
| `QueryView.PagesArePrefix` | pkg/cloudcost/repositoryquerier.go:313-330 | the first n pages are the first n times limit rows |
| `QueryView.PagesMakeTable` | pkg/cloudcost/repositoryquerier.go:313-330 | pages at 0, L, 2L, ... concatenate to the whole table |
| `QueryView.CollectItems` | pkg/cloudcost/repositoryquerier.go:166-176 | every item of the cost set once |
| `QueryView.FoldTail` | pkg/cloudcost/repositoryquerier.go:183-196 | the last kept item becomes "Other" with the sum of itself and all behind it |
| `QueryView.FoldIsGraph` | pkg/cloudcost/repositoryquerier.go:177-198 | at most N items that sum to the set's total, and no folded item larger than one kept |
| `QueryView.GraphItems` | pkg/cloudcost/repositoryquerier.go:165-198 | the same for the method, from any map order |
| `QueryView.GraphValuesAreFixed` | pkg/cloudcost/repositoryquerier.go:165-198 | the graph's values are the same for every map order |
| `QueryView.UntiedNamesAreFixed` | pkg/cloudcost/repositoryquerier.go:165-198 | without ties so are its names |
| `QueryView.GraphIsFixedIff` | pkg/cloudcost/repositoryquerier.go:165-198 | for a given chart length, the whole graph is the same for every map order if and only if no two tied items have fewer larger ones than there are places that keep their names |
| `QueryView.TiedNamesSwap` | pkg/cloudcost/repositoryquerier.go:165-198 | two items of cost 1: the graph shows them in the order of the map, either way |
| `InferenceReconcile.ParseKeyRoundTrip` | pkg/inferencecost/collector.go:616-626 | a key parses back to model and namespace if and only if the model has no colon; without any colon the namespace is unknown |
| `InferenceReconcile.CanonicalHasNoSlash` | pkg/inferencecost/collector.go:389-394 | canonical names have no slash |
| `InferenceReconcile.CanonicalIsLastPart` | pkg/inferencecost/collector.go:389-394 | the canonical name is what stands behind the last slash, or all of a name without one |
| `InferenceReconcile.ShortKeyOfLastPart` | pkg/inferencecost/collector.go:389-428 | a full name and its last part have one short key, which is the latter's own |
| `InferenceReconcile.ShortKeyIdempotent` | pkg/inferencecost/collector.go:389-428 | shortening a short key changes nothing |
| `InferenceReconcile.BuildIndex` | pkg/inferencecost/collector.go:413-431 | whatever the order, an allocation key for every short key, a short one if there is any |
| `InferenceReconcile.FirstIndex` | pkg/inferencecost/collector.go:455-468 | for cache configurations, some allocation key for every short key |
| `InferenceReconcile.UnambiguousTargets` | pkg/inferencecost/collector.go:413-451 | if no two allocation keys share a short key, all indexes agree and no allocation key is moved |
| `InferenceReconcile.ReconcileTokenKeys` | pkg/inferencecost/collector.go:413-451 | the reconciled map of some index and some reading order, and exactly the keys moved |
| `InferenceReconcile.ReconcileCacheConfigKeys` | pkg/inferencecost/collector.go:455-486 | the same for cache configurations, where the last one assigned wins |
| `InferenceReconcile.ReconciledAccount` | pkg/inferencecost/collector.go:432-451 | in every order, the total afterwards is the total before less exactly what assignments overwrite |
| `InferenceReconcile.OverwritingOrder` | pkg/inferencecost/collector.go:440-449 | for a key moved onto another metric key, an order that loses exactly its amount |
| `InferenceReconcile.TokensConservedIff` | pkg/inferencecost/collector.go:413-451 | the total survives every reading order if and only if no key with tokens is moved onto another metric key |
| `InferenceReconcile.CombineMetrics` | pkg/inferencecost/collector.go:489-614 | one record for every surviving key, with the reconciled metrics and the allocation of that key; with unambiguous allocation keys their costs add up to the allocations' |
| `InferenceReconcile.RecordsCarryUnmovedCost` | pkg/inferencecost/collector.go:489-614 | always: the records carry the cost of exactly the allocation keys that were not moved |
| `InferenceReconcile.CostConserved` | pkg/inferencecost/collector.go:489-614 | with unambiguous allocation keys all of them survive and the total allocation cost is conserved |
| `InferenceReconcile.CostConservedIff` | pkg/inferencecost/collector.go:489-614 | with positive costs, it is conserved for all metrics together if and only if allocation keys are unambiguous |
| `InferenceReconcile.JoinKeepsCostIff` | pkg/inferencecost/collector.go:413-614 | for the metrics of one call and non-negative costs, it is conserved in every order of reading if and only if no allocation key with cost is a metric key that can be moved: onto any key of its short key by a configuration, onto a preferable one by tokens |
| `InferenceReconcile.TokensConserved` | pkg/inferencecost/collector.go:489-614 | with unambiguous allocation keys each token total reaches the records whole, unless a key with tokens shares the short key of an allocation key with a metric of its own |
| `InferenceReconcile.TokensReachRecordsIff` | pkg/inferencecost/collector.go:413-614 | it does so for everything that combining can yield if and only if there is no such key |
| `InferenceReconcile.RecordGathers` | pkg/inferencecost/collector.go:413-614 | with unambiguous allocation keys, the record of one without a metric of its own carries the sum of that metric over all keys with its short key |
| `InferenceReconcile.FullNameIsJoined` | pkg/inferencecost/collector.go:413-614 | so a metric under org/model reaches the record of the allocation under model, whole |
| `InferenceReconcile.FullNameConfigIsJoined` | pkg/inferencecost/collector.go:455-614 | and so does a cache configuration; without one it is not known |
| `InferenceReconcile.RecordNamesKey` | pkg/inferencecost/collector.go:560-603 | a record has the model and namespace of its key, the allocation's namespace if the key has none, and that key's allocation or no cost |
| `InferenceReconcile.NoModelIsDropped` | pkg/inferencecost/collector.go:526-614 | with unambiguous allocation keys, whatever has a cost, any metric or a known configuration has a record under its name or one with the same last part |
| `InferenceReconcile.RecordsCarryTokens` | pkg/inferencecost/collector.go:489-614 | with unambiguous allocation keys the records carry all tokens that reconciliation left |
| `InferenceReconcile.RecordsCarryUnmovedTokens` | pkg/inferencecost/collector.go:489-614 | always, with ambiguous allocation keys too: the records carry the reconciled tokens of exactly the keys that no map moved |
| `InferenceCalculator.InferenceCost.ComputeTimeSplit` | pkg/inferencecost/calculator.go:78-124 | both bases are split in the ratio of the processing times, and the rates follow; by tokens if the times cancel |
| `InferenceCalculator.InferenceCost.MultiplierSplit` | pkg/inferencecost/calculator.go:127-164 | both bases are split in the ratio of weighted tokens; with no weight nothing is set |
| `InferenceCalculator.InferenceCost.CalculateModelCosts` | pkg/inferencecost/calculator.go:22-75 | however often it is called on a record, the response of each basis is the priced one |
| `InferenceCalculator.RecordsAreCollected` | pkg/inferencecost/collector.go:605-609 | records made from non-negative metrics have the token counts the split relies on |
| `InferenceCalculator.SplitConservesIff` | pkg/inferencecost/calculator.go:22-164 | input plus output cost is the basis total if and only if the total is zero, or there are tokens and complete timings, a generated token, or a prompt token that was not cached |
| `InferenceCalculator.CachedPromptLosesCost` | pkg/inferencecost/calculator.go:127-142 | a cached prompt without an answer: a cost of 1 is in neither part |
| `InferenceCalculator.PartsWithinWhole` | pkg/inferencecost/calculator.go:78-164 | for a non-negative total each part lies between zero and the total |
| `InferenceCalculator.SplitProportion` | pkg/inferencecost/calculator.go:78-164 | by time, input and output cost stand in the ratio of the processing times; by tokens, a generated token costs the multiplier times an input token that was not cached, 2.5 times if none is set |
| `InferenceCalculator.PricedAs` | pkg/inferencecost/calculator.go:22-75 | the total of each basis, and which method a response names and when it names none |
| `InferenceCalculator.PricedRatesAreRatios` | pkg/inferencecost/apitypes.go:93-133 | every cost rate of a response times its tokens is its cost times a million, and zero without tokens, always; cache savings times prompt tokens are the cached ones, at most the whole, if and only if nothing was cached or the split applies and caching is not off |
| `InferenceCalculator.RangeRatesAreRatios` | pkg/inferencecost/aggregate.go:77-216 | so every cost rate of a grouped and accumulated range is the ratio of the sums |
| `InferenceCalculator.ServiceCommutesIff` | pkg/inferencecost/queryservice.go:142-175 | over sets of calculated records, grouping commutes with accumulating if and only if only model name, model version, namespace and workload type are used |
| `InferenceCalculator.ServiceShowsIff` | pkg/inferencecost/queryservice.go:142-175 | over such sets, a merged entry shows exactly what was grouped on if and only if the controller kind is grouped on only together with the controller |
| `InferenceCalculator.UsageCost` | pkg/inferencecost/collector.go:292-352 | CPU and RAM are scaled by usage over request where the usage is below it, GPU by the nearest fraction to its usage; for non-negative costs the result is at most the unscaled total and at least what is not scaled |
| `InferenceAggregate.AggKey` | pkg/inferencecost/aggregate.go:27-71 | an error exactly for an unsupported dimension, else the joined key |
| `InferenceAggregate.NaturalKeySplits` | pkg/inferencecost/aggregate.go:27-37 | natural keys of namespaces without a colon determine model and namespace |
| `InferenceAggregate.KeyNamesValues` | pkg/inferencecost/aggregate.go:27-71 | a key names the dimensions' values in order between slashes, with a stand-in for values that are not set |
| `InferenceAggregate.OneMoreMember` | pkg/inferencecost/aggregate.go:77-114 | adding a response to a group gives the group with it: summed amounts, rates as ratios, the method all agree on |
| `InferenceAggregate.MergedRatesAreRatios` | pkg/inferencecost/aggregate.go:77-114 | whatever the two had, each cost rate of a merged response times its tokens is its cost times a million, and its savings times the prompt are the cached tokens, at most the whole |
| `InferenceAggregate.AggregateAll` | pkg/inferencecost/aggregate.go:124-178 | in any map order, the grouping of the set by its keys, or an error for an unsupported dimension |
| `InferenceAggregate.InferenceCostSet.Aggregate` | pkg/inferencecost/aggregate.go:124-178 | the set holds its grouping; on an error or without dimensions it is unchanged |
| `InferenceAggregate.ClearedShowsIff` | pkg/inferencecost/aggregate.go:116-168 | clearing leaves exactly the grouped properties of every entry if and only if the version is grouped on together with the name and the kind only with the controller |
| `InferenceAggregate.ShownVersionAndKind` | pkg/inferencecost/aggregate.go:144-160 | for properties with a version and a kind: by name alone the version is still shown, by version alone it is wiped, and so is the kind alone |
| `InferenceAggregate.AggregateShowsIff` | pkg/inferencecost/aggregate.go:116-172 | every grouping of every set shows exactly what was grouped on, of one of its members, if and only if the dimensions are so |
| `InferenceAggregate.Accumulate` | pkg/inferencecost/aggregate.go:184-216 | a new set that groups all entries of all sets by key, with a window that spans theirs |
| `InferenceAggregate.CombinedWindow` | pkg/inferencecost/aggregate.go:184-200 | the smallest window around all given ones |
| `InferenceAggregate.Compose` | pkg/inferencecost/aggregate.go:77-216 | a grouping of a grouping is the grouping at once, for amounts, rates and methods |
| `InferenceAggregate.TotalsUnique` | pkg/inferencecost/aggregate.go:77-216 | such totals are determined by the entries |
| `InferenceAggregate.GroupingConserves` | pkg/inferencecost/aggregate.go:124-178 | every additive field is conserved by a grouping |
| `InferenceAggregate.GroupingKeepsRates` | pkg/inferencecost/aggregate.go:77-114 | a rate that is a ratio in every entry is one in every group |
| `InferenceAggregate.TotalKeepsRates` | pkg/inferencecost/aggregate.go:77-216 | and in every group of an accumulated range |
| `InferenceAggregate.TotalConserves` | pkg/inferencecost/aggregate.go:124-216 | every additive field of a range adds up to what went in |
| `InferenceAggregate.GroupingCommutes` | pkg/inferencecost/aggregate.go:124-216 | grouping by model name and/or namespace per step and then accumulating gives the same groups, amounts, rates and methods as accumulating first |
| `InferenceAggregate.SameGroupsCommute` | pkg/inferencecost/aggregate.go:124-216 | for any dimensions, it is enough that entries of one key go to one group |
| `InferenceAggregate.UndeterminedBreaks` | pkg/inferencecost/aggregate.go:124-216 | for any other supported dimension, two steps of one entry each, that differ only there, on which the two ways differ; whatever their other properties |
| `InferenceAggregate.GroupingCommutesIff` | pkg/inferencecost/aggregate.go:124-216 | the two ways agree on all sets under natural keys if and only if only those two dimensions are used |
| `LoadBalancers.MatchServices` | pkg/costmodel/allocation_helpers.go:1581-1605 | every pod lists exactly the services whose selectors match it, once each |
| `LoadBalancers.ApplyServices` | pkg/costmodel/allocation_helpers.go:1581-1622 | every service lists exactly the containers of the pods in its cluster and namespace that have all the labels of its selector, none twice, and no service lists nothing |
| `LoadBalancers.ListedIff` | pkg/costmodel/allocation_helpers.go:1606-1622 | a service is a key if and only if some allocation is behind it |
| `LoadBalancers.MeasureOverlap` | pkg/costmodel/allocation_helpers.go:1692-1709 | the hours of exactly the overlapping allocations, and their sum |
| `LoadBalancers.HoursAreShared` | pkg/costmodel/allocation_helpers.go:1692-1709 | the hours are the number of instants in both the load balancer's and the allocation's life |
| `LoadBalancers.PartsBySharedInstants` | pkg/costmodel/allocation_helpers.go:1692-1714 | who shares no instant gets no part, and two parts stand in the ratio of the instants shared |
| `LoadBalancers.PartGoesTo` | pkg/costmodel/allocation_helpers.go:1679-1752 | a part goes to a listed allocation that shares an instant or, if none does, to the unmounted one of the service's own cluster |
| `LoadBalancers.PartsAddUp` | pkg/costmodel/allocation_helpers.go:1679-1752 | one load balancer's parts sum to its cost, or to twice its cost when its service is absent |
| `LoadBalancers.LedgerAddsUp` | pkg/costmodel/allocation_helpers.go:1693-1750 | so does the change in the total over all allocations |
| `LoadBalancers.Ledger.Distribute` | pkg/costmodel/allocation_helpers.go:1711-1714 | in any order, each overlapping allocation gets its proportion and no other changes |
| `LoadBalancers.Ledger.Record` | pkg/costmodel/allocation_helpers.go:1716-1742 | each listed allocation adds to its record of the service its hours and all the load balancer cost it has by then; no other record changes |
| `LoadBalancers.Ledger.ApplyLoadBalancer` | pkg/costmodel/allocation_helpers.go:1679-1752 | every allocation's cost grows by its part, the total by the cost once, or twice for an absent service; exactly the listed allocations' records of this service grow, by hours and by cost so far plus own part |
| `LoadBalancers.Ledger.ApplyLoadBalancers` | pkg/costmodel/allocation_helpers.go:1679-1752 | for some order of the map: every allocation's cost grows by its parts, every record by the cost gathered before its load balancer plus its own part, and the total by what the load balancers charge |
| `LoadBalancers.Ledger.SpreadLoadBalancers` | pkg/costmodel/allocation_helpers.go:1581-1752 | matching and charging together: every cost and record, and the total as a function of labels and pods alone |
| `LoadBalancers.RecordGrows` | pkg/costmodel/allocation_helpers.go:1716-1742 | a pass adds to a listed allocation's record the cost gathered by then and the instants shared |
| `LoadBalancers.RecordIsOwnPartIff` | pkg/costmodel/allocation_helpers.go:1716-1742 | a listed allocation's record of a load balancer grows by exactly its own part in every order if and only if the allocation had no cost before and no other load balancer gives it a part |
| `LoadBalancers.SecondRecordHoldsBoth` | pkg/costmodel/allocation_helpers.go:1716-1742 | one allocation behind two services with load balancers of cost 1 each: the second record is 2 |
| `LoadBalancers.LoadBalancersConservedIff` | pkg/costmodel/allocation_helpers.go:1679-1752 | what is charged is what the load balancers cost if and only if those without any allocation cost nothing together |
| `LoadBalancers.UnmatchedIsChargedTwice` | pkg/costmodel/allocation_helpers.go:1686-1750 | a load balancer of cost 1 whose service no pod belongs to is charged 2 |
| `NetworkCosts.PricesByCluster` | pkg/costmodel/allocation_helpers.go:1026-1035 | for every cluster the last price given |
| `NetworkCosts.PriceIsLast` | pkg/costmodel/allocation_helpers.go:1026-1035 | a price that no later one for its cluster follows is in force there; one without a cluster is for the default one |
| `NetworkCosts.NoPriceIsFree` | pkg/costmodel/allocation_helpers.go:1026-1035 | traffic of a cluster without a price costs nothing |
| `NetworkCosts.FindPods` | pkg/costmodel/allocation_helpers.go:1037-1059 | the pods a result matches: the plain key, else the keys with a UID that stand for it |
| `NetworkCosts.MatchedPods` | pkg/costmodel/allocation_helpers.go:1037-1059 | a result reaches the pod it names or, if there is none of that name, exactly the existing ones that stand for it; none if it lacks a namespace or a pod |
| `NetworkCosts.SharesOfPod` | pkg/costmodel/allocation_helpers.go:1061-1069 | a pod's containers together get GiB times price over the number of pods |
| `NetworkCosts.Allocations.ChargePod` | pkg/costmodel/allocation_helpers.go:1061-1069 | exactly the pod's containers are charged, each the same |
| `NetworkCosts.Allocations.ApplyUsage` | pkg/costmodel/allocation_helpers.go:1025-1071 | the total grows by the result's contribution; every container's network cost grows by its shares, of which the class cost keeps the last |
| `NetworkCosts.Allocations.ApplyNetworkAllocation` | pkg/costmodel/allocation_helpers.go:1025-1071 | the same for a whole pass, in order, for any results |
| `NetworkCosts.UsageConservedIff` | pkg/costmodel/allocation_helpers.go:1025-1071 | a matched result adds GiB times price in all if and only if that is zero or every matched pod has containers |
| `NetworkCosts.Allocations.ApplyAllClasses` | pkg/costmodel/allocation.go:462-466 | after the five passes network cost is the sum of the five class costs if and only if for every container the overwritten shares sum to zero; so when no pod gets two results of one class; and for non-negative inputs exactly when all results but the last of a pod and class are worth nothing |
| `NetworkCosts.OnePass` | pkg/costmodel/allocation_helpers.go:1061-1069 | a pass over a class without cost adds to the network cost the class cost it leaves and what it overwrote |
| `NetworkCosts.OnceOverwritesNothing` | pkg/costmodel/allocation_helpers.go:1025-1071 | where no pod gets two results of one class, nothing is overwritten |
| `NetworkCosts.OverwrittenIff` | pkg/costmodel/allocation_helpers.go:1025-1071 | for non-negative traffic and prices, nothing is overwritten if and only if in each class, of the matches of a pod with containers, all but the last are worth nothing |
| `NetworkCosts.SecondResultOverwrites` | pkg/costmodel/allocation_helpers.go:1061-1069 | two results of 1 and 2 for one pod in one class: the 1 is overwritten |
| `CsvMerge.IndexOf` | pkg/costmodel/csv_export.go:531-538 | the first position, or -1 |
| `CsvMerge.Contains` | pkg/costmodel/csv_export.go:522-529 | membership |
| `CsvMerge.UnionProperties` | pkg/costmodel/csv_export.go:493-520 | the union header has exactly the columns of the inputs, none twice, in order of first appearance |
| `CsvMerge.MergeHeaders` | pkg/costmodel/csv_export.go:510-520 | computes the union header |
| `CsvMerge.CombineHeaders` | pkg/costmodel/csv_export.go:493-508 | computes the same header, and the place of every input column in it |
| `CsvMerge.Pigeonhole` | pkg/costmodel/csv_export.go:459-481 | a header with distinct columns is no longer than the union, so that the line loop reaches all of them |
| `CsvMerge.FillKeeps` | pkg/costmodel/csv_export.go:459-481 | a filled line has the row's value under each of its column names and is blank elsewhere |
| `CsvMerge.RowsKeptIff` | pkg/costmodel/csv_export.go:459-481 | this holds for all rows of an input if and only if its header has distinct columns |
| `CsvMerge.MergeLine` | pkg/costmodel/csv_export.go:459-481 | the line loop fills as specified |
| `CsvMerge.MergeCsv` | pkg/costmodel/csv_export.go:428-491 | an error exactly if a row does not fit its header; else the union header, and every row of every file in order, each kept as above |
| `CsvMerge.LoadDates` | pkg/costmodel/csv_export.go:390-423 | an error exactly if a row does not fit the header or has no date, else exactly the dates of the rows |
| `CsvMerge.SortDates` | pkg/costmodel/csv_export.go:540-549 | the dates, each once, in order |
| `CsvMerge.NewRowsComeFrom` | pkg/costmodel/csv_export.go:337-360 | a new row comes from one of the dates written, and every row of those dates is there |
| `CsvMerge.NewRowsInOrder` | pkg/costmodel/csv_export.go:337-360 | the new rows are those computed for each date, each once, date after date |
| `CsvMerge.UpdateExport` | pkg/costmodel/csv_export.go:104-135 | previous rows first, then rows of exactly the available dates that the previous file lacks; the error and no-data cases exactly; and when the result can be read by the next update, and its dates |
| `CsvMerge.UpdatedIsDatedIff` | pkg/costmodel/csv_export.go:104-135 | for distinct columns, the merged file is again one with dates if and only if the previous one had a Date column or no rows, and then its dates are those of both |
| `CsvMerge.RenamedDateFails` | pkg/costmodel/csv_export.go:104-135 | a previous file with dates under another name: the merged file is one that the next update fails on |
| `Emitter.SplitJoinIff` | pkg/costmodel/metrics.go:436-441 | splitting a joined key gives the labels back if and only if none has a comma |
| `Emitter.JoinOfSplit` | pkg/costmodel/metrics.go:436-441 | joining a split key gives the key back |
| `Emitter.KeyIsOwn` | pkg/costmodel/metrics.go:436-441 | a comma-free tuple shares its key with no other tuple of its length, commas or not |
| `Emitter.NodeEmitter.ObserveNode` | pkg/costmodel/metrics.go:570-624 | one node's gauges, averages and mark |
| `Emitter.NodeEmitter.SweepNodes` | pkg/costmodel/metrics.go:753-799 | in any order: unmarked keys go with their averages and gauges, marks are cleared |
| `Emitter.NodeEmitter.TickOnce` | pkg/costmodel/metrics.go:525-799 | one tick over all nodes |
| `Emitter.TrackedAreObserved` | pkg/costmodel/metrics.go:572-799 | after every tick of every run, tracked keys and the keys of the averages are exactly those observed in that tick |
| `Emitter.EachNodeAlone` | pkg/costmodel/metrics.go:572-799 | the emitter refines one small machine for each comma-free tuple: all that is kept and shown of it follows from its own observations since it was last missed |
| `Emitter.GaugesLeakIff` | pkg/costmodel/metrics.go:753-799 | what any of the six gauges has shown of a node that is missed now is still shown if and only if a label has a comma |
| `Emitter.ObservedIsShown` | pkg/costmodel/metrics.go:586-624 | the GPU and spot gauges show every node that the last tick observed |
| `Emitter.GaugesAfterRun` | pkg/costmodel/metrics.go:570-624 | after every run: GPU count, GPU price and spot as last observed, and the total price of the last observation at which neither price was an outlier |
| `Emitter.OtherGauges` | pkg/costmodel/metrics.go:570-624 | the same for one node's own machine |
| `Emitter.TotalCostMeaning` | pkg/costmodel/metrics.go:563-586 | the total price is cores, GPUs and GiB of 1073741824 bytes, each times its price |
| `Emitter.LabelsNameNode` | pkg/costmodel/metrics.go:570-573 | two nodes have one tuple of labels if and only if name, type, region, provider id, architecture and uid agree |
| `Emitter.AverageMeaning` | pkg/costmodel/metrics.go:574-606 | each average is the plain mean of the first price and the accepted ones, each of which was below thirty times the mean before it; the gauge shows the last accepted |
| `Emitter.AveragesAfterRun` | pkg/costmodel/metrics.go:572-624 | after every run: average times count is first price plus all accepted prices since the node was last missed |
| `Emitter.NothingAcceptedIff` | pkg/costmodel/metrics.go:590-606 | no price is accepted if and only if none is below thirty times the first |
| `Emitter.FirstCountsTwiceIff` | pkg/costmodel/metrics.go:577-599 | the first price enters its average a second time if and only if it is positive |
| `Emitter.NothingShownIff` | pkg/costmodel/metrics.go:590-606 | after every run the CPU gauge, and the RAM gauge, show nothing of an observed node if and only if no such price since it was last missed is below thirty times the first |
| `Emitter.ZeroStartNeverShows` | pkg/costmodel/metrics.go:590-606 | non-negative prices that start at zero, CPU or RAM, never reach their gauge while the node stays |
| `ConfigWatcher.RunWatcher` | pkg/config/configfile.go:249-318 | the loop sends the events of its rounds, over any stats and reads |
| `ConfigWatcher.EventsAreCoherent` | pkg/config/configfile.go:249-318 | created only when held absent, modified and deleted only when held present, starting from the first observed existence; the loop's own belief agrees |
| `ConfigWatcher.CreationsAndDeletionsAlternate` | pkg/config/configfile.go:249-318 | between two creations lies a deletion, and after a deletion comes a creation |
| `ConfigWatcher.ChangeReportedIff` | pkg/config/configfile.go:303-318 | over any polls, when a held file shows a new time, an event is sent if and only if that very read succeeds, and a failed one is not made up for at any number of later polls that fail or show the same time |
| `ConfigWatcher.EveryPollReports` | pkg/config/configfile.go:249-318 | over any polls, at every poll exactly what is due is sent: a creation when a file held absent is present and can be read, a deletion when one held present is gone, a change when its time is new and it can be read, and nothing else |
| `ConfigWatcher.AppearanceIsReported` | pkg/config/configfile.go:290-303 | a file that is absent and then present with data is reported as created with that data |
| `ConfigWatcher.HeldInMind` | pkg/config/configfile.go:249-318 | what the loop believes of existence and time is told by the polls and the events sent |
| `ConfigWatcher.ConfigFile.AddPriorityChangeHandler` | pkg/config/configfile.go:182-202 | the handler is registered last, with its priority; the first one starts the loop anew |
| `ConfigWatcher.ConfigFile.RemoveChangeHandler` | pkg/config/configfile.go:204-224 | exactly the handler with the id goes, the others keep their order, and with the last one the loop ends |
| `ConfigWatcher.ConfigFile.RemoveAllHandlers` | pkg/config/configfile.go:226-235 | none is left, and the loop ends |
| `ConfigWatcher.ConfigFile.OnFileChange` | pkg/config/configfile.go:329-351 | every handler registered at the time is called once, in call order |
| `ConfigWatcher.CallOrderSound` | pkg/config/configfile.go:329-351 | call order is by priority, ties in registration order |
| `ConfigWatcher.ConfigFile.PollOnce` | pkg/config/configfile.go:249-351 | one round of the loop, and what it tells the handlers in call order |
| `ConfigWatcher.HandlerIsTold` | pkg/config/configfile.go:182-351 | over any polls, additions and removals, a handler is told exactly the events that the loop sends while it is registered, each once and in order |
| `ConfigWatcher.OthersAreNotTold` | pkg/config/configfile.go:329-351 | who is not registered is told nothing |
| `ConfigWatcher.FirstIsTold` | pkg/config/configfile.go:182-351 | the first handler of a file is told all and only what a loop started with it sends on the polls since, which makes sense from the first observed existence |
| `RateCache.MemoryCache.Get` | pkg/currency/cache.go:31-45 | an entry exactly until its time is over |
| `RateCache.MemoryCache.Set` | pkg/currency/cache.go:47-53 | the entry with its expiry one lifetime after the fetch |
| `RateCache.MemoryCache.RemoveExpired` | pkg/currency/cache.go:68-78 | in any order, exactly the entries whose time is over go |
| `RateCache.SweepUnnoticed` | pkg/currency/cache.go:68-78 | a sweep leaves exactly the entries in time, and no later lookup notices it |
| `RateCache.StepKeepsInv` | pkg/currency/converter.go:56-105 | every step of every caller, sweep and clock keeps the invariant |
| `RateCache.RunKeepsInv` | pkg/currency/converter.go:56-105 | it holds throughout every run |
| `RateCache.MissMeansOver` | pkg/currency/converter.go:84-92 | when the second lookup misses, every earlier fetch for the base is over |
| `RateCache.OneCallerInside` | pkg/currency/converter.go:84-105 | one caller at a time between its second lookup and its store |
| `RateCache.FetchesAreApart` | pkg/currency/converter.go:84-105 | in every run, two successful fetches for one base are more than one lifetime apart |
| `RateCache.AnswersAreFresh` | pkg/currency/converter.go:56-105 | in every run, what a caller is answered is what a fetch for its base gave for its currency, or that it gave none; fetched just then or at most one lifetime before it was read |
| `RateCache.FirstLookup` | pkg/currency/converter.go:64-72 | the first lookup answers only with the rate of a fetch in time; otherwise the caller goes for the lock |
| `RateCache.FetchIsServed` | pkg/currency/converter.go:64-69 | a stored fetch that is in time and has the currency answers every caller at the first lookup, with its rate |
| `Janitor.CleanDay` | pkg/kubemodel/janitor.go:145-166 | exactly the day's expired files go, apart from those that cannot be listed or removed |
| `Janitor.PruneMonth` | pkg/kubemodel/janitor.go:120-141 | the same for the readable days of a month up to the cutoff's day |
| `Janitor.PruneYear` | pkg/kubemodel/janitor.go:113-142 | the same for a year |
| `Janitor.PruneResolution` | pkg/kubemodel/janitor.go:104-143 | the same for the store, in any order of directories and with any failures |
| `Janitor.StampOnItsDay` | pkg/kubemodel/janitor.go:171-174 | a file's time stamp falls on the date its first eight digits name |
| `Janitor.StampFields` | pkg/kubemodel/janitor.go:168-174 | a time stamp is the second of the day that its fourteen digits name |
| `Janitor.StampsInOrder` | pkg/kubemodel/janitor.go:168-174 | of two time stamps the earlier is the one with the smaller digits |
| `Janitor.NextDay` | pkg/kubemodel/janitor.go:128-134 | consecutive days of the calendar, over the ends of months and years, differ by one |
| `Janitor.YearsInDays` | pkg/kubemodel/janitor.go:128-134 | the days before a year, with the leap years of the Gregorian calendar |
| `Janitor.DatesInOrder` | pkg/kubemodel/janitor.go:128-134 | days are numbered in calendar order |
| `Janitor.LivesUntilCutoff` | pkg/kubemodel/janitor.go:145-166 | a file in its day's directory is left by the walk if and only if its time is the cutoff or later, or it has none |
| `Janitor.WalkIsFullScanIff` | pkg/kubemodel/janitor.go:104-166 | the walk leaves what a full scan would if and only if no expired file sits in a directory whose date cannot be read or is after the cutoff's day |
| `Janitor.WalkIsFullScan` | pkg/kubemodel/janitor.go:104-166 | so it does when files sit in the directory of their day |
| `Janitor.PruneAsFullScan` | pkg/kubemodel/janitor.go:104-166 | one pass over any store is a full scan if and only if every expired file is in reach and removable; with operations that succeed, if and only if none is misplaced, and so when files sit in the directory of their day |

## Left out

- HTTP handlers, request parsing, MCP transport, environment readers, cloud provider clients, plugins and the Prometheus client.
- NaN, infinities, rounding of floats, and the text that floats are printed as.
- PV dollars: the coefficient is multiplied by the pod's own hours (pkg/costmodel/allocation_helpers.go:2352), so that dollars reconcile only for equal lifetimes; the coefficients are what is proved to be conserved.
- PvcSharing.FollowsRuleIff: no pod has the reserved name of the unmounted key, which Kubernetes does not allow as a pod name.
- Repair and RepairAll: one-shot builds outside the Start and Stop lifecycle. Panics in workers and the inside of the job ticker.
- IngestorLifecycle.StepKeepsInv: Stop's compare-and-swap and its reads of the two channel fields are one step, and so are the two channel makes in Start.
- IngestorOutcomes.OperationAchieves: a nil configuration, and the flag by which Rebuild has its windows fetched again, which is `rebuild` in `IngestorWindows.Ingestor.Build`.
- IngestorWindows.RoundBack: weekly resolutions and time zone offsets.
- IngestorWindows.RoundForward: the same.
- IngestorWindows.Ingestor.Build: no run expires days beside it; what holds in every interleaving is `DaysStay` and `BuiltDaysAreHeld`.
- IngestorWindows.Ingestor.RunLoop: the clock stands still during the run, where the source reads it every round and would go on for as long as the clock gains a window a round.
- IngestorWindows.Ingestor.Run: the same; and no build stores days beside it, which may leave days older than the run's limit.
- LoadBalancers.Ledger.Record: records are named by service key, where the source joins its fields with slashes; the two agree as no name has a slash.
- QueryView.QueryViewTable: offsets are natural numbers; the source panics on a negative one.
- QueryView.GraphItems: chart lengths are at least one; the source panics on zero.
- InferenceAggregate.Accumulate: the first set's window is closed, as the query service makes it; the windows of single responses are not modelled.
- Two records of one step under one natural key, of which the query service keeps the one it meets last.
- The filter of the inference query service, and collecting allocations into the map that the join starts from, apart from the usage cost of one allocation.
- Emitter: the load balancer, container and volume parts of the loop, which run the same mark and sweep without averages.
- The start and stop flags of the emitter and the janitor, and the wait of a restarted watcher for the one before to end.
- Upper-casing and trimming of currency codes, and the answer 1 for equal ones, before the cache is asked.
- RateCache.FetchesAreApart: `clear` is not among the steps, since nothing in the converter calls it.
- Janitor.PruneResolution: the loop over resolutions and the computation of the cutoff; a fraction of a second behind a comma in a file name.
- CSV fields of one allocation (pkg/costmodel/csv_export.go:180-374): one expression each; rows of a date are an input.
