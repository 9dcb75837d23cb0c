# Sanjiv decision core: a verified model

Sanjiv is a decision-support backend for energy supply. This project models the parts of it that carry
algorithmic obligations and proves what they promise, for every input and every run.

| area | modules | what is proved |
|---|---|---|
| procurement input | `RouteSearch`, `InputBuilder`, `BuiltInputs` | complete search for simple paths, an exact partition of the flows with the first reason for every exclusion, options told from the snapshot, closed provenance |
| plan checking | `PlanModel`, `PlanRules`, `PlanLedger`, `PlanTheorems`, `PlanChecker`, `CheckerVerdicts` | the imperative verdict is a declarative one, told in tonnes, prices and limits, whose region is convex and independent of order |
| admission control | `RateLimiter` | a bounded table of deques refines the full admission log |
| event delivery | `OperationsBroker` | bounded queues lose nothing silently |
| LPG planning | `LpgNetwork`, `LpgPlanner`, `LpgPlans` | legs in the order of their profile, the exact condition for an optimal greedy plan, conservation, a bound on the shortage |
| sensitivity and telemetry | `Percentiles`, `Rounding`, `LatinHypercube`, `Telemetry` | interpolated, monotone percentiles, stratified samples, bounded samples that agree with the log |
| briefing document | `Decimal`, `PdfFile`, `BriefingPdf` | a reader that follows ISO 32000-1 recovers what was written |
| vessel watch | `VesselRepository`, `Geofences`, `MaritimeWatch` | an index under any order of arrivals, alternating events, an audited chain of modes, delivery up to the subscribers |
| audit and review | `MetricTree`, `EvidenceAudit`, `PlanLifecycle` | a verdict that is the conjunction of its obligations, a lawful append-only log under interleaving |

`Ordering`, `Sequences`, `Arithmetic` and `Wrappers` hold the stable sort, the list idioms and the result
types shared by all of them. Objects that the source updates in place are classes; their contracts relate
the new state to a log of everything that happened, and lemmas speak about that log. `dafny verify dfyconfig.toml` checks the whole project.

## Conventions

- Floating-point numbers are reals, and the tolerances of the code are written out. UUIDs are naturals:
  their fixed-width text sorts like the numbers.
- Name-based identifiers and content hashes are injective: a datatype of their parts, or the content itself.
- Clocks, random draws, shuffles, fresh identifiers, the outcome of message normalisation, the geometry
  of polygons, and the reconciliation of landed costs are parameters.
- An asynchronous operation that holds a lock, or does not wait, is one step. The two halves of a review
  request are two steps, between which anything may happen.

## Where the code is less than its documentation or names suggest

Each item names the member that states, for all inputs, when the code falls short, and the lemma that
exhibits an input where one is not plain from the condition.

- The checker reads a `defaultdict` of deliveries by refinery, which inserts the key. A demanded refinery
  that no option serves therefore ends in a ValueError instead of a verdict (`PlanChecker.IndependentCheck`,
  `CheckerVerdicts.DemandMayBeUnserved`). A built input is of that kind exactly when a refinery
  of the simulation result, even one with zero shortfall, has no eligible flow
  (`BuiltInputs.UnservedExactly`).
- A plan may violate nothing, thanks to the tolerance, and still be refused by the result types, which
  allow no negative component (`PlanChecker.IndependentCheck`, `CheckerVerdicts.FeasiblePlanMayBeRejected`).
- The greedy plan passes over routes with a capacity of at most 1e-9. It is not optimal exactly when such a
  capacity is cheaper than a usable route and the usable capacity up to its price does not fill the target
  (`LpgPlanner.GreedyOptimalIff`, `LpgPlans.GreedyMayBeUndercut`).
- Building the LPG plans of a run raises, because a plan must not be empty, exactly when the demand over the
  horizon, nine tenths of the capacity left, or every single capacity left is negligible (`LpgPlans.Plans`,
  `LpgPlans.PlansMayFail`).
- With a history that retains anything, `since` returns an incomplete backlog without saying so exactly for
  cursor zero once the history has overflowed, and for a cursor ahead of the last number, as a client may
  bring along from before a restart (`OperationsBroker.SinceLosesExactly`).
- A history request with limit one returns every segment (`VesselRepository.HistoryIsBounded`).
- Segments chain in time, but the next segment may start at another position than the last one ended. That
  happens exactly when an arrival tied with the latest timestamp, past the first one, and was then overtaken
  (`VesselRepository.SegmentsJoinUnlessTied`, `VesselRepository.TiedArrivalBreaksTheChain`).
- Text is truncated after escaping, so a cut can leave a lone backslash that swallows the closing
  parenthesis (`BriefingPdf.LiteralReadsBack`, `BriefingPdf.BriefingMayNotReadBack`).

A retry of a review request is compared with the original in everything but the role. The demand dictionary
of the checker keeps the last entry per refinery, while the objective divides by the sum of all listed
demands. All of this is modelled as it is.

## Model

| member | source | states |
|---|---|---|
| RouteSearch.RoutePath | services/api/sanjiv/procurement/inputs.py:544-575 | terminates on every route graph; the path is non-empty exactly when a node-simple walk over available routes leads from supplier to refinery, contains the required route and leaves a load port, and it is the lexicographically least such walk |
| RouteSearch.AnswerIgnoresOrder | services/api/sanjiv/procurement/inputs.py:551-575 | the selected path does not change when the snapshot lists its routes in another order |
| RouteSearch.SimpleWalkIsSimple | services/api/sanjiv/procurement/inputs.py:568-572 | a walk the search may follow visits no node twice |
| RouteSearch.Least | services/api/sanjiv/procurement/inputs.py:573-575 | the candidate returned is one of the candidates and lexicographically below all of them; no candidates give the empty path |
| RouteSearch.IndexOutgoing | services/api/sanjiv/procurement/inputs.py:551-557 | the adjacency lists hold exactly the available routes by origin, in canonical order |
| RouteSearch.Expand | services/api/sanjiv/procurement/inputs.py:568-572 | extending a queue entry follows exactly the outgoing routes to unvisited nodes and makes the termination measure of the queue fall |
| RouteSearch.LexLeAntisymmetric | services/api/sanjiv/procurement/inputs.py:573-575 | the order on paths is antisymmetric, so the selected path is unique |
| RouteSearch.LexLeIsFirstDifference | services/api/sanjiv/procurement/inputs.py:573-575 | a path comes no later than another exactly when it is a prefix of it or smaller at the first position where the two differ |
| InputBuilder.Classify | services/api/sanjiv/procurement/inputs.py:169-417 | a flow becomes an option exactly when nothing objects to it, its terms are priced, its transport evidence is consistent, a path exists, its origins are known and the option built along it is valid; otherwise it becomes an exclusion that names the flow and its refinery, with the first objection as the reason |
| InputBuilder.ObjectionIsFirst | services/api/sanjiv/procurement/inputs.py:173-262 | for a flow whose route, grade and supplier exist, the reason is the first of six checks that fails, each told from the snapshot and the commercial inputs: a refinery at the end, a compatible grade, an available route, commercial inputs, provenance, known provenance |
| InputBuilder.AbsentIsFirst | services/api/sanjiv/procurement/inputs.py:177-186 | an absent asset is reported exactly when no listed route has the identifier, the grade is unknown or the supplier is no supplier node |
| InputBuilder.RefineryIs | services/api/sanjiv/procurement/inputs.py:173-189 | the refinery of a flow is the destination of its route, and the nil identifier when the route is unknown |
| InputBuilder.ChosenExactly | services/api/sanjiv/procurement/inputs.py:279-281 | the path of a flow is the answer of the search from its supplier to that refinery, by its own route and a load port of its grade |
| InputBuilder.EligibleWhen | services/api/sanjiv/procurement/inputs.py:264-406 | conversely, a flow without objection is eligible when the search answers with a path over known origins, its terms are priced, consistent and not negative, and no capacity of the snapshot or the simulation is negative |
| InputBuilder.OptionValidExactly | services/api/sanjiv/procurement/inputs.py:293-406 | the contract type refuses the option of a chosen path exactly for repeated identifiers in its terms or a negative capacity; window, path and provenance are never the reason |
| InputBuilder.ClassifyAll | services/api/sanjiv/procurement/inputs.py:167-417 | the sorted flows are split into options and exclusions, each flow into exactly one of the two |
| InputBuilder.SplitCounts | services/api/sanjiv/procurement/inputs.py:167-417 | options and exclusions together are as many as the flows |
| InputBuilder.SplitIsUnique | services/api/sanjiv/procurement/inputs.py:167-417 | the flows determine both lists, so no other options or exclusions satisfy the contract of the builder |
| InputBuilder.SplitPromises | services/api/sanjiv/procurement/inputs.py:264-406 | every option is grounded in the snapshot (a supplier and a refinery node, an available route that ends at the refinery, a compatibility entry that is present and true, the sanction flag of its grade), carries the commercial figures of exactly its key and the receiving capacity of its refinery, closes its window at the nearest hour of arrival or with the horizon, loads at the first load port and is received at the last Indian port of its path, and keeps the promises about bottleneck and provenance |
| InputBuilder.OptionsPromise | services/api/sanjiv/procurement/inputs.py:264-406 | the option of a flow keeps the same promises, carries the name and the fingerprint the naming gives it, and has the required route on its path |
| InputBuilder.SmallestIsMinimum | services/api/sanjiv/procurement/inputs.py:343-350 | the bottleneck is a lower bound of all segment capacities and equals one of them |
| InputBuilder.SegmentIsLimited | services/api/sanjiv/procurement/inputs.py:338-350 | the capacity of a segment is the one the simulation lists last for the same supplier and grade, or else that of the route, over the days of the horizon |
| InputBuilder.LengthsAreSums | services/api/sanjiv/procurement/inputs.py:293-352 | transit time and distance are the sums over the routes of the path |
| InputBuilder.FlowsInOrder | services/api/sanjiv/procurement/inputs.py:169-172 | flows are taken by supplier, then grade, then route |
| InputBuilder.SegmentCapacities | services/api/sanjiv/procurement/inputs.py:338-350 | capacities per segment prefer the disrupted capacity of the same supplier and grade, scaled to the horizon |
| InputBuilder.WindowInside | services/api/sanjiv/procurement/inputs.py:294-301 | for any transit time the delivery window is a non-empty part of the horizon |
| InputBuilder.ChosenLeavesLoadPort | services/api/sanjiv/procurement/inputs.py:332-334 | every option has a load port, because the search only selects paths that leave one |
| InputBuilder.SortedSetHolds | services/api/sanjiv/procurement/inputs.py:390-391 | sorting and removing repetitions keeps exactly the cited identifiers |
| InputBuilder.SortedSetAscends | services/api/sanjiv/procurement/inputs.py:390-391 | what is cited is listed once and in ascending order |
| InputBuilder.Assemble | services/api/sanjiv/procurement/inputs.py:293-406 | the option assembled in loops equals the option described field by field |
| InputBuilder.CloseProvenance | services/api/sanjiv/procurement/inputs.py:422-440 | what is emitted lies in the snapshot; validation succeeds exactly when everything used is known and every used assumption is approved, and then the emitted references are exactly the used ones |
| InputBuilder.BuildInput | services/api/sanjiv/procurement/inputs.py:84-533 | blocked, raised or built is decided by exact conditions on the context and on the one split of its flows, also when it raises; a built input holds the eligible options by identifier, the demands and exactly the provenance it uses |
| BuiltInputs.BuiltOptionPromises | services/api/sanjiv/procurement/inputs.py:510-522 | sorting the options by identifier loses none of their promises |
| BuiltInputs.DemandsAreShortfalls | services/api/sanjiv/procurement/inputs.py:474-499 | every demand is a shortfall of the simulation result over the days of the horizon, and every shortfall becomes a demand |
| BuiltInputs.BuiltOptionsAscend | services/api/sanjiv/procurement/inputs.py:510-522 | the built input lists exactly the options of the split, by identifier |
| BuiltInputs.InputValidExactly | services/api/sanjiv/procurement/inputs.py:510-522 | the contract types refuse the input of a split exactly for two options of one identifier, two shortfalls of one refinery, a negative shortfall, or limits out of range |
| BuiltInputs.BuiltOptionsAreOnTime | services/api/sanjiv/procurement/inputs.py:294-301 | an option of a built input is on time for every demand of the input |
| BuiltInputs.UnservedExactly | services/api/sanjiv/procurement/checker.py:132-150 | a built input is unserved exactly when some refinery listed in the simulation result, even one with zero shortfall, has no eligible flow, which can be told from the context |
| BuiltInputs.OptionsServe | services/api/sanjiv/procurement/inputs.py:167-417 | a refinery has an option exactly when an eligible flow leads to it |
| BuiltInputs.AllShortagePassesOnBuiltInputs | services/api/sanjiv/procurement/checker.py:51-306 | on every built input the plan that delivers nothing, reported truthfully, ends in the ValueError exactly when a refinery listed in the simulation result has no eligible flow, and passes otherwise |
| PlanChecker.IndependentCheck | services/api/sanjiv/procurement/checker.py:25-351 | the imperative outcome is exactly the declarative one: each error has its condition, the violations are exactly the broken constraints, each once and with the sum and the limit that were compared, the budget is violated exactly when tonnes times price exceed the limit by more than 1e-6, every flag means what it says, the objective agrees exactly within 1e-5, and the failure codes are exactly those of the flags not set |
| PlanChecker.RejectedExactly | services/api/sanjiv/procurement/checker.py:308-350 | the result types refuse exactly a negative component, or objectives that agree only before or only after both are clipped at zero |
| PlanChecker.CodesFlag | services/api/sanjiv/procurement/checker.py:287-302 | a failure code is given exactly when its flag is not set |
| PlanLedger.AmountIsSum | services/api/sanjiv/procurement/checker.py:365-387 | every component of the objective, and the money spent, is the sum over the options of their tonnes times price, transit days, kilometres, penalty or emissions, with the scales of the code |
| PlanLedger.SpendIsLanded | services/api/sanjiv/procurement/checker.py:235-241 | the money spent is a million times the landed component, for every plan |
| PlanLedger.VolumeIsSum | services/api/sanjiv/procurement/checker.py:122-130 | what passes a refinery, supplier, corridor, segment or port is the sum of the quantities of the options that pass it |
| PlanLedger.OptionRulesExactly | services/api/sanjiv/procurement/checker.py:63-121 | the four rules of an option are broken exactly by its quantity against the four capacities, by a positive quantity under a prohibition, and by a window outside the interval of a demand of its refinery |
| PlanLedger.BalanceExactly | services/api/sanjiv/procurement/checker.py:132-148 | a mass balance is broken exactly when deliveries and shortage miss the demand by more than 1e-6 or the shortage is below -1e-6 |
| PlanLedger.CapacityExactly | services/api/sanjiv/procurement/checker.py:150-232 | a segment is overloaded exactly beyond some declared capacity, any other asset exactly beyond all of them, where a port has the largest segment capacity |
| PlanLedger.BudgetExactly | services/api/sanjiv/procurement/checker.py:235-241 | the budget is violated exactly when tonnes times price exceed it by more than 1e-6 |
| PlanLedger.ShareExactly | services/api/sanjiv/procurement/checker.py:253-282 | a concentration limit is violated exactly when some supplier, or corridor, carries more than its share of the demand, or of one kilotonne |
| PlanLedger.ObjectiveExactly | services/api/sanjiv/procurement/checker.py:354-391 | the objective is the weighted sum of its eight components, the two peaks being divided by the listed demand, or by one |
| PlanLedger.DemandsAddUp | services/api/sanjiv/procurement/checker.py:354-365 | with one demand per refinery the dictionary of demands adds up to the listed demand |
| PlanChecker.ScanOptions | services/api/sanjiv/procurement/checker.py:51-130 | the loop over the options finds exactly the broken option rules, each once and with its amounts, and its six dictionaries hold the filtered sums |
| PlanChecker.CheckOption | services/api/sanjiv/procurement/checker.py:51-121 | bounds, sanctions, compatibility and timing of one option are reported exactly when broken, with the quantity and the tightest of the four capacities |
| PlanChecker.CheckBalance | services/api/sanjiv/procurement/checker.py:132-148 | the mass balances reported are exactly the broken ones, each once with deliveries plus shortage and the demand, and a demanded refinery enters the dictionary of deliveries |
| PlanChecker.CheckCapacities | services/api/sanjiv/procurement/checker.py:150-232 | the capacities reported for suppliers, segments, refineries and ports are exactly the exceeded ones, each once with its sum and the capacity that decides |
| PlanChecker.CheckShare | services/api/sanjiv/procurement/checker.py:253-282 | a concentration limit is reported, with the peak share, exactly when some key exceeds it |
| PlanChecker.CheckPolicy | services/api/sanjiv/procurement/checker.py:235-282 | budget and concentration violations are exactly the broken ones |
| PlanChecker.ObjectiveComponents | services/api/sanjiv/procurement/checker.py:354-391 | the components equal the declarative sums and peaks; a missing landed cost is an error |
| PlanChecker.Codes | services/api/sanjiv/procurement/checker.py:287-302 | there is no failure code exactly when every check passed |
| PlanRules.PeakIsLargest | services/api/sanjiv/procurement/checker.py:256-257 | the peak is the volume of some key and at least the volume of every other |
| PlanModel.TotalIgnoresOrder | services/api/sanjiv/procurement/checker.py:122-130 | every accumulator is the same for every order of the options |
| PlanModel.SplitsAddUp | services/api/sanjiv/procurement/checker.py:122-124 | splitting deliveries by refinery, supplier or corridor counts every tonne once |
| PlanTheorems.ViolationsIgnoreOrder | services/api/sanjiv/procurement/checker.py:51-282 | the verdict on every constraint is independent of the order of the options |
| PlanTheorems.ObjectiveIgnoresOrder | services/api/sanjiv/procurement/checker.py:354-391 | so is the objective |
| PlanTheorems.FeasibleIsConvex | services/api/sanjiv/procurement/checker.py:51-282 | every convex combination of two plans without violations has none |
| PlanTheorems.ConstraintIsConvex | services/api/sanjiv/procurement/checker.py:51-282 | the same for each constraint alone |
| PlanTheorems.ObjectiveIsConvex | services/api/sanjiv/procurement/checker.py:354-391 | with non-negative weights the objective is convex, concentration peaks included |
| PlanTheorems.DeliveriesMeetDemand | services/api/sanjiv/procurement/checker.py:132-148 | when every option serves a demanded refinery, total deliveries and shortages match total demand up to one tolerance per refinery |
| PlanTheorems.AllShortageIsFeasible | services/api/sanjiv/procurement/checker.py:51-282 | declaring the whole demand short violates nothing when the windows are on time |
| CheckerVerdicts.AllShortagePasses | services/api/sanjiv/procurement/checker.py:51-306 | with a truthful objective and genuine fingerprints that plan passes |
| CheckerVerdicts.FeasiblePlanMayBeRejected | services/api/sanjiv/procurement/checker.py:340-350 | a concrete plan without violations, with a slightly negative quantity, that the result types refuse |
| CheckerVerdicts.DemandMayBeUnserved | services/api/sanjiv/procurement/checker.py:132-150 | a concrete valid input whose demanded refinery no option serves, for which the checker raises |
| CheckerVerdicts.NonNegativePlansGetVerdicts | services/api/sanjiv/procurement/checker.py:340-350 | plans with non-negative amounts are never refused that way |
| RateLimiter.RateLimiter.RateLimited | services/api/sanjiv/operations/security.py:46-70 | a request is rejected exactly when the bucket it is charged to has `limit` admissions in the last 60 seconds of the full log; that bucket is the shared one exactly when the client is new and active identities leave no place, and the own one otherwise; no other deque changes, none is deleted while there is place, and the table stays bounded |
| RateLimiter.RateLimiter.Evict | services/api/sanjiv/operations/security.py:48-58 | exactly the identities without an active request are deleted, and the table still agrees with the log |
| RateLimiter.RateLimiter.Route | services/api/sanjiv/operations/security.py:48-63 | the shared bucket is chosen exactly when the client is new and the active identities fill the table |
| RateLimiter.RateLimiter.Charge | services/api/sanjiv/operations/security.py:64-70 | pruning, comparing and appending change one deque and agree with the log |
| RateLimiter.RateLimiter.Prune | services/api/sanjiv/operations/security.py:65-66 | what is popped is exactly the expired head |
| RateLimiter.TailCounts | services/api/sanjiv/operations/security.py:64-67 | a pruned deque counts exactly the admissions of the window |
| RateLimiter.BucketBound | services/api/sanjiv/operations/security.py:46-70 | in every run, any 60 seconds admit at most `limit` requests per bucket |
| RateLimiter.IdentityBound | services/api/sanjiv/operations/security.py:46-70 | and at most twice the limit per identity |
| RateLimiter.OverallBound | services/api/sanjiv/operations/security.py:46-70 | and at most one full window per place of the table over all identities |
| OperationsBroker.OperationsBroker.Publish | services/api/sanjiv/maritime/broker.py:23-51 | the event gets the next number, joins the log and the bounded history, and every queue gets it or, if full, holds nothing but one item that asks for a resynchronisation under the same number; a published event never asks for one |
| OperationsBroker.OperationsBroker.Broadcast | services/api/sanjiv/maritime/broker.py:36-50 | each subscriber is offered the event once |
| OperationsBroker.OperationsBroker.Since | services/api/sanjiv/maritime/broker.py:53-59 | the answer from the bounded history equals the answer computed from the unbounded log |
| OperationsBroker.OperationsBroker.Subscribe | services/api/sanjiv/maritime/broker.py:61-68 | a subscriber starts with an empty queue at the current number |
| OperationsBroker.OperationsBroker.Consume | services/api/sanjiv/maritime/broker.py:61-68 | taking an item moves it from the queue to what was delivered and changes nothing else |
| OperationsBroker.StreamPush | services/api/sanjiv/maritime/broker.py:36-50 | publishing keeps every subscriber stream right, item by item: the next event, or an item that asks for a resynchronisation; and every queue within its capacity |
| OperationsBroker.NothingLostSilently | services/api/sanjiv/maritime/broker.py:36-50 | for any subscriber, every event published since it joined is in its stream, or skipped by a later item of type RESYNC_REQUIRED with the same or a higher number |
| OperationsBroker.JumpsAreVisible | services/api/sanjiv/maritime/broker.py:36-50 | an item of a stream is the published event of its number, directly after the item before it, exactly when its type is not RESYNC_REQUIRED |
| OperationsBroker.ConsumerStaysInStep | services/api/sanjiv/maritime/broker.py:36-50 | a consumer that reloads on items of type RESYNC_REQUIRED and otherwise applies events ends with the state of the whole log |
| OperationsBroker.SinceLosesExactly | services/api/sanjiv/maritime/broker.py:53-59 | for every cursor: a backlog misses events without saying so exactly for cursor zero after the history overflowed, for a cursor ahead of the broker, as after a restart, or with a history of size zero |
| LpgNetwork.PhysicalInvariants | services/api/sanjiv/phase8/contracts.py:189-217 | the validator accepts exactly the networks with unique assets, known compatible endpoints, flows within all capacities and balanced demand |
| LpgNetwork.CheckRoutes | services/api/sanjiv/phase8/contracts.py:196-210 | the loop accepts exactly the good routes, and its dictionaries hold the summed flows |
| Sequences.RepeatsShrink | services/api/sanjiv/phase8/contracts.py:190-195 | a dictionary has as many keys as the list has entries exactly when no identifier repeats |
| Sequences.IndexByKey | services/api/sanjiv/phase8/contracts.py:190-195 | building a dictionary by identifier and comparing sizes finds out whether identifiers repeat, and without repetitions the dictionary holds exactly the entries |
| LpgNetwork.CheckLimits | services/api/sanjiv/phase8/contracts.py:211-214 | comparing the keyed sums with the capacities finds exactly the assets whose summed flow is too large |
| LpgPlanner.GreedyOptimalIff | services/api/sanjiv/phase8/service.py:288-316 | the greedy filling is cheapest among all allocations within the route capacities that deliver as much, exactly when no negligible capacity undercuts: none is cheaper than a usable route while the usable capacity up to its own price leaves part of the target open; prices, capacities and target decide this |
| LpgPlanner.SkipsIffUndercut | services/api/sanjiv/phase8/service.py:291-297 | the filling uses a route behind a cheaper skipped one exactly when prices, capacities and target have an undercut |
| LpgPlanner.UsedExactly | services/api/sanjiv/phase8/service.py:291-297 | a route is used exactly when its capacity is above the tolerance and so is what the usable capacity before it leaves of the target |
| LpgPlanner.GreedyIsCheapest | services/api/sanjiv/phase8/service.py:288-316 | any allocation that delivers at least as much pays for its surplus |
| LpgPlanner.UndercutImproves | services/api/sanjiv/phase8/service.py:295-297 | an undercutting negligible route gives a cheaper allocation |
| LpgPlanner.FillConserves | services/api/sanjiv/phase8/service.py:291-315 | the filling never exceeds the target and misses the reachable target by at most one negligible volume per route |
| LpgPlanner.FillNonNegative | services/api/sanjiv/phase8/service.py:293-296 | each volume lies between zero and the capacity of its route, and none is negligible without being zero |
| LpgPlans.Allocate | services/api/sanjiv/phase8/service.py:292-314 | the allocation loop equals the greedy filling, leg by leg |
| LpgPlans.LegsAddUp | services/api/sanjiv/phase8/service.py:315-316 | volume and landed cost of the legs are those of the filling |
| LpgPlans.LargestShareOf | services/api/sanjiv/phase8/service.py:317-320 | the dictionary of shares yields the largest supplier share |
| LpgPlans.Concentrations | services/api/sanjiv/phase8/service.py:317-325 | for k legs, 1/k <= route concentration <= supplier concentration <= 1 |
| LpgPlans.DeliveredMeetsTarget | services/api/sanjiv/phase8/service.py:291-315 | target minus a negligible volume per route <= delivered <= target |
| LpgPlans.Plan | services/api/sanjiv/phase8/service.py:290-356 | a plan fails exactly when the target or every capacity is negligible, which capacities, demand and profile tell; otherwise its legs are in the order of the profile (price; price plus 1.5 a transit day; supplier and then transit days), each leg is within an available offer, a leg is used only when every offer that comes earlier is filled or negligible, deliveries, residual and cost are those of the legs and conserve demand, and the shares are the largest supplier share and the largest leg over the deliveries |
| LpgPlans.PlanFollowsOrder | services/api/sanjiv/phase8/service.py:277-314 | the legs of a profile ascend by cost, by cost plus 1.5 times transit days, or by supplier and then transit days, and an offer earlier in that order, with a capacity above the tolerance, is filled whenever a later one is used |
| LpgPlans.FillsInOrder | services/api/sanjiv/phase8/service.py:291-297 | the filling reaches a route only past routes that are filled or negligible |
| LpgPlans.TargetIs | services/api/sanjiv/phase8/service.py:273-290 | the target is the demand, or nine tenths, 97 per cent or all of the summed capacity if that is less |
| LpgPlans.NoLegsExactly | services/api/sanjiv/phase8/service.py:291-297 | the filling has no leg exactly when the target or every capacity is at most the tolerance |
| LpgPlans.PlanFailsExactly | services/api/sanjiv/phase8/service.py:290-297 | the same for the ranked routes and the target of a profile, told from the available capacities |
| LpgPlans.Plans | services/api/sanjiv/phase8/service.py:263-358 | the three plans as described for one plan, in the order of their profiles, or a failure, exactly when the demand, nine tenths of the capacity, or every single capacity left by the reduction is negligible |
| LpgPlans.CheapestFailsFirst | services/api/sanjiv/phase8/service.py:273-291 | if any profile has nothing to allocate, then LOWEST_COST has not, because its target is the smallest |
| LpgPlans.ClosedHormuzLeavesNoPlan | services/api/sanjiv/phase8/service.py:267-272 | a network whose routes all pass Hormuz has no plan when the reduction is total |
| LpgPlans.PlansMayFail | services/api/sanjiv/phase8/service.py:263-327 | a concrete accepted network of that kind |
| LpgPlans.CostPlansAreOptimal | services/api/sanjiv/phase8/service.py:273-316 | LOWEST_COST and BALANCED plans are optimal under their own key exactly when no negligible capacity of the network undercuts at the target volume, in particular when every capacity is zero or above the tolerance |
| LpgPlans.GreedyMayBeUndercut | services/api/sanjiv/phase8/service.py:295-297 | a concrete accepted network whose LOWEST_COST plan is not the cheapest |
| LpgPlans.ResilienceBound | services/api/sanjiv/phase8/service.py:263-342 | on an accepted network the resilience plan leaves at most the lost Hormuz capacity, the balance tolerance per day and a negligible volume per route |
| LpgPlans.CapacityRemains | services/api/sanjiv/phase8/service.py:267-272 | the capacity left after the reduction carries the baseline flow less the lost Hormuz capacity |
| Percentiles.PercentileMonotone | services/api/sanjiv/phase8/service.py:886-895 | percentiles of a sorted list grow with the fraction, also across segment boundaries |
| Percentiles.PercentileWithin | services/api/sanjiv/phase8/service.py:886-895 | and never leave the extremes |
| Percentiles.PercentileEnds | services/api/sanjiv/phase8/service.py:886-895 | fractions zero and one give the first and the last element |
| Percentiles.AtMonotone | services/api/sanjiv/phase8/service.py:889-895 | interpolation is monotone in the position |
| Percentiles.PercentileInterpolates | services/api/sanjiv/phase8/service.py:886-895 | a percentile lies on the straight line between the two elements around its position |
| Percentiles.EqualStepsAreEqual | services/api/sanjiv/phase8/service.py:889-895 | inside a segment equal steps of position are equal steps of value |
| Percentiles.HalfIsMedian | services/api/sanjiv/phase8/service.py:886-895 | the percentile at one half is the middle element of an odd list and the mean of the two middle elements of an even one |
| Percentiles.PercentileReflects | services/api/sanjiv/phase8/service.py:886-895 | negating and reversing the list mirrors the fraction |
| Percentiles.Summarise | services/api/sanjiv/phase8/service.py:402-460 | p10, median and p90 are interpolated between the sorted outputs, the median is the middle element or the mean of the middle two, best <= p10 <= median <= p90 <= worst, and the outer two are the extremes of the outputs |
| Telemetry.TelemetryRegistry.Record | services/api/sanjiv/operations/telemetry.py:57-60 | the bounded deque stays equal to the last 2000 durations of the full log, clipped at zero, and failures are counted |
| Telemetry.TelemetryRegistry.Snapshot | services/api/sanjiv/operations/telemetry.py:62-76 | one metric per recorded operation, in order, with the median and the interpolated p95 of the last 2000 samples of the log, rounded to three places, and minimum <= median <= p95 <= maximum |
| Rounding.Round3Monotone | services/api/sanjiv/operations/telemetry.py:70-73 | rounding to three places keeps the order of the figures |
| Rounding.Round3IsNearest | services/api/sanjiv/operations/telemetry.py:70-73 | and goes to a nearest multiple of a thousandth |
| Rounding.RoundIsNearest | services/api/sanjiv/procurement/inputs.py:294-299 | rounding goes to a nearest integer, and to the even one of two |
| LatinHypercube.Sample | services/api/sanjiv/phase8/service.py:868-883 | every row values exactly the named ranges, and every column hits each of the n strata once and stays in its range, for any draws and any shuffle |
| LatinHypercube.Column | services/api/sanjiv/phase8/service.py:875-880 | one stratified column |
| LatinHypercube.Shuffle | services/api/sanjiv/phase8/service.py:879 | the in-place shuffle permutes the column, with an explicit inverse |
| LatinHypercube.StrataDisjoint | services/api/sanjiv/phase8/service.py:875-878 | no value lies in two strata |
| LatinHypercube.StrataAreEqual | services/api/sanjiv/phase8/service.py:875-878 | all strata are equally wide, and a draw lies as far into its stratum as it is large |
| LatinHypercube.DrawInStratum | services/api/sanjiv/phase8/service.py:875-878 | a draw in [0, 1) stays in its stratum |
| Decimal.PadReadsBack | services/api/sanjiv/phase8/service.py:945 | a padded offset has exactly ten digits when it is below 10^10, and always denotes the offset |
| PdfFile.Write | services/api/sanjiv/phase8/service.py:932-951 | the two passes of the writer produce the layout of header, objects, table and trailer |
| PdfFile.ReadsBack | services/api/sanjiv/phase8/service.py:932-951 | following startxref and the 20-byte entries leads to every object written, exactly when the last object starts below 10^10; otherwise the table is unreadable |
| PdfFile.EntryReads | services/api/sanjiv/phase8/service.py:944-945 | an entry is found exactly when its offset fits its field |
| BriefingPdf.EscapeIsOnePass | services/api/sanjiv/phase8/service.py:915 | the three successive replacements escape each special character once and never each other |
| BriefingPdf.LiteralReadsBack | services/api/sanjiv/phase8/service.py:914-921 | a written literal reads back as its visible characters, up to its own parenthesis, exactly when truncation split no escape |
| BriefingPdf.ShortLinesFit | services/api/sanjiv/phase8/service.py:915 | a line whose escaped form fits is shown completely and never split |
| BriefingPdf.BriefingMayNotReadBack | services/api/sanjiv/phase8/service.py:898-951 | a concrete package, with a parenthesis at the 101st character of its summary, whose briefing does not read back as what it shows |
| BriefingPdf.PlainInFront | services/api/sanjiv/phase8/service.py:915 | plain characters in front of a text shift the place where an escape can be split by their number |
| BriefingPdf.ContentReadsBack | services/api/sanjiv/phase8/service.py:917-923 | the content stream reads back as the visible text of every line exactly when no line is split |
| BriefingPdf.StreamReadsBack | services/api/sanjiv/phase8/service.py:931 | /Length equals the stream length |
| BriefingPdf.PageReadsBack | services/api/sanjiv/phase8/service.py:898-951 | the same for any lines whose objects start below 10^10 |
| BriefingPdf.StreamIsShort | services/api/sanjiv/phase8/service.py:898-923 | lines are cut and metrics are limited, so no content stream reaches 5000 bytes |
| BriefingPdf.LinesTell | services/api/sanjiv/phase8/service.py:898-911 | which line shows which field of the package, and that the first two dozen metrics have a line each |
| BriefingPdf.EncodeKeepsLatin1 | services/api/sanjiv/phase8/service.py:923 | characters of Latin-1 stay, every other one becomes a question mark |
| BriefingPdf.ObjectsLink | services/api/sanjiv/phase8/service.py:924-951 | trailer, catalogue, pages, page, content and font refer to each other by the numbers of the objects written |
| BriefingPdf.BriefingReadsBack | services/api/sanjiv/phase8/service.py:924-951 | every briefing, whatever the package, reads back from the end of its file: the five objects, and through the stream of the fourth one the visible text of every line exactly when no line is split |
| BriefingPdf.BriefingDocument | services/api/sanjiv/phase8/service.py:898-951 | the writer in loops produces the document described by its parts |
| VesselRepository.InMemoryMaritimeRepository.SaveObservation | services/api/sanjiv/maritime/repository.py:74-94 | an observation is accepted exactly when its id is new; positions, segments and the stored view then describe the longer log |
| VesselRepository.InMemoryMaritimeRepository.VesselHistory | services/api/sanjiv/maritime/repository.py:116-123 | the slices returned are the last `limit` positions and the last `limit - 1` segments, or all of them when that number is zero |
| VesselRepository.LatestIsLargest | services/api/sanjiv/maritime/repository.py:82-92 | the last position is an accepted one with the largest timestamp |
| VesselRepository.SegmentsSpanTheTrack | services/api/sanjiv/maritime/repository.py:80-81 | segments chain in time, end strictly later, and their durations add up to latest minus first accepted timestamp |
| VesselRepository.SegmentsJoinUnlessTied | services/api/sanjiv/maritime/repository.py:80-92 | each segment starts at the position where the one before ended exactly when no arrival ever tied with the latest timestamp, past the first one, and was then overtaken by a strictly later one |
| VesselRepository.InMemoryMaritimeRepository.StoredSegmentsJoin | services/api/sanjiv/maritime/repository.py:74-94 | the same for the stored segments in every reachable state of the repository |
| VesselRepository.TiedArrivalBreaksTheChain | services/api/sanjiv/maritime/repository.py:80-92 | a concrete run of four positions whose segments do not join |
| VesselRepository.SegmentsJoinObservations | services/api/sanjiv/maritime/repository.py:342-372 | segments join accepted observations of the vessel |
| VesselRepository.HistoryIsBounded | services/api/sanjiv/maritime/repository.py:121-122 | the number of segments is bounded by `limit - 1` exactly when the limit is at least two or there are none |
| Geofences.GeofenceEngine.Evaluate | services/api/sanjiv/maritime/geofences.py:61-92 | one evaluation extends the run by one position and returns exactly the events the run gains |
| Geofences.VisitEveryPair | services/api/sanjiv/maritime/geofences.py:64-70 | a vessel and geofence pair is updated once per position, however often the geofence is listed, and other pairs are left alone |
| Geofences.VisitFindsNewIds | services/api/sanjiv/maritime/geofences.py:71-78 | every event returned is new, and known from then on |
| Geofences.EventsAreEdges | services/api/sanjiv/maritime/geofences.py:61-92 | when no position is evaluated twice, the events of a pair are exactly its changes of side |
| Geofences.EventsAreCaused | services/api/sanjiv/maritime/geofences.py:61-92 | every event of a run names the vessel, the position, the time and the direction of an evaluated position, and is an entry exactly when the polygon covers that position |
| Geofences.PairAlternates | services/api/sanjiv/maritime/geofences.py:61-92 | they alternate, and entries minus exits equal inside-now minus inside-first |
| Geofences.EdgesBalance | services/api/sanjiv/maritime/geofences.py:69-71 | changes of side alternate and balance |
| MaritimeWatch.MaritimeWatchService.Process | services/api/sanjiv/maritime/service.py:127-176 | a message that cannot be read is counted and announced as quarantined; a readable one is accepted exactly when its id is new; a readable live message outside LIVE makes exactly one transition, to LIVE; service, repository, engine and broker stay consistent |
| MaritimeWatch.MaritimeWatchService.Accept | services/api/sanjiv/maritime/service.py:161-176 | an accepted observation is indexed, published and evaluated once |
| MaritimeWatch.MaritimeWatchService.Announce | services/api/sanjiv/maritime/service.py:172-176 | events are saved and published in order, none twice |
| MaritimeWatch.MaritimeWatchService.ChangeMode | services/api/sanjiv/maritime/service.py:178-229 | a change appends one audited, published transition from the present mode; no change leaves no trace |
| MaritimeWatch.MaritimeWatchService.CrossingsAlternate | services/api/sanjiv/maritime/service.py:161-176 | through the service the published events of a pair alternate and balance, because deduplication gives every evaluated position its own id |
| MaritimeWatch.MaritimeWatchService.ObservationsReachSubscribers | services/api/sanjiv/maritime/service.py:161-176 | every observation accepted after a subscriber joined is in its stream, or skipped by an item of type RESYNC_REQUIRED with the same or a higher number |
| MaritimeWatch.MaritimeWatchService.Tell | services/api/sanjiv/maritime/service.py:143-229 | a message becomes the next event of the broker |
| MaritimeWatch.MaritimeWatchService.Ingest | services/api/sanjiv/maritime/service.py:80-125 | whatever the live source does, its messages and then those of the replay are accepted in order, each once, and the unreadable ones counted; when the replay holds no live message, ingestion ends in REPLAY, after a live source with an audited transition from DEGRADED as the last one, and without one with a single transition, or none if the mode was REPLAY |
| MaritimeWatch.ChainLinks | services/api/sanjiv/maritime/service.py:178-229 | transitions start from DEGRADED, each starts where the last one ended, and each changes the mode |
| MaritimeWatch.MessagesCarryMode | services/api/sanjiv/maritime/service.py:127-229 | every published message carries the mode in force, a transition the new one |
| PlanLifecycle.AuditService.Prepare | services/api/sanjiv/audit/service.py:535-575 | a request becomes pending exactly when plan, role, fingerprints, audit and superseding plan are in order; otherwise it is refused for the first check that fails, in the order of the code |
| PlanLifecycle.RolesExactly | services/api/sanjiv/audit/service.py:666-683 | exactly which role may take which action |
| PlanLifecycle.DutiesAreSeparate | services/api/sanjiv/audit/service.py:666-683 | only an administrator may both bring a plan into review and decide on it |
| PlanLifecycle.AuditService.Commit | services/api/sanjiv/audit/service.py:577-618 | a used key returns its first record if the request matches it and a conflict otherwise, and leaves the log unchanged; a new key appends one record exactly when the state allows the action |
| PlanLifecycle.MatchesSameRequest | services/api/sanjiv/audit/service.py:601-614 | a retry matches a record exactly when it differs from the original request in nothing but role, key and plan |
| PlanLifecycle.RecordTellsRequest | services/api/sanjiv/audit/service.py:579-598 | a new record says who did what to which plan, when, from the last state of the log to the one the table gives |
| PlanLifecycle.AuditService.Reused | services/api/sanjiv/audit/repository.py:64-74 | the first record carrying the key is found, exactly when there is one |
| PlanLifecycle.AuditService.SaveAudit | services/api/sanjiv/audit/repository.py:52-53 | an audit with known content keeps the stored one, and all logs stay lawful |
| PlanLifecycle.AuditService.EveryLogIsLawful | services/api/sanjiv/audit/service.py:535-618 | at any point of any interleaving every log is chained, permitted, free of repeated keys, and spells a word of the language |
| PlanLifecycle.RetryReturnsTheOriginal | services/api/sanjiv/audit/service.py:577-618 | however much a log has grown, repeating a successful request returns the original record, repeating its key with another request is a conflict, and neither changes the log |
| PlanLifecycle.TransitionsSpellTheLanguage | services/api/sanjiv/audit/service.py:777-791 | the transition table accepts exactly the prefixes of SUBMIT REVIEW* (APPROVE SUPERSEDE | REJECT) |
| PlanLifecycle.LawfulLogsSpellTheLanguage | services/api/sanjiv/audit/repository.py:225-226 | the actions of a log determine the state of the plan |
| PlanLifecycle.LawfulPush | services/api/sanjiv/audit/service.py:579-602 | appending a permitted record that continues from the present state keeps the log lawful |
| EvidenceAudit.AuditPlan | services/api/sanjiv/audit/service.py:87-305 | the audit passes exactly when every obligation holds, its failures are exactly those with a cause, each once, the covered metrics are the sound ones and coverage is their percentage; it errs exactly for a sound plan without metrics |
| EvidenceAudit.SoundIffNothingDue | services/api/sanjiv/audit/service.py:96-250 | no failure has a cause exactly when all obligations hold |
| EvidenceAudit.TruthPolicy | services/api/sanjiv/audit/policies.py:5-25 | which truth class of evidence may support which class of metric |
| EvidenceAudit.ReferencedExactly | services/api/sanjiv/audit/service.py:96-123 | evidence counts as referenced exactly when the plan lists a reference to it |
| EvidenceAudit.LowerIgnoresCase | services/api/sanjiv/audit/service.py:107 | hashes agree exactly when they differ in nothing but the case of letters |
| EvidenceAudit.BlankExactly | services/api/sanjiv/audit/service.py:331-339 | text is blank exactly when it holds nothing but white space |
| EvidenceAudit.CheckReference | services/api/sanjiv/audit/service.py:96-123 | the failures of an evidence reference, its direct parents included |
| EvidenceAudit.CheckAssumption | services/api/sanjiv/audit/service.py:126-178 | the failures of an assumption reference |
| EvidenceAudit.AuditMetric | services/api/sanjiv/audit/service.py:307-375 | the failures of a metric and of each of its citations |
| EvidenceAudit.AuditMetrics | services/api/sanjiv/audit/service.py:179-203 | each metric passes exactly when it is sound, and all failures are collected |
| EvidenceAudit.MetricFailsIff | services/api/sanjiv/audit/service.py:307-375 | a metric is sound exactly when nothing fails |
| EvidenceAudit.Unique | services/api/sanjiv/audit/service.py:258-260 | removing repeated failures keeps the set of failures |
| EvidenceAudit.CoverageIsFull | services/api/sanjiv/audit/service.py:253-257 | coverage is 100 exactly when there are metrics and all are covered |
| EvidenceAudit.CoveredCounts | services/api/sanjiv/audit/service.py:274 | the count of covered metrics is the number of metrics that passed |
| MetricTree.EveryEnvelopeOnce | services/api/sanjiv/audit/coverage.py:11-25 | one entry per envelope: every path leads to its own envelope, no path occurs twice, and every envelope is reached |
| MetricTree.ParseRender | services/api/sanjiv/audit/coverage.py:15-25 | a rendered path determines its steps when names are free of dots and brackets |
| MetricTree.IterRenders | services/api/sanjiv/audit/coverage.py:11-25 | the yielded paths are the structural ones, rendered |
| MetricTree.EntriesDiffer | services/api/sanjiv/audit/coverage.py:15-25 | no two entries took the same steps |
| Ordering.StableSortSorts | services/api/sanjiv/maritime/repository.py:83 | sorting permutes the list into key order |
| Ordering.SortedIsFixed | services/api/sanjiv/maritime/repository.py:83 | and leaves a sorted list alone, ties included |

## Left out

- The HTTP routes, middleware headers, the WebSocket loop, settings, probes and migrations: input, output and configuration.
- The PostgreSQL repositories: the in-memory variants are modelled, each locked region as one step.
- The solver, reserve, simulation, risk and scenario modules, `claims.py`, `inference.py`, `sanctions.py`, `normalization.py` and `costs.py`: their results enter as parameters.
- Length limits of lists and strings in the contract types, and the free-text details of violations and exclusions.
- Rounding errors of floating-point arithmetic, infinities and not-a-number.
- The seeded random generator: draws and shuffle choices are arbitrary.
- The number of messages per minute in the operations snapshot, and the ordering of vessels by MMSI: easy queries over the index.
- Chokepoint lists, commodity price and freight metrics of an option: copied fields that no modelled rule reads.
- The sensitivity formula itself, with its square root, and the drivers and stability of a result: the outputs are arbitrary numbers here.
- InputBuilder.WindowInside: holds for every transit time, while the time arithmetic of the source overflows, uncaught, for transit times of millions of days.
- OperationsBroker.SinceLosesExactly: a cursor from before a restart that is not ahead of the last number cannot be told from a current one, and is taken for one.
- EvidenceAudit.AuditPlan: recomputation, solver status and checker flags enter as booleans, and evidence parents are followed one level, as in the code. A plan without metrics is an input of the function here, although a procurement plan carries the envelopes of its passed check (procurement/contracts.py:732-752, 989-993).
- EvidenceAudit.AuditMetric: blank means spaces, tabs and line ends, while the source strips all Unicode white space.
- BriefingPdf.LiteralReadsBack: the reader knows the three escapes that are written, and does not fold a carriage return inside a literal into a line feed as ISO 32000-1 section 7.3.4.2 does.
- BriefingPdf.BriefingDocument: fields of the package arrive formatted, the coverage with one decimal place.
- MaritimeWatch.MaritimeWatchService.Process: an exception of the repository or the broker in the middle of a message is not modelled, and what a payload looks like is a parameter.
- MetricTree.EveryEnvelopeOnce: a model, a dictionary and a list are one kind of branch whose children carry their names, keys or indices.
- PlanLifecycle.AuditService.Prepare: the plan lookup and the audit computed by it are arguments.
