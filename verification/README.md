# Verified model of the planner's integer cores

The planner under `vrp/` plans vehicle rounds in whole seconds, metres and load units. This
project restates its integer cores in Dafny 4.11 and proves what they promise: over every
input, every departure, every policy and every run, not over examples. `dafny verify
dfyconfig.toml` checks the whole of it.

Code that works step by step in the source is a method with its loop here, proved against a
specification; the properties are lemmas about that specification.

| file | models | main results |
|---|---|---|
| `TimeDependent.dfy` | `vrp/timedependent.py` | the bucket walk is the least number of seconds that covers the arc; leaving later never arrives earlier; pruning on the bound loses nothing |
| `Model.dfy` | `vrp/model.py` | the domain, and travel between two places |
| `Battery.dfy` | `vrp/battery.py` | the band walk, when splitting a charge costs nothing, what a distance costs |
| `Electric.dfy`, `RepairRuns.dfy`, `Stranded.dfy` | `vrp/electric.py` | how full to leave a charger, what the repair loop keeps, and exactly when a repair lets the van run flat on its way to a charger |
| `Evaluator.dfy`, `Timeline.dfy` | `vrp/evaluator.py` | the timeline, step by step, whole-route no-passing, when leaving earlier is safe, conservation of loads |
| `Tsptw.dfy`, `Sequencing.dfy`, `TsptwOptimality.dfy` | `vrp/polish.py`, sequencing | the pruned subset search: feasible whenever anything is, the least drive over the instance's own matrix, and optimal exactly when departures do not matter |
| `Departure.dfy`, `Polish.dfy`, `Gaps.dfy` | `vrp/polish.py`, departures | exactly when the departure pass is optimal, whatever the windows; on plain instances the two passes agree on what is legal, and what a gap between hard windows does to that |
| `LocalSearch.dfy`, `Accelerated.dfy`, `Asymmetric.dfy` | `vrp/localsearch.py` | exactly when O(1) deltas equal full recomputation, both searches terminate at settled tours, and what the accelerated one does where they do not |
| `Replay.dfy` | `vrp/epochs.py`, `vrp/replay.py` | every order dispatched exactly once, no must-go order held, delay counts postponements |
| `Diagnose.dfy`, `Refusals.dfy`, `Locks.dfy`, `Verdicts.dfy` | `vrp/diagnose.py`, `vrp/locks.py` | the pre-flight chain and what it refuses vehicle by vehicle, irreducible lock conflicts, when a finding is real and when a clean verdict can be trusted |
| `Objective.dfy`, `Scoring.dfy`, `ScoreRules.dfy`, `LongRounds.dfy` | `vrp/objective.py` | one scaled number orders plans as the levels do, exactly when its bounds hold, and which plans keep them |
| `Decompose.dfy`, `Docks.dfy` | `vrp/decompose.py` | partitioning, sharing the fleet, staggering departures |
| `Depots.dfy` | `vrp/depots.py` | withdrawing over-drawn work until every depot is within its stock, and what that loses of the instance |
| `Tiles.dfy`, `MatrixBuild.dfy` | `vrp/matrix.py` | tiling, renumbering, the pair cache, and exactly when a cached build is the plain one |

## Where the code and its documentation part

Each of these is proved: the statement that holds, the input on which the documented one does
not, and in most cases the exact condition between the two.

* `vrp/polish.py:277-286` says no-passing keeps the pruned search optimal. It keeps it complete.
  The search minimises the sum of leg durations, and an earlier label can enter a slower bucket
  and pay more. The claim holds for a speed profile exactly when travel under it does not depend
  on the departure (`TsptwOptimality.OptimalExactlyWhenDepartureFree`); for every other profile a
  three-stop instance beats the search (`PruningLosesOptimum`).
* `vrp/polish.py:16-29` argues the departure pass is exact. From a legal day it is exactly when every
  stop with a hard window has room for all the waiting, or leaving for no hard window's opening is
  legal any later than some stop has room for; without a hard window, when nobody waits
  (`Departure.OptimalExactly`). With every service in its stop's last hard window that comes to: some
  stop has a hard window, or nobody waits (`ShiftIsShortest`).
* `vrp/polish.py:120-121` says a stop with two hard windows may be delayed into the second. The
  window it is served in never changes (`Departure.WindowIsKept`), which can cost a shorter duty
  (`SecondWindowIsMissed`).
* `vrp/polish.py:226-235` reads a stop's hard windows as one interval. The search then serves stops
  between two windows, exactly where there is a gap (`Gaps.HullIsKeptExactly`), and the polished day
  can break its promise (`GapIsTakenForOpen`). Without gaps its answer keeps every promise
  (`LegalKeepsPromises`).
* Leaving earlier keeps a kept promise only where no soft window precedes a hard one
  (`Evaluator.EarlierIsSafeExactly`).
* `vrp/battery.py:145-155` does not return for a target above full that the battery is below
  (`Battery.WalkReachesTarget`).
* `vrp/electric.py:127` reads the charge available before a stop from the timeline at the stop's
  own index, which is the step the van leaves only while no charge has been placed before it
  (`Electric.ReadsRightStepExactly`). So the van reaches the first charger of its plan, and a later
  one exactly when the leg fits the charge at the step it really leaves (`ReachedExactly`,
  `RepairRuns.RunKeepsExactly`). A charging step reports the charge on leaving, so a plan can read
  above the reserve throughout and strand the van (`Stranded.SecondChargeStrands`).
* `vrp/locks.py:61-74` says feasibility means every order still has a vehicle that could serve it,
  that its "no" is certain, and that a false "infeasible" cannot happen. Both answers can be wrong.
  A clean verdict means every check is met by some vehicle, not always the same one
  (`Verdicts.CleanVerdictIsProvisional`), and the stock check may be met by a van too small for the
  order (`StockOfSmallVanCounts`); where one check at most tells the suitable vehicles apart, the
  verdict is right exactly when one of them starts from a stocked depot (`CleanVerdictIsTrusted`).
  An order some vehicle serves by itself is still reported when only that vehicle suits it and it
  has an enemy anywhere (`ServableIsReportedExactly`), although a harmless pin is then blamed for a
  conflict (`HarmlessPinIsBlamed`). Such a finding is real exactly when an enemy that vehicle suits is
  itself suited by no other (`FindingIsRealExactly`), which `vrp/diagnose.py:207-211` takes for
  granted.
* `vrp/objective.py:174-181` says every tier bound is a real upper bound. Under `MIN_DURATION` a
  fleet that does not price its time is charged one unit a second the bound leaves out, and serving
  an order can then score worse than leaving it (`Scoring.UnpricedTimeMisorders`). The bound on
  driving takes a route to visit no place more than twice (`vrp/objective.py:187`); a van going to and
  fro between two customers outgrows it (`LongRounds.ToAndFroExceedsExactly`). Scales can be
  trusted exactly when nothing beneath a level can outgrow that level's scale
  (`Objective.ScalesAreTrustedExactly`).
* `vrp/localsearch.py:116-143` puts no condition on the matrix. The 2-opt delta is the true change
  on every tour exactly when distances between stops other than the depot are the same both ways
  (`LocalSearch.FlipsAreExactWhen`), and there the search returns (`Accelerated.AcceleratedSearch`).
  Elsewhere it can go through the same four states for ever (`Asymmetric.NeverReturns`), and where it
  does return the tour can be longer than the one it was given (`ReturnsLonger`).
* `vrp/depots.py:130-133` calls the round limit a guard against an engine that ignores its locks.
  An engine that honours every lock needs at most as many rounds as there are pairs of an order and
  a depot, and no smaller bound would do: over nine empty depots one runs out of the default eight
  (`Depots.HonestEngineRunsOut`, `PairsAreNeeded`). The early exit for a round that withdraws nothing
  is never taken (`SomethingIsWithdrawn`).
* `vrp/depots.py:136-138` says the problem returned is the one solved, with the withdrawal locks. The
  rebuilt problem has lost its speed profiles too (`vrp/depots.py:161-167`), so what is planned after
  a withdrawal travels at free flow: the profiles survive exactly when the first plan was within
  stock or there were none (`Depots.SolveWithinInventory`). Rebuilding under other locks loses them in
  `vrp/locks.py:41-44` as well, where no check reads them (`Locks.FeasibleAsItIs`).
* `vrp/matrix.py:205-207` says a tiled build is identical to an unchunked one. With a cache it is, for
  every cache learnt from the same provider, exactly when places that round to one key travel alike
  (`MatrixBuild.TransparentExactly`).

## Model

| member | source | states |
|---|---|---|
| TimeDependent.TravelBy | vrp/timedependent.py:124-165 | the bucket walk terminates; it refuses a negative arc and otherwise returns the least number of seconds that covers it |
| TimeDependent.SecondsIsLeast | vrp/timedependent.py:124-146 | that number covers the arc second by second at the multipliers in force, and no smaller one does |
| TimeDependent.WithinBucket | vrp/timedependent.py:80-83 | on any day, a drive that begins and ends in bucket b takes the arc's thousandths over the b-th multiplier, rounded up |
| TimeDependent.AcrossBuckets | vrp/timedependent.py:148-165 | a drive that outlasts its bucket covers at that bucket's multiplier until its end and the rest from the next one |
| TimeDependent.UniformSpeed | vrp/timedependent.py:124-165 | one multiplier all day divides the arc by it, rounded up; a thousand everywhere is exactly free flow |
| TimeDependent.NoPassing | vrp/timedependent.py:124-169 | leaving later never arrives earlier, under any profile |
| TimeDependent.LongerArcTakesLonger | vrp/timedependent.py:124-165 | at one departure a longer arc is never finished sooner |
| TimeDependent.TravelRepeats | vrp/timedependent.py:77-83 | shifting a departure by whole spans of the profile changes no duration |
| TimeDependent.BoundIsAdmissible | vrp/timedependent.py:172-186 | the bound is never above the travel time of any departure |
| TimeDependent.BoundIsBestDay | vrp/timedependent.py:172-186 | the bound is the arc driven at the profile's own fastest multiplier all day |
| TimeDependent.FilterMoves | vrp/timedependent.py:217-234 | the infeasible moves are exactly those pruned and those rejected after passing; no feasible move is counted |
| Model.Drive | vrp/model.py:977-1023 | with per-class profiles an arc of at most 300 s is driven by the local one, up to 1200 s by the arterial one and a longer one by the trunk one, or at free flow where its class has none; otherwise by the instance's one profile, or at free flow |
| Model.TravelNoPassing | vrp/model.py:977-1023 | no arc of any instance lets a later departure overtake an earlier one |
| Model.ServiceScales | vrp/model.py:1050-1098 | service is the fixed time and the time a unit of the delivery, or of the pickup at a place that is the pickup's alone, scaled by the vehicle's factor and cut to whole seconds, and then the dwell |
| Model.SumSplits | vrp/model.py:1092-1096 | the units of a stop without a dimension are every quantity of the order, each once |
| Model.HardMember | vrp/model.py:136-160 | the hard windows kept are exactly the stop's windows that are hard |
| Battery.WalkReachesTarget | vrp/battery.py:145-155 | the band walk reaches its target exactly when that is at most full or already met |
| Battery.ChargeSeconds | vrp/battery.py:121-155 | the loop computes the band walk and fails exactly on a target below arrival or an empty battery size |
| Battery.WithinBand | vrp/battery.py:68-73 | inside the i-th band the energy, rounded up to watt-hours, is charged at the i-th power, rounded up to seconds |
| Battery.AcrossBands | vrp/battery.py:145-155 | a charge past a band's ceiling is the charge to it and the charge from it |
| Battery.ChargeGrows | vrp/battery.py:121-155 | a higher target never takes less time |
| Battery.SplitCharge | vrp/battery.py:145-155 | two stages never beat one, and match it when the split is a band ceiling |
| Battery.ChargeIsNeverTooFast | vrp/battery.py:150-155 | no charge beats its energy over the strongest power of the curve |
| Battery.ConsumedIsLeast | vrp/battery.py:95-118 | the drop is the least whole one whose energy covers a whole number of watt-hours that covers the distance |
| Evaluator.ServiceStartLands | vrp/evaluator.py:95-108 | service begins on arrival or at the opening of the first window not yet closed |
| Evaluator.ServiceStartGrows | vrp/evaluator.py:95-108 | arriving later never begins service earlier |
| Evaluator.EarlierIsSafeExactly | vrp/evaluator.py:95-108 | arriving earlier keeps every kept hard promise exactly when no soft window precedes a hard one |
| Evaluator.KeptMeans | vrp/evaluator.py:490-494 | a stop's promise is broken exactly when it has a hard window and service begins inside none of them |
| Timeline.StepsFollow | vrp/evaluator.py:111-240 | each step is reached from the one before by the travel time at its departure and the charge the leg leaves, then charges by the band walk, is handled in the stop's fixed, unit, factor and dwell times with the order's quantities off or on board, or ends at the van's own end |
| Evaluator.BuildTimeline | vrp/evaluator.py:111-201 | the loop expands a round into START, one step an order with its charge before it, and END |
| Evaluator.RouteNoPassing | vrp/evaluator.py:111-201 | leaving later never reaches, begins or leaves any step of the day earlier, and loads and charge are the same |
| Evaluator.RouteIsLegal | vrp/evaluator.py:450-497 | the check answers whether every step keeps capacity and hard windows and the day ends inside the shift |
| Evaluator.LegalEarlier | vrp/evaluator.py:450-497 | with no stop of the route putting a soft window before a hard one, a route legal leaving late is legal leaving earlier |
| Evaluator.LoadsAreConserved | vrp/evaluator.py:139-147 | at every step the van carries what it has still to deliver and what it has collected |
| Tsptw.Push | vrp/polish.py:353-364 | pushing a label leaves an undominated set that still dominates everything it did and the label |
| Tsptw.FloorIsAdmissible | vrp/polish.py:238-252 | the cheap bound never exceeds the exact leg, so it rejects no candidate the leg would keep |
| Tsptw.ExpandLabel | vrp/polish.py:316-332 | every candidate of a label is dominated in the table afterwards, filter or no filter |
| Tsptw.NextLayer | vrp/polish.py:313-335 | if every sequence of k stops is matched in the table, every one of k+1 is matched in the next |
| Tsptw.FirstLayer | vrp/polish.py:302-311 | the first layer holds exactly the stops reachable in time |
| Tsptw.PickBest | vrp/polish.py:337-350 | the cheapest full label home in time, or none |
| Tsptw.Sequence | vrp/polish.py:255-350 | the layered search returns an answer picked from a complete full layer |
| Tsptw.AnswerIsLegal | vrp/polish.py:255-350 | under any profile the answer begins every stop inside its hull and gets home in time, and it is none exactly when no order of the stops does |
| Tsptw.AnswerIsCheapest | vrp/polish.py:255-350 | when travel does not depend on the departure, no legal order of the stops has less travel |
| Tsptw.LegalVisitsAll | vrp/polish.py:255-275 | a legal answer visits every stop once |
| Tsptw.HullIsTight | vrp/polish.py:226-235 | the window the search uses is the hull of the stop's hard windows |
| Gaps.HullIsKeptExactly | vrp/polish.py:226-235 | beginning inside the hull is beginning inside a hard window exactly when no gap lies between two of them |
| Gaps.LegalKeepsPromises | vrp/polish.py:255-350 | where a stop's hard windows leave no gap, every sequence legal to the search begins it inside one |
| Gaps.GapIsTakenForOpen | vrp/polish.py:226-235 | a stop the search and the scheduler both serve between its two hard windows: legal to the one, and illegal to the other at any departure the pass chooses |
| Sequencing.LegalMeans | vrp/polish.py:212-235 | the search calls legal exactly the rearrangements of the orders whose day over the instance's places, matrix, windows and shift is, and its total is the time that day drives |
| Sequencing.TsptwSequence | vrp/polish.py:255-300 | up to fourteen orders: None exactly when no rearrangement has a legal day; otherwise the identifiers along one that has, and none drives less whenever travel does not depend on the departure, counted without profiles by the matrix's durations from the van's start through the orders' places to its end |
| TsptwOptimality.PruningLosesOptimum | vrp/polish.py:277-286 | any profile whose travel depends on the departure has an instance, a vehicle and orders for which the search returns a dearer sequence than a legal one |
| TsptwOptimality.OptimalExactlyWhenDepartureFree | vrp/polish.py:277-286 | the search is always optimal under a profile exactly when travel under it is departure-free |
| Departure.ScheduleRoute | vrp/polish.py:149-194 | the schedule of a round from a departure, and whether it ends inside the shift |
| Departure.PushAt | vrp/polish.py:16-29 | a later departure pushes each stop by exactly what the waiting before it does not absorb |
| Departure.Slack | vrp/polish.py:100-139 | the least room over the stops with a hard window, none when a promise is already broken |
| Departure.LatestEndMeans | vrp/polish.py:100-139 | a stop is bound by the latest end among the hard windows containing its service |
| Departure.TotalWait | vrp/polish.py:142-146 | the waiting of the day added up |
| Departure.OptimalDeparture | vrp/polish.py:149-194 | the departure is the shift start moved by the smaller of room and waiting |
| Departure.DepartureIsSafe | vrp/polish.py:16-29 | whatever the windows, a legal day stays legal, ends at the same moment and is shorter by the shift |
| Departure.WindowIsKept | vrp/polish.py:117-124 | for every round, a stop is served at the departure chosen in a hard window that already held its service |
| Departure.ShiftIsShortest | vrp/polish.py:16-29 | with each service in its stop's last hard window, no legal departure has a shorter duty and no earlier one ties, exactly when some stop has a hard window or nobody waits |
| Departure.OptimalExactly | vrp/polish.py:149-194 | whatever the windows, the departure chosen is the best one exactly when the room covers the waiting or no hard window's opening is a legal later departure; without a hard window, when nobody waits |
| Departure.SecondWindowIsMissed | vrp/polish.py:100-139 | a round where leaving for the opening of a second hard window is legal and shorter |
| Polish.TraceIsSchedule | vrp/polish.py:306-332 | on plain instances, a partial sequence survives the search exactly when its schedule opens every stop in time, with the same clock and travel |
| Polish.LegalIsSchedulable | vrp/polish.py:377-403 | on plain instances, an order is legal to the search exactly when its schedule is legal, at the same travel time |
| Polish.RoundIsOnMatrix | vrp/polish.py:212-235 | the round polished has the van's shift, each order's windows and service, and travels the sum of the matrix's durations from the van's start through the orders' places to its end |
| Polish.BestOrder | vrp/polish.py:377-403 | the search's answer up to fourteen stops, the given order otherwise; on a plain instance it drives no longer than any legal order |
| Polish.PolishRoute | vrp/polish.py:377-403 | the order chosen and its departure; on a plain instance legal, no longer than any legal order, with that order's shortest duty |
| LocalSearch.RouteDistance | vrp/localsearch.py:44-49 | the tour's length, wrap-around included |
| LocalSearch.RelocateDelta | vrp/localsearch.py:178-190 | the four-edge delta of a relocate is the true change in length, on any matrix and at any two places |
| LocalSearch.FlipDeltaExactly | vrp/localsearch.py:196-208 | the two-edge delta of a 2-opt is the true change exactly when the segment is as long backwards, as wherever the stops are symmetric |
| LocalSearch.FlipsAreExactWhen | vrp/localsearch.py:196-208 | the delta is exact on every tour exactly when the stops are symmetric among themselves, or too few to reverse any |
| LocalSearch.NaiveSearch | vrp/localsearch.py:52-94 | it terminates on any readable matrix at a tour no longer that none of its moves improves |
| Accelerated.Neighbours | vrp/localsearch.py:97-113 | each stop's row holds k nearest others and the depot |
| Accelerated.TryRelocate | vrp/localsearch.py:178-194 | an accepted relocate keeps the tour a tour and shortens it; a refused one would not have |
| Accelerated.TryFlip | vrp/localsearch.py:196-215 | an accepted 2-opt keeps the tour a tour and changes no edge but those it wakes; where deltas are exact it shortens the tour, and a refused one would not have |
| Accelerated.Wake | vrp/localsearch.py:158-162 | waking adds the stops not queued, each once, behind those that were |
| LocalSearch.RelocateWakes | vrp/localsearch.py:186-194 | a relocate changes no edge of a stop other than the five it wakes |
| LocalSearch.FlipWakes | vrp/localsearch.py:196-215 | a 2-opt changes no edge of a stop other than the four it wakes |
| Accelerated.AcceleratedSearch | vrp/localsearch.py:116-221 | where deltas are exact it takes turns to an empty queue, at a tour no longer; every stop had no improving move when last looked at and has the same neighbours since; without don't-look bits no move in any granular neighbourhood improves the tour |
| Asymmetric.NeverReturns | vrp/localsearch.py:116-221 | a matrix on which, from three neighbours on and with or without don't-look bits, no number of turns empties the queue |
| Asymmetric.ReturnsLonger | vrp/localsearch.py:116-221 | a matrix on which the turns end at a tour of length eight from one of seven |
| LocalSearch.NaiveIsSettled | vrp/localsearch.py:52-94 | a tour the naive search stops at is settled for every neighbourhood |
| LocalSearch.SettledIsNaive | vrp/localsearch.py:116-221 | with every other stop a neighbour, a settled tour is one the naive search stops at |
| Replay.Epochs | vrp/epochs.py:80-104 | the waves have the given length, the last one short, and a length that is not positive is refused |
| Replay.WavesTile | vrp/epochs.py:80-104 | each wave ends where the next begins and the last ends the day |
| Replay.Classify | vrp/epochs.py:134-142 | the open work split by must-go, in order; an unknown order is refused |
| Replay.MustGoMeans | vrp/epochs.py:107-131 | an order must go exactly when every vehicle, leaving its depot at the next wave or later as its shift and the release dictate, comes after all its hard windows |
| Replay.DecideMeans | vrp/epochs.py:145-179 | every open order goes or waits, no must-go order waits, and the forced ones are the must-go ones the policy left out |
| Replay.KnownByMeans | vrp/replay.py:57-61 | each request arrived by then, once, and no other |
| Replay.KnownInTurn | vrp/replay.py:57-61 | the requests come in the order they arrived, and by identifier where together |
| Replay.Replay | vrp/replay.py:283-348 | the loop's records are those of the run over the first vehicle's shift |
| Replay.DispatchedExactlyOnce | vrp/replay.py:283-348 | for every day and policy, a run dispatches each order arriving by its end exactly once and nothing else |
| Replay.DelayCountsPostponements | vrp/replay.py:99-103 | the run's delay is the epoch length times the postponements over all waves |
| Replay.PostponementIsSafe | vrp/epochs.py:107-131 | over every run, no must-go order is held, and an order held and dispatched later is then still within some vehicle's reach |
| Replay.HonestSucceeds | vrp/epochs.py:165-170 | over known orders a replay finishes whenever the policy names only open orders |
| Diagnose.ReachIsAntitone | vrp/diagnose.py:153-180 | leaving no earlier than a later moment reaches no more |
| Diagnose.FleetFor | vrp/diagnose.py:69-96 | narrowing by one lock after another leaves the vehicles every lock and requirement allows, in order |
| Diagnose.Preflight | vrp/diagnose.py:256-336 | exactly the orders whose chain of checks fails are reported, each under the first check failed or the locks |
| Diagnose.VerdictMeans | vrp/diagnose.py:256-336 | no finding exactly when every check is met by some free vehicle; LOCK_CONFLICT exactly when a failing order was narrowed by a lock |
| Refusals.CodeIsFirstObstacle | vrp/diagnose.py:256-336 | the code is that of the first obstacle, in the promised order, that stands before every vehicle, or LOCK_CONFLICT when a lock grounds a vehicle or names the order |
| Refusals.ReportedExactly | vrp/diagnose.py:69-253 | an order is reported exactly when each vehicle is barred by skill, lock or site, too small, too late from its shift, the release and the leg, out of driving time, or short of stock; or it is released after its windows; or one vehicle at most is left and it has an enemy |
| Diagnose.FewerLocksServe | vrp/diagnose.py:69-96 | taking locks away never makes an order fail the chain |
| Verdicts.ServableIsReportedExactly | vrp/diagnose.py:205-223 | an order some vehicle serves by itself is reported exactly when no second vehicle suits it and it has an enemy |
| Verdicts.FindingIsRealExactly | vrp/diagnose.py:205-223 | such an order cannot be kept from the enemies that can travel by any choice of vans exactly when its van suits one of them and no other does |
| Verdicts.HarmlessPinIsBlamed | vrp/locks.py:61-74 | two vans that serve two orders apart, and a pin reported as the conflict |
| Verdicts.CleanVerdictIsTrusted | vrp/locks.py:61-74 | where one check at most tells the suitable vehicles apart, no finding means some vehicle serves the order exactly when one of them starts from a stocked depot |
| Verdicts.CleanVerdictIsProvisional | vrp/locks.py:61-74 | two vans and a parcel told apart by two checks: no finding, and no single vehicle can serve it |
| Verdicts.StockOfSmallVanCounts | vrp/diagnose.py:226-253 | no finding for an order whose only stocked depot has a van too small for it |
| Locks.IsFeasibleUnderLocks | vrp/locks.py:47-74 | feasible exactly when no order has a finding and, if any lock keeps a vehicle in, some vehicle no lock does |
| Locks.FewerLocksFeasible | vrp/locks.py:91-95 | dropping locks never makes an instance infeasible |
| Locks.FeasibleAsItIs | vrp/locks.py:41-44 | an instance rebuilt with its own locks, and so without its profiles, is feasible exactly when it was |
| Locks.DeletionFilter | vrp/locks.py:108-116 | what survives the filter conflicts and is irreducible |
| Locks.MinimalConflict | vrp/locks.py:77-116 | non-empty exactly when the locks are the cause; then the set conflicts and dropping any one lock restores feasibility |
| Locks.NoProperPartConflicts | vrp/locks.py:91-95 | any part of the set without one of its locks is feasible |
| Locks.EarlyExitChangesNothing | vrp/locks.py:100-106 | when the instance is broken without locks the only irreducible set is empty, so the early exit changes no answer |
| Objective.Compare | vrp/objective.py:240-258 | the sign of the first level that differs |
| Objective.PromisesComeFirst | vrp/objective.py:101-141 | in every mode a broken promise decides, and then an urgent order left |
| Objective.ModesPrefer | vrp/objective.py:101-141 | with those equal, MIN_VEHICLES compares unserved work, then vans, then driving; the three cost modes unserved work and then vans and driving together; PRIZE_COLLECTING all three together; lateness and then imbalance last |
| Objective.TierScales | vrp/objective.py:221-237 | the loop from the bottom gives each level one more than everything beneath it can reach |
| Objective.TotalOfLevels | vrp/objective.py:261-263 | the scaled sum over tiers is the scaled sum over levels |
| Objective.TotalInTiers | vrp/objective.py:261-263 | the total is the seven tiers' values at their own scales |
| Objective.LevelsOrderTotals | vrp/objective.py:221-263 | for any arrangement of levels, covered totals order values as the levels do |
| Objective.TotalsOrderAsCompare | vrp/objective.py:221-263 | under every mode and for all values within the bounds, the sign of the difference of totals is the comparison |
| Objective.ScalesAreTrustedExactly | vrp/objective.py:174-237 | totals order every two plans within some caps as the levels do exactly when nothing beneath a level outgrows its scale |
| Scoring.Operating | vrp/objective.py:287-303 | one route's distance, time and per-order cost at its vehicle's rates, per mode |
| ScoreRules.RouteIsPriced | vrp/objective.py:155-172 | when any vehicle states a price every route is at its own vehicle's rates, otherwise at the objective's with orders free; under MIN_DURATION distance is free and a second costs at least one |
| ScoreRules.DeploymentIsPriced | vrp/objective.py:336-350 | each deployed van adds its own fixed price when any vehicle states a price, otherwise the objective's |
| ScoreRules.TiersAre | vrp/objective.py:306-365 | the tiers hold the orders no route serves, the vans sent out (a count under MIN_VEHICLES), their driving, and the lateness and imbalance given |
| ScoreRules.OneMoreOrder | vrp/objective.py:328-352 | an order left unserved adds one to the urgent when its tier is zero and otherwise its prize, or one, to the rest; a served one adds nothing |
| ScoreRules.BoundsAre | vrp/objective.py:174-212 | every tier's bound, from the matrix's longest legs, the fleet's steepest prices and the orders |
| Scoring.CountedTiersWithin | vrp/objective.py:328-352 | the unserved and fleet tiers of any plan with one working route a vehicle at most are within bounds |
| Scoring.OperatingWithin | vrp/objective.py:189-212 | the operating tier is within its bound when no route has more legs than twice the places, orders travel once and time is priced where the mode charges it |
| LongRounds.TwiceEachIsShort | vrp/objective.py:187 | a route that visits no place more than twice has no more legs than the bound counts |
| LongRounds.ToAndFroExceedsExactly | vrp/objective.py:187-212 | a van alternating between two customers is within the operating bound exactly when its route has no more legs than the bound counts, which is for at most five orders |
| Scoring.ScoresOrderAsTiers | vrp/objective.py:306-365 | two such plans with lateness and imbalance in bounds score in the order their tiers dictate |
| Scoring.UnpricedTimeMisorders | vrp/objective.py:299-302 | under MIN_DURATION with unpriced time, the plan every level prefers scores worse |
| Decompose.CutByDemand | vrp/decompose.py:150-177 | the sweep in at most the wanted runs, none empty, each starting where one is due and going on while none is |
| Decompose.MarksAreFair | vrp/decompose.py:155-161 | a run starts once the runs before it have had their share of demand, and before their last stop they had not |
| Decompose.RunsJoin | vrp/decompose.py:150-177 | the runs joined are the sweep |
| Decompose.SettleShares | vrp/decompose.py:196-203 | both loops terminate with every share at least one and the whole fleet shared, an excess taken from the largest shares only |
| Decompose.AssignVehicles | vrp/decompose.py:180-209 | the fleets are consecutive, non-empty and together the whole fleet, whatever the rounding; it fails exactly with too few vehicles or no clusters |
| Decompose.Partition | vrp/decompose.py:251-290 | window by window the cuts of the sweep: every order in exactly one non-empty cluster of one opening instant, with the settled shares of the fleet, disjoint and using every vehicle |
| Docks.Stagger | vrp/decompose.py:668-702 | the loop hands out the slots in identifier order, failing exactly on an unknown vehicle or a depot without a bay |
| Docks.QueueMeans | vrp/decompose.py:686-688 | every vehicle with work, once, in identifier order |
| Docks.FirstFreeMeans | vrp/decompose.py:696-697 | the bay chosen is the first of those free soonest |
| Docks.BaysSuffice | vrp/decompose.py:668-702 | at every instant no more vehicles load at a depot than it has bays, and none starts before its shift |
| Docks.KthLeavesInTurn | vrp/decompose.py:668-702 | with equal shifts the k-th vehicle leaves k div capacity loadings after the shift starts |
| Depots.DrawnPerDepot | vrp/depots.py:46-67 | what each depot supplies of each dimension over the whole plan |
| Depots.OverDrawn | vrp/depots.py:70-79 | exactly the depots and dimensions beyond their stock, and by how much |
| Depots.LeastWorthFirst | vrp/depots.py:82-94 | no delivery is considered before one of a larger tier number, nor within a tier before one of a smaller prize, nor at equal worth before a smaller identifier |
| Depots.WithdrawFrom | vrp/depots.py:107-117 | the loop withdraws in turn the orders that hold something the depot is still short of |
| Depots.RemainderFits | vrp/depots.py:97-118 | what a depot still supplies fits its stock in every dimension it over-drew |
| Depots.WithdrawnIsNeeded | vrp/depots.py:107-113 | each order withdrawn holds some of a dimension still short at its turn |
| Depots.Withdraw | vrp/depots.py:97-118 | the locks ban exactly the withdrawn orders, from every vehicle of their depot |
| Depots.SomethingIsWithdrawn | vrp/depots.py:151-152 | an over-drawn depot always has something to withdraw |
| Depots.RoundBansMore | vrp/depots.py:18-22 | against an engine that honours its locks, every over-drawn round bans a new pair of order and depot |
| Depots.SolveWithinInventory | vrp/depots.py:121-167 | a plan returned is never over-drawn, and one is returned once the rounds cover every pair; the problem with it keeps its speed profiles exactly when the first plan was within stock or there were none |
| Depots.HonestEngineRunsOut | vrp/depots.py:130-133 | an engine that honours every lock whose first n plans over n empty depots all over-draw |
| Depots.EmptyDepotsAreProper | vrp/model.py:676-683 | those depots make an instance that can be built: each has its own row of the matrix |
| Depots.PairsAreNeeded | vrp/depots.py:130-133 | over those n depots, which make n pairs of order and depot, no plan within stock comes back before more than n solves |
| Tiles.PlanTiles | vrp/matrix.py:61-86 | one tile when the cap allows, otherwise the largest square blocks it does; every cell covered exactly once, no tile above the cap |
| Tiles.RequestMeans | vrp/matrix.py:173-190 | the renumbered indices name the tile's own places, never the filler, among at least two coordinates |
| Tiles.FetchTile | vrp/matrix.py:155-193 | row by row and column by column the answer is the provider's for the tile's places |
| MatrixBuild.PairCache.Get | vrp/matrix.py:118-127 | a hit becomes the newest entry and is counted, a miss only is counted |
| MatrixBuild.PairCache.Put | vrp/matrix.py:129-135 | the pair becomes the newest entry and the oldest go, down to the limit |
| MatrixBuild.RecentlyUsedSurvives | vrp/matrix.py:99-109 | an entry just used survives any uses of fewer other keys than the cache holds |
| MatrixBuild.BuildTile | vrp/matrix.py:246-285 | each cell of a tile is looked up once; a tile held whole shows what the cache holds, a fetched one is right, it fails exactly when a cell is missing and the fetch fails, and with a trusted cache nothing right is spoiled |
| MatrixBuild.BuildLargeMatrix | vrp/matrix.py:240-293 | with a trusted cache every cell is the provider's or unreachable, a failed fetch costs only its own tile, and a matrix not marked degraded is the unchunked one; a cache that holds every pair is believed whatever it says |
| MatrixBuild.TransparentExactly | vrp/matrix.py:89-96 | a cache learnt from the provider gives the provider's matrix, whatever it learnt, exactly when places that round to one key travel alike |
| Electric.Target | vrp/electric.py:159-178 | the rest of the round's consumption and the reserve, capped at full |
| Electric.TargetCarriesHome | vrp/electric.py:159-178 | leaving at the target, every later step holds the reserve exactly when it was not capped; home then holds exactly the reserve and less would not do |
| Electric.OrderIndexMeans | vrp/electric.py:99-108 | a shortfall is blamed on the last order of the route served by then, or the first when none was |
| Electric.ChoiceMeans | vrp/electric.py:111-140 | the charger chosen is the first by identifier within the charge read, left with the reserve over the rest of the round or full |
| Electric.PlanCharging | vrp/electric.py:49-88 | a round that keeps the reserve by itself gets no charge; charges returned are those the repairs arrive at, stand at the vehicle's chargers, keep what every step reports at or above the reserve, and the first of them is reached with charge left or none to spare |
| Electric.ReachedExactly | vrp/electric.py:111-140 | a charger on the round is reached before the battery is empty exactly when the leg to it fits the charge at the step the van leaves |
| RepairRuns.RunKeepsExactly | vrp/electric.py:72-88 | along every run, repairs never go back, and one keeps the van from running flat to a charger exactly when its leg fits the charge at the step the van leaves |
| Stranded.SecondChargeStrands | vrp/electric.py:127-134 | a round where the plan returned reports every step above the reserve and the van leaves for its second charger with 150 for a leg of 850 |
| Electric.ReadsRightStepExactly | vrp/electric.py:127 | the step read for the charge available is the one before the order exactly when no charge is placed earlier |

## Left out

* Driving-hours rules: the scheduler and rules under `vrp/hos` are not part of this model. `route_is_legal`, `schedule_route`, `optimal_departure` and `polish_route` are modelled without their rules branch; `_duty_fits` reads the remaining driving time as a number the vehicle carries.
* Identifiers are natural numbers standing for the source's strings in their own order; capacities, quantities and skills are keyed by them.
* Shipments, reloads, open routes and synchronised pairs: one stop an order, ended at a given place.
* Message texts, solver statistics, matrix versions and elapsed times.
* The gateway, HTTP and file formats: a matrix provider is a function of two places that may fail to answer a tile, and snapping is absent.
* Floating point: the sweep is any rearrangement, the demand target a comparison of products, and every rounding of a share or a group count an arbitrary whole number.
- Tsptw.Sequence: every arc among the depot, the stops and home is required to exist; the source raises on a missing one. The same holds of `Departure`, `Polish`, `LocalSearch` and `Scoring`; the timeline, the charging pass and the checks of `Diagnose` model the missing arc itself.
- Sequencing.TsptwSequence: a van without an end place goes back to its start, as `ends_at` says; the source looks the missing place up and raises (`vrp/polish.py:222`).
- LocalSearch.NaiveSearch: the count of candidate evaluations is returned but not specified, here and in the accelerated search.
- Accelerated.AcceleratedSearch: the stops are symmetric among themselves, since elsewhere the search need not return (`Asymmetric.NeverReturns`); what its turns do on any matrix is `Accelerated.After`. With don't-look bits on, the tour is settled stop by stop as of each stop's last look, not as a whole: a move elsewhere can make a rested stop's move improving again, and the source does not promise otherwise.
- Departure.ScheduleRoute: reads a stop's first window and free-flow legs only, as the source's departure pass does; loads are not carried along.
- Replay.Replay: routing cost, provisional vehicle moves and their prices are not modelled; the records keep dispatch, postponement, must-go, forced work and delay.
- Tsptw.AnswerIsLegal: legal means begun inside the hull of the hard windows, as in the source; `Gaps` says when that is inside one of them.
- Scoring.ScoresOrderAsTiers: lateness and imbalance are hypotheses, since they come from other modules and their bounds are not theirs to keep.
- Decompose.Partition: building the sub-problem with its own matrix is left out, as are `popmusic`, boundary repair and recombination.
- Electric.PlanCharging: that the van reaches every charger of its plan is not promised, because it is false of the code; `ReachedExactly` says when it does.
* The hit rate of the cache and the calibration of profiles: easy members.
