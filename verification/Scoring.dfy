/** What a plan scores in each tier, and the instance-derived bounds the scales rest on
    (`tier_bounds`, `rates`, `_operating` and `score` of vrp/objective.py). Lateness and
    imbalance come from other modules and are parameters here. */
module Scoring {
  import opened Common
  import opened Model
  import opened Objective

  datatype PlanStep = PlanStep(location: Id, order: Option<Id>)

  datatype Route = Route(vehicle: Id, steps: seq<PlanStep>)

  datatype ObjectiveSpec = ObjectiveSpec(mode: Mode, vehicleFixedCost: nat, costPerMetre: nat, costPerSecond: nat)

  datatype Rates = Rates(fixed: nat, perMetre: nat, perSecond: nat, perOrder: nat)

  // ------------------------------------------------------------------
  // Rates
  // ------------------------------------------------------------------

  predicate FleetPricesItself(p: Problem) {
    exists v :: v in p.vehicles && (v.fixedCost > 0 || v.costPerMetre > 0 || v.costPerSecond > 0 || v.costPerOrder > 0)
  }

  function RatesOf(p: Problem, spec: ObjectiveSpec, v: Vehicle): Rates {
    if FleetPricesItself(p) then Rates(v.fixedCost, v.costPerMetre, v.costPerSecond, v.costPerOrder)
    else Rates(spec.vehicleFixedCost, spec.costPerMetre, spec.costPerSecond, 0)
  }

  // ------------------------------------------------------------------
  // Bounds
  // ------------------------------------------------------------------

  function RowPeak(row: seq<int>): int
    requires row != []
  {
    if |row| == 1 then row[0] else Max(row[0], RowPeak(row[1..]))
  }

  /** The largest cell of a grid, zero for an empty one. */
  function Peak(grid: seq<seq<int>>): int
    requires forall row :: row in grid ==> row != []
  {
    if grid == [] then 0
    else
      assert grid[0] in grid && forall row :: row in grid[1..] ==> row in grid;
      if |grid| == 1 then RowPeak(grid[0]) else Max(RowPeak(grid[0]), Peak(grid[1..]))
  }

  lemma {:induction false} RowPeakIsLargest(row: seq<int>, j: nat)
    requires j < |row|
    ensures row[j] <= RowPeak(row)
  {
    if j > 0 {
      RowPeakIsLargest(row[1..], j - 1);
    }
  }

  lemma {:induction false} PeakIsLargest(grid: seq<seq<int>>, i: nat, j: nat)
    requires forall row :: row in grid ==> row != []
    requires i < |grid| && j < |grid[i]|
    ensures grid[i][j] <= Peak(grid)
  {
    assert grid[0] in grid && forall row :: row in grid[1..] ==> row in grid;
    if i > 0 {
      PeakIsLargest(grid[1..], i - 1, j);
    } else {
      RowPeakIsLargest(grid[0], j);
    }
  }

  ghost predicate Filled(p: Problem) {
    && (forall row :: row in p.matrix.distances ==> row != [])
    && (forall row :: row in p.matrix.durations ==> row != [])
  }

  function SumOf(xs: seq<int>): int {
    if xs == [] then 0 else xs[0] + SumOf(xs[1..])
  }

  function Largest(xs: seq<nat>): nat {
    if xs == [] then 0 else Max(xs[0], Largest(xs[1..]))
  }

  function Urgent(orders: seq<Order>): nat {
    if orders == [] then 0 else (if orders[0].priorityTier == 0 then 1 else 0) + Urgent(orders[1..])
  }

  function Prizes(orders: seq<Order>): nat {
    if orders == [] then 0 else Max(orders[0].prize, 1) + Prizes(orders[1..])
  }

  /** The most one route, and all of them, can drive if none visits more than every place twice. */
  function FarthestRoute(p: Problem): int
    requires Filled(p)
  {
    Peak(p.matrix.distances) * Max(Size(p), 1) * 2
  }

  function LongestRoute(p: Problem): int
    requires Filled(p)
  {
    Peak(p.matrix.durations) * Max(Size(p), 1) * 2
  }

  function FixedCosts(vs: seq<Vehicle>): seq<nat> {
    seq(|vs|, k requires 0 <= k < |vs| => vs[k].fixedCost)
  }

  function MetreCosts(vs: seq<Vehicle>): seq<nat> {
    seq(|vs|, k requires 0 <= k < |vs| => vs[k].costPerMetre)
  }

  function SecondCosts(vs: seq<Vehicle>): seq<nat> {
    seq(|vs|, k requires 0 <= k < |vs| => vs[k].costPerSecond)
  }

  function OrderCosts(vs: seq<Vehicle>): seq<nat> {
    seq(|vs|, k requires 0 <= k < |vs| => vs[k].costPerOrder)
  }

  /** `tier_bounds`. */
  function TierBounds(p: Problem, spec: ObjectiveSpec): TierValues
    requires Filled(p)
  {
    var n, vans := |p.orders|, |p.vehicles|;
    var far, long := FarthestRoute(p) * Max(vans, 1), LongestRoute(p) * Max(vans, 1);
    map[HARD := Max(n * 4, 1),
        UNSERVED_P0 := Max(Urgent(p.orders), 1),
        UNSERVED := Max(Max(Prizes(p.orders), n), 1),
        FLEET := Max(Max(Max(SumOf(FixedCosts(p.vehicles)), vans * spec.vehicleFixedCost), vans), 1),
        OPERATING := Max(Max(far * spec.costPerMetre + long * spec.costPerSecond,
                             far * Largest(MetreCosts(p.vehicles)) + long * Largest(SecondCosts(p.vehicles))
                             + n * Largest(OrderCosts(p.vehicles))), 1),
        SOFT := Max(long, 1),
        QUALITY := Max(Max(Max(far, long), n), 1)]
  }

  // ------------------------------------------------------------------
  // Scoring
  // ------------------------------------------------------------------

  function Served(routes: seq<Route>): set<Id> {
    set r, s | r in routes && s in r.steps && s.order.Some? :: s.order.value
  }

  function Unassigned(orders: seq<Order>, served: set<Id>): seq<Order> {
    if orders == [] then []
    else if orders[0].id in served then Unassigned(orders[1..], served)
    else [orders[0]] + Unassigned(orders[1..], served)
  }

  function LaterPrizes(orders: seq<Order>): nat {
    if orders == [] then 0
    else (if orders[0].priorityTier != 0 then Max(orders[0].prize, 1) else 0) + LaterPrizes(orders[1..])
  }

  predicate Works(r: Route) {
    exists s :: s in r.steps && s.order.Some?
  }

  /** The routes that carry something: an empty one was never deployed. */
  function Working(routes: seq<Route>): seq<Route> {
    if routes == [] then []
    else if Works(routes[0]) then [routes[0]] + Working(routes[1..])
    else Working(routes[1..])
  }

  /** The route's vehicle exists and every leg of it has a distance and a duration. */
  ghost predicate Drivable(p: Problem, r: Route) {
    && VehicleOf(p.vehicles, r.vehicle).Some?
    && (forall s :: s in r.steps ==> s.location in p.locations)
    && forall k :: 0 < k < |r.steps| ==> Joined(p, r.steps[k - 1].location, r.steps[k].location)
  }

  ghost predicate Joined(p: Problem, a: Id, b: Id)
    requires a in p.locations && b in p.locations
  {
    var from, to := p.locations[a].matrixIndex, p.locations[b].matrixIndex;
    && from < |p.matrix.distances| && to < |p.matrix.distances[from]|
    && from < |p.matrix.durations| && to < |p.matrix.durations[from]|
    && p.matrix.distances[from][to] >= 0 && p.matrix.durations[from][to] >= 0
  }

  function Cell(grid: seq<seq<int>>, p: Problem, a: Id, b: Id): int {
    if a in p.locations && b in p.locations then
      var from, to := p.locations[a].matrixIndex, p.locations[b].matrixIndex;
      if from < |grid| && to < |grid[from]| then grid[from][to] else 0
    else 0
  }

  /** The first `k` legs of a route, added up over one grid. */
  function Driven(grid: seq<seq<int>>, p: Problem, steps: seq<PlanStep>, k: nat): int
    requires k < |steps| || k == 0
  {
    if k == 0 then 0
    else Driven(grid, p, steps, k - 1) + Cell(grid, p, steps[k - 1].location, steps[k].location)
  }

  function Legs(r: Route): nat {
    if r.steps == [] then 0 else |r.steps| - 1
  }

  function Carried(steps: seq<PlanStep>): nat {
    if steps == [] then 0 else (if steps[0].order.Some? then 1 else 0) + Carried(steps[1..])
  }

  function RouteCost(p: Problem, spec: ObjectiveSpec, r: Route): int
    requires Drivable(p, r)
  {
    var rates := RatesOf(p, spec, VehicleOf(p.vehicles, r.vehicle).value);
    var metres, seconds := Driven(p.matrix.distances, p, r.steps, Legs(r)), Driven(p.matrix.durations, p, r.steps, Legs(r));
    if spec.mode == MIN_DURATION then seconds * Max(rates.perSecond, 1) + Carried(r.steps) * rates.perOrder
    else metres * rates.perMetre + seconds * rates.perSecond + Carried(r.steps) * rates.perOrder
  }

  /** `_operating`, leg by leg. */
  method Operating(p: Problem, spec: ObjectiveSpec, r: Route) returns (cost: int)
    requires Drivable(p, r)
    ensures cost == RouteCost(p, spec, r)
  {
    var rates := RatesOf(p, spec, VehicleOf(p.vehicles, r.vehicle).value);
    var metres, seconds, k := 0, 0, 0;
    while k + 1 < |r.steps|
      invariant k <= Legs(r)
      invariant metres == Driven(p.matrix.distances, p, r.steps, k)
      invariant seconds == Driven(p.matrix.durations, p, r.steps, k)
    {
      assert Joined(p, r.steps[k].location, r.steps[k + 1].location);
      var from, to := p.locations[r.steps[k].location].matrixIndex, p.locations[r.steps[k + 1].location].matrixIndex;
      metres, seconds := metres + p.matrix.distances[from][to], seconds + p.matrix.durations[from][to];
      k := k + 1;
    }
    var perJob := Carried(r.steps) * rates.perOrder;
    if spec.mode == MIN_DURATION {
      return seconds * Max(rates.perSecond, 1) + perJob;
    }
    return metres * rates.perMetre + seconds * rates.perSecond + perJob;
  }

  function OperatingCost(p: Problem, spec: ObjectiveSpec, routes: seq<Route>): int
    requires forall r :: r in routes ==> Drivable(p, r)
  {
    if routes == [] then 0 else RouteCost(p, spec, routes[0]) + OperatingCost(p, spec, routes[1..])
  }

  function FixedCost(p: Problem, spec: ObjectiveSpec, routes: seq<Route>): nat
    requires forall r :: r in routes ==> VehicleOf(p.vehicles, r.vehicle).Some?
  {
    if routes == [] then 0
    else RatesOf(p, spec, VehicleOf(p.vehicles, routes[0].vehicle).value).fixed + FixedCost(p, spec, routes[1..])
  }

  lemma {:induction false} WorkingMembers(routes: seq<Route>)
    ensures forall r :: r in Working(routes) <==> r in routes && Works(r)
  {
    if routes != [] {
      WorkingMembers(routes[1..]);
      assert routes == [routes[0]] + routes[1..];
    }
  }

  ghost predicate Costable(p: Problem, routes: seq<Route>) {
    forall r :: r in routes ==> Drivable(p, r)
  }

  /** The tier values `score` fills, given the plan's lateness and imbalance. */
  function Score(p: Problem, spec: ObjectiveSpec, routes: seq<Route>, soft: nat, quality: nat): TierValues
    requires Costable(p, routes)
  {
    var left := Unassigned(p.orders, Served(routes));
    WorkingMembers(routes);
    var working := Working(routes);
    map[HARD := 0, UNSERVED_P0 := Urgent(left), UNSERVED := LaterPrizes(left),
        FLEET := if spec.mode == MIN_VEHICLES then |working| else FixedCost(p, spec, working),
        OPERATING := OperatingCost(p, spec, working), SOFT := soft, QUALITY := quality]
  }

  // ------------------------------------------------------------------
  // Which tiers stay within their bounds
  // ------------------------------------------------------------------

  lemma {:induction false} UnservedWithin(orders: seq<Order>, served: set<Id>)
    ensures Urgent(Unassigned(orders, served)) <= Urgent(orders)
    ensures LaterPrizes(Unassigned(orders, served)) <= Prizes(orders)
  {
    if orders != [] {
      UnservedWithin(orders[1..], served);
    }
  }

  function Drop(ids: seq<Id>, id: Id): seq<Id> {
    if ids == [] then []
    else if ids[0] == id then Drop(ids[1..], id)
    else [ids[0]] + Drop(ids[1..], id)
  }

  lemma {:induction false} DropMembers(ids: seq<Id>, id: Id)
    ensures forall x :: x in Drop(ids, id) <==> x in ids && x != id
    ensures NoRepeats(ids) ==> NoRepeats(Drop(ids, id)) && |ids| <= |Drop(ids, id)| + 1
    ensures NoRepeats(ids) && id !in ids ==> Drop(ids, id) == ids
  {
    if ids != [] {
      DropMembers(ids[1..], id);
      assert ids == [ids[0]] + ids[1..];
      if NoRepeats(ids) {
        assert ids[0] !in ids[1..];
        if ids[0] == id {
          assert Drop(ids[1..], id) == ids[1..];
        }
      }
    }
  }

  /** What the vehicles with these identifiers cost to deploy, when the fleet states its own prices. */
  function PricedFleet(vs: seq<Vehicle>, ids: seq<Id>): nat {
    if ids == [] then 0
    else (var v := VehicleOf(vs, ids[0]); if v.Some? then v.value.fixedCost else 0) + PricedFleet(vs, ids[1..])
  }

  lemma {:induction false} PricedWithoutFirst(vs: seq<Vehicle>, ids: seq<Id>)
    requires vs != [] && NoRepeats(ids)
    ensures PricedFleet(vs, ids) <= vs[0].fixedCost + PricedFleet(vs[1..], Drop(ids, vs[0].id))
    ensures vs[0].id !in ids ==> PricedFleet(vs, ids) == PricedFleet(vs[1..], Drop(ids, vs[0].id))
  {
    if ids != [] {
      assert ids == [ids[0]] + ids[1..];
      assert ids[0] !in ids[1..];
      PricedWithoutFirst(vs, ids[1..]);
    }
  }

  /** Distinct vehicles cost at most the whole fleet. */
  lemma {:induction false} PricedWithin(vs: seq<Vehicle>, ids: seq<Id>)
    requires NoRepeats(ids)
    ensures PricedFleet(vs, ids) <= SumOf(FixedCosts(vs))
  {
    if vs == [] {
      PricedNothing(ids);
    } else {
      DropMembers(ids, vs[0].id);
      PricedWithoutFirst(vs, ids);
      PricedWithin(vs[1..], Drop(ids, vs[0].id));
      assert FixedCosts(vs)[1..] == FixedCosts(vs[1..]);
    }
  }

  lemma {:induction false} PricedNothing(ids: seq<Id>)
    ensures PricedFleet([], ids) == 0
  {
    if ids != [] {
      PricedNothing(ids[1..]);
    }
  }

  /** There are no more distinct identifiers than vehicles carrying them. */
  lemma {:induction false} CountWithin(vs: seq<Vehicle>, ids: seq<Id>)
    requires NoRepeats(ids) && forall id :: id in ids ==> VehicleOf(vs, id).Some?
    ensures |ids| <= |vs|
  {
    if vs == [] {
      assert forall id :: id in ids ==> VehicleOf(vs, id).None?;
      if ids != [] {
        HasMember(ids);
      }
    } else {
      DropMembers(ids, vs[0].id);
      CountWithin(vs[1..], Drop(ids, vs[0].id));
    }
  }

  function VehiclesOn(routes: seq<Route>): seq<Id> {
    seq(|routes|, k requires 0 <= k < |routes| => routes[k].vehicle)
  }

  lemma {:induction false} FixedIsPriced(p: Problem, spec: ObjectiveSpec, routes: seq<Route>)
    requires Costable(p, routes)
    ensures FleetPricesItself(p) ==> FixedCost(p, spec, routes) == PricedFleet(p.vehicles, VehiclesOn(routes))
    ensures !FleetPricesItself(p) ==> FixedCost(p, spec, routes) == |routes| * spec.vehicleFixedCost
  {
    hide FleetPricesItself;
    if routes != [] {
      FixedIsPriced(p, spec, routes[1..]);
      assert routes[0] in routes && VehiclesOn(routes)[0] == routes[0].vehicle;
      assert VehiclesOn(routes)[1..] == VehiclesOn(routes[1..]);
      Distribute(1, |routes[1..]|, spec.vehicleFixedCost);
    }
  }

  lemma {:induction false} FleetWithin(p: Problem, spec: ObjectiveSpec, working: seq<Route>)
    requires Costable(p, working) && NoRepeats(VehiclesOn(working))
    ensures |working| <= |p.vehicles|
    ensures FixedCost(p, spec, working) <= Max(SumOf(FixedCosts(p.vehicles)), |p.vehicles| * spec.vehicleFixedCost)
  {
    var ids := VehiclesOn(working);
    forall id | id in ids
      ensures VehicleOf(p.vehicles, id).Some?
    {
      var k :| 0 <= k < |ids| && ids[k] == id;
      assert working[k] in working;
    }
    CountWithin(p.vehicles, ids);
    PricedWithin(p.vehicles, ids);
    FixedIsPriced(p, spec, working);
    MulMonotone(|working|, |p.vehicles|, spec.vehicleFixedCost);
  }

  /** The violation, unserved and fleet tiers of any plan giving each vehicle at most one
      working route are within the bounds the scales are built from. */
  lemma {:induction false} CountedTiersWithin(p: Problem, spec: ObjectiveSpec, routes: seq<Route>, soft: nat, quality: nat)
    requires Filled(p) && Costable(p, routes) && NoRepeats(VehiclesOn(Working(routes)))
    ensures var values, bounds := Score(p, spec, routes, soft, quality), TierBounds(p, spec);
            forall t :: t in {HARD, UNSERVED_P0, UNSERVED, FLEET} ==> 0 <= At(values, t) <= At(bounds, t)
  {
    WorkingMembers(routes);
    UnservedWithin(p.orders, Served(routes));
    FleetWithin(p, spec, Working(routes));
  }

  // ------------------------------------------------------------------
  // Operating cost
  // ------------------------------------------------------------------

  /** The route has no more legs than visiting every place twice takes. */
  predicate Short(p: Problem, r: Route) {
    Legs(r) <= Max(Size(p), 1) * 2
  }

  function AllCarried(routes: seq<Route>): nat {
    if routes == [] then 0 else Carried(routes[0].steps) + AllCarried(routes[1..])
  }

  lemma {:induction false} DrivenWithin(p: Problem, r: Route, k: nat)
    requires Drivable(p, r) && Filled(p) && k <= Legs(r)
    ensures 0 <= Driven(p.matrix.distances, p, r.steps, k) <= k * Peak(p.matrix.distances)
    ensures 0 <= Driven(p.matrix.durations, p, r.steps, k) <= k * Peak(p.matrix.durations)
  {
    if k > 0 {
      DrivenWithin(p, r, k - 1);
      var a, b := r.steps[k - 1].location, r.steps[k].location;
      assert Joined(p, a, b);
      var from, to := p.locations[a].matrixIndex, p.locations[b].matrixIndex;
      PeakIsLargest(p.matrix.distances, from, to);
      PeakIsLargest(p.matrix.durations, from, to);
      Distribute(k - 1, 1, Peak(p.matrix.distances));
      Distribute(k - 1, 1, Peak(p.matrix.durations));
    }
  }

  /** The matrix joins at least one pair of places. */
  ghost predicate Connected(p: Problem) {
    Filled(p) && Peak(p.matrix.distances) >= 0 && Peak(p.matrix.durations) >= 0
  }

  lemma {:induction false} RouteWithin(p: Problem, r: Route)
    requires Drivable(p, r) && Connected(p) && Short(p, r)
    ensures 0 <= Driven(p.matrix.distances, p, r.steps, Legs(r)) <= FarthestRoute(p)
    ensures 0 <= Driven(p.matrix.durations, p, r.steps, Legs(r)) <= LongestRoute(p)
  {
    DrivenWithin(p, r, Legs(r));
    TwiceRound(Legs(r), Peak(p.matrix.distances), Max(Size(p), 1));
    TwiceRound(Legs(r), Peak(p.matrix.durations), Max(Size(p), 1));
  }

  lemma {:induction false} TwiceRound(legs: nat, peak: int, places: nat)
    requires legs <= places * 2 && peak >= 0
    ensures legs * peak <= peak * places * 2
  {
    MulMonotone(legs, places * 2, peak);
  }

  /** Rates no higher than these on any vehicle. */
  ghost predicate Capped(p: Problem, spec: ObjectiveSpec, caps: Rates) {
    forall v :: v in p.vehicles ==>
      var rates := RatesOf(p, spec, v);
      && rates.perMetre <= caps.perMetre && rates.perSecond <= caps.perSecond && rates.perOrder <= caps.perOrder
      && (spec.mode == MIN_DURATION ==> rates.perSecond >= 1)
  }

  lemma {:induction false} CostWithin(metres: int, seconds: int, carried: nat, rates: Rates, caps: Rates, far: int, long: int)
    requires 0 <= metres <= far && 0 <= seconds <= long
    requires rates.perMetre <= caps.perMetre && rates.perSecond <= caps.perSecond && rates.perOrder <= caps.perOrder
    ensures 0 <= metres * rates.perMetre <= far * caps.perMetre
    ensures 0 <= seconds * rates.perSecond <= long * caps.perSecond
    ensures 0 <= carried * rates.perOrder <= carried * caps.perOrder
  {
    MulMonotone(metres, far, rates.perMetre);
    MulMonotone(rates.perMetre, caps.perMetre, far);
    MulMonotone(seconds, long, rates.perSecond);
    MulMonotone(rates.perSecond, caps.perSecond, long);
    MulMonotone(rates.perOrder, caps.perOrder, carried);
    MulMonotone(0, rates.perMetre, metres);
    MulMonotone(0, rates.perSecond, seconds);
    MulMonotone(0, rates.perOrder, carried);
  }

  lemma {:induction false} RouteCostWithin(p: Problem, spec: ObjectiveSpec, r: Route, caps: Rates)
    requires Drivable(p, r) && Connected(p) && Short(p, r) && Capped(p, spec, caps)
    ensures 0 <= RouteCost(p, spec, r)
         <= FarthestRoute(p) * caps.perMetre + LongestRoute(p) * caps.perSecond + Carried(r.steps) * caps.perOrder
  {
    hide FleetPricesItself, RatesOf, Driven;
    RouteWithin(p, r);
    CostWithin(Driven(p.matrix.distances, p, r.steps, Legs(r)), Driven(p.matrix.durations, p, r.steps, Legs(r)),
               Carried(r.steps), RatesOf(p, spec, VehicleOf(p.vehicles, r.vehicle).value), caps,
               FarthestRoute(p), LongestRoute(p));
  }

  lemma {:induction false} RoutesCostWithin(p: Problem, spec: ObjectiveSpec, routes: seq<Route>, caps: Rates)
    requires Costable(p, routes) && Connected(p) && Capped(p, spec, caps)
    requires forall r :: r in routes ==> Short(p, r)
    ensures 0 <= OperatingCost(p, spec, routes)
         <= |routes| * (FarthestRoute(p) * caps.perMetre + LongestRoute(p) * caps.perSecond)
            + AllCarried(routes) * caps.perOrder
  {
    hide Capped, Short, Drivable, FarthestRoute, LongestRoute, RouteCost, Peak;
    if routes != [] {
      assert routes[0] in routes && forall r :: r in routes[1..] ==> r in routes;
      RouteCostWithin(p, spec, routes[0], caps);
      RoutesCostWithin(p, spec, routes[1..], caps);
      var most := FarthestRoute(p) * caps.perMetre + LongestRoute(p) * caps.perSecond;
      Distribute(1, |routes[1..]|, most);
      Distribute(Carried(routes[0].steps), AllCarried(routes[1..]), caps.perOrder);
    }
  }

  lemma {:induction false} LargestIsMost(xs: seq<nat>, k: nat)
    requires k < |xs|
    ensures xs[k] <= Largest(xs)
  {
    if k > 0 {
      LargestIsMost(xs[1..], k - 1);
    }
  }

  /** MIN_DURATION charges at least one unit a second, so there every vehicle must price its time. */
  predicate PricesTime(p: Problem, spec: ObjectiveSpec) {
    spec.mode == MIN_DURATION ==> forall v :: v in p.vehicles ==> RatesOf(p, spec, v).perSecond >= 1
  }

  function CapsOf(p: Problem, spec: ObjectiveSpec): Rates {
    if FleetPricesItself(p) then
      Rates(0, Largest(MetreCosts(p.vehicles)), Largest(SecondCosts(p.vehicles)), Largest(OrderCosts(p.vehicles)))
    else Rates(0, spec.costPerMetre, spec.costPerSecond, 0)
  }

  lemma {:induction false} CapsHold(p: Problem, spec: ObjectiveSpec)
    requires PricesTime(p, spec)
    ensures Capped(p, spec, CapsOf(p, spec))
  {
    hide FleetPricesItself;
    forall v | v in p.vehicles
      ensures v.costPerMetre <= Largest(MetreCosts(p.vehicles))
      ensures v.costPerSecond <= Largest(SecondCosts(p.vehicles))
      ensures v.costPerOrder <= Largest(OrderCosts(p.vehicles))
    {
      var k :| 0 <= k < |p.vehicles| && p.vehicles[k] == v;
      LargestIsMost(MetreCosts(p.vehicles), k);
      LargestIsMost(SecondCosts(p.vehicles), k);
      LargestIsMost(OrderCosts(p.vehicles), k);
    }
  }

  lemma {:induction false} Regroup(far: int, long: int, n: int, a: int, b: int)
    ensures n * (far * a + long * b) == far * n * a + long * n * b
  {
  }

  /** The legs fit, every order travels once, and time is priced where the mode needs it. */
  ghost predicate Ordinary(p: Problem, spec: ObjectiveSpec, routes: seq<Route>) {
    && Connected(p) && Costable(p, routes) && NoRepeats(VehiclesOn(Working(routes)))
    && (forall r :: r in Working(routes) ==> Short(p, r)) && AllCarried(Working(routes)) <= |p.orders|
    && PricesTime(p, spec)
  }

  lemma {:induction false} ManyRoutesWithin(cost: int, routes: nat, vans: nat, far: int, long: int, carried: nat, n: nat,
                                            caps: Rates)
    requires 0 <= cost <= routes * (far * caps.perMetre + long * caps.perSecond) + carried * caps.perOrder
    requires routes <= vans && 0 <= far && 0 <= long && carried <= n
    ensures cost <= far * Max(vans, 1) * caps.perMetre + long * Max(vans, 1) * caps.perSecond + n * caps.perOrder
  {
    var most := far * caps.perMetre + long * caps.perSecond;
    MulMonotone(0, far, caps.perMetre);
    MulMonotone(0, long, caps.perSecond);
    MulMonotone(routes, Max(vans, 1), most);
    MulMonotone(carried, n, caps.perOrder);
    Regroup(far, long, Max(vans, 1), caps.perMetre, caps.perSecond);
  }

  lemma {:induction false} RoutesAreReal(p: Problem)
    requires Connected(p)
    ensures FarthestRoute(p) >= 0 && LongestRoute(p) >= 0
  {
    MulMonotone(0, Peak(p.matrix.distances), Max(Size(p), 1));
    MulMonotone(0, Peak(p.matrix.durations), Max(Size(p), 1));
  }

  lemma {:induction false} OperatingWithin(p: Problem, spec: ObjectiveSpec, routes: seq<Route>, soft: nat, quality: nat)
    requires Ordinary(p, spec, routes)
    ensures 0 <= At(Score(p, spec, routes, soft, quality), OPERATING) <= At(TierBounds(p, spec), OPERATING)
  {
    hide FleetPricesItself, Capped, Short, RouteCost, Peak, FarthestRoute, LongestRoute, Drivable, Largest, FixedCost,
         Unassigned, Served, PricesTime;
    var working, caps := Working(routes), CapsOf(p, spec);
    WorkingMembers(routes);
    CapsHold(p, spec);
    FleetWithin(p, spec, working);
    RoutesAreReal(p);
    RoutesCostWithin(p, spec, working, caps);
    ManyRoutesWithin(OperatingCost(p, spec, working), |working|, |p.vehicles|, FarthestRoute(p), LongestRoute(p),
                     AllCarried(working), |p.orders|, caps);
  }

  /** Two ordinary plans whose lateness and imbalance are within bounds score, as one number,
      in the order their tiers dictate. */
  lemma {:induction false} ScoresOrderAsTiers(p: Problem, spec: ObjectiveSpec, a: seq<Route>, softA: nat, qualityA: nat,
                                              b: seq<Route>, softB: nat, qualityB: nat)
    requires Ordinary(p, spec, a) && Ordinary(p, spec, b)
    requires softA <= At(TierBounds(p, spec), SOFT) && softB <= At(TierBounds(p, spec), SOFT)
    requires qualityA <= At(TierBounds(p, spec), QUALITY) && qualityB <= At(TierBounds(p, spec), QUALITY)
    ensures OrderAgrees(spec.mode, TierBounds(p, spec), Score(p, spec, a, softA, qualityA), Score(p, spec, b, softB, qualityB))
  {
    hide OrderAgrees;
    PlanWithin(p, spec, a, softA, qualityA);
    PlanWithin(p, spec, b, softB, qualityB);
    TotalsOrderAsCompare(spec.mode, TierBounds(p, spec), Score(p, spec, a, softA, qualityA), Score(p, spec, b, softB, qualityB));
  }

  lemma {:induction false} PlanWithin(p: Problem, spec: ObjectiveSpec, routes: seq<Route>, soft: nat, quality: nat)
    requires Ordinary(p, spec, routes)
    requires soft <= At(TierBounds(p, spec), SOFT) && quality <= At(TierBounds(p, spec), QUALITY)
    ensures Within(Score(p, spec, routes, soft, quality), TierBounds(p, spec))
  {
    CountedTiersWithin(p, spec, routes, soft, quality);
    OperatingWithin(p, spec, routes, soft, quality);
    var values, bounds := Score(p, spec, routes, soft, quality), TierBounds(p, spec);
    forall t: Tier
      ensures 0 <= At(values, t) <= At(bounds, t)
    {
      assert t in {HARD, UNSERVED_P0, UNSERVED, FLEET} || t == OPERATING || t == SOFT || t == QUALITY;
    }
  }

  // ------------------------------------------------------------------
  // MIN_DURATION with unpriced time
  // ------------------------------------------------------------------

  function OneDrop(): Order {
    OrderSpec(0, map[], None, Some(Stop(1, [], 0, 0, None)), 1, 1, 0, {}, None, {})
  }

  function OneVan(): Vehicle {
    Vehicle(0, map[], WindowSpec(0, 9000, Hard), 0, None, {}, 1000, None, None, None, None, 0, 0, 0, 0, 0, 0)
  }

  /** Two places a thousand seconds and no metres apart, one order, one van with no prices of its own. */
  function AcrossTown(): Problem {
    Problem(map[0 := Location(0, 0, 0, None, None, {}, None), 1 := Location(1, 1, 0, None, None, {}, None)],
            [OneDrop()], [OneVan()], Matrix([[0, 1000], [1000, 0]], [[0, 0], [0, 0]]), [], None, None)
  }

  /** The source's default prices. */
  function Defaults(): ObjectiveSpec {
    ObjectiveSpec(MIN_DURATION, 50000, 1, 0)
  }

  function OutAndBack(): Route {
    Route(0, [PlanStep(0, None), PlanStep(1, Some(0)), PlanStep(0, None)])
  }

  lemma {:induction false} LevelStep(level: seq<Tier>, rest: seq<seq<Tier>>, values: TierValues, bounds: TierValues)
    ensures Reach([level] + rest, bounds) == Reach(rest, bounds) + LevelSum(bounds, level) * (Reach(rest, bounds) + 1)
    ensures ByLevel([level] + rest, values, bounds)
         == LevelSum(values, level) * (Reach(rest, bounds) + 1) + ByLevel(rest, values, bounds)
  {
    assert ([level] + rest)[1..] == rest;
  }

  lemma {:induction false} EmptyLevel(level: seq<Tier>, rest: seq<seq<Tier>>, values: TierValues, bounds: TierValues)
    requires LevelSum(values, level) == 0
    ensures Reach([level] + rest, bounds) == Reach(rest, bounds) + LevelSum(bounds, level) * (Reach(rest, bounds) + 1)
    ensures ByLevel([level] + rest, values, bounds) == ByLevel(rest, values, bounds)
  {
    LevelStep(level, rest, values, bounds);
  }

  lemma {:induction false} OneTier(values: TierValues, t: Tier)
    ensures LevelSum(values, [t]) == At(values, t)
  {
  }

  lemma {:induction false} TwoTiers(values: TierValues, a: Tier, b: Tier)
    ensures LevelSum(values, [a, b]) == At(values, a) + At(values, b)
  {
    assert [a, b][1..] == [b];
    OneTier(values, b);
  }

  /** What the lower levels can reach, and what a plan holds there, when fleet and operating cost are traded. */
  lemma {:induction false} TradedLevels(values: TierValues, bounds: TierValues) returns (levels: seq<seq<Tier>>)
    requires At(values, SOFT) == 0 && At(values, QUALITY) == 0
    ensures levels == [[FLEET, OPERATING], [SOFT], [QUALITY]]
    ensures var beneath := At(bounds, QUALITY) + At(bounds, SOFT) * (At(bounds, QUALITY) + 1);
            && Reach(levels, bounds) == beneath + (At(bounds, FLEET) + At(bounds, OPERATING)) * (beneath + 1)
            && ByLevel(levels, values, bounds) == (At(values, FLEET) + At(values, OPERATING)) * (beneath + 1)
  {
    var none: seq<seq<Tier>> := [];
    var q := [[QUALITY]] + none;
    var s := [[SOFT]] + q;
    OneTier(values, QUALITY);
    OneTier(bounds, QUALITY);
    EmptyLevel([QUALITY], none, values, bounds);
    OneTier(values, SOFT);
    OneTier(bounds, SOFT);
    EmptyLevel([SOFT], q, values, bounds);
    TwoTiers(values, FLEET, OPERATING);
    TwoTiers(bounds, FLEET, OPERATING);
    LevelStep([FLEET, OPERATING], s, values, bounds);
    levels := [[FLEET, OPERATING]] + s;
  }

  /** How a plan's total reads under the traded levels. */
  lemma {:induction false} TradedTotal(values: TierValues, bounds: TierValues)
    requires At(values, HARD) == 0 && At(values, UNSERVED_P0) == 0 && At(values, SOFT) == 0 && At(values, QUALITY) == 0
    ensures var beneath := At(bounds, QUALITY) + At(bounds, SOFT) * (At(bounds, QUALITY) + 1);
            Total(values, ScalesOf(Levels(MIN_DURATION), bounds))
            == At(values, UNSERVED) * (beneath + (At(bounds, FLEET) + At(bounds, OPERATING)) * (beneath + 1) + 1)
               + (At(values, FLEET) + At(values, OPERATING)) * (beneath + 1)
  {
    hide Reach, ByLevel, LevelSum, TotalOver, ScalesOf;
    LevelsHoldEveryTier(MIN_DURATION);
    TotalOfLevels(Levels(MIN_DURATION), bounds, values);
    var m := TradedLevels(values, bounds);
    var u := [[UNSERVED]] + m;
    var f := [[UNSERVED_P0]] + u;
    OneTier(values, UNSERVED);
    OneTier(bounds, UNSERVED);
    OneTier(values, UNSERVED_P0);
    OneTier(bounds, UNSERVED_P0);
    OneTier(values, HARD);
    OneTier(bounds, HARD);
    LevelStep([UNSERVED], m, values, bounds);
    EmptyLevel([UNSERVED_P0], u, values, bounds);
    EmptyLevel([HARD], f, values, bounds);
    assert Levels(MIN_DURATION) == [[HARD]] + f;
  }

  lemma {:induction false} AcrossTownIsDrivable()
    ensures Connected(AcrossTown()) && Drivable(AcrossTown(), OutAndBack()) && Short(AcrossTown(), OutAndBack())
    ensures Peak(AcrossTown().matrix.distances) == 0 && Peak(AcrossTown().matrix.durations) == 1000
  {
    var p := AcrossTown();
    assert p.vehicles[0] == OneVan();
    var far, long := p.matrix.distances, p.matrix.durations;
    assert far == [[0, 0], [0, 0]] && long == [[0, 1000], [1000, 0]];
    GridPeak(0, 0, 0, 0);
    GridPeak(0, 1000, 1000, 0);
  }

  lemma {:induction false} GridPeak(a: int, b: int, c: int, d: int)
    ensures Peak([[a, b], [c, d]]) == Max(Max(a, b), Max(c, d))
  {
    var grid := [[a, b], [c, d]];
    assert grid[1..] == [[c, d]];
    assert [a, b][1..] == [b] && [c, d][1..] == [d];
    assert RowPeak([a, b]) == Max(a, b) && RowPeak([c, d]) == Max(c, d);
  }

  lemma {:induction false} AcrossTownBounds()
    requires Connected(AcrossTown())
    requires Peak(AcrossTown().matrix.distances) == 0 && Peak(AcrossTown().matrix.durations) == 1000
    ensures var bounds := TierBounds(AcrossTown(), Defaults());
            At(bounds, FLEET) == 50000 && At(bounds, OPERATING) == 1 && At(bounds, SOFT) == 4000 && At(bounds, QUALITY) == 4000
  {
    var p := AcrossTown();
    assert Prizes(p.orders) == 1 && Urgent(p.orders) == 0;
    assert FixedCosts(p.vehicles) == [0] && MetreCosts(p.vehicles) == [0];
    assert SecondCosts(p.vehicles) == [0] && OrderCosts(p.vehicles) == [0];
    assert FarthestRoute(p) == 0 && LongestRoute(p) == 4000;
  }

  lemma {:induction false} ServedScores()
    requires Drivable(AcrossTown(), OutAndBack())
    ensures Costable(AcrossTown(), [OutAndBack()]) && Working([OutAndBack()]) == [OutAndBack()]
    ensures AllCarried([OutAndBack()]) == 1
    ensures Score(AcrossTown(), Defaults(), [OutAndBack()], 0, 0)
         == map[HARD := 0, UNSERVED_P0 := 0, UNSERVED := 0, FLEET := 50000, OPERATING := 2000, SOFT := 0, QUALITY := 0]
  {
    var p, r := AcrossTown(), OutAndBack();
    assert r.steps[1] in r.steps && Works(r);
    assert [r][0] == r && [r][1..] == [];
    assert 0 in Served([r]);
    assert Unassigned(p.orders, Served([r])) == [];
    assert VehicleOf(p.vehicles, 0) == Some(OneVan());
    assert !FleetPricesItself(p);
    var d := p.matrix.durations;
    assert Driven(d, p, r.steps, 1) == 1000;
    assert Driven(d, p, r.steps, 2) == 2000;
    assert Carried(r.steps) == 1 by {
      assert r.steps[1..] == [PlanStep(1, Some(0)), PlanStep(0, None)];
      assert r.steps[1..][1..] == [PlanStep(0, None)];
    }
    assert RouteCost(p, Defaults(), r) == 2000;
  }

  lemma {:induction false} LeftScores()
    ensures Costable(AcrossTown(), [])
    ensures Score(AcrossTown(), Defaults(), [], 0, 0)
         == map[HARD := 0, UNSERVED_P0 := 0, UNSERVED := 1, FLEET := 0, OPERATING := 0, SOFT := 0, QUALITY := 0]
  {
    var p := AcrossTown();
    assert Served([]) == {};
    assert Unassigned(p.orders, {}) == [OneDrop()];
  }

  lemma {:induction false} CompareStep(t: Tier, rest: seq<seq<Tier>>, a: TierValues, b: TierValues)
    ensures CompareOver([[t]] + rest, a, b)
         == if At(a, t) != At(b, t) then Sign(At(a, t) - At(b, t)) else CompareOver(rest, a, b)
  {
    assert ([[t]] + rest)[1..] == rest;
    OneTier(a, t);
    OneTier(b, t);
  }

  lemma {:induction false} ServedWins(served: TierValues, left: TierValues)
    requires At(served, HARD) == At(left, HARD) && At(served, UNSERVED_P0) == At(left, UNSERVED_P0)
    requires At(served, UNSERVED) < At(left, UNSERVED)
    ensures CompareOver(Levels(MIN_DURATION), served, left) == -1
  {
    var traded: seq<seq<Tier>> := [[FLEET, OPERATING], [SOFT], [QUALITY]];
    var u := [[UNSERVED]] + traded;
    var f := [[UNSERVED_P0]] + u;
    CompareStep(UNSERVED, traded, served, left);
    CompareStep(UNSERVED_P0, u, served, left);
    CompareStep(HARD, f, served, left);
    assert Levels(MIN_DURATION) == [[HARD]] + f;
  }

  /** The scales come undone under MIN_DURATION when the fleet does not price its time: the mode
      still charges one unit a second, the bound does not, and serving the order, which every level
      says is better, scores worse than leaving it. */
  lemma {:induction false} UnpricedTimeMisorders()
    ensures Connected(AcrossTown()) && Costable(AcrossTown(), [OutAndBack()]) && Costable(AcrossTown(), [])
    ensures Working([OutAndBack()]) == [OutAndBack()] && Short(AcrossTown(), OutAndBack())
    ensures var p, spec := AcrossTown(), Defaults();
            var served, left := Score(p, spec, [OutAndBack()], 0, 0), Score(p, spec, [], 0, 0);
            var scales := ScalesOf(Levels(MIN_DURATION), TierBounds(p, spec));
            CompareOver(Levels(MIN_DURATION), served, left) == -1 && Total(served, scales) > Total(left, scales)
  {
    hide Total, TierBounds, CompareOver, ScalesOf, RouteCost, Peak, Levels, Score, Works, Driven, Drivable, Short;
    AcrossTownIsDrivable();
    AcrossTownBounds();
    ServedScores();
    LeftScores();
    var p, spec := AcrossTown(), Defaults();
    var served, left := Score(p, spec, [OutAndBack()], 0, 0), Score(p, spec, [], 0, 0);
    TradedTotal(served, TierBounds(p, spec));
    TradedTotal(left, TierBounds(p, spec));
    ServedWins(served, left);
  }
}
