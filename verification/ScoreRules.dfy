/** What the tiers of a score and the bounds of an instance (vrp/objective.py) are made of, read off the plan's
    and the fleet's own fields. `Scoring` computes them; the laws here say what each one order, stop or vehicle
    adds, and at whose rates a route is priced. */
module ScoreRules {
  import opened Common
  import opened Model
  import opened Objective
  import opened Scoring

  // ------------------------------------------------------------------
  // Whose rates
  // ------------------------------------------------------------------

  /** The vehicle states some price of its own. */
  ghost predicate Priced(v: Vehicle) {
    v.fixedCost + v.costPerMetre + v.costPerSecond + v.costPerOrder > 0
  }

  /** When any vehicle of the fleet states a price, each route is priced at its own vehicle's rates, zeros
      and all; otherwise every route at the objective's, and orders are free. Under MIN_DURATION distance is
      free and a second costs at least one. */
  lemma {:induction false} RouteIsPriced(p: Problem, spec: ObjectiveSpec, r: Route, v: Vehicle)
    requires Drivable(p, r) && VehicleOf(p.vehicles, r.vehicle) == Some(v)
    ensures var own := exists w :: w in p.vehicles && Priced(w);
            var metre, second, order := if own then v.costPerMetre else spec.costPerMetre,
                                        if own then v.costPerSecond else spec.costPerSecond,
                                        if own then v.costPerOrder else 0;
            var metres, seconds := Driven(p.matrix.distances, p, r.steps, Legs(r)),
                                   Driven(p.matrix.durations, p, r.steps, Legs(r));
            RouteCost(p, spec, r) ==
              if spec.mode == MIN_DURATION then seconds * (if second < 1 then 1 else second) + Carried(r.steps) * order
              else metres * metre + seconds * second + Carried(r.steps) * order
  {
    OwnPrices(p);
  }

  /** A deployed route costs its vehicle's own fixed price when any vehicle states a price, otherwise the objective's;
      under MIN_VEHICLES it counts as one. */
  lemma {:induction false} DeploymentIsPriced(p: Problem, spec: ObjectiveSpec, r: Route, v: Vehicle, rest: seq<Route>)
    requires Costable(p, [r] + rest) && VehicleOf(p.vehicles, r.vehicle) == Some(v)
    ensures FixedCost(p, spec, [r] + rest)
         == FixedCost(p, spec, rest)
            + if exists w :: w in p.vehicles && Priced(w) then v.fixedCost else spec.vehicleFixedCost
    ensures OperatingCost(p, spec, [r] + rest) == OperatingCost(p, spec, rest) + RouteCost(p, spec, r)
    ensures FixedCost(p, spec, []) == 0 == OperatingCost(p, spec, [])
  {
    OwnPrices(p);
    assert ([r] + rest)[1..] == rest;
  }

  /** What a score holds: nothing broken, the orders no route serves, the vans sent out, their driving, and the
      lateness and imbalance given. */
  lemma {:induction false} TiersAre(p: Problem, spec: ObjectiveSpec, routes: seq<Route>, soft: nat, quality: nat)
    requires Costable(p, routes) && Costable(p, Working(routes))
    ensures var score, left := Score(p, spec, routes, soft, quality), Unassigned(p.orders, Served(routes));
            && At(score, HARD) == 0 && At(score, SOFT) == soft && At(score, QUALITY) == quality
            && At(score, UNSERVED_P0) == Urgent(left) && At(score, UNSERVED) == LaterPrizes(left)
            && At(score, OPERATING) == OperatingCost(p, spec, Working(routes))
            && (spec.mode == MIN_VEHICLES ==> At(score, FLEET) == |Working(routes)|)
            && (spec.mode != MIN_VEHICLES ==> At(score, FLEET) == FixedCost(p, spec, Working(routes)))
  {
  }

  lemma {:induction false} OwnPrices(p: Problem)
    ensures FleetPricesItself(p) <==> exists w :: w in p.vehicles && Priced(w)
  {
    if FleetPricesItself(p) {
      var v :| v in p.vehicles && (v.fixedCost > 0 || v.costPerMetre > 0 || v.costPerSecond > 0 || v.costPerOrder > 0);
      assert Priced(v);
    }
  }

  // ------------------------------------------------------------------
  // What one more adds
  // ------------------------------------------------------------------

  /** Each step with an order is one order carried. */
  lemma {:induction false} OneMoreStep(a: seq<PlanStep>, s: PlanStep, b: seq<PlanStep>)
    ensures Carried(a + [s] + b) == Carried(a + b) + if s.order.Some? then 1 else 0
    ensures Carried([]) == 0
  {
    if a == [] {
      assert a + [s] + b == [s] + b && a + b == b;
    } else {
      OneMoreStep(a[1..], s, b);
      assert (a + [s] + b)[1..] == a[1..] + [s] + b && (a + b)[1..] == a[1..] + b;
    }
  }

  /** Each leg adds the cell between its two places. */
  lemma {:induction false} OneMoreLeg(p: Problem, r: Route, k: nat)
    requires Drivable(p, r) && k + 1 < |r.steps|
    ensures var a, b := p.locations[r.steps[k].location].matrixIndex, p.locations[r.steps[k + 1].location].matrixIndex;
            && a < |p.matrix.distances| && b < |p.matrix.distances[a]|
            && a < |p.matrix.durations| && b < |p.matrix.durations[a]|
            && Driven(p.matrix.distances, p, r.steps, k + 1)
               == Driven(p.matrix.distances, p, r.steps, k) + p.matrix.distances[a][b]
            && Driven(p.matrix.durations, p, r.steps, k + 1)
               == Driven(p.matrix.durations, p, r.steps, k) + p.matrix.durations[a][b]
    ensures Driven(p.matrix.distances, p, r.steps, 0) == 0 == Driven(p.matrix.durations, p, r.steps, 0)
    ensures Legs(r) + 1 == |r.steps|
  {
    var next := k + 1;
    assert Joined(p, r.steps[next - 1].location, r.steps[next].location);
  }

  lemma {:induction false} UnassignedStep(orders: seq<Order>, served: set<Id>)
    requires orders != []
    ensures var rest, o := Unassigned(orders[1..], served), orders[0];
            && Urgent(Unassigned(orders, served)) == Urgent(rest) + (if o.id !in served && o.priorityTier == 0 then 1 else 0)
            && LaterPrizes(Unassigned(orders, served)) == LaterPrizes(rest)
               + if o.id in served || o.priorityTier == 0 then 0 else if o.prize < 1 then 1 else o.prize
  {
  }

  lemma {:induction false} NothingUnassigned(served: set<Id>)
    ensures Unassigned([], served) == [] && Urgent([]) == 0 == LaterPrizes([])
  {
  }

  /** An order no route serves counts once among the urgent when its tier is zero, and otherwise for its
      prize, or for one if that is less; a served one counts nowhere. */
  lemma {:induction false} OneMoreOrder(a: seq<Order>, o: Order, b: seq<Order>, served: set<Id>)
    ensures Urgent(Unassigned(a + [o] + b, served))
         == Urgent(Unassigned(a + b, served)) + if o.id !in served && o.priorityTier == 0 then 1 else 0
    ensures LaterPrizes(Unassigned(a + [o] + b, served))
         == LaterPrizes(Unassigned(a + b, served))
            + if o.id in served || o.priorityTier == 0 then 0 else if o.prize < 1 then 1 else o.prize
    ensures Unassigned([], served) == [] && Urgent([]) == 0 == LaterPrizes([])
  {
    hide Unassigned, Urgent, LaterPrizes;
    NothingUnassigned(served);
    if a == [] {
      assert a + [o] + b == [o] + b && a + b == b;
      UnassignedStep([o] + b, served);
    } else {
      var rest, with, without := a[1..], a + [o] + b, a + b;
      OneMoreOrder(rest, o, b, served);
      assert with[1..] == rest + [o] + b && with[0] == a[0] && without[1..] == rest + b && without[0] == a[0];
      UnassignedStep(with, served);
      UnassignedStep(without, served);
    }
  }

  /** A route is deployed exactly when some step of it carries an order. */
  lemma {:induction false} DeployedExactly(routes: seq<Route>, r: Route)
    ensures r in Working(routes) <==> r in routes && exists k :: 0 <= k < |r.steps| && r.steps[k].order.Some?
  {
    WorkingMembers(routes);
    if k :| 0 <= k < |r.steps| && r.steps[k].order.Some? {
      assert r.steps[k] in r.steps;
    }
  }

  // ------------------------------------------------------------------
  // The bounds
  // ------------------------------------------------------------------

  /** The largest cell of a grid; zero when it has none. */
  ghost predicate IsPeak(grid: seq<seq<int>>, peak: int) {
    && (forall i, j :: 0 <= i < |grid| && 0 <= j < |grid[i]| ==> grid[i][j] <= peak)
    && (if grid == [] then peak == 0 else exists i, j :: 0 <= i < |grid| && 0 <= j < |grid[i]| && grid[i][j] == peak)
  }

  lemma {:induction false} RowPeakIsReached(row: seq<int>) returns (j: nat)
    requires row != []
    ensures j < |row| && row[j] == RowPeak(row)
  {
    j := 0;
    if |row| > 1 {
      var rest := RowPeakIsReached(row[1..]);
      j := if RowPeak(row) == row[0] then 0 else rest + 1;
    }
  }

  lemma {:induction false} PeakIsReached(grid: seq<seq<int>>) returns (i: nat, j: nat)
    requires grid != [] && forall row :: row in grid ==> row != []
    ensures i < |grid| && j < |grid[i]| && grid[i][j] == Peak(grid)
  {
    assert grid[0] in grid && forall row :: row in grid[1..] ==> row in grid;
    i := 0;
    j := RowPeakIsReached(grid[0]);
    if |grid| > 1 {
      var x, y := PeakIsReached(grid[1..]);
      if Peak(grid) != RowPeak(grid[0]) {
        i, j := x + 1, y;
      }
    }
  }

  lemma {:induction false} PeakIsOne(grid: seq<seq<int>>, peak: int)
    requires IsPeak(grid, peak) && forall row :: row in grid ==> row != []
    ensures Peak(grid) == peak
  {
    if grid != [] {
      var i, j := PeakIsReached(grid);
      var x, y :| 0 <= x < |grid| && 0 <= y < |grid[x]| && grid[x][y] == peak;
      PeakIsLargest(grid, x, y);
    }
  }

  /** The most any of these numbers is; zero when there are none. */
  ghost predicate IsMost(xs: seq<nat>, most: nat) {
    (forall k :: 0 <= k < |xs| ==> xs[k] <= most) && (most > 0 ==> exists k :: 0 <= k < |xs| && xs[k] == most)
  }

  lemma {:induction false} LargestIsOne(xs: seq<nat>, most: nat)
    requires IsMost(xs, most)
    ensures Largest(xs) == most
  {
    if most > 0 {
      var k :| 0 <= k < |xs| && xs[k] == most;
      LargestIsMost(xs, k);
    }
    LargestWithin(xs, most);
  }

  lemma {:induction false} LargestWithin(xs: seq<nat>, most: nat)
    requires forall k :: 0 <= k < |xs| ==> xs[k] <= most
    ensures Largest(xs) <= most
  {
    if xs != [] {
      assert forall k :: 0 <= k < |xs| - 1 ==> xs[1..][k] == xs[k + 1];
      LargestWithin(xs[1..], most);
    }
  }

  /** The steepest of the fleet's own prices. */
  ghost predicate Steepest(vs: seq<Vehicle>, metre: nat, second: nat, order: nat) {
    && IsMost(seq(|vs|, k requires 0 <= k < |vs| => vs[k].costPerMetre), metre)
    && IsMost(seq(|vs|, k requires 0 <= k < |vs| => vs[k].costPerSecond), second)
    && IsMost(seq(|vs|, k requires 0 <= k < |vs| => vs[k].costPerOrder), order)
  }

  function AtLeastOne(n: int): int {
    if n < 1 then 1 else n
  }

  /** The bounds, with `far` and `long` what the whole fleet drives at most when each of its routes has two legs
      a place, every one the matrix's longest. */
  lemma {:induction false} BoundsAre(p: Problem, spec: ObjectiveSpec, peak: int, slowest: int,
                                     metre: nat, second: nat, order: nat)
    requires Filled(p) && IsPeak(p.matrix.distances, peak) && IsPeak(p.matrix.durations, slowest)
    requires Steepest(p.vehicles, metre, second, order)
    ensures var bounds, n, vans, places := TierBounds(p, spec), |p.orders|, |p.vehicles|, AtLeastOne(|p.matrix.durations|);
            var far, long := peak * places * 2 * AtLeastOne(vans), slowest * places * 2 * AtLeastOne(vans);
            && At(bounds, HARD) == AtLeastOne(n * 4)
            && At(bounds, UNSERVED_P0) == AtLeastOne(Urgent(p.orders))
            && At(bounds, UNSERVED) == AtLeastOne(Max(n, Prizes(p.orders)))
            && At(bounds, FLEET) == AtLeastOne(Max(vans, Max(vans * spec.vehicleFixedCost, SumOf(FixedCosts(p.vehicles)))))
            && At(bounds, OPERATING) == AtLeastOne(Max(far * metre + long * second + n * order,
                                                       far * spec.costPerMetre + long * spec.costPerSecond))
            && At(bounds, SOFT) == AtLeastOne(long)
            && At(bounds, QUALITY) == AtLeastOne(Max(n, Max(far, long)))
  {
    PeakIsOne(p.matrix.distances, peak);
    PeakIsOne(p.matrix.durations, slowest);
    LargestIsOne(MetreCosts(p.vehicles), metre);
    LargestIsOne(SecondCosts(p.vehicles), second);
    LargestIsOne(OrderCosts(p.vehicles), order);
    var places, vans := Max(Size(p), 1), Max(|p.vehicles|, 1);
    var far, long := FarthestRoute(p) * vans, LongestRoute(p) * vans;
    assert far == peak * places * 2 * vans && long == slowest * places * 2 * vans;
    hide IsPeak, Steepest, Peak, Largest, FarthestRoute, LongestRoute, MetreCosts, SecondCosts, OrderCosts, FixedCosts, Filled, Urgent, Prizes, SumOf;
    var stated, priced := far * spec.costPerMetre + long * spec.costPerSecond, far * metre + long * second + |p.orders| * order;
    var bounds := TierBounds(p, spec);
    assert bounds[OPERATING] == Max(Max(stated, priced), 1);
  }

  /** Each order adds its prize, or one, to the most that can go unserved. */
  lemma {:induction false} OneMorePrize(a: seq<Order>, o: Order, b: seq<Order>)
    ensures Prizes(a + [o] + b) == Prizes(a + b) + AtLeastOne(o.prize)
    ensures Prizes([]) == 0
  {
    if a == [] {
      assert a + [o] + b == [o] + b && a + b == b;
    } else {
      OneMorePrize(a[1..], o, b);
      assert (a + [o] + b)[1..] == a[1..] + [o] + b && (a + b)[1..] == a[1..] + b;
    }
  }

  /** Each vehicle adds its fixed cost to the most the fleet can cost. */
  lemma {:induction false} OneMoreVehicle(a: seq<Vehicle>, v: Vehicle, b: seq<Vehicle>)
    ensures SumOf(FixedCosts(a + [v] + b)) == SumOf(FixedCosts(a + b)) + v.fixedCost
    ensures SumOf([]) == 0
  {
    var all, rest := FixedCosts(a + [v] + b), FixedCosts(a + b);
    if a == [] {
      assert all[1..] == rest;
    } else {
      OneMoreVehicle(a[1..], v, b);
      assert all[1..] == FixedCosts(a[1..] + [v] + b) && rest[1..] == FixedCosts(a[1..] + b);
    }
  }
}
