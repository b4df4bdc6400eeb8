/** When a route outgrows the bound on what one route can drive (`tier_bounds` of vrp/objective.py):
    the bound counts two legs for each place of the matrix. */
module LongRounds {
  import opened Common
  import opened Model
  import opened Objective
  import opened Scoring

  /** The places a route stands at, in order. */
  function PlacesOf(p: Problem, r: Route): seq<nat>
    requires forall s :: s in r.steps ==> s.location in p.locations
  {
    seq(|r.steps|, k requires 0 <= k < |r.steps| => assert r.steps[k] in r.steps;
                                                    p.locations[r.steps[k].location].matrixIndex)
  }

  /** No place is visited more than twice, setting out and coming home included. */
  ghost predicate TwiceEach(p: Problem, r: Route)
    requires forall s :: s in r.steps ==> s.location in p.locations
  {
    forall place :: multiset(PlacesOf(p, r))[place] <= 2
  }

  /** Few places, few visits each, few visits. */
  lemma {:induction false} FewVisits(visits: multiset<nat>, places: nat, most: nat)
    requires forall x :: x in visits ==> x < places
    requires forall x :: visits[x] <= most
    ensures |visits| <= most * places
    decreases places
  {
    if places == 0 {
      assert visits == multiset{};
    } else {
      var rest := visits[places - 1 := 0];
      assert forall x :: x in rest ==> x in visits && x != places - 1;
      assert forall x :: rest[x] <= visits[x];
      FewVisits(rest, places - 1, most);
      Distribute(places - 1, 1, most);
    }
  }

  /** A route that visits no place more than twice has no more legs than the bound counts. */
  lemma {:induction false} TwiceEachIsShort(p: Problem, r: Route)
    requires WellFormed(p) && Drivable(p, r) && TwiceEach(p, r)
    ensures Short(p, r)
  {
    var places := PlacesOf(p, r);
    forall x | x in multiset(places)
      ensures x < Size(p)
    {
      var k :| 0 <= k < |places| && places[k] == x;
      assert r.steps[k] in r.steps;
    }
    FewVisits(multiset(places), Size(p), 2);
    assert |multiset(places)| == |places|;
  }

  // ------------------------------------------------------------------
  // A van going to and fro
  // ------------------------------------------------------------------

  function PlaceAt(i: nat): Location {
    Location(i, i, 0, None, None, {}, None)
  }

  /** Order `k` of a day that alternates between two places. */
  function Turn(k: nat): Order {
    OrderSpec(k, map[], None, Some(Stop(1 + k % 2, [], 0, 0, None)), 0, 0, 0, {}, None, {})
  }

  function Shuttle(): Vehicle {
    Vehicle(0, map[], WindowSpec(0, 100000, Hard), 0, None, {}, 1000, None, None, None, None, 0, 0, 0, 0, 0, 0)
  }

  function Hundreds(): seq<seq<int>> {
    [[0, 100, 100], [100, 0, 100], [100, 100, 0]]
  }

  function ToAndFro(n: nat): Problem {
    Problem(map[0 := PlaceAt(0), 1 := PlaceAt(1), 2 := PlaceAt(2)], seq(n, k requires 0 <= k => Turn(k)), [Shuttle()],
            Matrix(Hundreds(), Hundreds()), [], None, None)
  }

  /** Every order once, in turn. */
  function Alternating(n: nat): Route {
    Route(0, [PlanStep(0, None)] + seq(n, k requires 0 <= k => PlanStep(1 + k % 2, Some(k))) + [PlanStep(0, None)])
  }

  /** Every second costs one unit. */
  const SPEC := ObjectiveSpec(MIN_DURATION, 0, 0, 1)

  lemma {:induction false} AlternatingDrives(n: nat, k: nat)
    requires n > 0 && k <= n + 1
    ensures |Alternating(n).steps| == n + 2
    ensures Driven(Hundreds(), ToAndFro(n), Alternating(n).steps, k) == 100 * k
    decreases k
  {
    if k > 0 {
      AlternatingDrives(n, k - 1);
      var steps := Alternating(n).steps;
      assert steps[k].location != steps[k - 1].location;
      assert steps[k].location < 3 && steps[k - 1].location < 3;
    }
  }

  lemma {:induction false} CarriedSplits(a: seq<PlanStep>, b: seq<PlanStep>)
    ensures Carried(a + b) == Carried(a) + Carried(b)
  {
    if a == [] {
      assert a + b == b;
    } else {
      assert (a + b)[1..] == a[1..] + b;
      CarriedSplits(a[1..], b);
    }
  }

  lemma {:induction false} AllCarry(steps: seq<PlanStep>)
    requires forall s :: s in steps ==> s.order.Some?
    ensures Carried(steps) == |steps|
  {
    if steps != [] {
      AllCarry(steps[1..]);
    }
  }

  lemma {:induction false} AlternatingCarries(n: nat)
    ensures Carried(Alternating(n).steps) == n
  {
    var middle := seq(n, k requires 0 <= k => PlanStep(1 + k % 2, Some(k)));
    var depot := [PlanStep(0, None)];
    assert Carried(depot) == 0;
    AllCarry(middle);
    CarriedSplits(depot, middle);
    CarriedSplits(depot + middle, depot);
  }

  lemma {:induction false} HundredsPeak()
    ensures Peak(Hundreds()) == 100
  {
    var grid := Hundreds();
    assert grid[1..] == [[100, 0, 100], [100, 100, 0]] && grid[1..][1..] == [[100, 100, 0]];
    RowOfThree(0, 100, 100);
    RowOfThree(100, 0, 100);
    RowOfThree(100, 100, 0);
  }

  lemma {:induction false} RowOfThree(a: int, b: int, c: int)
    ensures RowPeak([a, b, c]) == Max(Max(a, b), c)
  {
    assert [a, b, c][1..] == [b, c] && [b, c][1..] == [c];
    assert RowPeak([b, c]) == Max(b, c);
  }

  lemma {:induction false} AlternatingIsDrivable(n: nat)
    requires n > 0
    ensures Connected(ToAndFro(n)) && Drivable(ToAndFro(n), Alternating(n)) && Works(Alternating(n))
  {
    var p, r := ToAndFro(n), Alternating(n);
    HundredsPeak();
    assert r.steps[1] in r.steps && r.steps[1].order == Some(0);
    assert p.vehicles[0] == Shuttle();
    forall k | 0 < k < |r.steps|
      ensures Joined(p, r.steps[k - 1].location, r.steps[k].location)
    {
      assert r.steps[k].location < 3 && r.steps[k - 1].location < 3;
    }
  }

  lemma {:induction false} AlternatingCosts(n: nat)
    requires n > 0 && Drivable(ToAndFro(n), Alternating(n))
    ensures !FleetPricesItself(ToAndFro(n)) && RouteCost(ToAndFro(n), SPEC, Alternating(n)) == 100 * (n + 1)
  {
    AlternatingDrives(n, n + 1);
    AlternatingCarries(n);
    assert VehicleOf(ToAndFro(n).vehicles, 0) == Some(Shuttle());
  }

  lemma {:induction false} ToAndFroBound(n: nat)
    requires Connected(ToAndFro(n))
    ensures At(TierBounds(ToAndFro(n), SPEC), OPERATING) == 600
  {
    var p := ToAndFro(n);
    HundredsPeak();
    assert MetreCosts(p.vehicles) == [0] && SecondCosts(p.vehicles) == [0] && OrderCosts(p.vehicles) == [0];
    assert Largest([0]) == 0;
    assert FarthestRoute(p) == 600 && LongestRoute(p) == 600;
  }

  /** What it scores against what it is bounded by. */
  lemma {:induction false} AlternatingScores(n: nat)
    requires n > 0
    ensures var p, r := ToAndFro(n), Alternating(n);
            && Connected(p) && Costable(p, [r]) && Working([r]) == [r] && !FleetPricesItself(p)
            && OperatingCost(p, SPEC, [r]) == 100 * (n + 1)
            && At(TierBounds(p, SPEC), OPERATING) == 600
  {
    hide TierBounds, RouteCost, FleetPricesItself, Drivable, Works, Peak, Alternating;
    var p, r := ToAndFro(n), Alternating(n);
    AlternatingIsDrivable(n);
    AlternatingCosts(n);
    ToAndFroBound(n);
    assert [r][0] == r && [r][1..] == [];
    assert OperatingCost(p, SPEC, []) == 0;
  }

  /** A plan that is ordinary but for the legs of its one route, with time priced and every order
      carried once, is within the operating bound exactly when the route is short: from six orders
      on it is not. */
  lemma {:induction false} ToAndFroExceedsExactly(n: nat)
    requires n > 0
    ensures var p, plan := ToAndFro(n), [Alternating(n)];
            && Connected(p) && Costable(p, plan) && NoRepeats(VehiclesOn(Working(plan)))
            && PricesTime(p, SPEC) && AllCarried(Working(plan)) == |p.orders|
            && (At(Score(p, SPEC, plan, 0, 0), OPERATING) <= At(TierBounds(p, SPEC), OPERATING)
                <==> Short(p, Alternating(n)))
            && (Short(p, Alternating(n)) <==> n <= 5)
  {
    hide FleetPricesItself, TierBounds, OperatingCost;
    AlternatingScores(n);
    AlternatingCarries(n);
    AlternatingDrives(n, 0);
    var p, plan := ToAndFro(n), [Alternating(n)];
    assert plan[1..] == [];
    assert RatesOf(p, SPEC, Shuttle()).perSecond == 1;
    assert forall v :: v in p.vehicles ==> v == Shuttle();
  }
}
