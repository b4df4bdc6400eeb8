/** What two consecutive steps of a day have to do with each other (`build_timeline` of
    vrp/evaluator.py): the timeline read step by step, without its loop. */
module Timeline {
  import opened Common
  import opened Model
  import opened Evaluator
  import Battery

  ghost predicate Known(r: Round, step: Step) {
    step.location in r.problem.locations
  }

  function Spot(r: Round, step: Step): nat
    requires step.location in r.problem.locations
  {
    r.problem.locations[step.location].matrixIndex
  }

  /** The van as this step leaves it. */
  ghost predicate Leaves(r: Round, step: Step, at: Where) {
    Known(r, step) && at == Where(step.departure, Spot(r, step), step.soc, step.loadAfter)
  }

  /** Driving: the next step is reached by the travel time at departure. */
  ghost predicate Drives(r: Round, a: Step, b: Step)
    requires Sound(r)
  {
    && Known(r, a) && Known(r, b)
    && r.problem.matrix.durations[Spot(r, a)][Spot(r, b)] >= 0 && r.problem.matrix.distances[Spot(r, a)][Spot(r, b)] >= 0
    && b.arrival == a.departure + TravelBetween(r.problem, Spot(r, a), Spot(r, b), a.departure)
  }

  /** The charge with which the next step is reached: what the drive consumes is gone. */
  function Held(r: Round, a: Step, b: Step): Option<int>
    requires Sound(r) && Known(r, a) && Known(r, b)
  {
    if a.soc.None? || r.vehicle.battery.None? then a.soc
    else
      var metres := r.problem.matrix.distances[Spot(r, a)][Spot(r, b)];
      Some(a.soc.value - Battery.ConsumedPpt(r.vehicle.battery.value, r.vehicle.whPerKm, metres))
  }

  /** At a charger the van plugs in at once, for the band walk from what it holds, if anything, to
      the charge it leaves with; the load stays on board. */
  ghost predicate Charges(r: Round, a: Step, b: Step)
    requires Sound(r) && Drives(r, a, b)
  {
    && b.order.None? && b.loadAfter == a.loadAfter && b.startService == b.arrival
    && b.soc.Some? && b.soc.value <= Battery.FULL && r.vehicle.battery.Some? && Held(r, a, b).Some?
    && Max(Held(r, a, b).value, 0) <= b.soc.value
    && b.departure == b.arrival
         + Battery.ChargeTime(r.vehicle.battery.value, r.curve, Max(Held(r, a, b).value, 0), b.soc.value)
  }

  /** The order's quantities go off board at a delivery and on board at a pickup. */
  ghost predicate Handles(before: map<Id, int>, after: map<Id, int>, o: Order) {
    && after.Keys == before.Keys + o.quantities.Keys
    && forall d :: d in after ==>
      var was, moved: int := if d in before then before[d] else 0, if d in o.quantities then o.quantities[d] else 0;
      after[d] == if o.delivery.Some? then was - moved else was + moved
  }

  /** At a stop service starts when its windows let it and takes as long as the stop is handled in; the
      order's quantities go off or on board, and no charge is gained. */
  ghost predicate Serves(r: Round, o: Order, a: Step, b: Step)
    requires Sound(r) && Drives(r, a, b)
  {
    var stop := if o.delivery.Some? then o.delivery.value else o.pickup.value;
    var at := r.problem.locations[b.location];
    && b.order == Some(o.id) && b.location == stop.location
    && b.kind == (if o.delivery.Some? then DeliveryStep else PickupStep)
    && b.startService == ServiceStart(b.arrival, stop.windows)
    && HandledIn(b.departure - b.startService, if CollectedAt(o, at.id) then o.pickup.value else stop, o, r.vehicle, at)
    && Handles(a.loadAfter, b.loadAfter, o) && b.soc == Held(r, a, b)
  }

  /** The place is the pickup's and not the delivery's. */
  predicate CollectedAt(o: Order, place: Id) {
    && o.pickup.Some? && place == o.pickup.value.location
    && (o.delivery.None? || place != o.delivery.value.location)
  }

  /** The day ends on arrival. */
  ghost predicate Ends(r: Round, a: Step, b: Step)
    requires Sound(r) && Drives(r, a, b)
  {
    && b.location == (if r.vehicle.endLocation.Some? then r.vehicle.endLocation.value else r.vehicle.startLocation)
    && b.order.None? && b.loadAfter == a.loadAfter
    && b.startService == b.arrival == b.departure && b.soc == Held(r, a, b)
  }

  ghost predicate Follows(r: Round, orders: seq<Order>, a: Step, b: Step)
    requires Sound(r)
  {
    Drives(r, a, b) &&
    match b.kind
    case ChargeStep => Charges(r, a, b)
    case EndStep => Ends(r, a, b)
    case StartStep => false
    case _ => exists o :: o in orders && Serves(r, o, a, b)
  }

  lemma {:induction false} ChargingFollows(r: Round, orders: seq<Order>, prev: Step, at: Where, stop: ChargeStop)
    requires Sound(r) && Leaves(r, prev, at) && at.position < Size(r.problem)
    requires stop.location in r.problem.locations && stop.toSoc <= Battery.FULL && Charging(r, at, stop).Success?
    ensures var visit := Charging(r, at, stop).value;
            && Follows(r, orders, prev, visit.0) && Leaves(r, visit.0, visit.1) && visit.1.position < Size(r.problem)
  {
  }

  lemma {:induction false} ServingFollows(r: Round, orders: seq<Order>, prev: Step, at: Where, o: Order)
    requires Sound(r) && Leaves(r, prev, at) && at.position < Size(r.problem)
    requires o in orders && Sited(r.problem, o) && Serving(r, at, o).Success?
    ensures var visit := Serving(r, at, o).value;
            && Follows(r, orders, prev, visit.0) && Leaves(r, visit.0, visit.1) && visit.1.position < Size(r.problem)
  {
    hide ServiceStart, ServiceTime, HandledIn;
    var visit := Serving(r, at, o).value;
    ServiceScales(o, r.vehicle, r.problem.locations[StopOf(o).location]);
    assert Drives(r, prev, visit.0);
    assert Serves(r, o, prev, visit.0);
  }

  lemma {:induction false} HomingFollows(r: Round, orders: seq<Order>, prev: Step, at: Where)
    requires Sound(r) && Leaves(r, prev, at) && at.position < Size(r.problem) && Homing(r, at).Success?
    ensures Follows(r, orders, prev, Homing(r, at).value)
  {
  }

  ghost predicate Chained(r: Round, orders: seq<Order>, steps: seq<Step>)
    requires Sound(r)
  {
    forall k :: 0 < k < |steps| ==> Follows(r, orders, steps[k - 1], steps[k])
  }

  lemma {:induction false} ChainedOn(r: Round, orders: seq<Order>, prev: Step, step: Step, rest: seq<Step>)
    requires Sound(r) && Follows(r, orders, prev, step) && Chained(r, orders, [step] + rest)
    ensures Chained(r, orders, [prev] + ([step] + rest))
  {
    hide Follows;
    var all := [prev] + ([step] + rest);
    forall k | 0 < k < |all|
      ensures Follows(r, orders, all[k - 1], all[k])
    {
      if k > 1 {
        assert all[k - 1] == ([step] + rest)[k - 2] && all[k] == ([step] + rest)[k - 1];
      }
    }
  }

  lemma {:induction false} OnwardFollows(r: Round, orders: seq<Order>, index: nat, plugged: bool, prev: Step, at: Where,
                                         rest: seq<Step>)
    requires Sound(r) && index <= |orders| && at.position < Size(r.problem) && Leaves(r, prev, at)
    requires forall o :: o in orders ==> Sited(r.problem, o)
    requires Onward(r, orders, index, plugged, at) == Success(rest)
    ensures Chained(r, orders, [prev] + rest) && rest != [] && rest[|rest| - 1].kind == EndStep
    decreases |orders| - index, !plugged
  {
    hide Charging, Serving, Homing, Follows, Leaves, Chained;
    if index == |orders| {
      HomingFollows(r, orders, prev, at);
      OneStep(r, orders, Homing(r, at).value);
      ChainedOn(r, orders, prev, Homing(r, at).value, []);
      HomingEnds(r, at);
      assert rest == [Homing(r, at).value] + [];
    } else if !plugged && index in r.charges {
      ChargingFollows(r, orders, prev, at, r.charges[index]);
      var visit := Charging(r, at, r.charges[index]).value;
      OnwardFollows(r, orders, index, true, visit.0, visit.1, rest[1..]);
      ChainedOn(r, orders, prev, visit.0, rest[1..]);
      assert rest == [visit.0] + rest[1..];
    } else {
      ServingFollows(r, orders, prev, at, orders[index]);
      var visit := Serving(r, at, orders[index]).value;
      OnwardFollows(r, orders, index + 1, false, visit.0, visit.1, rest[1..]);
      ChainedOn(r, orders, prev, visit.0, rest[1..]);
      assert rest == [visit.0] + rest[1..];
    }
  }

  lemma {:induction false} HomingEnds(r: Round, at: Where)
    requires Sound(r) && at.position < Size(r.problem) && Homing(r, at).Success?
    ensures Homing(r, at).value.kind == EndStep
  {
  }

  lemma {:induction false} OneStep(r: Round, orders: seq<Order>, step: Step)
    requires Sound(r)
    ensures Chained(r, orders, [step] + [])
  {
  }

  /** A day starts at the depot at the given moment, each of its steps follows from the one before,
      and it ends at home. */
  lemma {:induction false} StepsFollow(r: Round, orders: seq<Order>, startTime: int)
    requires Sound(r) && forall o :: o in orders ==> Sited(r.problem, o)
    requires Itinerary(r, orders, startTime).Success?
    ensures var steps := Itinerary(r, orders, startTime).value;
            && |steps| >= 2 && steps[0].kind == StartStep && steps[|steps| - 1].kind == EndStep
            && steps[0].location == r.vehicle.startLocation && steps[0].departure == startTime
            && steps[0].soc == (if r.vehicle.battery.Some? then Some(r.vehicle.initialSoc) else None)
            && Chained(r, orders, steps)
  {
    var at := Departing(r, orders, startTime);
    var rest := Onward(r, orders, 0, false, at).value;
    OnwardFollows(r, orders, 0, false, StartOf(r, at), at, rest);
  }
}
