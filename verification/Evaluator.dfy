/** The canonical timeline (vrp/evaluator.py): one vehicle's day, expanded from
    its order sequence, its charging stops and a departure.

    `Itinerary` is the specification; `BuildTimeline` is the source's loop. The
    main results compare two departures of the same round. */
module Evaluator {
  import opened Common
  import opened TimeDependent
  import opened Model
  import Battery

  datatype StepKind = StartStep | PickupStep | DeliveryStep | ChargeStep | EndStep

  datatype Step = Step(kind: StepKind, location: Id, arrival: int, startService: int,
                       departure: int, order: Option<Id>, loadAfter: map<Id, int>, soc: Option<int>)

  datatype ChargeStop = ChargeStop(location: Id, toSoc: int)

  /** The loop's state between two steps. */
  datatype Where = Where(clock: int, position: nat, soc: Option<int>, onBoard: map<Id, int>)

  /** What does not change along a round. `curve` is read only by electric vehicles. */
  datatype Round = Round(problem: Problem, vehicle: Vehicle, curve: Battery.Curve,
                         charges: map<nat, ChargeStop>)

  /** What `Problem` and `Vehicle` guarantee about the round's own places. */
  ghost predicate Sound(r: Round) {
    && WellFormed(r.problem)
    && r.vehicle.startLocation in r.problem.locations
    && EndsAt(r.vehicle) in r.problem.locations
    && (r.vehicle.battery.Some? ==> r.vehicle.battery.value > 0)
    && (forall k :: k in r.charges ==>
          && r.charges[k].location in r.problem.locations
          && r.charges[k].toSoc <= Battery.FULL)
  }

  // ------------------------------------------------------------------
  // When service may begin
  // ------------------------------------------------------------------

  /** On arrival, or when the first window that has not closed opens. */
  function ServiceStart(arrival: int, windows: seq<TimeWindow>): (begin: int)
    ensures arrival <= begin
  {
    if windows == [] then arrival
    else if arrival <= windows[0].end then Max(arrival, windows[0].start)
    else ServiceStart(arrival, windows[1..])
  }

  /** Arriving later never begins service earlier, across any sorted disjoint windows. */
  lemma {:induction false} ServiceStartGrows(early: int, late: int, windows: seq<TimeWindow>)
    requires SortedDisjoint(windows) && early <= late
    ensures ServiceStart(early, windows) <= ServiceStart(late, windows)
  {
    if windows != [] && early > windows[0].end {
      ServiceStartGrows(early, late, windows[1..]);
    }
  }

  /** Service begins inside a window, or after the last of them has closed. */
  lemma {:induction false} ServiceStartLands(arrival: int, windows: seq<TimeWindow>) returns (k: nat)
    requires SortedDisjoint(windows)
    ensures k <= |windows|
    ensures forall i :: 0 <= i < k ==> windows[i].end < arrival
    ensures k < |windows| ==> arrival <= windows[k].end
    ensures k < |windows| ==> ServiceStart(arrival, windows) == Max(arrival, windows[k].start)
    ensures k < |windows| ==> Contains(windows[k], ServiceStart(arrival, windows))
    ensures k == |windows| ==> ServiceStart(arrival, windows) == arrival
  {
    if windows == [] || arrival <= windows[0].end {
      k := 0;
    } else {
      var rest := ServiceStartLands(arrival, windows[1..]);
      k := rest + 1;
    }
  }

  /** The stop's promise: a hard window contains the service, or it has none. */
  predicate Kept(windows: seq<TimeWindow>, begin: int) {
    HardOnly(windows) == [] || InSome(HardOnly(windows), begin)
  }

  /** A promise is broken exactly when there is a hard window and service begins inside none of them. */
  lemma {:induction false} KeptMeans(windows: seq<TimeWindow>, begin: int)
    ensures !Kept(windows, begin) <==>
              (&& (exists w :: w in windows && w.hardness == Hard)
               && forall w :: w in windows && w.hardness == Hard ==> begin < w.start || w.end < begin)
  {
    InHard(windows, begin);
    if HardOnly(windows) != [] {
      HardMember(windows, HardOnly(windows)[0]);
    }
    forall w | w in windows && w.hardness == Hard
      ensures HardOnly(windows) != []
    {
      HardMember(windows, w);
    }
  }

  /** No soft window comes before a hard one. */
  ghost predicate HardFirst(windows: seq<TimeWindow>) {
    forall i, j :: 0 <= i < j < |windows| && windows[j].hardness == Hard ==> windows[i].hardness == Hard
  }

  lemma {:induction false} InHard(windows: seq<TimeWindow>, instant: int)
    ensures InSome(HardOnly(windows), instant)
       <==> exists k :: 0 <= k < |windows| && windows[k].hardness == Hard && Contains(windows[k], instant)
  {
    if InSome(HardOnly(windows), instant) {
      var i :| 0 <= i < |HardOnly(windows)| && Contains(HardOnly(windows)[i], instant);
      HardMember(windows, HardOnly(windows)[i]);
    }
    forall k | 0 <= k < |windows| && windows[k].hardness == Hard && Contains(windows[k], instant)
      ensures InSome(HardOnly(windows), instant)
    {
      HardMember(windows, windows[k]);
    }
  }

  /** A promise kept on a late arrival is kept on every earlier one. */
  lemma {:induction false} KeptEarlier(windows: seq<TimeWindow>, early: int, late: int)
    requires SortedDisjoint(windows) && HardFirst(windows) && early <= late
    requires Kept(windows, ServiceStart(late, windows))
    ensures Kept(windows, ServiceStart(early, windows))
  {
    if HardOnly(windows) != [] {
      var begin := ServiceStart(late, windows);
      InHard(windows, begin);
      var k :| 0 <= k < |windows| && windows[k].hardness == Hard && Contains(windows[k], begin);
      var i := ServiceStartLands(early, windows);
      assert i <= k;
      assert windows[i].hardness == Hard;
      InHard(windows, ServiceStart(early, windows));
    }
  }

  ghost predicate EarlierIsSafe(windows: seq<TimeWindow>) {
    forall early, late | early <= late && Kept(windows, ServiceStart(late, windows)) ::
      Kept(windows, ServiceStart(early, windows))
  }

  /** Leaving earlier is safe at a stop exactly when no soft window precedes a
      hard one: otherwise an early van is served in the soft window and breaks
      the promise a later van keeps. */
  lemma {:induction false} EarlierIsSafeExactly(windows: seq<TimeWindow>)
    requires SortedDisjoint(windows)
    ensures EarlierIsSafe(windows) <==> HardFirst(windows)
  {
    if HardFirst(windows) {
      forall early, late | early <= late && Kept(windows, ServiceStart(late, windows))
        ensures Kept(windows, ServiceStart(early, windows))
      {
        KeptEarlier(windows, early, late);
      }
    } else {
      var i, j :| 0 <= i < j < |windows| && windows[j].hardness == Hard && windows[i].hardness == Soft;
      var early, late := windows[i].start, windows[j].start;
      AtOpening(windows, i);
      AtOpening(windows, j);
      InHard(windows, late);
      InHard(windows, early);
      HardMember(windows, windows[j]);
      assert forall k :: 0 <= k < |windows| && Contains(windows[k], early) ==> k == i;
      assert !Kept(windows, ServiceStart(early, windows));
    }
  }

  /** Arriving as a window opens, service begins there and then. */
  lemma {:induction false} AtOpening(windows: seq<TimeWindow>, i: nat)
    requires SortedDisjoint(windows) && i < |windows|
    ensures ServiceStart(windows[i].start, windows) == windows[i].start
  {
    var k := ServiceStartLands(windows[i].start, windows);
    assert k == i;
  }

  // ------------------------------------------------------------------
  // Specification of the timeline
  // ------------------------------------------------------------------

  function Load(onBoard: map<Id, int>, d: Id): int {
    if d in onBoard then onBoard[d] else 0
  }

  function Quantity(o: Order, d: Id): nat {
    if d in o.quantities then o.quantities[d] else 0
  }

  function Handled(onBoard: map<Id, int>, o: Order): map<Id, int> {
    map d | d in onBoard.Keys + o.quantities.Keys ::
      if o.delivery.Some? then Load(onBoard, d) - Quantity(o, d) else Load(onBoard, d) + Quantity(o, d)
  }

  function Dimensions(orders: seq<Order>): set<Id> {
    if orders == [] then {} else orders[0].quantities.Keys + Dimensions(orders[1..])
  }

  /** How much of a dimension the orders deliver between them. */
  function Delivered(orders: seq<Order>, d: Id): nat {
    if orders == [] then 0
    else (if orders[0].delivery.Some? then Quantity(orders[0], d) else 0) + Delivered(orders[1..], d)
  }

  function Collected(orders: seq<Order>, d: Id): nat {
    if orders == [] then 0
    else (if orders[0].delivery.Some? then 0 else Quantity(orders[0], d)) + Collected(orders[1..], d)
  }

  /** Travel can be read for the arc; the source raises when it cannot. */
  predicate Open(p: Problem, origin: nat, destination: nat)
    requires WellFormed(p) && origin < Size(p) && destination < Size(p)
  {
    p.matrix.durations[origin][destination] != UNREACHABLE
    && p.matrix.distances[origin][destination] != UNREACHABLE
  }

  function Drained(v: Vehicle, soc: Option<int>, metres: int): Option<int>
    requires v.battery.Some? ==> v.battery.value > 0
  {
    if soc.None? || v.battery.None? then soc
    else Some(soc.value - Battery.ConsumedPpt(v.battery.value, v.whPerKm, metres))
  }

  ghost function Leg(r: Round, at: Where, destination: nat): Result<Where>
    requires Sound(r) && at.position < Size(r.problem) && destination < Size(r.problem)
  {
    if !Open(r.problem, at.position, destination) then Failure("no route")
    else Success(Where(at.clock + TravelBetween(r.problem, at.position, destination, at.clock), destination,
                       Drained(r.vehicle, at.soc, r.problem.matrix.distances[at.position][destination]),
                       at.onBoard))
  }

  /** A visit to a charger, priced on the curve. */
  ghost function Charging(r: Round, at: Where, stop: ChargeStop): Result<(Step, Where)>
    requires Sound(r) && at.position < Size(r.problem)
    requires stop.location in r.problem.locations && stop.toSoc <= Battery.FULL
  {
    if r.vehicle.battery.None? || at.soc.None? then Failure("no battery")
    else
      var leg := Leg(r, at, r.problem.locations[stop.location].matrixIndex);
      if leg.Failure? then Failure("no route")
      else
        var here := leg.value;
        var arrived := Max(here.soc.value, 0);
        if stop.toSoc < arrived then Failure("target below arrival charge")
        else
          var plugged := Battery.ChargeTime(r.vehicle.battery.value, r.curve, arrived, stop.toSoc);
          Success((Step(ChargeStep, stop.location, here.clock, here.clock, here.clock + plugged, None,
                        at.onBoard, Some(stop.toSoc)),
                   Where(here.clock + plugged, here.position, Some(stop.toSoc), at.onBoard)))
  }

  ghost function Serving(r: Round, at: Where, o: Order): Result<(Step, Where)>
    requires Sound(r) && Sited(r.problem, o) && at.position < Size(r.problem)
  {
    var stop := StopOf(o);
    var site := r.problem.locations[stop.location];
    var leg := Leg(r, at, site.matrixIndex);
    if leg.Failure? then Failure("no route")
    else
      var begin := ServiceStart(leg.value.clock, stop.windows);
      var depart := begin + ServiceTime(o, r.vehicle, site);
      var onBoard := Handled(at.onBoard, o);
      Success((Step(if o.delivery.Some? then DeliveryStep else PickupStep, stop.location,
                    leg.value.clock, begin, depart, Some(o.id), onBoard, leg.value.soc),
               Where(depart, leg.value.position, leg.value.soc, onBoard)))
  }

  ghost function Homing(r: Round, at: Where): Result<Step>
    requires Sound(r) && at.position < Size(r.problem)
  {
    var leg := Leg(r, at, r.problem.locations[EndsAt(r.vehicle)].matrixIndex);
    if leg.Failure? then Failure("no route")
    else Success(Step(EndStep, EndsAt(r.vehicle), leg.value.clock, leg.value.clock, leg.value.clock, None,
                      at.onBoard, leg.value.soc))
  }

  /** Everything after START: `orders[index..]` from `at`, with charges interleaved, then home.
      `plugged` says whether the charge due before `orders[index]` has been made. */
  ghost function Onward(r: Round, orders: seq<Order>, index: nat, plugged: bool, at: Where): Result<seq<Step>>
    requires Sound(r) && index <= |orders| && at.position < Size(r.problem)
    requires forall o :: o in orders ==> Sited(r.problem, o)
    decreases |orders| - index, !plugged
  {
    if index == |orders| then
      var home := Homing(r, at);
      if home.Failure? then Failure(home.reason) else Success([home.value])
    else if !plugged && index in r.charges then
      var step := Charging(r, at, r.charges[index]);
      if step.Failure? then Failure(step.reason)
      else Prefixed(step.value.0, Onward(r, orders, index, true, step.value.1))
    else
      var step := Serving(r, at, orders[index]);
      if step.Failure? then Failure(step.reason)
      else Prefixed(step.value.0, Onward(r, orders, index + 1, false, step.value.1))
  }

  function Prefixed(step: Step, rest: Result<seq<Step>>): Result<seq<Step>> {
    if rest.Failure? then rest else Success([step] + rest.value)
  }

  ghost function Departing(r: Round, orders: seq<Order>, startTime: int): Where
    requires Sound(r)
  {
    Where(startTime, r.problem.locations[r.vehicle.startLocation].matrixIndex,
          if r.vehicle.battery.Some? then Some(r.vehicle.initialSoc) else None,
          map d | d in Dimensions(orders) :: Delivered(orders, d))
  }

  ghost function StartOf(r: Round, at: Where): Step
    requires Sound(r)
  {
    Step(StartStep, r.vehicle.startLocation, at.clock, at.clock, at.clock, None, at.onBoard, at.soc)
  }

  ghost function Itinerary(r: Round, orders: seq<Order>, startTime: int): Result<seq<Step>>
    requires Sound(r)
    requires forall o :: o in orders ==> Sited(r.problem, o)
  {
    var at := Departing(r, orders, startTime);
    Prefixed(StartOf(r, at), Onward(r, orders, 0, false, at))
  }

  // ------------------------------------------------------------------
  // The source's loop
  // ------------------------------------------------------------------

  /** `_charge_step`: one visit to a charger. */
  method ChargeAt(r: Round, at: Where, stop: ChargeStop) returns (visit: Result<(Step, Where)>)
    requires Sound(r) && at.position < Size(r.problem)
    requires stop.location in r.problem.locations && stop.toSoc <= Battery.FULL
    ensures visit.Success? == Charging(r, at, stop).Success?
    ensures visit.Success? ==> visit == Charging(r, at, stop)
  {
    var p, v := r.problem, r.vehicle;
    if v.battery.None? || at.soc.None? {
      return Failure("no battery");
    }
    var charger := p.locations[stop.location].matrixIndex;
    if p.matrix.durations[at.position][charger] == UNREACHABLE || p.matrix.distances[at.position][charger] == UNREACHABLE {
      return Failure("no route");
    }
    var seconds := Drive(p, at.position, charger, at.clock);
    var arrived := Drained(v, at.soc, p.matrix.distances[at.position][charger]);
    if stop.toSoc < Max(arrived.value, 0) {
      return Failure("target below arrival charge");
    }
    var plugged := Battery.ChargeSeconds(v.battery.value, r.curve, Max(arrived.value, 0), stop.toSoc);
    var arrival := at.clock + seconds;
    var left := arrival + plugged.value;
    return Success((Step(ChargeStep, stop.location, arrival, arrival, left, None, at.onBoard, Some(stop.toSoc)),
                    Where(left, charger, Some(stop.toSoc), at.onBoard)));
  }

  /** One stop of `build_timeline`'s loop. */
  method ServeAt(r: Round, at: Where, o: Order) returns (visit: Result<(Step, Where)>)
    requires Sound(r) && Sited(r.problem, o) && at.position < Size(r.problem)
    ensures visit.Success? == Serving(r, at, o).Success?
    ensures visit.Success? ==> visit == Serving(r, at, o)
  {
    var p, stop := r.problem, StopOf(o);
    var site := p.locations[stop.location];
    if p.matrix.durations[at.position][site.matrixIndex] == UNREACHABLE || p.matrix.distances[at.position][site.matrixIndex] == UNREACHABLE {
      return Failure("no route");
    }
    var seconds := Drive(p, at.position, site.matrixIndex, at.clock);
    var arrival := at.clock + seconds;
    var soc := Drained(r.vehicle, at.soc, p.matrix.distances[at.position][site.matrixIndex]);
    var begin := ServiceStart(arrival, stop.windows);
    var depart := begin + ServiceTime(o, r.vehicle, site);
    var onBoard := Handled(at.onBoard, o);
    var kind := if o.delivery.Some? then DeliveryStep else PickupStep;
    return Success((Step(kind, stop.location, arrival, begin, depart, Some(o.id), onBoard, soc),
                    Where(depart, site.matrixIndex, soc, onBoard)));
  }

  /** `build_timeline`: START, one step per order with any charges interleaved, END. */
  method BuildTimeline(r: Round, orders: seq<Order>, startTime: int) returns (result: Result<seq<Step>>)
    requires Sound(r)
    requires forall o :: o in orders ==> Sited(r.problem, o)
    ensures result.Success? == Itinerary(r, orders, startTime).Success?
    ensures result.Success? ==> result == Itinerary(r, orders, startTime)
  {
    hide ServiceStart, ServiceTime, Handled;
    var p, v := r.problem, r.vehicle;
    var at := Where(startTime, p.locations[v.startLocation].matrixIndex,
                    if v.battery.Some? then Some(v.initialSoc) else None,
                    map d | d in Dimensions(orders) :: Delivered(orders, d));
    var steps := [Step(StartStep, v.startLocation, at.clock, at.clock, at.clock, None, at.onBoard, at.soc)];
    ghost var whole := Itinerary(r, orders, startTime);
    for index := 0 to |orders|
      invariant at.position < Size(p)
      invariant whole == Joined(steps, Onward(r, orders, index, false, at))
    {
      if index in r.charges {
        var visit := ChargeAt(r, at, r.charges[index]);
        if visit.Failure? {
          return Failure(visit.reason);
        }
        JoinedAppends(steps, visit.value.0, Onward(r, orders, index, true, visit.value.1));
        steps := steps + [visit.value.0];
        at := visit.value.1;
      }
      assert whole == Joined(steps, Onward(r, orders, index, true, at));
      var visit := ServeAt(r, at, orders[index]);
      if visit.Failure? {
        return Failure(visit.reason);
      }
      JoinedAppends(steps, visit.value.0, Onward(r, orders, index + 1, false, visit.value.1));
      steps := steps + [visit.value.0];
      at := visit.value.1;
    }
    var home := p.locations[EndsAt(v)].matrixIndex;
    if p.matrix.durations[at.position][home] == UNREACHABLE || p.matrix.distances[at.position][home] == UNREACHABLE {
      return Failure("no route");
    }
    var seconds := Drive(p, at.position, home, at.clock);
    var arrival := at.clock + seconds;
    var soc := Drained(v, at.soc, p.matrix.distances[at.position][home]);
    return Success(steps + [Step(EndStep, EndsAt(v), arrival, arrival, arrival, None, at.onBoard, soc)]);
  }

  ghost function Joined(steps: seq<Step>, rest: Result<seq<Step>>): Result<seq<Step>> {
    if rest.Failure? then rest else Success(steps + rest.value)
  }

  lemma {:induction false} JoinedAppends(steps: seq<Step>, step: Step, rest: Result<seq<Step>>)
    ensures Joined(steps, Prefixed(step, rest)) == Joined(steps + [step], rest)
  {
    if rest.Success? {
      assert steps + ([step] + rest.value) == (steps + [step]) + rest.value;
    }
  }

  // ------------------------------------------------------------------
  // Whole-route no-passing
  // ------------------------------------------------------------------

  /** The same step, no later in the day. */
  ghost predicate NoLater(a: Step, b: Step) {
    && a.kind == b.kind && a.location == b.location && a.order == b.order
    && a.loadAfter == b.loadAfter && a.soc == b.soc
    && a.arrival <= b.arrival && a.startService <= b.startService && a.departure <= b.departure
  }

  ghost predicate AllNoLater(a: seq<Step>, b: seq<Step>) {
    |a| == |b| && forall k :: 0 <= k < |a| ==> NoLater(a[k], b[k])
  }

  /** The same van in the same place, no later. */
  ghost predicate Ahead(a: Where, b: Where) {
    a == b.(clock := a.clock) && a.clock <= b.clock
  }

  lemma {:induction false} ChargingNoPassing(r: Round, a: Where, b: Where, stop: ChargeStop)
    requires Sound(r) && a.position < Size(r.problem) && Ahead(a, b)
    requires stop.location in r.problem.locations && stop.toSoc <= Battery.FULL
    ensures Charging(r, a, stop).Success? <==> Charging(r, b, stop).Success?
    ensures Charging(r, a, stop).Success? ==>
      NoLater(Charging(r, a, stop).value.0, Charging(r, b, stop).value.0)
      && Ahead(Charging(r, a, stop).value.1, Charging(r, b, stop).value.1)
  {
    var there := r.problem.locations[stop.location].matrixIndex;
    if Open(r.problem, a.position, there) {
      TravelNoPassing(r.problem, a.position, there, a.clock, b.clock);
    }
  }

  lemma {:induction false} ServingNoPassing(r: Round, a: Where, b: Where, o: Order)
    requires Sound(r) && Sited(r.problem, o) && a.position < Size(r.problem) && Ahead(a, b)
    ensures Serving(r, a, o).Success? <==> Serving(r, b, o).Success?
    ensures Serving(r, a, o).Success? ==>
      NoLater(Serving(r, a, o).value.0, Serving(r, b, o).value.0)
      && Ahead(Serving(r, a, o).value.1, Serving(r, b, o).value.1)
  {
    var there := r.problem.locations[StopOf(o).location].matrixIndex;
    if Open(r.problem, a.position, there) {
      TravelNoPassing(r.problem, a.position, there, a.clock, b.clock);
      ServiceStartGrows(Leg(r, a, there).value.clock, Leg(r, b, there).value.clock, StopOf(o).windows);
    }
  }

  /** Both days fail, or both succeed and the first is nowhere later. */
  ghost predicate DayNoLater(a: Result<seq<Step>>, b: Result<seq<Step>>) {
    (a.Success? <==> b.Success?) && (a.Success? ==> AllNoLater(a.value, b.value))
  }

  lemma {:induction false} PrefixedNoLater(a: Step, restA: Result<seq<Step>>, b: Step, restB: Result<seq<Step>>)
    requires NoLater(a, b) && DayNoLater(restA, restB)
    ensures DayNoLater(Prefixed(a, restA), Prefixed(b, restB))
  {
  }

  lemma {:induction false} HomingNoPassing(r: Round, a: Where, b: Where)
    requires Sound(r) && a.position < Size(r.problem) && Ahead(a, b)
    ensures Homing(r, a).Success? <==> Homing(r, b).Success?
    ensures Homing(r, a).Success? ==> NoLater(Homing(r, a).value, Homing(r, b).value)
  {
    var home := r.problem.locations[EndsAt(r.vehicle)].matrixIndex;
    if Open(r.problem, a.position, home) {
      TravelNoPassing(r.problem, a.position, home, a.clock, b.clock);
    }
  }

  lemma {:induction false} OnwardNoPassing(r: Round, orders: seq<Order>, index: nat, plugged: bool,
                                           a: Where, b: Where)
    requires Sound(r) && index <= |orders| && a.position < Size(r.problem) && Ahead(a, b)
    requires forall o :: o in orders ==> Sited(r.problem, o)
    ensures DayNoLater(Onward(r, orders, index, plugged, a), Onward(r, orders, index, plugged, b))
    decreases |orders| - index, !plugged
  {
    if index == |orders| {
      HomingNoPassing(r, a, b);
    } else if !plugged && index in r.charges {
      ChargingNoPassing(r, a, b, r.charges[index]);
      var x, y := Charging(r, a, r.charges[index]), Charging(r, b, r.charges[index]);
      if x.Success? {
        OnwardNoPassing(r, orders, index, true, x.value.1, y.value.1);
        PrefixedNoLater(x.value.0, Onward(r, orders, index, true, x.value.1),
                        y.value.0, Onward(r, orders, index, true, y.value.1));
      }
    } else {
      var o := orders[index];
      assert Sited(r.problem, o);
      ServingNoPassing(r, a, b, o);
      var x, y := Serving(r, a, o), Serving(r, b, o);
      if x.Success? {
        OnwardNoPassing(r, orders, index + 1, false, x.value.1, y.value.1);
        PrefixedNoLater(x.value.0, Onward(r, orders, index + 1, false, x.value.1),
                        y.value.0, Onward(r, orders, index + 1, false, y.value.1));
      }
    }
  }

  /** Leaving later never reaches, serves or leaves any stop earlier, through
      profiles, windows, service and charging alike, and changes nothing else. */
  lemma {:induction false} RouteNoPassing(r: Round, orders: seq<Order>, early: int, late: int)
    requires Sound(r) && early <= late
    requires forall o :: o in orders ==> Sited(r.problem, o)
    ensures Itinerary(r, orders, early).Success? <==> Itinerary(r, orders, late).Success?
    ensures Itinerary(r, orders, early).Success? ==>
      AllNoLater(Itinerary(r, orders, early).value, Itinerary(r, orders, late).value)
  {
    var a, b := Departing(r, orders, early), Departing(r, orders, late);
    OnwardNoPassing(r, orders, 0, false, a, b);
    PrefixedNoLater(StartOf(r, a), Onward(r, orders, 0, false, a), StartOf(r, b), Onward(r, orders, 0, false, b));
  }

  // ------------------------------------------------------------------
  // Legality
  // ------------------------------------------------------------------

  ghost predicate StepLawful(r: Round, step: Step) {
    && (forall d :: d in step.loadAfter ==>
          step.loadAfter[d] <= if d in r.vehicle.capacities then r.vehicle.capacities[d] else 0)
    && (step.order.Some? ==>
          var o := OrderOf(r.problem.orders, step.order.value);
          o.Some? && Kept(StopOf(o.value).windows, step.startService))
  }

  /** Capacity, hard windows and the end of the shift. */
  ghost predicate Lawful(r: Round, steps: seq<Step>) {
    && (forall k :: 0 <= k < |steps| ==> StepLawful(r, steps[k]))
    && (steps != [] ==> steps[|steps| - 1].arrival <= r.vehicle.shift.end)
  }

  /** The route's orders are the instance's own. */
  ghost predicate Drawn(r: Round, orders: seq<Order>) {
    forall o :: o in orders ==> Sited(r.problem, o) && OrderOf(r.problem.orders, o.id) == Some(o)
  }

  /** `route_is_legal` without its hours-of-service branch. An arc nobody can drive is a failure. */
  method RouteIsLegal(r: Round, orders: seq<Order>) returns (legal: Result<bool>)
    requires Sound(r) && Drawn(r, orders)
    ensures var day := Itinerary(r, orders, r.vehicle.shift.start);
            legal.Success? == day.Success? && (day.Success? ==> legal.value == Lawful(r, day.value))
  {
    var built := BuildTimeline(r, orders, r.vehicle.shift.start);
    if built.Failure? {
      return Failure(built.reason);
    }
    var steps := built.value;
    DayTimely(r, orders, r.vehicle.shift.start);
    for k := 0 to |steps|
      invariant forall i :: 0 <= i < k ==> StepLawful(r, steps[i])
    {
      var step := steps[k];
      var limits := r.vehicle.capacities;
      if exists d :: d in step.loadAfter && step.loadAfter[d] > (if d in limits then limits[d] else 0) {
        return Success(false);
      }
      if step.order.None? {
        continue;
      }
      assert Timely(r, orders, step);
      var o := OrderOf(r.problem.orders, step.order.value);
      if !Kept(StopOf(o.value).windows, step.startService) {
        return Success(false);
      }
    }
    if steps != [] && steps[|steps| - 1].arrival > r.vehicle.shift.end {
      return Success(false);
    }
    return Success(true);
  }

  /** The step serves one of these orders as soon as its windows allow. */
  ghost predicate Timely(r: Round, orders: seq<Order>, step: Step) {
    step.order.Some? ==>
      var o := OrderOf(r.problem.orders, step.order.value);
      o.Some? && o.value in orders && step.startService == ServiceStart(step.arrival, StopOf(o.value).windows)
  }

  lemma {:induction false} ServingTimely(r: Round, orders: seq<Order>, at: Where, o: Order)
    requires o in orders && Sound(r) && Sited(r.problem, o) && at.position < Size(r.problem)
    requires OrderOf(r.problem.orders, o.id) == Some(o)
    ensures Serving(r, at, o).Success? ==> Timely(r, orders, Serving(r, at, o).value.0)
  {
  }

  ghost predicate AllTimely(r: Round, orders: seq<Order>, day: Result<seq<Step>>) {
    day.Success? ==> forall k :: 0 <= k < |day.value| ==> Timely(r, orders, day.value[k])
  }

  lemma {:induction false} PrefixedTimely(r: Round, orders: seq<Order>, step: Step, rest: Result<seq<Step>>)
    requires Timely(r, orders, step) && AllTimely(r, orders, rest)
    ensures AllTimely(r, orders, Prefixed(step, rest))
  {
  }

  lemma {:induction false} OnwardTimely(r: Round, orders: seq<Order>, index: nat, plugged: bool, at: Where)
    requires Sound(r) && Drawn(r, orders) && index <= |orders| && at.position < Size(r.problem)
    ensures AllTimely(r, orders, Onward(r, orders, index, plugged, at))
    decreases |orders| - index, !plugged
  {
    hide ServiceStart, ServiceTime, Handled, Drained, OrderOf;
    if index == |orders| {
    } else if !plugged && index in r.charges {
      var visit := Charging(r, at, r.charges[index]);
      if visit.Success? {
        OnwardTimely(r, orders, index, true, visit.value.1);
        PrefixedTimely(r, orders, visit.value.0, Onward(r, orders, index, true, visit.value.1));
      }
    } else {
      assert Sited(r.problem, orders[index]) && OrderOf(r.problem.orders, orders[index].id) == Some(orders[index]);
      ServingTimely(r, orders, at, orders[index]);
      var visit := Serving(r, at, orders[index]);
      if visit.Success? {
        OnwardTimely(r, orders, index + 1, false, visit.value.1);
        PrefixedTimely(r, orders, visit.value.0, Onward(r, orders, index + 1, false, visit.value.1));
      }
    }
  }

  lemma {:induction false} DayTimely(r: Round, orders: seq<Order>, startTime: int)
    requires Sound(r) && Drawn(r, orders)
    ensures AllTimely(r, orders, Itinerary(r, orders, startTime))
  {
    var at := Departing(r, orders, startTime);
    OnwardTimely(r, orders, 0, false, at);
    PrefixedTimely(r, orders, StartOf(r, at), Onward(r, orders, 0, false, at));
  }

  /** When no stop of the route puts a soft window before a hard one, a route that is legal
      leaving late is legal leaving at any earlier moment. */
  lemma {:induction false} LegalEarlier(r: Round, orders: seq<Order>, early: int, late: int)
    requires Sound(r) && Drawn(r, orders) && early <= late
    requires forall o :: o in orders ==> HardFirst(StopOf(o).windows)
    requires Itinerary(r, orders, late).Success? && Lawful(r, Itinerary(r, orders, late).value)
    ensures Itinerary(r, orders, early).Success? && Lawful(r, Itinerary(r, orders, early).value)
  {
    RouteNoPassing(r, orders, early, late);
    DayTimely(r, orders, early);
    DayTimely(r, orders, late);
    var a, b := Itinerary(r, orders, early).value, Itinerary(r, orders, late).value;
    forall k | 0 <= k < |a|
      ensures StepLawful(r, a[k])
    {
      assert NoLater(a[k], b[k]) && StepLawful(r, b[k]);
      StepLegalEarlier(r, orders, a[k], b[k]);
    }
  }

  lemma {:induction false} StepLegalEarlier(r: Round, orders: seq<Order>, a: Step, b: Step)
    requires WellFormed(r.problem) && forall o :: o in orders ==> HardFirst(StopOf(o).windows)
    requires NoLater(a, b) && Timely(r, orders, a) && Timely(r, orders, b) && StepLawful(r, b)
    ensures StepLawful(r, a)
  {
    if a.order.Some? {
      var o := OrderOf(r.problem.orders, a.order.value).value;
      assert Sited(r.problem, o);
      KeptEarlier(StopOf(o).windows, a.arrival, b.arrival);
    }
  }

  // ------------------------------------------------------------------
  // Load
  // ------------------------------------------------------------------

  /** The van carries what it has still to deliver and what it has collected. */
  ghost predicate Carries(onBoard: map<Id, int>, orders: seq<Order>, j: nat)
    requires j <= |orders|
  {
    forall d :: Load(onBoard, d) == Delivered(orders[j..], d) + Collected(orders[..j], d)
  }

  ghost predicate CarriesAtSome(step: Step, orders: seq<Order>) {
    exists j: nat :: j <= |orders| && Carries(step.loadAfter, orders, j)
      && (step.order.Some? ==> j > 0 && step.order == Some(orders[j - 1].id))
  }

  lemma {:induction false} CollectedSnoc(orders: seq<Order>, j: nat, d: Id)
    requires j < |orders|
    ensures Collected(orders[..j + 1], d)
         == Collected(orders[..j], d) + (if orders[j].delivery.Some? then 0 else Quantity(orders[j], d))
    decreases j
  {
    if j > 0 {
      CollectedSnoc(orders[1..], j - 1, d);
      assert orders[..j + 1][1..] == orders[1..][..j];
      assert orders[..j][1..] == orders[1..][..j - 1];
    } else {
      assert orders[..1] == [orders[0]] && orders[..1][1..] == [];
    }
  }

  lemma {:induction false} HandledCarries(onBoard: map<Id, int>, orders: seq<Order>, j: nat)
    requires j < |orders| && Carries(onBoard, orders, j)
    ensures Carries(Handled(onBoard, orders[j]), orders, j + 1)
  {
    forall d
      ensures Load(Handled(onBoard, orders[j]), d)
           == Delivered(orders[j + 1..], d) + Collected(orders[..j + 1], d)
    {
      CollectedSnoc(orders, j, d);
      assert orders[j..][1..] == orders[j + 1..];
      assert Load(onBoard, d) == Delivered(orders[j..], d) + Collected(orders[..j], d);
    }
  }

  ghost predicate DayCarries(day: Result<seq<Step>>, orders: seq<Order>) {
    day.Success? ==>
      && (forall k :: 0 <= k < |day.value| ==> CarriesAtSome(day.value[k], orders))
      && day.value != []
      && Carries(day.value[|day.value| - 1].loadAfter, orders, |orders|)
  }

  lemma {:induction false} PrefixedCarries(step: Step, rest: Result<seq<Step>>, orders: seq<Order>)
    requires CarriesAtSome(step, orders) && DayCarries(rest, orders)
    ensures DayCarries(Prefixed(step, rest), orders)
  {
  }

  lemma {:induction false} OnwardCarries(r: Round, orders: seq<Order>, index: nat, plugged: bool, at: Where)
    requires Sound(r) && index <= |orders| && at.position < Size(r.problem)
    requires forall o :: o in orders ==> Sited(r.problem, o)
    requires Carries(at.onBoard, orders, index)
    ensures DayCarries(Onward(r, orders, index, plugged, at), orders)
    decreases |orders| - index, !plugged
  {
    if index == |orders| {
      var home := Homing(r, at);
      assert home.Success? ==> CarriesAtSome(home.value, orders);
    } else if !plugged && index in r.charges {
      var visit := Charging(r, at, r.charges[index]);
      if visit.Success? {
        assert CarriesAtSome(visit.value.0, orders);
        OnwardCarries(r, orders, index, true, visit.value.1);
        PrefixedCarries(visit.value.0, Onward(r, orders, index, true, visit.value.1), orders);
      }
    } else {
      var visit := Serving(r, at, orders[index]);
      if visit.Success? {
        HandledCarries(at.onBoard, orders, index);
        assert CarriesAtSome(visit.value.0, orders);
        OnwardCarries(r, orders, index + 1, false, visit.value.1);
        PrefixedCarries(visit.value.0, Onward(r, orders, index + 1, false, visit.value.1), orders);
      }
    }
  }

  lemma {:induction false} LadenAtStart(orders: seq<Order>, d: Id)
    ensures d !in Dimensions(orders) ==> Delivered(orders, d) == 0
  {
    if orders != [] {
      LadenAtStart(orders[1..], d);
    }
  }

  /** Along the whole day the van carries exactly what it has still to deliver
      plus what it has collected; it comes home with exactly the collections. */
  lemma {:induction false} LoadsAreConserved(r: Round, orders: seq<Order>, startTime: int)
    requires Sound(r)
    requires forall o :: o in orders ==> Sited(r.problem, o)
    requires Itinerary(r, orders, startTime).Success?
    ensures var steps := Itinerary(r, orders, startTime).value;
            && (forall k :: 0 <= k < |steps| ==> CarriesAtSome(steps[k], orders))
            && (forall d :: Load(steps[0].loadAfter, d) == Delivered(orders, d))
            && (forall d :: Load(steps[|steps| - 1].loadAfter, d) == Collected(orders, d))
  {
    var at := Departing(r, orders, startTime);
    assert orders[0..] == orders && orders[..|orders|] == orders;
    forall d
      ensures Load(at.onBoard, d) == Delivered(orders[0..], d) + Collected(orders[..0], d)
    {
      LadenAtStart(orders, d);
    }
    assert Carries(at.onBoard, orders, 0);
    assert CarriesAtSome(StartOf(r, at), orders);
    OnwardCarries(r, orders, 0, false, at);
    var steps := Itinerary(r, orders, startTime).value;
    forall d
      ensures Load(steps[0].loadAfter, d) == Delivered(orders, d)
      ensures Load(steps[|steps| - 1].loadAfter, d) == Collected(orders, d)
    {
      assert Carries(steps[|steps| - 1].loadAfter, orders, |orders|);
    }
  }
}
