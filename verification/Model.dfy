/** The planner's domain (vrp/model.py), reduced to the fields the modelled
    modules read. Identifiers are natural numbers standing for the source's
    strings under their own order; instants, durations, loads and distances are
    whole numbers, as they are in the source. */
module Model {
  import opened Common
  import opened TimeDependent

  type Id = nat

  const UNREACHABLE := -1

  // ------------------------------------------------------------------
  // Windows and stops
  // ------------------------------------------------------------------

  datatype Hardness = Hard | Soft

  datatype WindowSpec = WindowSpec(start: int, end: int, hardness: Hardness)

  /** A window the constructor accepts: it does not end before it starts. */
  type TimeWindow = w: WindowSpec | w.start <= w.end witness WindowSpec(0, 0, Hard)

  predicate Contains(w: TimeWindow, instant: int) {
    w.start <= instant <= w.end
  }

  predicate InSome(ws: seq<TimeWindow>, instant: int) {
    exists i :: 0 <= i < |ws| && Contains(ws[i], instant)
  }

  /** A stop's windows never overlap or touch and come in time order. */
  ghost predicate SortedDisjoint(ws: seq<TimeWindow>) {
    forall i, j :: 0 <= i < j < |ws| ==> ws[i].end < ws[j].start
  }

  function HardOnly(ws: seq<TimeWindow>): seq<TimeWindow> {
    if ws == [] then []
    else if ws[0].hardness == Hard then [ws[0]] + HardOnly(ws[1..])
    else HardOnly(ws[1..])
  }

  /** A window is hard and in the list exactly when the filter keeps it. */
  lemma {:induction false} HardMember(ws: seq<TimeWindow>, w: TimeWindow)
    ensures w in HardOnly(ws) <==> w in ws && w.hardness == Hard
  {
    if ws != [] {
      HardMember(ws[1..], w);
      assert ws == [ws[0]] + ws[1..];
    }
  }

  datatype Stop = Stop(location: Id, windows: seq<TimeWindow>, serviceFixed: nat,
                       servicePerUnit: nat, unitDimension: Option<Id>)

  // ------------------------------------------------------------------
  // Orders, vehicles, locations, locks
  // ------------------------------------------------------------------

  datatype OrderSpec = OrderSpec(id: Id, quantities: map<Id, nat>,
                                 pickup: Option<Stop>, delivery: Option<Stop>,
                                 priorityTier: int, prize: int, releaseTime: int,
                                 requiredSkills: set<Id>, orderClass: Option<Id>,
                                 incompatibleWith: set<Id>)

  /** An order the constructor accepts has at least one stop. */
  type Order = o: OrderSpec | o.pickup.Some? || o.delivery.Some?
    witness OrderSpec(0, map[], Some(Stop(0, [], 0, 0, None)), None, 0, 0, 0, {}, None, {})

  ghost predicate DistinctOrders(orders: seq<Order>) {
    forall i, j :: 0 <= i < j < |orders| ==> orders[i].id != orders[j].id
  }

  /** `order.delivery or order.pickup`. */
  function StopOf(o: Order): Stop {
    if o.delivery.Some? then o.delivery.value else o.pickup.value
  }

  datatype Vehicle = Vehicle(id: Id, capacities: map<Id, nat>, shift: TimeWindow,
                             startLocation: Id, endLocation: Option<Id>,
                             skills: set<Id>, serviceFactor: nat,
                             accessClass: Option<Id>, grossWeight: Option<int>,
                             remainingDrive: Option<nat>,
                             battery: Option<nat>, whPerKm: nat, initialSoc: int,
                             fixedCost: nat, costPerMetre: nat, costPerSecond: nat,
                             costPerOrder: nat)

  function EndsAt(v: Vehicle): Id {
    if v.endLocation.Some? then v.endLocation.value else v.startLocation
  }

  datatype Location = Location(id: Id, matrixIndex: nat, dwellOverhead: nat,
                               dockCapacity: Option<nat>,
                               inventory: Option<map<Id, nat>>,
                               accessClasses: set<Id>, maxVehicleKg: Option<nat>)

  datatype LockKind =
    | PinOrderToVehicle(order: Id, vehicle: Id)
    | ForbidOrderOnVehicle(order: Id, vehicle: Id)
    | PinDepot(order: Id, depot: Id)
    | ForbidDeploy(vehicle: Id)
    | OtherLock // FIX_ROUTE_PREFIX, FIX_SEQUENCE, FORCE_DEPLOY, FREEZE_UNTIL

  /** A lock as an object: `self` is its identity, so that two equal
      instructions can still be two locks. */
  datatype Lock = Lock(self: nat, kind: LockKind)

  // ------------------------------------------------------------------
  // The instance
  // ------------------------------------------------------------------

  datatype Matrix = Matrix(durations: seq<seq<int>>, distances: seq<seq<int>>)

  ghost predicate Square(grid: seq<seq<int>>, size: nat) {
    && |grid| == size
    && forall i :: 0 <= i < size ==>
      && |grid[i]| == size
      && forall j :: 0 <= j < size ==> grid[i][j] >= 0 || grid[i][j] == UNREACHABLE
  }

  datatype ArcClass = Local | Arterial | Trunk

  datatype Problem = Problem(locations: map<Id, Location>, orders: seq<Order>,
                             vehicles: seq<Vehicle>, matrix: Matrix, locks: seq<Lock>,
                             speedProfile: Option<Profile>,
                             speedProfiles: Option<map<ArcClass, Profile>>)

  /** The same instance under other locks (`_with_locks`, `_replace_locks`): made anew from its places,
      orders, vehicles, matrix and locks, and so without its speed profiles. */
  function WithLocks(p: Problem, locks: seq<Lock>): Problem {
    p.(locks := locks, speedProfile := None, speedProfiles := None)
  }

  /** `problem.order(id)`: the first order with that identifier. */
  function OrderOf(orders: seq<Order>, id: Id): (o: Option<Order>)
    ensures o.Some? ==> o.value in orders && o.value.id == id
    ensures o.None? ==> forall x :: x in orders ==> x.id != id
  {
    if orders == [] then None
    else
      assert orders == [orders[0]] + orders[1..];
      if orders[0].id == id then Some(orders[0]) else OrderOf(orders[1..], id)
  }

  /** `problem.vehicle(id)`: the first vehicle with that identifier. */
  function VehicleOf(vs: seq<Vehicle>, id: Id): (v: Option<Vehicle>)
    ensures v.Some? ==> v.value in vs && v.value.id == id
  {
    if vs == [] then None
    else
      assert vs == [vs[0]] + vs[1..];
      if vs[0].id == id then Some(vs[0]) else VehicleOf(vs[1..], id)
  }

  function Size(p: Problem): nat {
    |p.matrix.durations|
  }

  /** What `Problem.__post_init__` establishes, as far as the model reads it. */
  ghost predicate WellFormed(p: Problem) {
    && Square(p.matrix.durations, Size(p))
    && Square(p.matrix.distances, Size(p))
    && (forall l :: l in p.locations ==> p.locations[l].matrixIndex < Size(p))
    && (forall v :: v in p.vehicles ==> v.startLocation in p.locations && EndsAt(v) in p.locations)
    && (forall o :: o in p.orders ==> Sited(p, o))
  }

  /** No two places share a row of the matrix, and each is filed under its own identifier. */
  ghost predicate DistinctPlaces(p: Problem) {
    && (forall l :: l in p.locations ==> p.locations[l].id == l)
    && forall a, b :: a in p.locations && b in p.locations && a != b ==>
         p.locations[a].matrixIndex != p.locations[b].matrixIndex
  }

  /** The order's own stop is at a known location and its windows are in order. */
  ghost predicate Sited(p: Problem, o: Order) {
    StopOf(o).location in p.locations && SortedDisjoint(StopOf(o).windows)
  }

  /** The matrix has a duration for the arc; cells are non-negative or UNREACHABLE. */
  predicate Reachable(p: Problem, origin: nat, destination: nat) {
    && origin < Size(p) && destination < |p.matrix.durations[origin]|
    && p.matrix.durations[origin][destination] >= 0
  }

  // ------------------------------------------------------------------
  // Travel
  // ------------------------------------------------------------------

  function ArcClassOf(freeFlow: int): ArcClass {
    if freeFlow <= 300 then Local else if freeFlow <= 1200 then Arterial else Trunk
  }

  function ProfileForArc(p: Problem, freeFlow: int): Option<Profile> {
    if p.speedProfiles.Some? then
      var byClass := p.speedProfiles.value;
      if ArcClassOf(freeFlow) in byClass then Some(byClass[ArcClassOf(freeFlow)]) else None
    else p.speedProfile
  }

  ghost function TravelBetween(p: Problem, origin: nat, destination: nat, depart: int): nat
    requires Reachable(p, origin, destination)
  {
    var freeFlow := p.matrix.durations[origin][destination];
    var profile := ProfileForArc(p, freeFlow);
    if profile.None? then freeFlow else Travel(profile.value, freeFlow, depart)
  }

  /** The walk of a class's profile, or free flow. */
  ghost function ByClass(profiles: map<ArcClass, Profile>, kind: ArcClass, freeFlow: nat, depart: int): nat {
    if kind in profiles then Travel(profiles[kind], freeFlow, depart) else freeFlow
  }

  /** The source's `travel_between`, on the bucket walk. With per-class profiles a short arc drives by
      the local one, a middling one by the arterial one and a long one by the trunk one, or at free
      flow where its class has none; otherwise the instance's one profile, if any, is every arc's. */
  method Drive(p: Problem, origin: nat, destination: nat, depart: int) returns (seconds: nat)
    requires Reachable(p, origin, destination)
    ensures seconds == TravelBetween(p, origin, destination, depart)
    ensures var freeFlow, byClass := p.matrix.durations[origin][destination], p.speedProfiles;
            && (byClass.Some? && freeFlow <= 300 ==> seconds == ByClass(byClass.value, Local, freeFlow, depart))
            && (byClass.Some? && 300 < freeFlow <= 1200 ==> seconds == ByClass(byClass.value, Arterial, freeFlow, depart))
            && (byClass.Some? && 1200 < freeFlow ==> seconds == ByClass(byClass.value, Trunk, freeFlow, depart))
    ensures p.speedProfiles.None? ==>
              seconds == (var freeFlow: nat := p.matrix.durations[origin][destination];
                          if p.speedProfile.Some? then Travel(p.speedProfile.value, freeFlow, depart) else freeFlow)
  {
    var freeFlow := p.matrix.durations[origin][destination];
    var profile := ProfileForArc(p, freeFlow);
    if profile.None? || freeFlow <= 0 {
      return freeFlow;
    }
    var walked := TravelBy(freeFlow, depart, profile.value);
    return walked.value;
  }

  /** No arc of any instance lets a later departure overtake an earlier one. */
  lemma {:induction false} TravelNoPassing(p: Problem, origin: nat, destination: nat, early: int, late: int)
    requires Reachable(p, origin, destination)
    requires early <= late
    ensures early + TravelBetween(p, origin, destination, early)
         <= late + TravelBetween(p, origin, destination, late)
  {
    var freeFlow := p.matrix.durations[origin][destination];
    var profile := ProfileForArc(p, freeFlow);
    if profile.Some? {
      NoPassing(profile.value, freeFlow, early, late);
    }
  }

  // ------------------------------------------------------------------
  // Service
  // ------------------------------------------------------------------

  /** Which of an order's stops is the one at this location. */
  function StopServedAt(o: Order, at: Location): Stop {
    if o.pickup.Some? && o.delivery.Some?
       && at.id == o.pickup.value.location && at.id != o.delivery.value.location
    then o.pickup.value
    else StopOf(o)
  }

  function SumOver(m: map<Id, nat>, keys: set<Id>): nat
    requires keys <= m.Keys
  {
    if keys == {} then 0
    else var k := Least(keys); m[k] + SumOver(m, keys - {k})
  }

  /** `(fixed + per_unit * quantity) * factor / 1000 + dwell`, the division truncating. */
  function ServiceTime(o: Order, v: Vehicle, at: Location): nat {
    var stop := StopServedAt(o, at);
    var quantity: nat :=
      if stop.unitDimension.Some? then
        (if stop.unitDimension.value in o.quantities then o.quantities[stop.unitDimension.value] else 0)
      else SumOver(o.quantities, o.quantities.Keys);
    var handling: nat := stop.serviceFixed + stop.servicePerUnit * quantity;
    handling * v.serviceFactor / 1000 + at.dwellOverhead
  }

  /** The stop is handled in `seconds`: its fixed time and its time a unit, scaled by the vehicle's factor in
      thousandths and cut to whole seconds, and then the place's dwell. */
  ghost predicate HandledIn(seconds: int, stop: Stop, o: Order, v: Vehicle, at: Location) {
    var units: int :=
      if stop.unitDimension.None? then SumOver(o.quantities, o.quantities.Keys)
      else if stop.unitDimension.value in o.quantities then o.quantities[stop.unitDimension.value] else 0;
    0 <= (stop.serviceFixed + stop.servicePerUnit * units) * v.serviceFactor - 1000 * (seconds - at.dwellOverhead) < 1000
  }

  /** Service is the delivery's, except at a place that is the pickup's alone. */
  lemma {:induction false} ServiceScales(o: Order, v: Vehicle, at: Location)
    ensures (o.delivery.Some? && (o.pickup.None? || at.id != o.pickup.value.location || at.id == o.delivery.value.location) ==>
               HandledIn(ServiceTime(o, v, at), o.delivery.value, o, v, at))
    ensures (o.pickup.Some? && (o.delivery.None? || at.id == o.pickup.value.location != o.delivery.value.location) ==>
               HandledIn(ServiceTime(o, v, at), o.pickup.value, o, v, at))
  {
    var stop := StopServedAt(o, at);
    assert HandledIn(ServiceTime(o, v, at), stop, o, v, at);
  }

  /** A total is any one of its parts and the rest, whichever part is taken. */
  lemma {:induction false} SumSplits(m: map<Id, nat>, keys: set<Id>, k: Id)
    requires keys <= m.Keys && k in keys
    ensures SumOver(m, keys) == m[k] + SumOver(m, keys - {k}) && SumOver(m, {}) == 0
  {
    var first := Least(keys);
    if k != first {
      SumSplits(m, keys - {first}, k);
      assert first in keys - {k};
      assert Least(keys - {k}) == first;
      assert keys - {first} - {k} == keys - {k} - {first};
    }
  }
}
