/** Pre-flight diagnosis (vrp/diagnose.py): is an order servable by some vehicle on its own? */
module Diagnose {
  import opened Common
  import opened Model

  /** `_reachable`: straight out from the depot, not leaving before `notBefore`,
      can this vehicle arrive before some hard window closes? */
  predicate CanReach(p: Problem, o: Order, v: Vehicle, notBefore: int)
    requires Placed(p, o, v)
  {
    var hard := HardOnly(StopOf(o).windows);
    hard == [] ||
    (var from, to := p.locations[v.startLocation].matrixIndex, p.locations[StopOf(o).location].matrixIndex;
     Reachable(p, from, to) &&
     ArrivesBy(hard, Max(Max(v.shift.start, o.releaseTime), notBefore) + p.matrix.durations[from][to]))
  }

  /** The places the source looks up exist, as `Problem` guarantees. */
  ghost predicate Placed(p: Problem, o: Order, v: Vehicle) {
    StopOf(o).location in p.locations && v.startLocation in p.locations && EndsAt(v) in p.locations
  }

  predicate ArrivesBy(hard: seq<TimeWindow>, arrival: int) {
    exists i :: 0 <= i < |hard| && arrival <= hard[i].end
  }

  /** Leaving no earlier than a later moment is no easier. */
  lemma {:induction false} ReachIsAntitone(p: Problem, o: Order, v: Vehicle, early: int, late: int)
    requires Placed(p, o, v) && early <= late && CanReach(p, o, v, late)
    ensures CanReach(p, o, v, early)
  {
    var hard := HardOnly(StopOf(o).windows);
    if hard != [] {
      var from, to := p.locations[v.startLocation].matrixIndex, p.locations[StopOf(o).location].matrixIndex;
      var leg := p.matrix.durations[from][to];
      var i :| 0 <= i < |hard| && Max(Max(v.shift.start, o.releaseTime), late) + leg <= hard[i].end;
      assert ArrivesBy(hard, Max(Max(v.shift.start, o.releaseTime), early) + leg);
    }
  }

  // ------------------------------------------------------------------
  // Which vehicles may take an order
  // ------------------------------------------------------------------

  predicate MayEnter(v: Vehicle, site: Location) {
    && (site.accessClasses == {} || (v.accessClass.Some? && v.accessClass.value in site.accessClasses))
    && !(site.maxVehicleKg.Some? && v.grossWeight.Some? && v.grossWeight.value > site.maxVehicleKg.value)
  }

  function Forbidden(locks: seq<Lock>): set<Id> {
    set l | l in locks && l.kind.ForbidDeploy? :: l.kind.vehicle
  }

  /** What one lock says about this order on this vehicle; a deployment ban is handled apart. */
  predicate Permits(kind: LockKind, order: Id, v: Vehicle) {
    match kind
    case PinOrderToVehicle(o, w) => o == order ==> v.id == w
    case ForbidOrderOnVehicle(o, w) => o == order ==> v.id != w
    case PinDepot(o, d) => o == order ==> v.startLocation == d
    case ForbidDeploy(_) => true
    case OtherLock => true
  }

  predicate AllPermit(locks: seq<Lock>, order: Id, v: Vehicle) {
    forall l :: l in locks ==> Permits(l.kind, order, v)
  }

  predicate MayTake(p: Problem, o: Order, v: Vehicle, grounded: set<Id>, locks: seq<Lock>)
    requires StopOf(o).location in p.locations
  {
    && o.requiredSkills <= v.skills && v.id !in grounded
    && MayEnter(v, p.locations[StopOf(o).location])
    && AllPermit(locks, o.id, v)
  }

  function Allowed(p: Problem, o: Order, vs: seq<Vehicle>, grounded: set<Id>, locks: seq<Lock>): seq<Vehicle>
    requires StopOf(o).location in p.locations
  {
    if vs == [] then []
    else if MayTake(p, o, vs[0], grounded, locks) then [vs[0]] + Allowed(p, o, vs[1..], grounded, locks)
    else Allowed(p, o, vs[1..], grounded, locks)
  }

  /** The fleet an order may travel on: the vehicles its requirements and every lock allow, in order. */
  function Eligible(p: Problem, o: Order): seq<Vehicle>
    requires StopOf(o).location in p.locations
  {
    Allowed(p, o, p.vehicles, Forbidden(p.locks), p.locks)
  }

  function Narrow(vs: seq<Vehicle>, kind: LockKind, order: Id): seq<Vehicle> {
    if vs == [] then []
    else if Permits(kind, order, vs[0]) then [vs[0]] + Narrow(vs[1..], kind, order)
    else Narrow(vs[1..], kind, order)
  }

  lemma {:induction false} NarrowedOnce(p: Problem, o: Order, vs: seq<Vehicle>, grounded: set<Id>, locks: seq<Lock>,
                                        l: Lock)
    requires StopOf(o).location in p.locations
    ensures Allowed(p, o, vs, grounded, locks + [l]) == Narrow(Allowed(p, o, vs, grounded, locks), l.kind, o.id)
  {
    if vs != [] {
      NarrowedOnce(p, o, vs[1..], grounded, locks, l);
      assert AllPermit(locks + [l], o.id, vs[0]) <==> AllPermit(locks, o.id, vs[0]) && Permits(l.kind, o.id, vs[0]) by {
        assert l in locks + [l];
        assert forall m :: m in locks + [l] ==> m in locks || m == l;
      }
    }
  }

  /** `_eligible`: the pins narrow the fleet one after another. */
  method FleetFor(p: Problem, o: Order) returns (fleet: seq<Vehicle>)
    requires StopOf(o).location in p.locations
    ensures fleet == Eligible(p, o)
  {
    var grounded := Forbidden(p.locks);
    fleet := Allowed(p, o, p.vehicles, grounded, []);
    for k := 0 to |p.locks|
      invariant fleet == Allowed(p, o, p.vehicles, grounded, p.locks[..k])
    {
      NarrowedOnce(p, o, p.vehicles, grounded, p.locks[..k], p.locks[k]);
      assert p.locks[..k + 1] == p.locks[..k] + [p.locks[k]];
      fleet := Narrow(fleet, p.locks[k].kind, o.id);
    }
    assert p.locks[..|p.locks|] == p.locks;
  }

  // ------------------------------------------------------------------
  // The other checks
  // ------------------------------------------------------------------

  /** `_fits`: every dimension. */
  predicate Fits(o: Order, v: Vehicle) {
    forall d :: d in o.quantities ==> o.quantities[d] <= (if d in v.capacities then v.capacities[d] else 0)
  }

  function Usable(o: Order, fleet: seq<Vehicle>): seq<Vehicle> {
    if fleet == [] then []
    else if Fits(o, fleet[0]) then [fleet[0]] + Usable(o, fleet[1..])
    else Usable(o, fleet[1..])
  }

  /** The depot tracks stock and holds too little of something the order needs. */
  predicate LacksStock(o: Order, depot: Location) {
    depot.inventory.Some? &&
    exists d :: d in o.quantities && d in depot.inventory.value && depot.inventory.value[d] < o.quantities[d]
  }

  /** `_stocked_out`, over the depots the fleet starts from. */
  predicate StockedOut(p: Problem, o: Order, fleet: seq<Vehicle>)
    requires forall v :: v in fleet ==> v.startLocation in p.locations
  {
    fleet != [] && forall v :: v in fleet ==> LacksStock(o, p.locations[v.startLocation])
  }

  predicate ReleasedTooLate(o: Order) {
    var hard := HardOnly(StopOf(o).windows);
    hard != [] && forall w :: w in hard ==> o.releaseTime > w.end
  }

  /** `_duty_fits`: out and back within what the driver may still drive. */
  predicate DutyFits(p: Problem, o: Order, v: Vehicle)
    requires Placed(p, o, v)
  {
    v.remainingDrive.None? ||
    (var depot, stop, home := p.locations[v.startLocation].matrixIndex, p.locations[StopOf(o).location].matrixIndex,
                              p.locations[EndsAt(v)].matrixIndex;
     Reachable(p, depot, stop) && Reachable(p, stop, home) &&
     p.matrix.durations[depot][stop] + p.matrix.durations[stop][home] <= v.remainingDrive.value)
  }

  predicate Enemies(a: Order, b: Order) {
    && a.id != b.id && b.orderClass.Some?
    && (b.orderClass.value in a.incompatibleWith
        || (a.orderClass.Some? && a.orderClass.value in b.incompatibleWith))
  }

  /** `_forced_together_with_an_enemy`. */
  predicate ForcedTogether(p: Problem, o: Order, usable: seq<Vehicle>) {
    |usable| <= 1 && exists other :: other in p.orders && Enemies(o, other)
  }

  // ------------------------------------------------------------------
  // The chain
  // ------------------------------------------------------------------

  datatype Reason = NoEligibleVehicle | CapacityExceeded | DepotStockout | ReleaseAfterWindow
                  | TimeWindowUnreachable | DutyLimit | IncompatibleOnly | LockConflict

  /** What the checks look up exists. */
  ghost predicate Sound(p: Problem) {
    && (forall v :: v in p.vehicles ==> v.startLocation in p.locations && EndsAt(v) in p.locations)
    && (forall o :: o in p.orders ==> StopOf(o).location in p.locations)
  }

  ghost predicate AllFrom(p: Problem, fleet: seq<Vehicle>) {
    forall v :: v in fleet ==> v in p.vehicles
  }

  predicate SomeReach(p: Problem, o: Order, fleet: seq<Vehicle>)
    requires Sound(p) && StopOf(o).location in p.locations && AllFrom(p, fleet)
  {
    exists v :: v in fleet && CanReach(p, o, v, 0)
  }

  predicate SomeDuty(p: Problem, o: Order, fleet: seq<Vehicle>)
    requires Sound(p) && StopOf(o).location in p.locations && AllFrom(p, fleet)
  {
    exists v :: v in fleet && DutyFits(p, o, v)
  }

  /** The first check the order fails, in the fixed order the report promises. */
  function FirstFailure(p: Problem, o: Order, fleet: seq<Vehicle>): Option<Reason>
    requires Sound(p) && o in p.orders && AllFrom(p, fleet)
  {
    UsableMembers(o, fleet);
    var usable := Usable(o, fleet);
    if fleet == [] then Some(NoEligibleVehicle)
    else if usable == [] then Some(CapacityExceeded)
    else if StockedOut(p, o, fleet) then Some(DepotStockout)
    else if ReleasedTooLate(o) then Some(ReleaseAfterWindow)
    else if !SomeReach(p, o, usable) then Some(TimeWindowUnreachable)
    else if !SomeDuty(p, o, usable) then Some(DutyLimit)
    else if ForcedTogether(p, o, usable) then Some(IncompatibleOnly)
    else None
  }

  lemma {:induction false} UsableMembers(o: Order, fleet: seq<Vehicle>)
    ensures forall v :: v in Usable(o, fleet) <==> v in fleet && Fits(o, v)
  {
    if fleet != [] {
      UsableMembers(o, fleet[1..]);
      assert fleet == [fleet[0]] + fleet[1..];
    }
  }

  lemma {:induction false} AllowedMembers(p: Problem, o: Order, vs: seq<Vehicle>, grounded: set<Id>, locks: seq<Lock>)
    requires StopOf(o).location in p.locations
    ensures forall v :: v in Allowed(p, o, vs, grounded, locks) <==> v in vs && MayTake(p, o, v, grounded, locks)
  {
    if vs != [] {
      AllowedMembers(p, o, vs[1..], grounded, locks);
      assert vs == [vs[0]] + vs[1..];
    }
  }

  /** `_pinned`: a deployment ban, or a lock naming this order, narrowed its options. */
  predicate Pinned(p: Problem, o: Order) {
    exists l :: l in p.locks && Narrows(l.kind, o.id)
  }

  predicate Narrows(kind: LockKind, order: Id) {
    kind.ForbidDeploy? || (!kind.OtherLock? && kind.order == order)
  }

  /** The code an order is reported under, if it fails a check. */
  function Verdict(p: Problem, o: Order): Option<Reason>
    requires Sound(p) && o in p.orders
  {
    AllowedMembers(p, o, p.vehicles, Forbidden(p.locks), p.locks);
    var failure := FirstFailure(p, o, Eligible(p, o));
    if failure.Some? && Pinned(p, o) then Some(LockConflict) else failure
  }

  /** `preflight`. */
  method Preflight(p: Problem) returns (findings: map<Id, Reason>)
    requires Sound(p) && DistinctOrders(p.orders)
    ensures forall o :: o in p.orders ==> (o.id in findings <==> Verdict(p, o).Some?)
    ensures forall o :: o in p.orders && o.id in findings ==> Some(findings[o.id]) == Verdict(p, o)
    ensures forall id :: id in findings ==> exists o :: o in p.orders && o.id == id
  {
    hide FirstFailure, Pinned, MayTake;
    findings := map[];
    for k := 0 to |p.orders|
      invariant forall j :: 0 <= j < k ==> (p.orders[j].id in findings <==> Verdict(p, p.orders[j]).Some?)
      invariant forall j :: 0 <= j < k && p.orders[j].id in findings ==>
        Some(findings[p.orders[j].id]) == Verdict(p, p.orders[j])
      invariant forall id :: id in findings ==> exists j :: 0 <= j < k && p.orders[j].id == id
    {
      var o := p.orders[k];
      AllowedMembers(p, o, p.vehicles, Forbidden(p.locks), p.locks);
      var fleet := FleetFor(p, o);
      var failure := FirstFailure(p, o, fleet);
      if failure.Some? {
        findings := findings[o.id := if Pinned(p, o) then LockConflict else failure.value];
      }
    }
  }

  // ------------------------------------------------------------------
  // What the chain decides
  // ------------------------------------------------------------------

  /** The vehicle is allowed the order under the instance's locks. */
  predicate Free(p: Problem, o: Order, v: Vehicle)
    requires StopOf(o).location in p.locations
  {
    v in p.vehicles && MayTake(p, o, v, Forbidden(p.locks), p.locks)
  }

  /** Every check is met by some vehicle free to take the order: not always by the same one. */
  ghost predicate Servable(p: Problem, o: Order)
    requires Sound(p) && o in p.orders
  {
    && (exists v :: Free(p, o, v) && Fits(o, v) && CanReach(p, o, v, 0))
    && (exists v :: Free(p, o, v) && Fits(o, v) && DutyFits(p, o, v))
    && (exists v :: Free(p, o, v) && !LacksStock(o, p.locations[v.startLocation]))
    && !ReleasedTooLate(o)
    && !ForcedTogether(p, o, Usable(o, Eligible(p, o)))
  }

  /** The chain stops nowhere exactly when every check is met by some free vehicle, and a
      failing order is blamed on the locks exactly when a lock narrowed its options. */
  lemma {:induction false} VerdictMeans(p: Problem, o: Order)
    requires Sound(p) && o in p.orders
    ensures Verdict(p, o).None? <==> Servable(p, o)
    ensures Verdict(p, o) == Some(LockConflict) <==> !Servable(p, o) && Pinned(p, o)
  {
    var fleet := Eligible(p, o);
    AllowedMembers(p, o, p.vehicles, Forbidden(p.locks), p.locks);
    UsableMembers(o, fleet);
    ServableMeans(p, o, fleet);
  }

  lemma {:induction false} ServableMeans(p: Problem, o: Order, fleet: seq<Vehicle>)
    requires Sound(p) && o in p.orders && fleet == Eligible(p, o) && AllFrom(p, fleet)
    requires forall v :: v in fleet <==> Free(p, o, v)
    ensures FirstFailure(p, o, fleet).None? <==> Servable(p, o)
  {
    hide CanReach, DutyFits, LacksStock, Fits, MayTake, ReleasedTooLate, ForcedTogether, Eligible;
    UsableMembers(o, fleet);
    var usable := Usable(o, fleet);
    if FirstFailure(p, o, fleet).None? {
      var v :| v in fleet && !LacksStock(o, p.locations[v.startLocation]);
      var w :| w in usable && CanReach(p, o, w, 0);
      var u :| u in usable && DutyFits(p, o, u);
    }
    if Servable(p, o) {
      var w :| Free(p, o, w) && Fits(o, w) && CanReach(p, o, w, 0);
      assert w in usable;
      var u :| Free(p, o, u) && Fits(o, u) && DutyFits(p, o, u);
      assert u in usable;
      var v :| Free(p, o, v) && !LacksStock(o, p.locations[v.startLocation]);
      assert v in fleet;
    }
  }

  lemma {:induction false} UsableShrinks(p: Problem, o: Order, vs: seq<Vehicle>, few: seq<Lock>, many: seq<Lock>)
    requires StopOf(o).location in p.locations
    requires forall l :: l in few ==> l in many
    ensures |Usable(o, Allowed(p, o, vs, Forbidden(many), many))| <= |Usable(o, Allowed(p, o, vs, Forbidden(few), few))|
  {
    if vs != [] {
      UsableShrinks(p, o, vs[1..], few, many);
    }
  }

  lemma {:induction false} AllowedElsewhere(p: Problem, o: Order, vs: seq<Vehicle>, locks: seq<Lock>)
    requires StopOf(o).location in p.locations
    ensures Allowed(WithLocks(p, locks), o, vs, Forbidden(locks), locks)
         == Allowed(p, o, vs, Forbidden(locks), locks)
  {
    if vs != [] {
      AllowedElsewhere(p, o, vs[1..], locks);
    }
  }

  lemma {:induction false} FreeWithFewer(p: Problem, o: Order, v: Vehicle, few: seq<Lock>, many: seq<Lock>)
    requires StopOf(o).location in p.locations
    requires forall l :: l in few ==> l in many
    requires Free(WithLocks(p, many), o, v)
    ensures Free(WithLocks(p, few), o, v)
  {
  }

  /** Taking locks away never makes an order unservable: no check of the chain is one
      that a lock helps to pass. */
  lemma {:induction false} FewerLocksServe(p: Problem, o: Order, few: seq<Lock>, many: seq<Lock>)
    requires Sound(p) && o in p.orders
    requires forall l :: l in few ==> l in many
    requires Servable(WithLocks(p, many), o)
    ensures Servable(WithLocks(p, few), o)
  {
    hide CanReach, DutyFits, LacksStock, Fits, MayTake, ReleasedTooLate, Allowed, Usable, Forbidden;
    var f, m := WithLocks(p, few), WithLocks(p, many);
    AllowedElsewhere(p, o, p.vehicles, few);
    AllowedElsewhere(p, o, p.vehicles, many);
    UsableShrinks(p, o, p.vehicles, few, many);
    var w :| Free(m, o, w) && Fits(o, w) && CanReach(m, o, w, 0);
    FreeWithFewer(p, o, w, few, many);
    SameChecks(p, o, w, few, many);
    var u :| Free(m, o, u) && Fits(o, u) && DutyFits(m, o, u);
    FreeWithFewer(p, o, u, few, many);
    SameChecks(p, o, u, few, many);
    var v :| Free(m, o, v) && !LacksStock(o, m.locations[v.startLocation]);
    FreeWithFewer(p, o, v, few, many);
  }

  /** No check reads a speed profile: made anew with its own locks, an instance serves the same orders. */
  lemma {:induction false} SameServable(p: Problem, o: Order)
    requires Sound(p) && o in p.orders
    ensures Servable(p, o) <==> Servable(WithLocks(p, p.locks), o)
  {
    hide LacksStock, Fits, ReleasedTooLate, Allowed, Usable, Forbidden;
    AllowedElsewhere(p, o, p.vehicles, p.locks);
    var q := WithLocks(p, p.locks);
    forall v | v in p.vehicles
      ensures Free(p, o, v) == Free(q, o, v)
      ensures CanReach(p, o, v, 0) == CanReach(q, o, v, 0) && DutyFits(p, o, v) == DutyFits(q, o, v)
    {
    }
  }

  lemma {:induction false} SameChecks(p: Problem, o: Order, v: Vehicle, a: seq<Lock>, b: seq<Lock>)
    requires Placed(p, o, v)
    ensures CanReach(WithLocks(p, a), o, v, 0) == CanReach(WithLocks(p, b), o, v, 0)
    ensures DutyFits(WithLocks(p, a), o, v) == DutyFits(WithLocks(p, b), o, v)
  {
  }
}
