/** When pre-flight (vrp/diagnose.py) reports an order, said vehicle by vehicle over the instance: what stands
    in the way of each. `Diagnose` runs the checks as the source chains them. */
module Refusals {
  import opened Common
  import opened Model
  import opened Diagnose

  function StopFor(o: Order): Stop {
    if o.delivery.Some? then o.delivery.value else o.pickup.value
  }

  /** A lock keeps the order off the vehicle, or the vehicle in the yard. */
  ghost predicate LockedOut(l: LockKind, o: Order, v: Vehicle) {
    || l == ForbidDeploy(v.id)
    || l == ForbidOrderOnVehicle(o.id, v.id)
    || (l.PinOrderToVehicle? && l.order == o.id && l.vehicle != v.id)
    || (l.PinDepot? && l.order == o.id && l.depot != v.startLocation)
  }

  /** The site turns the vehicle away, for its class or its weight. */
  ghost predicate TurnedAway(site: Location, v: Vehicle) {
    || (site.accessClasses != {} && (v.accessClass.None? || v.accessClass.value !in site.accessClasses))
    || (site.maxVehicleKg.Some? && v.grossWeight.Some? && site.maxVehicleKg.value < v.grossWeight.value)
  }

  /** The vehicle may not take the order: a skill it lacks, a lock, or the site. */
  ghost predicate Barred(p: Problem, o: Order, v: Vehicle)
    requires StopFor(o).location in p.locations
  {
    || (exists s :: s in o.requiredSkills && s !in v.skills)
    || (exists l :: l in p.locks && LockedOut(l.kind, o, v))
    || TurnedAway(p.locations[StopFor(o).location], v)
  }

  ghost predicate TooBig(o: Order, v: Vehicle) {
    exists d :: d in o.quantities && o.quantities[d] > 0 && (d !in v.capacities || v.capacities[d] < o.quantities[d])
  }

  /** The matrix lacks the duration between the places. */
  ghost predicate Cut(p: Problem, from: Id, to: Id)
    requires from in p.locations && to in p.locations
  {
    !Reachable(p, p.locations[from].matrixIndex, p.locations[to].matrixIndex)
  }

  /** Straight from the depot, when its shift begins, when the order is released or at `notBefore`, whichever is
      last, the vehicle comes after every hard window. */
  ghost predicate ComesTooLate(p: Problem, o: Order, v: Vehicle, notBefore: int)
    requires StopFor(o).location in p.locations && v.startLocation in p.locations
  {
    var windows, from, to := StopFor(o).windows, v.startLocation, StopFor(o).location;
    && (exists w :: w in windows && w.hardness == Hard)
    && (Cut(p, from, to) ||
        var leg := p.matrix.durations[p.locations[from].matrixIndex][p.locations[to].matrixIndex];
        forall w :: w in windows && w.hardness == Hard ==>
          w.end < v.shift.start + leg || w.end < o.releaseTime + leg || w.end < notBefore + leg)
  }

  /** Out and back is more driving than the driver has left. */
  ghost predicate TooFar(p: Problem, o: Order, v: Vehicle)
    requires StopFor(o).location in p.locations && v.startLocation in p.locations && EndsAt(v) in p.locations
  {
    var depot, stop, home := v.startLocation, StopFor(o).location,
                             if v.endLocation.Some? then v.endLocation.value else v.startLocation;
    v.remainingDrive.Some? &&
    (Cut(p, depot, stop) || Cut(p, stop, home) ||
     p.matrix.durations[p.locations[depot].matrixIndex][p.locations[stop].matrixIndex]
     + p.matrix.durations[p.locations[stop].matrixIndex][p.locations[home].matrixIndex] > v.remainingDrive.value)
  }

  ghost predicate StoredShort(p: Problem, o: Order, v: Vehicle)
    requires v.startLocation in p.locations
  {
    var inventory := p.locations[v.startLocation].inventory;
    inventory.Some? && exists d :: d in o.quantities && d in inventory.value && inventory.value[d] < o.quantities[d]
  }

  /** Every hard window, and there is one, is over before the order is released. */
  ghost predicate ReleasedAfterAll(o: Order) {
    && (exists w :: w in StopFor(o).windows && w.hardness == Hard)
    && forall w :: w in StopFor(o).windows && w.hardness == Hard ==> w.end < o.releaseTime
  }

  /** Another order's class is one this order will not travel with, or the other way about. */
  ghost predicate HasEnemy(p: Problem, o: Order) {
    exists other :: other in p.orders && other.id != o.id && other.orderClass.Some?
      && (other.orderClass.value in o.incompatibleWith
          || (o.orderClass.Some? && o.orderClass.value in other.incompatibleWith))
  }

  /** At most one place in the fleet is open to the order and large enough. */
  ghost predicate OneAtMost(p: Problem, o: Order)
    requires StopFor(o).location in p.locations
  {
    forall i, j :: 0 <= i < j < |p.vehicles| ==>
      || Barred(p, o, p.vehicles[i]) || TooBig(o, p.vehicles[i])
      || Barred(p, o, p.vehicles[j]) || TooBig(o, p.vehicles[j])
  }

  // ------------------------------------------------------------------
  // The checks, one by one
  // ------------------------------------------------------------------

  lemma {:induction false} FreeMeans(p: Problem, o: Order, v: Vehicle)
    requires Sound(p) && o in p.orders && v in p.vehicles
    ensures Free(p, o, v) <==> !Barred(p, o, v)
  {
    var locks := p.locks;
    forall l | l in locks
      ensures LockedOut(l.kind, o, v) <==> !Permits(l.kind, o.id, v) || (l.kind.ForbidDeploy? && l.kind.vehicle == v.id)
    {
    }
    if v.id in Forbidden(locks) {
      var l :| l in locks && l.kind.ForbidDeploy? && l.kind.vehicle == v.id;
      assert LockedOut(l.kind, o, v);
    }
  }

  lemma {:induction false} FitsMeans(o: Order, v: Vehicle)
    ensures Fits(o, v) <==> !TooBig(o, v)
  {
  }

  lemma {:induction false} HardOnes(ws: seq<TimeWindow>)
    ensures HardOnly(ws) != [] <==> exists w :: w in ws && w.hardness == Hard
    ensures forall w :: w in HardOnly(ws) <==> w in ws && w.hardness == Hard
  {
    forall w
      ensures w in HardOnly(ws) <==> w in ws && w.hardness == Hard
    {
      HardMember(ws, w);
    }
    if HardOnly(ws) != [] {
      assert HardOnly(ws)[0] in HardOnly(ws);
    }
  }

  lemma {:induction false} ReachMeans(p: Problem, o: Order, v: Vehicle, notBefore: int)
    requires Placed(p, o, v)
    ensures CanReach(p, o, v, notBefore) <==> !ComesTooLate(p, o, v, notBefore)
  {
    var hard := HardOnly(StopOf(o).windows);
    HardOnes(StopOf(o).windows);
    var from, to := p.locations[v.startLocation].matrixIndex, p.locations[StopOf(o).location].matrixIndex;
    if hard != [] && Reachable(p, from, to) {
      var leg := p.matrix.durations[from][to];
      var arrival := Max(Max(v.shift.start, o.releaseTime), notBefore) + leg;
      if ArrivesBy(hard, arrival) {
        var i :| 0 <= i < |hard| && arrival <= hard[i].end;
        assert hard[i] in hard;
      }
      forall w | w in hard && arrival <= w.end
        ensures ArrivesBy(hard, arrival)
      {
        var i :| 0 <= i < |hard| && hard[i] == w;
      }
    }
  }

  lemma {:induction false} DutyMeans(p: Problem, o: Order, v: Vehicle)
    requires Placed(p, o, v)
    ensures DutyFits(p, o, v) <==> !TooFar(p, o, v)
  {
  }

  lemma {:induction false} ReleaseMeans(o: Order)
    ensures ReleasedTooLate(o) <==> ReleasedAfterAll(o)
  {
    HardOnes(StopOf(o).windows);
  }

  /** A van of the fleet that may take the order and holds it. */
  ghost predicate Suits(p: Problem, o: Order, v: Vehicle)
    requires StopFor(o).location in p.locations
  {
    !Barred(p, o, v) && !TooBig(o, v)
  }

  lemma {:induction false} UsableAppends(o: Order, a: seq<Vehicle>, b: seq<Vehicle>)
    ensures Usable(o, a + b) == Usable(o, a) + Usable(o, b)
  {
    if a == [] {
      assert a + b == b;
    } else {
      UsableAppends(o, a[1..], b);
      assert (a + b)[1..] == a[1..] + b;
    }
  }

  lemma {:induction false} UsableCount(p: Problem, o: Order, vs: seq<Vehicle>)
    requires Sound(p) && o in p.orders && forall v :: v in vs ==> v in p.vehicles
    ensures |Usable(o, Allowed(p, o, vs, Forbidden(p.locks), p.locks))| == 0 <==>
              forall i :: 0 <= i < |vs| ==> !Suits(p, o, vs[i])
    ensures |Usable(o, Allowed(p, o, vs, Forbidden(p.locks), p.locks))| <= 1 <==>
              forall i, j :: 0 <= i < j < |vs| ==> !Suits(p, o, vs[i]) || !Suits(p, o, vs[j])
  {
    hide Suits, Fits, MayTake, Forbidden;
    if vs != [] {
      var rest := vs[1..];
      assert forall i :: 1 <= i < |vs| ==> vs[i] == rest[i - 1];
      assert forall i :: 0 <= i < |rest| ==> rest[i] == vs[i + 1];
      UsableCount(p, o, rest);
      assert vs[0] in p.vehicles;
      SuitsMeans(p, o, vs[0]);
      var fleet := Allowed(p, o, vs, Forbidden(p.locks), p.locks);
      UsableAppends(o, [vs[0]], Allowed(p, o, rest, Forbidden(p.locks), p.locks));
      assert Usable(o, fleet) ==
        (if Suits(p, o, vs[0]) then [vs[0]] else []) + Usable(o, Allowed(p, o, rest, Forbidden(p.locks), p.locks));
    }
  }

  lemma {:induction false} SuitsMeans(p: Problem, o: Order, v: Vehicle)
    requires Sound(p) && o in p.orders && v in p.vehicles
    ensures Suits(p, o, v) <==> MayTake(p, o, v, Forbidden(p.locks), p.locks) && Fits(o, v)
  {
    FreeMeans(p, o, v);
    FitsMeans(o, v);
  }

  // ------------------------------------------------------------------
  // The report
  // ------------------------------------------------------------------

  /** An order is reported exactly when each vehicle, one by one, is barred from it, too small, too late or out
      of driving time, or short of stock at its depot; when it is released after its windows; or when one place
      in the fleet at most is left for it and another order is its enemy. */
  lemma {:induction false} ReportedExactly(p: Problem, o: Order)
    requires Sound(p) && o in p.orders
    ensures Verdict(p, o).Some? <==>
              (|| (forall v :: v in p.vehicles ==> Barred(p, o, v) || TooBig(o, v) || ComesTooLate(p, o, v, 0))
               || (forall v :: v in p.vehicles ==> Barred(p, o, v) || TooBig(o, v) || TooFar(p, o, v))
               || (forall v :: v in p.vehicles ==> Barred(p, o, v) || StoredShort(p, o, v))
               || ReleasedAfterAll(o)
               || (OneAtMost(p, o) && HasEnemy(p, o)))
  {
    hide Barred, TooBig, ComesTooLate, TooFar, ReleasedAfterAll, StoredShort, OneAtMost, HasEnemy, LocksNarrow, Verdict;
    CodeIsFirstObstacle(p, o);
  }

  lemma {:induction false} StockMeans(p: Problem, o: Order, v: Vehicle)
    requires v.startLocation in p.locations
    ensures LacksStock(o, p.locations[v.startLocation]) <==> StoredShort(p, o, v)
  {
  }

  lemma {:induction false} TogetherMeans(p: Problem, o: Order)
    requires Sound(p) && o in p.orders
    ensures ForcedTogether(p, o, Usable(o, Eligible(p, o))) <==> OneAtMost(p, o) && HasEnemy(p, o)
  {
    hide Barred, TooBig, MayTake, Fits, Forbidden, Usable;
    UsableCount(p, o, p.vehicles);
    assert HasEnemy(p, o) <==> exists other :: other in p.orders && Enemies(o, other);
  }

  /** The obstacle an order is reported for, in the order the report promises. */
  ghost function FirstObstacle(p: Problem, o: Order): Option<Reason>
    requires Sound(p) && o in p.orders
  {
    if forall v :: v in p.vehicles ==> Barred(p, o, v) then Some(NoEligibleVehicle)
    else if forall v :: v in p.vehicles ==> Barred(p, o, v) || TooBig(o, v) then Some(CapacityExceeded)
    else if forall v :: v in p.vehicles ==> Barred(p, o, v) || StoredShort(p, o, v) then Some(DepotStockout)
    else if ReleasedAfterAll(o) then Some(ReleaseAfterWindow)
    else if forall v :: v in p.vehicles ==> Barred(p, o, v) || TooBig(o, v) || ComesTooLate(p, o, v, 0) then
      Some(TimeWindowUnreachable)
    else if forall v :: v in p.vehicles ==> Barred(p, o, v) || TooBig(o, v) || TooFar(p, o, v) then Some(DutyLimit)
    else if OneAtMost(p, o) && HasEnemy(p, o) then Some(IncompatibleOnly)
    else None
  }

  /** A vehicle is grounded, or a pin, a ban or a depot is set for this very order. */
  ghost predicate LocksNarrow(p: Problem, o: Order) {
    exists l :: l in p.locks &&
      match l.kind
      case ForbidDeploy(_) => true
      case PinOrderToVehicle(order, _) => order == o.id
      case ForbidOrderOnVehicle(order, _) => order == o.id
      case PinDepot(order, _) => order == o.id
      case OtherLock => false
  }

  /** The code an order is reported under is that of its first obstacle, or the locks' when one of them
      narrowed its options. */
  lemma {:induction false} CodeIsFirstObstacle(p: Problem, o: Order)
    requires Sound(p) && o in p.orders
    ensures Verdict(p, o)
         == if FirstObstacle(p, o).Some? && LocksNarrow(p, o) then Some(LockConflict) else FirstObstacle(p, o)
  {
    hide Free, Fits, CanReach, DutyFits, LacksStock, ReleasedTooLate, Barred, TooBig, ComesTooLate, TooFar,
         ReleasedAfterAll, StoredShort, Usable, Eligible, ForcedTogether, OneAtMost, HasEnemy, LocksNarrow, Pinned, MayTake;
    var fleet := Eligible(p, o);
    FleetMeans(p, o, fleet);
    UsableMembers(o, fleet);
    var usable := Usable(o, fleet);
    forall v | v in fleet
      ensures LacksStock(o, p.locations[v.startLocation]) <==> StoredShort(p, o, v)
      ensures v in usable <==> !TooBig(o, v)
      ensures CanReach(p, o, v, 0) <==> !ComesTooLate(p, o, v, 0)
      ensures DutyFits(p, o, v) <==> !TooFar(p, o, v)
    {
      StockMeans(p, o, v);
      FitsMeans(o, v);
      ReachMeans(p, o, v, 0);
      DutyMeans(p, o, v);
    }
    assert fleet != [] ==> fleet[0] in fleet;
    assert usable != [] ==> usable[0] in usable;
    ReleaseMeans(o);
    TogetherMeans(p, o);
    PinnedMeans(p, o);
  }

  lemma {:induction false} FleetMeans(p: Problem, o: Order, fleet: seq<Vehicle>)
    requires Sound(p) && o in p.orders && fleet == Eligible(p, o)
    ensures AllFrom(p, fleet) && forall v :: v in fleet <==> v in p.vehicles && !Barred(p, o, v)
  {
    hide Barred, MayTake;
    AllowedMembers(p, o, p.vehicles, Forbidden(p.locks), p.locks);
    forall v | v in p.vehicles
      ensures Free(p, o, v) <==> !Barred(p, o, v)
    {
      FreeMeans(p, o, v);
    }
  }

  lemma {:induction false} PinnedMeans(p: Problem, o: Order)
    ensures Pinned(p, o) <==> LocksNarrow(p, o)
  {
  }
}
