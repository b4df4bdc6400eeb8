/** What a verdict of the pre-flight checks promises (vrp/diagnose.py, vrp/locks.py): when a
    finding is real, and when the absence of one can be trusted. */
module Verdicts {
  import opened Common
  import opened Model
  import opened Diagnose
  import opened Locks

  /** The vehicle is free to take the order and large enough for it. */
  predicate Suits(p: Problem, o: Order, v: Vehicle)
    requires StopOf(o).location in p.locations
  {
    Free(p, o, v) && Fits(o, v)
  }

  /** One vehicle passes every check by itself. */
  ghost predicate ServedBy(p: Problem, o: Order, v: Vehicle)
    requires Sound(p) && o in p.orders
  {
    && Suits(p, o, v) && !LacksStock(o, p.locations[v.startLocation])
    && !ReleasedTooLate(o) && CanReach(p, o, v, 0) && DutyFits(p, o, v)
  }

  /** The vehicles the chain calls usable: those that suit the order. */
  function UsableFor(p: Problem, o: Order): seq<Vehicle>
    requires StopOf(o).location in p.locations
  {
    Usable(o, Eligible(p, o))
  }

  lemma {:induction false} UsableSuit(p: Problem, o: Order)
    requires StopOf(o).location in p.locations
    ensures forall v :: v in UsableFor(p, o) <==> Suits(p, o, v)
  {
    AllowedMembers(p, o, p.vehicles, Forbidden(p.locks), p.locks);
    UsableMembers(o, Eligible(p, o));
  }

  // ------------------------------------------------------------------
  // When a finding is real
  // ------------------------------------------------------------------

  ghost predicate HasEnemy(p: Problem, o: Order) {
    exists e :: e in p.orders && Enemies(o, e)
  }

  /** An order some vehicle serves by itself is reported exactly when no second vehicle suits it
      and it has an enemy, wherever that enemy may travel. */
  lemma {:induction false} ServableIsReportedExactly(p: Problem, o: Order, v: Vehicle)
    requires Sound(p) && o in p.orders && ServedBy(p, o, v)
    ensures Verdict(p, o).Some? <==> |UsableFor(p, o)| <= 1 && HasEnemy(p, o)
    ensures Verdict(p, o).Some? ==> Verdict(p, o).value == (if Pinned(p, o) then LockConflict else IncompatibleOnly)
  {
    hide CanReach, DutyFits, LacksStock, Fits, MayTake, ReleasedTooLate, Enemies;
    VerdictMeans(p, o);
    ReportedUnder(p, o, v);
  }

  /** The only check such an order can fail is the last. */
  lemma {:induction false} ReportedUnder(p: Problem, o: Order, v: Vehicle)
    requires Sound(p) && o in p.orders && ServedBy(p, o, v)
    ensures var failure := Verdict(p, o);
            failure.Some? ==> failure.value == (if Pinned(p, o) then LockConflict else IncompatibleOnly)
  {
    hide CanReach, DutyFits, LacksStock, Fits, MayTake, ReleasedTooLate, ForcedTogether, Pinned;
    AllowedMembers(p, o, p.vehicles, Forbidden(p.locks), p.locks);
    UsableMembers(o, Eligible(p, o));
    assert v in Eligible(p, o) && v in UsableFor(p, o);
  }

  /** Some vehicle suits the order. */
  ghost predicate Carriable(p: Problem, o: Order)
    requires StopOf(o).location in p.locations
  {
    exists w :: Suits(p, o, w)
  }

  /** A van for each order, by its place in the instance, with this order's van shared with no enemy
      that can travel at all. */
  ghost predicate KeepsApart(p: Problem, i: nat, vans: seq<Vehicle>)
    requires Sound(p) && i < |p.orders|
  {
    && |vans| == |p.orders| && Suits(p, p.orders[i], vans[i])
    && forall k :: 0 <= k < |vans| && Enemies(p.orders[i], p.orders[k]) && Carriable(p, p.orders[k]) ==>
         Suits(p, p.orders[k], vans[k]) && vans[k].id != vans[i].id
  }

  /** This vehicle suits the order, and no other does. */
  ghost predicate Confined(p: Problem, o: Order, v: Vehicle)
    requires StopOf(o).location in p.locations
  {
    Carriable(p, o) && forall w :: Suits(p, o, w) ==> w.id == v.id
  }

  /** A van for each order: this one where it is asked for or must be, another where there is one. */
  ghost function Elsewhere(p: Problem, o: Order, v: Vehicle): (w: Vehicle)
    requires StopOf(o).location in p.locations
    ensures Carriable(p, o) && !Confined(p, o, v) ==> Suits(p, o, w) && w.id != v.id
  {
    if !Carriable(p, o) || Confined(p, o, v) then v else var w :| Suits(p, o, w) && w.id != v.id; w
  }

  /** Such a finding is real, that is no choice of vans keeps the order from the enemies that can
      travel, exactly when one of those enemies is itself confined to the order's only van. */
  lemma {:induction false} FindingIsRealExactly(p: Problem, i: nat, v: Vehicle)
    requires Sound(p) && i < |p.orders|
    requires ServedBy(p, p.orders[i], v) && Verdict(p, p.orders[i]).Some?
    ensures (forall vans :: !KeepsApart(p, i, vans))
       <==> exists e :: e in p.orders && Enemies(p.orders[i], e) && Confined(p, e, v)
  {
    hide Verdict, Free, Fits, CanReach, DutyFits, LacksStock, ReleasedTooLate, Enemies;
    var o := p.orders[i];
    ServableIsReportedExactly(p, o, v);
    OnlyVan(p, o, v);
    if e :| e in p.orders && Enemies(o, e) && Confined(p, e, v) {
      var k :| 0 <= k < |p.orders| && p.orders[k] == e;
      assert forall vans: seq<Vehicle> :: KeepsApart(p, i, vans) ==> Suits(p, p.orders[k], vans[k]);
    } else {
      var vans := seq(|p.orders|, k requires 0 <= k < |p.orders| =>
        assert p.orders[k] in p.orders; if k == i then v else Elsewhere(p, p.orders[k], v));
      assert !Enemies(o, o) by {
        NoSelfEnemy(o);
      }
      assert KeepsApart(p, i, vans);
    }
  }

  lemma {:induction false} NoSelfEnemy(o: Order)
    ensures !Enemies(o, o)
  {
  }

  lemma {:induction false} OnlyVan(p: Problem, o: Order, v: Vehicle)
    requires StopOf(o).location in p.locations && Suits(p, o, v) && |UsableFor(p, o)| <= 1
    ensures forall w :: Suits(p, o, w) ==> w == v
  {
    UsableSuit(p, o);
    var usable := UsableFor(p, o);
    assert v in usable;
    forall w | Suits(p, o, w)
      ensures w == v
    {
      assert w in usable;
    }
  }

  // ------------------------------------------------------------------
  // When a clean verdict can be trusted
  // ------------------------------------------------------------------

  ghost predicate ReachAlike(p: Problem, o: Order)
    requires Sound(p) && o in p.orders
  {
    forall v, w :: Suits(p, o, v) && Suits(p, o, w) && CanReach(p, o, v, 0) ==> CanReach(p, o, w, 0)
  }

  ghost predicate DutyAlike(p: Problem, o: Order)
    requires Sound(p) && o in p.orders
  {
    forall v, w :: Suits(p, o, v) && Suits(p, o, w) && DutyFits(p, o, v) ==> DutyFits(p, o, w)
  }

  ghost predicate StockAlike(p: Problem, o: Order)
    requires Sound(p) && o in p.orders
  {
    forall v, w :: Suits(p, o, v) && Suits(p, o, w) && LacksStock(o, p.locations[v.startLocation]) ==>
      LacksStock(o, p.locations[w.startLocation])
  }

  /** At most one of reach, driving time and stock tells the suitable vehicles apart. */
  ghost predicate OneSeparates(p: Problem, o: Order)
    requires Sound(p) && o in p.orders
  {
    || (ReachAlike(p, o) && DutyAlike(p, o))
    || (ReachAlike(p, o) && StockAlike(p, o))
    || (DutyAlike(p, o) && StockAlike(p, o))
  }

  /** Some vehicle large enough starts from a depot that holds enough. */
  ghost predicate StockedVan(p: Problem, o: Order)
    requires Sound(p) && o in p.orders
  {
    exists v :: Suits(p, o, v) && !LacksStock(o, p.locations[v.startLocation])
  }

  /** Where at most one check tells the suitable vehicles apart, a clean verdict means some
      vehicle serves the order exactly when one of them starts from a stocked depot. The chain
      asks that of every free vehicle, the ones too small included. */
  lemma {:induction false} CleanVerdictIsTrusted(p: Problem, o: Order)
    requires Sound(p) && o in p.orders && Verdict(p, o).None? && OneSeparates(p, o)
    ensures (exists v :: ServedBy(p, o, v)) <==> StockedVan(p, o)
  {
    hide CanReach, DutyFits, LacksStock, Fits, MayTake, ReleasedTooLate, ForcedTogether, Verdict;
    VerdictMeans(p, o);
    if StockedVan(p, o) {
      var near :| Free(p, o, near) && Fits(o, near) && CanReach(p, o, near, 0);
      var rested :| Free(p, o, rested) && Fits(o, rested) && DutyFits(p, o, rested);
      var stocked :| Suits(p, o, stocked) && !LacksStock(o, p.locations[stocked.startLocation]);
      assert Suits(p, o, near) && Suits(p, o, rested);
      assert ServedBy(p, o, near) || ServedBy(p, o, rested) || ServedBy(p, o, stocked);
    }
  }

  // ------------------------------------------------------------------
  // Where the documentation's claims fail
  // ------------------------------------------------------------------

  /** A van too far for the window but with no driving limit, and one near
      enough whose driver may drive no more. */
  function FarVan(): Vehicle {
    Vehicle(0, map[], WindowSpec(0, 1000, Hard), 0, None, {}, 1000, None, None, None, None, 0, 0, 0, 0, 0, 0)
  }

  function TiredVan(): Vehicle {
    Vehicle(1, map[], WindowSpec(0, 1000, Hard), 1, None, {}, 1000, None, None, Some(5), None, 0, 0, 0, 0, 0, 0)
  }

  function Parcel(): Order {
    OrderSpec(0, map[], None, Some(Stop(2, [WindowSpec(0, 50, Hard)], 0, 0, None)), 0, 0, 0, {}, None, {})
  }

  function Place(i: nat): Location {
    Location(i, i, 0, None, None, {}, None)
  }

  function TwoVans(): Problem {
    var legs := [[0, 100, 100], [100, 0, 10], [100, 10, 0]];
    Problem(map[0 := Place(0), 1 := Place(1), 2 := Place(2)], [Parcel()], [FarVan(), TiredVan()],
            Matrix(legs, legs), [], None, None)
  }

  /** The parcel has one hard window, open until 50. */
  lemma {:induction false} ParcelWindow()
    ensures HardOnly(StopOf(Parcel()).windows) == [WindowSpec(0, 50, Hard)]
    ensures ArrivesBy([WindowSpec(0, 50, Hard)], 10) && !ArrivesBy([WindowSpec(0, 50, Hard)], 100)
    ensures !ReleasedTooLate(Parcel())
  {
    var hard: seq<TimeWindow> := [WindowSpec(0, 50, Hard)];
    assert hard[0].end == 50 && hard[0] in hard;
  }

  /** What each van can and cannot do. */
  lemma {:induction false} VansMean()
    ensures Sound(TwoVans()) && Parcel() in TwoVans().orders
    ensures forall v :: v in TwoVans().vehicles ==> v == FarVan() || v == TiredVan()
    ensures FarVan() in TwoVans().vehicles && TiredVan() in TwoVans().vehicles
    ensures !CanReach(TwoVans(), Parcel(), FarVan(), 0) && DutyFits(TwoVans(), Parcel(), FarVan())
    ensures CanReach(TwoVans(), Parcel(), TiredVan(), 0) && !DutyFits(TwoVans(), Parcel(), TiredVan())
    ensures forall v :: v in TwoVans().vehicles ==>
      Suits(TwoVans(), Parcel(), v) && !LacksStock(Parcel(), TwoVans().locations[v.startLocation])
  {
    var p := TwoVans();
    ParcelWindow();
    assert p.vehicles[0] == FarVan() && p.vehicles[1] == TiredVan();
    assert p.orders[0] == Parcel();
  }

  /** A clean verdict is provisional even for one order alone: each check may be met by a
      different vehicle, and no single one can serve it. Two checks tell these vans apart. */
  lemma {:induction false} CleanVerdictIsProvisional()
    ensures Sound(TwoVans()) && Parcel() in TwoVans().orders
    ensures Verdict(TwoVans(), Parcel()).None? && StockedVan(TwoVans(), Parcel())
    ensures !OneSeparates(TwoVans(), Parcel()) && forall v :: !ServedBy(TwoVans(), Parcel(), v)
  {
    hide CanReach, DutyFits, Verdict, MayTake, Fits, LacksStock, ReleasedTooLate, Usable;
    var p, o := TwoVans(), Parcel();
    VansMean();
    ParcelWindow();
    NoSelfEnemy(o);
    assert forall e :: e in p.orders ==> e == o;
    assert Suits(p, o, FarVan()) && Suits(p, o, TiredVan());
    VerdictMeans(p, o);
  }

  /** A van at its own depot with room for this much of one thing. */
  function Van(id: Id, room: nat): Vehicle {
    Vehicle(id, map[0 := room], WindowSpec(0, 1000, Hard), id, None, {}, 1000, None, None, None, None, 0, 0, 0, 0, 0, 0)
  }

  function Cargo(id: Id, amount: nat, kind: Id, against: set<Id>): Order {
    OrderSpec(id, map[0 := amount], None, Some(Stop(0, [], 0, 0, None)), 0, 0, 0, {}, Some(kind), against)
  }

  function Stocked(amount: nat): Location {
    Place(1).(inventory := Some(map[0 := amount]))
  }

  function TwoDepots(orders: seq<Order>, vans: seq<Vehicle>, stock: nat, locks: seq<Lock>): Problem {
    var legs := [[0, 0], [0, 0]];
    Problem(map[0 := Place(0), 1 := Stocked(stock)], orders, vans, Matrix(legs, legs), locks, None, None)
  }

  /** One load too big for the van at the open depot, and too much for the stock of the other. */
  function SmallVan(): Problem {
    TwoDepots([Cargo(0, 5, 1, {})], [Van(0, 1), Van(1, 10)], 1, [])
  }

  /** Stock is checked at the depot of a van too small to take the load: a clean verdict for an
      order no vehicle can serve, though nothing tells the one suitable van from another. */
  lemma {:induction false} StockOfSmallVanCounts()
    ensures var p, o := SmallVan(), Cargo(0, 5, 1, {});
            && Sound(p) && o in p.orders && Verdict(p, o).None?
            && OneSeparates(p, o) && !StockedVan(p, o) && forall v :: !ServedBy(p, o, v)
  {
    hide Verdict, Free, Fits, CanReach, DutyFits, LacksStock, ReleasedTooLate, UsableFor, Enemies;
    var p, o := SmallVan(), Cargo(0, 5, 1, {});
    SmallVanChecks();
    NoSelfEnemy(o);
    assert forall e :: e in p.orders ==> e == o;
    VerdictMeans(p, o);
  }

  lemma {:induction false} SmallVanChecks()
    ensures var p, o, small, big := SmallVan(), Cargo(0, 5, 1, {}), Van(0, 1), Van(1, 10);
            && Sound(p) && o in p.orders
            && Free(p, o, small) && !Fits(o, small) && !LacksStock(o, p.locations[0])
            && Free(p, o, big) && Fits(o, big) && LacksStock(o, p.locations[1])
            && CanReach(p, o, big, 0) && DutyFits(p, o, big) && !ReleasedTooLate(o)
            && forall v :: Free(p, o, v) ==> v == small || v == big
  {
    var p, o := SmallVan(), Cargo(0, 5, 1, {});
    assert p.orders[0] == o && p.vehicles[0] == Van(0, 1) && p.vehicles[1] == Van(1, 10);
    assert 0 in o.quantities && 0 in p.locations[1].inventory.value;
  }

  function Food(): Order {
    Cargo(0, 1, 1, {2})
  }

  function Hazard(): Order {
    Cargo(1, 1, 2, {})
  }

  /** The food is pinned to the first of two vans; the hazard may take either. */
  function PinnedFood(): Problem {
    TwoDepots([Food(), Hazard()], [Van(0, 1), Van(1, 1)], 1, [Lock(0, PinOrderToVehicle(0, 0))])
  }

  /** Both vans suit both orders but for the pin. */
  lemma {:induction false} PinnedFoodVans(o: Order, locks: seq<Lock>)
    requires o in [Food(), Hazard()] && (locks == [] || locks == PinnedFood().locks)
    ensures var p := WithLocks(PinnedFood(), locks);
            UsableFor(p, o) == if o == Food() && locks != [] then [Van(0, 1)] else [Van(0, 1), Van(1, 1)]
  {
    var p := WithLocks(PinnedFood(), locks);
    var both := [Van(0, 1), Van(1, 1)];
    assert both[1..] == [Van(1, 1)] && both[1..][1..] == [];
    assert Fits(o, Van(0, 1)) && Fits(o, Van(1, 1));
    assert AllPermit(locks, o.id, Van(0, 1));
    assert AllPermit(locks, o.id, Van(1, 1)) <==> !(o == Food() && locks != []) by {
      if o == Food() && locks != [] {
        assert locks[0] in locks && !Permits(locks[0].kind, o.id, Van(1, 1));
      }
    }
    assert Forbidden(locks) == {};
    var free := Allowed(p, o, both, {}, locks);
    assert free == if o == Food() && locks != [] then [Van(0, 1)] else both;
    assert free[1..] == [] || free[1..] == [Van(1, 1)];
  }

  /** Every other check is met by either van. */
  lemma {:induction false} PinnedFoodChecks(o: Order, v: Vehicle, locks: seq<Lock>)
    requires o in [Food(), Hazard()] && v in [Van(0, 1), Van(1, 1)]
    ensures var p := WithLocks(PinnedFood(), locks);
            && Sound(p) && o in p.orders
            && CanReach(p, o, v, 0) && DutyFits(p, o, v) && !ReleasedTooLate(o)
            && !LacksStock(o, p.locations[v.startLocation])
  {
    var p := WithLocks(PinnedFood(), locks);
    assert p.orders[0] == Food() && p.orders[1] == Hazard();
  }

  /** So where the pin allows it a van serves either order. */
  lemma {:induction false} PinnedFoodServed(o: Order, v: Vehicle, locks: seq<Lock>)
    requires o in [Food(), Hazard()] && (locks == [] || locks == PinnedFood().locks)
    requires v in UsableFor(WithLocks(PinnedFood(), locks), o)
    ensures var p := WithLocks(PinnedFood(), locks);
            Sound(p) && o in p.orders && ServedBy(p, o, v)
  {
    hide Free, Fits, CanReach, DutyFits, LacksStock, ReleasedTooLate, UsableFor;
    var p := WithLocks(PinnedFood(), locks);
    PinnedFoodVans(o, locks);
    PinnedFoodChecks(o, v, locks);
    UsableSuit(p, o);
  }

  /** Without the pin nothing is reported. */
  lemma {:induction false} PinnedFoodUnpinned()
    ensures var q := WithLocks(PinnedFood(), []); Sound(q) && Feasible(q)
  {
    hide Verdict, ServedBy, UsableFor, HasEnemy;
    var q := WithLocks(PinnedFood(), []);
    forall o | o in q.orders
      ensures Sound(q) && Verdict(q, o).None?
    {
      PinnedFoodVans(o, []);
      PinnedFoodServed(o, Van(0, 1), []);
      ServableIsReportedExactly(q, o, Van(0, 1));
    }
    assert Forbidden(q.locks) == {};
  }

  /** A finding can be invented: a van each serves both orders apart, yet the pinned one is
      reported as a lock conflict, and the instance is infeasible with the pin and feasible
      without it, so the pin is what a minimal conflict names. */
  lemma {:induction false} HarmlessPinIsBlamed()
    ensures var p := PinnedFood();
            && Sound(p) && Food() in p.orders && Hazard() in p.orders
            && ServedBy(p, Food(), Van(0, 1)) && ServedBy(p, Hazard(), Van(1, 1))
            && KeepsApart(p, 0, [Van(0, 1), Van(1, 1)])
            && Verdict(p, Food()) == Some(LockConflict)
            && !Feasible(p) && FeasibleUnder(p, [])
  {
    hide Verdict, Suits, UsableFor, Deployable;
    var p := PinnedFood();
    assert p == WithLocks(p, p.locks);
    PinnedFoodVans(Food(), p.locks);
    PinnedFoodVans(Hazard(), p.locks);
    PinnedFoodServed(Food(), Van(0, 1), p.locks);
    PinnedFoodServed(Hazard(), Van(1, 1), p.locks);
    assert Enemies(Food(), Hazard());
    assert HasEnemy(p, Food());
    ServableIsReportedExactly(p, Food(), Van(0, 1));
    assert p.locks[0] in p.locks && Narrows(p.locks[0].kind, 0);
    PinnedFoodUnpinned();
  }
}
