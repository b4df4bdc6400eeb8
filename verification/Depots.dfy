/** Depot inventory enforced across the plan (vrp/depots.py): solve, withdraw the marginal
    orders from each depot that supplies more than it holds, and solve again. */
module Depots {
  import opened Common
  import opened Model
  import opened Scoring

  // ------------------------------------------------------------------
  // What a plan draws
  // ------------------------------------------------------------------

  /** Every vehicle and order a plan names is the instance's. */
  ghost predicate PlanOf(p: Problem, routes: seq<Route>) {
    forall r :: r in routes ==>
      && VehicleOf(p.vehicles, r.vehicle).Some?
      && forall s :: s in r.steps && s.order.Some? ==> OrderOf(p.orders, s.order.value).Some?
  }

  function HomeOf(p: Problem, vehicle: Id): Option<Id> {
    var v := VehicleOf(p.vehicles, vehicle);
    if v.Some? then Some(v.value.startLocation) else None
  }

  /** What an order takes of a dimension from its depot: a pickup takes nothing. */
  function Takes(p: Problem, id: Id, dimension: Id): nat {
    var o := OrderOf(p.orders, id);
    if o.Some? && o.value.delivery.Some? && dimension in o.value.quantities then o.value.quantities[dimension] else 0
  }

  function TakenBySteps(p: Problem, steps: seq<PlanStep>, dimension: Id): nat {
    if steps == [] then 0
    else
      var last := steps[|steps| - 1];
      TakenBySteps(p, steps[..|steps| - 1], dimension) + if last.order.Some? then Takes(p, last.order.value, dimension) else 0
  }

  /** What a depot supplies of a dimension over the whole plan. */
  function Drawn(p: Problem, routes: seq<Route>, depot: Id, dimension: Id): nat {
    if routes == [] then 0
    else
      var last := routes[|routes| - 1];
      Drawn(p, routes[..|routes| - 1], depot, dimension)
      + if HomeOf(p, last.vehicle) == Some(depot) then TakenBySteps(p, last.steps, dimension) else 0
  }

  type Totals = map<Id, map<Id, nat>>

  function TotalAt(drawn: Totals, depot: Id, dimension: Id): nat {
    if depot in drawn && dimension in drawn[depot] then drawn[depot][dimension] else 0
  }

  function AmountIn(home: map<Id, nat>, dimension: Id): nat {
    if dimension in home then home[dimension] else 0
  }

  /** One order's quantities added to its depot's totals. */
  method AddOrder(home: map<Id, nat>, quantities: map<Id, nat>) returns (sum: map<Id, nat>)
    ensures forall d :: AmountIn(sum, d) == AmountIn(home, d) + AmountIn(quantities, d)
  {
    sum := home;
    var left := quantities.Keys;
    while left != {}
      invariant left <= quantities.Keys
      invariant forall d :: AmountIn(sum, d) == AmountIn(home, d) + if d in left then 0 else AmountIn(quantities, d)
      decreases |left|
    {
      var d := Least(left);
      sum := sum[d := AmountIn(sum, d) + quantities[d]];
      left := left - {d};
    }
  }

  /** `drawn_per_depot`. */
  method DrawnPerDepot(p: Problem, routes: seq<Route>) returns (drawn: Totals)
    requires PlanOf(p, routes)
    ensures forall h, d :: TotalAt(drawn, h, d) == Drawn(p, routes, h, d)
  {
    drawn := map[];
    for k := 0 to |routes|
      invariant forall h, d :: TotalAt(drawn, h, d) == Drawn(p, routes[..k], h, d)
    {
      var r := routes[k];
      assert r in routes;
      var home := VehicleOf(p.vehicles, r.vehicle).value.startLocation;
      var totals := AddSteps(p, r.steps, if home in drawn then drawn[home] else map[]);
      assert routes[..k + 1][..k] == routes[..k] && routes[..k + 1][k] == r;
      forall d
        ensures Drawn(p, routes[..k + 1], home, d) == Drawn(p, routes[..k], home, d) + TakenBySteps(p, r.steps, d)
      {
      }
      drawn := drawn[home := totals];
    }
    assert routes[..|routes|] == routes;
  }

  method AddSteps(p: Problem, steps: seq<PlanStep>, home: map<Id, nat>) returns (totals: map<Id, nat>)
    requires forall s :: s in steps && s.order.Some? ==> OrderOf(p.orders, s.order.value).Some?
    ensures forall d :: AmountIn(totals, d) == AmountIn(home, d) + TakenBySteps(p, steps, d)
  {
    totals := home;
    for k := 0 to |steps|
      invariant forall d :: AmountIn(totals, d) == AmountIn(home, d) + TakenBySteps(p, steps[..k], d)
    {
      assert steps[..k + 1][..k] == steps[..k] && steps[..k + 1][k] == steps[k];
      assert steps[k] in steps;
      if steps[k].order.Some? {
        var o := OrderOf(p.orders, steps[k].order.value).value;
        if o.delivery.Some? {
          totals := AddOrder(totals, o.quantities);
        }
      }
    }
    assert steps[..|steps|] == steps;
  }

  // ------------------------------------------------------------------
  // Over-drawing
  // ------------------------------------------------------------------

  function Stock(p: Problem, depot: Id): map<Id, nat> {
    if depot in p.locations && p.locations[depot].inventory.Some? then p.locations[depot].inventory.value else map[]
  }

  /** INV-13 broken: the depot supplies more of the dimension than it holds. */
  predicate OverDraws(p: Problem, routes: seq<Route>, depot: Id, dimension: Id) {
    dimension in Stock(p, depot) && Drawn(p, routes, depot, dimension) > Stock(p, depot)[dimension]
  }

  ghost predicate WithinStock(p: Problem, routes: seq<Route>) {
    forall h, d :: !OverDraws(p, routes, h, d)
  }

  /** By how much each depot exceeds its stock, and nothing else. */
  ghost predicate ExcessOf(p: Problem, routes: seq<Route>, excess: Totals) {
    && (forall h :: h in excess ==> excess[h] != map[])
    && (forall h, d :: h in excess && d in excess[h] <==> OverDraws(p, routes, h, d))
    && (forall h, d :: h in excess && d in excess[h] ==> excess[h][d] == Drawn(p, routes, h, d) - Stock(p, h)[d] > 0)
  }

  method ShortAt(stock: map<Id, nat>, totals: map<Id, nat>) returns (short: map<Id, nat>)
    ensures forall d :: d in short <==> d in stock && AmountIn(totals, d) > stock[d]
    ensures forall d :: d in short ==> short[d] == AmountIn(totals, d) - stock[d]
  {
    short := map[];
    var left := totals.Keys;
    while left != {}
      invariant left <= totals.Keys
      invariant forall d :: d in short <==> d in stock && d !in left && AmountIn(totals, d) > stock[d]
      invariant forall d :: d in short ==> short[d] == AmountIn(totals, d) - stock[d]
      decreases |left|
    {
      var d := Least(left);
      if d in stock && totals[d] > stock[d] {
        short := short[d := totals[d] - stock[d]];
      }
      left := left - {d};
    }
  }

  /** `over_drawn`. */
  method OverDrawn(p: Problem, routes: seq<Route>) returns (excess: Totals)
    requires PlanOf(p, routes)
    ensures ExcessOf(p, routes, excess)
    ensures excess == map[] <==> WithinStock(p, routes)
  {
    hide Drawn;
    var drawn := DrawnPerDepot(p, routes);
    excess := map[];
    var left := drawn.Keys;
    while left != {}
      invariant left <= drawn.Keys
      invariant forall h :: h in excess ==> excess[h] != map[] && h !in left
      invariant forall h, d :: h in excess && d in excess[h] <==> h !in left && OverDraws(p, routes, h, d)
      invariant forall h, d :: h in excess && d in excess[h] ==> excess[h][d] == Drawn(p, routes, h, d) - Stock(p, h)[d]
      decreases |left|
    {
      var h := Least(left);
      assert forall d :: AmountIn(drawn[h], d) == TotalAt(drawn, h, d);
      var short := ShortAt(Stock(p, h), drawn[h]);
      if short != map[] {
        excess := excess[h := short];
      }
      left := left - {h};
    }
    assert ExcessOf(p, routes, excess);
    NothingInExcess(p, routes, excess);
  }

  lemma {:induction false} NothingInExcess(p: Problem, routes: seq<Route>, excess: Totals)
    requires ExcessOf(p, routes, excess)
    ensures excess == map[] <==> WithinStock(p, routes)
  {
    if excess != map[] {
      var h :| h in excess;
      var d :| d in excess[h];
      assert OverDraws(p, routes, h, d);
    }
  }

  // ------------------------------------------------------------------
  // Whose work is withdrawn
  // ------------------------------------------------------------------

  /** The first is worth no more protecting than the second: lower priority, then a smaller
      prize, then the identifier. */
  predicate NoMoreWorth(p: Problem, a: Id, b: Id) {
    var x, y := OrderOf(p.orders, a), OrderOf(p.orders, b);
    if x.None? || y.None? then a <= b
    else if x.value.priorityTier != y.value.priorityTier then x.value.priorityTier > y.value.priorityTier
    else if x.value.prize != y.value.prize then x.value.prize < y.value.prize
    else a <= b
  }

  function Insert(p: Problem, id: Id, ids: seq<Id>): seq<Id> {
    if ids == [] || NoMoreWorth(p, id, ids[0]) then [id] + ids else [ids[0]] + Insert(p, id, ids[1..])
  }

  /** The deliveries among a route's steps. */
  function DeliveriesIn(p: Problem, steps: seq<PlanStep>): seq<Id> {
    if steps == [] then []
    else
      var s, rest := steps[|steps| - 1], DeliveriesIn(p, steps[..|steps| - 1]);
      if s.order.Some? && OrderOf(p.orders, s.order.value).Some? && OrderOf(p.orders, s.order.value).value.delivery.Some?
      then rest + [s.order.value] else rest
  }

  function SuppliedBy(p: Problem, routes: seq<Route>, depot: Id): seq<Id> {
    if routes == [] then []
    else
      var last, rest := routes[|routes| - 1], SuppliedBy(p, routes[..|routes| - 1], depot);
      if HomeOf(p, last.vehicle) == Some(depot) then rest + DeliveriesIn(p, last.steps) else rest
  }

  function Ranked(p: Problem, ids: seq<Id>): seq<Id> {
    if ids == [] then [] else Insert(p, ids[0], Ranked(p, ids[1..]))
  }

  /** `_orders_on`: the deliveries this depot supplied, least worth protecting first. */
  function OrdersOn(p: Problem, routes: seq<Route>, depot: Id): seq<Id> {
    Ranked(p, SuppliedBy(p, routes, depot))
  }

  function TakenBy(p: Problem, ids: seq<Id>, dimension: Id): nat {
    if ids == [] then 0 else Takes(p, ids[0], dimension) + TakenBy(p, ids[1..], dimension)
  }

  lemma {:induction false} TakenAppends(p: Problem, a: seq<Id>, b: seq<Id>, dimension: Id)
    ensures TakenBy(p, a + b, dimension) == TakenBy(p, a, dimension) + TakenBy(p, b, dimension)
  {
    if a == [] {
      assert a + b == b;
    } else {
      TakenAppends(p, a[1..], b, dimension);
      assert (a + b)[1..] == a[1..] + b;
    }
  }

  lemma {:induction false} DeliveriesTake(p: Problem, steps: seq<PlanStep>, dimension: Id)
    ensures TakenBy(p, DeliveriesIn(p, steps), dimension) == TakenBySteps(p, steps, dimension)
  {
    if steps != [] {
      var s, rest := steps[|steps| - 1], DeliveriesIn(p, steps[..|steps| - 1]);
      DeliveriesTake(p, steps[..|steps| - 1], dimension);
      if s.order.Some? {
        TakenAppends(p, rest, [s.order.value], dimension);
      }
    }
  }

  lemma {:induction false} SuppliedTake(p: Problem, routes: seq<Route>, depot: Id, dimension: Id)
    ensures TakenBy(p, SuppliedBy(p, routes, depot), dimension) == Drawn(p, routes, depot, dimension)
  {
    if routes != [] {
      var front, last := routes[..|routes| - 1], routes[|routes| - 1];
      SuppliedTake(p, front, depot, dimension);
      DeliveriesTake(p, last.steps, dimension);
      TakenAppends(p, SuppliedBy(p, front, depot), DeliveriesIn(p, last.steps), dimension);
    }
  }

  lemma {:induction false} InsertTakes(p: Problem, id: Id, ids: seq<Id>, dimension: Id)
    ensures TakenBy(p, Insert(p, id, ids), dimension) == Takes(p, id, dimension) + TakenBy(p, ids, dimension)
    ensures forall x :: x in Insert(p, id, ids) <==> x == id || x in ids
  {
    if !(ids == [] || NoMoreWorth(p, id, ids[0])) {
      InsertTakes(p, id, ids[1..], dimension);
      assert ids == [ids[0]] + ids[1..];
    }
  }

  lemma {:induction false} RankedTakes(p: Problem, ids: seq<Id>, dimension: Id)
    ensures TakenBy(p, Ranked(p, ids), dimension) == TakenBy(p, ids, dimension)
    ensures forall x :: x in Ranked(p, ids) <==> x in ids
  {
    if ids != [] {
      RankedTakes(p, ids[1..], dimension);
      InsertTakes(p, ids[0], Ranked(p, ids[1..]), dimension);
      assert ids == [ids[0]] + ids[1..];
    }
  }

  /** The ranked deliveries take exactly what the depot draws. */
  lemma {:induction false} OrdersOnTake(p: Problem, routes: seq<Route>, depot: Id, dimension: Id)
    ensures TakenBy(p, OrdersOn(p, routes, depot), dimension) == Drawn(p, routes, depot, dimension)
  {
    RankedTakes(p, SuppliedBy(p, routes, depot), dimension);
    SuppliedTake(p, routes, depot, dimension);
  }

  predicate AnyShort(remaining: map<Id, int>) {
    exists d :: d in remaining && remaining[d] > 0
  }

  /** The order holds some of a dimension the depot is still short of. */
  predicate Relieves(p: Problem, id: Id, remaining: map<Id, int>) {
    var o := OrderOf(p.orders, id);
    o.Some? && exists d :: d in o.value.quantities && d in remaining && remaining[d] > 0
  }

  function After(p: Problem, id: Id, remaining: map<Id, int>): map<Id, int> {
    map d | d in remaining :: remaining[d] - Takes(p, id, d)
  }

  /** The orders withdrawn from one depot, in turn, while it is short of something they hold. */
  function Withdrawn(p: Problem, ids: seq<Id>, remaining: map<Id, int>): seq<Id> {
    if ids == [] || !AnyShort(remaining) then []
    else if Relieves(p, ids[0], remaining) then [ids[0]] + Withdrawn(p, ids[1..], After(p, ids[0], remaining))
    else Withdrawn(p, ids[1..], remaining)
  }

  /** `_withdrawals` at one depot. */
  method WithdrawFrom(p: Problem, ids: seq<Id>, short: map<Id, nat>) returns (going: seq<Id>)
    requires forall id :: id in ids ==> OrderOf(p.orders, id).Some? && OrderOf(p.orders, id).value.delivery.Some?
    ensures going == Withdrawn(p, ids, short)
  {
    going := [];
    var remaining: map<Id, int> := short;
    assert ids[0..] == ids;
    for k := 0 to |ids|
      invariant going + Withdrawn(p, ids[k..], remaining) == Withdrawn(p, ids, short)
    {
      var id := ids[k];
      assert ids[k..][0] == id && ids[k..][1..] == ids[k + 1..];
      if !AnyShort(remaining) {
        return;
      }
      if Relieves(p, id, remaining) {
        remaining := After(p, id, remaining);
        going := going + [id];
      }
    }
  }

  ghost predicate Deliveries(p: Problem, ids: seq<Id>) {
    forall id :: id in ids ==> OrderOf(p.orders, id).Some? && OrderOf(p.orders, id).value.delivery.Some?
  }

  /** What remains over the stock of a dimension once the withdrawn work is gone. */
  lemma {:induction false} WithdrawnRelieves(p: Problem, ids: seq<Id>, remaining: map<Id, int>, dimension: Id)
    requires Deliveries(p, ids)
    requires dimension in remaining && remaining[dimension] <= TakenBy(p, ids, dimension)
    ensures remaining[dimension] <= TakenBy(p, Withdrawn(p, ids, remaining), dimension)
  {
    if ids != [] && AnyShort(remaining) {
      var id, rest := ids[0], ids[1..];
      assert id in ids && forall x :: x in rest ==> x in ids;
      if Relieves(p, id, remaining) {
        WithdrawnRelieves(p, rest, After(p, id, remaining), dimension);
      } else if remaining[dimension] > 0 {
        assert Takes(p, id, dimension) == 0;
        WithdrawnRelieves(p, rest, remaining, dimension);
      }
    }
  }

  lemma {:induction false} DeliveriesAre(p: Problem, steps: seq<PlanStep>)
    ensures Deliveries(p, DeliveriesIn(p, steps))
    ensures forall id :: id in DeliveriesIn(p, steps) ==> exists s :: s in steps && s.order == Some(id)
  {
    if steps != [] {
      DeliveriesAre(p, steps[..|steps| - 1]);
      assert steps == steps[..|steps| - 1] + [steps[|steps| - 1]];
    }
  }

  /** A delivery the depot supplied travels on a route of one of its vehicles. */
  ghost predicate Supplies(p: Problem, routes: seq<Route>, depot: Id, id: Id) {
    exists r, s :: r in routes && s in r.steps && HomeOf(p, r.vehicle) == Some(depot) && s.order == Some(id)
  }

  lemma {:induction false} SuppliedAre(p: Problem, routes: seq<Route>, depot: Id)
    ensures Deliveries(p, SuppliedBy(p, routes, depot))
    ensures forall id :: id in SuppliedBy(p, routes, depot) ==> Supplies(p, routes, depot, id)
  {
    if routes != [] {
      var front, last := routes[..|routes| - 1], routes[|routes| - 1];
      SuppliedAre(p, front, depot);
      DeliveriesAre(p, last.steps);
      assert routes == front + [last];
      forall id | id in SuppliedBy(p, routes, depot)
        ensures Supplies(p, routes, depot, id)
      {
        if id in SuppliedBy(p, front, depot) {
          var r, s :| r in front && s in r.steps && HomeOf(p, r.vehicle) == Some(depot) && s.order == Some(id);
          assert r in routes;
        } else {
          var s :| s in last.steps && s.order == Some(id);
          assert last in routes;
        }
      }
    }
  }

  lemma {:induction false} OrdersOnAre(p: Problem, routes: seq<Route>, depot: Id)
    ensures Deliveries(p, OrdersOn(p, routes, depot))
    ensures forall id :: id in OrdersOn(p, routes, depot) ==> Supplies(p, routes, depot, id)
  {
    RankedTakes(p, SuppliedBy(p, routes, depot), 0);
    SuppliedAre(p, routes, depot);
  }

  /** After a withdrawal, what the depot still supplies fits its stock in every dimension it over-drew. */
  lemma {:induction false} RemainderFits(p: Problem, routes: seq<Route>, excess: Totals, depot: Id, dimension: Id)
    requires ExcessOf(p, routes, excess) && depot in excess && dimension in excess[depot]
    ensures var going := Withdrawn(p, OrdersOn(p, routes, depot), excess[depot]);
            Drawn(p, routes, depot, dimension) - TakenBy(p, going, dimension) <= Stock(p, depot)[dimension]
  {
    hide Drawn;
    OrdersOnTake(p, routes, depot, dimension);
    OrdersOnAre(p, routes, depot);
    WithdrawnRelieves(p, OrdersOn(p, routes, depot), excess[depot], dimension);
  }

  lemma {:induction false} WithdrawnMembers(p: Problem, ids: seq<Id>, remaining: map<Id, int>)
    ensures forall id :: id in Withdrawn(p, ids, remaining) ==> id in ids
  {
    if ids != [] && AnyShort(remaining) {
      WithdrawnMembers(p, ids[1..], After(p, ids[0], remaining));
      WithdrawnMembers(p, ids[1..], remaining);
      assert ids == [ids[0]] + ids[1..];
    }
  }

  /** Nothing is withdrawn without need: each order withdrawn holds some of a dimension the
      depot is, at its turn, still short of. */
  lemma {:induction false} WithdrawnIsNeeded(p: Problem, ids: seq<Id>, remaining: map<Id, int>, k: nat) returns (d: Id)
    requires k < |Withdrawn(p, ids, remaining)|
    ensures d in remaining && remaining[d] > TakenBy(p, Withdrawn(p, ids, remaining)[..k], d)
    ensures var o := OrderOf(p.orders, Withdrawn(p, ids, remaining)[k]); o.Some? && d in o.value.quantities
  {
    var going := Withdrawn(p, ids, remaining);
    if Relieves(p, ids[0], remaining) {
      if k == 0 {
        d :| d in OrderOf(p.orders, ids[0]).value.quantities && d in remaining && remaining[d] > 0;
      } else {
        d := WithdrawnIsNeeded(p, ids[1..], After(p, ids[0], remaining), k - 1);
        assert going[..k][1..] == going[1..][..k - 1];
      }
    } else {
      d := WithdrawnIsNeeded(p, ids[1..], remaining, k);
    }
  }

  ghost predicate InOrder(p: Problem, ids: seq<Id>) {
    forall i, j :: 0 <= i < j < |ids| ==> NoMoreWorth(p, ids[i], ids[j])
  }

  lemma {:induction false} InsertKeepsOrder(p: Problem, id: Id, ids: seq<Id>)
    requires Deliveries(p, [id] + ids) && InOrder(p, ids)
    ensures InOrder(p, Insert(p, id, ids))
  {
    assert forall x :: x in ids ==> x in [id] + ids;
    assert id in [id] + ids;
    if ids == [] {
    } else if NoMoreWorth(p, id, ids[0]) {
      forall j | 0 <= j < |ids|
        ensures NoMoreWorth(p, id, ids[j])
      {
        assert ids[j] in ids && ids[0] in ids;
        assert j > 0 ==> NoMoreWorth(p, ids[0], ids[j]);
      }
    } else {
      assert forall x :: x in [id] + ids[1..] ==> x in [id] + ids;
      InsertKeepsOrder(p, id, ids[1..]);
      InsertTakes(p, id, ids[1..], 0);
      var rest := Insert(p, id, ids[1..]);
      forall j | 0 <= j < |rest|
        ensures NoMoreWorth(p, ids[0], rest[j])
      {
        assert rest[j] in rest;
        assert ids[0] in ids;
      }
    }
  }

  lemma {:induction false} RankedInOrder(p: Problem, ids: seq<Id>)
    requires Deliveries(p, ids)
    ensures InOrder(p, Ranked(p, ids))
  {
    if ids != [] {
      assert forall x :: x in ids[1..] ==> x in ids;
      RankedInOrder(p, ids[1..]);
      RankedTakes(p, ids[1..], 0);
      assert forall x :: x in [ids[0]] + Ranked(p, ids[1..]) ==> x in ids;
      InsertKeepsOrder(p, ids[0], Ranked(p, ids[1..]));
    }
  }

  /** The withdrawals consider the deliveries least worth protecting first: none before one of a larger
      tier number, within a tier none before one of a smaller prize, and then by identifier. */
  lemma {:induction false} LeastWorthFirst(p: Problem, routes: seq<Route>, depot: Id, i: nat, j: nat)
    requires i < j < |OrdersOn(p, routes, depot)|
    ensures var ids := OrdersOn(p, routes, depot);
            var first, second := OrderOf(p.orders, ids[i]), OrderOf(p.orders, ids[j]);
            && first.Some? && second.Some?
            && first.value.priorityTier >= second.value.priorityTier
            && (first.value.priorityTier == second.value.priorityTier ==> first.value.prize <= second.value.prize)
            && (first.value.priorityTier == second.value.priorityTier && first.value.prize == second.value.prize ==>
                  ids[i] <= ids[j])
  {
    var supplied, ids := SuppliedBy(p, routes, depot), OrdersOn(p, routes, depot);
    SuppliedAre(p, routes, depot);
    RankedInOrder(p, supplied);
    RankedTakes(p, supplied, 0);
    assert ids[i] in ids && ids[j] in ids;
  }

  // ------------------------------------------------------------------
  // Locks and rounds
  // ------------------------------------------------------------------

  predicate HasLock(locks: seq<Lock>, kind: LockKind) {
    exists l :: l in locks && l.kind == kind
  }

  /** The order is banned from every vehicle of the depot: it has been withdrawn there. */
  ghost predicate BannedAt(p: Problem, order: Id, depot: Id) {
    forall v :: v in p.vehicles && v.startLocation == depot ==> HasLock(p.locks, ForbidOrderOnVehicle(order, v.id))
  }

  function FleetAt(vs: seq<Vehicle>, depot: Id): seq<Id> {
    if vs == [] then []
    else if vs[0].startLocation == depot then [vs[0].id] + FleetAt(vs[1..], depot)
    else FleetAt(vs[1..], depot)
  }

  lemma {:induction false} FleetMembers(vs: seq<Vehicle>, depot: Id)
    ensures forall v :: v in vs && v.startLocation == depot ==> v.id in FleetAt(vs, depot)
  {
    if vs != [] {
      FleetMembers(vs[1..], depot);
      assert vs == [vs[0]] + vs[1..];
    }
  }

  /** `_with_locks`, for one ban on each vehicle: bans already standing are not repeated. */
  function Banning(p: Problem, locks: seq<Lock>, order: Id, fleet: seq<Id>): seq<Lock> {
    if fleet == [] then []
    else
      var kind, rest := ForbidOrderOnVehicle(order, fleet[0]), Banning(p, locks, order, fleet[1..]);
      if HasLock(p.locks, kind) then rest else [Lock(|p.locks| + |locks|, kind)] + rest
  }

  function BanAll(p: Problem, locks: seq<Lock>, orders: seq<Id>, fleet: seq<Id>): seq<Lock>
    decreases orders
  {
    if orders == [] then locks
    else BanAll(p, locks + Banning(p, locks, orders[0], fleet), orders[1..], fleet)
  }

  lemma {:induction false} BanningMeans(p: Problem, locks: seq<Lock>, order: Id, fleet: seq<Id>)
    ensures forall v :: v in fleet ==> HasLock(p.locks + Banning(p, locks, order, fleet), ForbidOrderOnVehicle(order, v))
  {
    if fleet != [] {
      BanningMeans(p, locks, order, fleet[1..]);
      var rest, all := Banning(p, locks, order, fleet[1..]), Banning(p, locks, order, fleet);
      assert fleet == [fleet[0]] + fleet[1..];
      assert forall l :: l in p.locks + rest ==> l in p.locks + all;
      var kind := ForbidOrderOnVehicle(order, fleet[0]);
      if !HasLock(p.locks, kind) {
        assert all[0] in p.locks + all;
      }
    }
  }

  lemma {:induction false} BanAllKeeps(p: Problem, locks: seq<Lock>, orders: seq<Id>, fleet: seq<Id>)
    ensures forall l :: l in locks ==> l in BanAll(p, locks, orders, fleet)
    decreases orders
  {
    if orders != [] {
      BanAllKeeps(p, locks + Banning(p, locks, orders[0], fleet), orders[1..], fleet);
    }
  }

  lemma {:induction false} BanAllMeans(p: Problem, locks: seq<Lock>, orders: seq<Id>, fleet: seq<Id>, order: Id)
    requires order in orders
    ensures forall v :: v in fleet ==> HasLock(p.locks + BanAll(p, locks, orders, fleet), ForbidOrderOnVehicle(order, v))
    decreases orders
  {
    var more := locks + Banning(p, locks, orders[0], fleet);
    if order == orders[0] {
      BanningMeans(p, locks, order, fleet);
      BanAllKeeps(p, more, orders[1..], fleet);
      assert forall l :: l in p.locks + Banning(p, locks, order, fleet) ==> l in p.locks + BanAll(p, locks, orders, fleet);
    } else {
      BanAllMeans(p, more, orders[1..], fleet, order);
    }
  }

  /** With these further locks, the depot's withdrawals are in force. */
  ghost predicate Barred(p: Problem, routes: seq<Route>, excess: Totals, locks: seq<Lock>, depot: Id) {
    depot in excess ==>
      forall id :: id in Withdrawn(p, OrdersOn(p, routes, depot), excess[depot]) ==>
        BannedAt(WithLocks(p, p.locks + locks), id, depot)
  }

  /** The lock bans an order withdrawn from some over-drawn depot on a vehicle of that depot. */
  ghost predicate Justified(p: Problem, routes: seq<Route>, excess: Totals, l: Lock) {
    exists h, id, v :: h in excess && id in Withdrawn(p, OrdersOn(p, routes, h), excess[h])
      && v in FleetAt(p.vehicles, h) && l.kind == ForbidOrderOnVehicle(id, v)
  }

  lemma {:induction false} BanningOnly(p: Problem, locks: seq<Lock>, order: Id, fleet: seq<Id>)
    ensures forall l :: l in Banning(p, locks, order, fleet) ==>
      exists v :: v in fleet && l.kind == ForbidOrderOnVehicle(order, v)
  {
    if fleet != [] {
      BanningOnly(p, locks, order, fleet[1..]);
      assert fleet == [fleet[0]] + fleet[1..];
    }
  }

  lemma {:induction false} BanAllOnly(p: Problem, locks: seq<Lock>, orders: seq<Id>, fleet: seq<Id>)
    ensures forall l :: l in BanAll(p, locks, orders, fleet) ==>
      l in locks || exists id, v :: id in orders && v in fleet && l.kind == ForbidOrderOnVehicle(id, v)
    decreases orders
  {
    if orders != [] {
      BanningOnly(p, locks, orders[0], fleet);
      BanAllOnly(p, locks + Banning(p, locks, orders[0], fleet), orders[1..], fleet);
      assert orders == [orders[0]] + orders[1..];
    }
  }

  method WithdrawAt(p: Problem, routes: seq<Route>, excess: Totals, locks: seq<Lock>, depot: Id)
    returns (more: seq<Lock>)
    requires depot in excess
    requires forall l :: l in locks ==> Justified(p, routes, excess, l)
    ensures forall l :: l in more ==> Justified(p, routes, excess, l)
    ensures Barred(p, routes, excess, more, depot)
    ensures forall h :: Barred(p, routes, excess, locks, h) ==> Barred(p, routes, excess, more, h)
  {
    hide OrdersOn, Withdrawn, BannedAt, BanAll, FleetAt;
    OrdersOnAre(p, routes, depot);
    var going := WithdrawFrom(p, OrdersOn(p, routes, depot), excess[depot]);
    more := BanAll(p, locks, going, FleetAt(p.vehicles, depot));
    BansGrow(p, locks, going, depot);
    BanAllOnly(p, locks, going, FleetAt(p.vehicles, depot));
    forall id | id in going
      ensures BannedAt(WithLocks(p, p.locks + more), id, depot)
    {
      BanAllBans(p, locks, going, depot, id);
    }
  }

  /** `_withdrawals` and `_with_locks`: depot by depot, in identifier order. */
  method Withdraw(p: Problem, routes: seq<Route>, excess: Totals) returns (locks: seq<Lock>)
    ensures forall h :: Barred(p, routes, excess, locks, h)
    ensures forall l :: l in locks ==> Justified(p, routes, excess, l)
  {
    hide Barred, Justified;
    locks := [];
    var depots := Sorted(excess.Keys);
    SortedMeans(excess.Keys);
    assert forall i :: 0 <= i < |depots| ==> depots[i] in depots;
    for k := 0 to |depots|
      invariant forall i :: 0 <= i < k ==> Barred(p, routes, excess, locks, depots[i])
      invariant forall l :: l in locks ==> Justified(p, routes, excess, l)
    {
      locks := WithdrawAt(p, routes, excess, locks, depots[k]);
    }
    forall h
      ensures Barred(p, routes, excess, locks, h)
    {
      if h in excess {
        var i :| 0 <= i < |depots| && depots[i] == h;
      } else {
        NothingToBar(p, routes, excess, locks, h);
      }
    }
  }

  lemma {:induction false} NothingToBar(p: Problem, routes: seq<Route>, excess: Totals, locks: seq<Lock>, depot: Id)
    requires depot !in excess
    ensures Barred(p, routes, excess, locks, depot)
  {
  }

  lemma {:induction false} BansGrow(p: Problem, locks: seq<Lock>, going: seq<Id>, depot: Id)
    ensures forall id, h :: BannedAt(WithLocks(p, p.locks + locks), id, h) ==>
      BannedAt(WithLocks(p, p.locks + BanAll(p, locks, going, FleetAt(p.vehicles, depot))), id, h)
  {
    BanAllKeeps(p, locks, going, FleetAt(p.vehicles, depot));
    var more := BanAll(p, locks, going, FleetAt(p.vehicles, depot));
    assert forall l :: l in p.locks + locks ==> l in p.locks + more;
  }

  lemma {:induction false} BanAllBans(p: Problem, locks: seq<Lock>, going: seq<Id>, depot: Id, id: Id)
    requires id in going
    ensures BannedAt(WithLocks(p, p.locks + BanAll(p, locks, going, FleetAt(p.vehicles, depot))), id, depot)
  {
    BanAllMeans(p, locks, going, FleetAt(p.vehicles, depot), id);
    FleetMembers(p.vehicles, depot);
  }

  // ------------------------------------------------------------------
  // Rounds
  // ------------------------------------------------------------------

  type Engine = Problem -> seq<Route>

  /** No order rides on a vehicle it is banned from. */
  ghost predicate Honours(p: Problem, routes: seq<Route>) {
    forall r, s :: r in routes && s in r.steps && s.order.Some? ==>
      !HasLock(p.locks, ForbidOrderOnVehicle(s.order.value, r.vehicle))
  }

  /** On the instance, and whatever locks it is made anew with, the engine plans its orders on its
      vehicles. */
  ghost predicate Plans(p: Problem, solve: Engine) {
    && PlanOf(p, solve(p))
    && forall locks: seq<Lock> :: PlanOf(WithLocks(p, locks), solve(WithLocks(p, locks)))
  }

  ghost predicate HonoursLocks(p: Problem, solve: Engine) {
    && Honours(p, solve(p))
    && forall locks: seq<Lock> :: Honours(WithLocks(p, locks), solve(WithLocks(p, locks)))
  }

  ghost function Pairs(p: Problem): set<(Id, Id)> {
    set o, v | o in p.orders && v in p.vehicles :: (o.id, v.startLocation)
  }

  ghost function BannedPairs(p: Problem): set<(Id, Id)> {
    set pair | pair in Pairs(p) && BannedAt(p, pair.0, pair.1)
  }

  /** An over-drawn depot always has something to withdraw: the source's early exit for a round
      that withdraws nothing is never taken. */
  lemma {:induction false} SomethingIsWithdrawn(p: Problem, routes: seq<Route>, excess: Totals, depot: Id)
    requires ExcessOf(p, routes, excess) && depot in excess
    ensures Withdrawn(p, OrdersOn(p, routes, depot), excess[depot]) != []
  {
    var d :| d in excess[depot];
    OrdersOnTake(p, routes, depot, d);
    OrdersOnAre(p, routes, depot);
    WithdrawnRelieves(p, OrdersOn(p, routes, depot), excess[depot], d);
  }

  /** What the first order withdrawn at a depot shows: it was not banned there before. */
  lemma {:induction false} FreshPair(p: Problem, routes: seq<Route>, excess: Totals, depot: Id) returns (id: Id)
    requires PlanOf(p, routes) && Honours(p, routes) && ExcessOf(p, routes, excess) && depot in excess
    ensures id in Withdrawn(p, OrdersOn(p, routes, depot), excess[depot])
    ensures (id, depot) in Pairs(p) && !BannedAt(p, id, depot)
  {
    hide Withdrawn, OrdersOn, Drawn;
    SomethingIsWithdrawn(p, routes, excess, depot);
    id := Withdrawn(p, OrdersOn(p, routes, depot), excess[depot])[0];
    WithdrawnMembers(p, OrdersOn(p, routes, depot), excess[depot]);
    OrdersOnAre(p, routes, depot);
    assert Supplies(p, routes, depot, id);
    var r, s :| r in routes && s in r.steps && HomeOf(p, r.vehicle) == Some(depot) && s.order == Some(id);
    var v := VehicleOf(p.vehicles, r.vehicle).value;
    var o := OrderOf(p.orders, id).value;
    assert v in p.vehicles && v.startLocation == depot && v.id == r.vehicle;
    assert o in p.orders && o.id == id;
  }

  /** Against an engine that honours its locks, every over-drawn round bans a new pair and frees none. */
  lemma {:induction false} RoundBansMore(p: Problem, routes: seq<Route>, excess: Totals, locks: seq<Lock>)
    requires PlanOf(p, routes) && Honours(p, routes) && ExcessOf(p, routes, excess) && excess != map[]
    requires forall h :: Barred(p, routes, excess, locks, h)
    ensures |BannedPairs(WithLocks(p, p.locks + locks))| > |BannedPairs(p)|
  {
    hide Withdrawn, OrdersOn, Drawn, PlanOf, Honours, ExcessOf;
    var next := WithLocks(p, p.locks + locks);
    assert forall l :: l in p.locks ==> l in next.locks;
    var h :| h in excess;
    var id := FreshPair(p, routes, excess, h);
    assert Barred(p, routes, excess, locks, h);
    assert BannedPairs(p) <= BannedPairs(next);
    assert (id, h) in BannedPairs(next) && (id, h) !in BannedPairs(p);
    Larger(BannedPairs(p), BannedPairs(next), (id, h));
  }

  lemma {:induction false} Larger(a: set<(Id, Id)>, b: set<(Id, Id)>, x: (Id, Id))
    requires a <= b && x in b && x !in a
    ensures |a| < |b|
  {
    assert |b - a| == |b| - |a|;
    assert x in b - a;
  }

  lemma {:induction false} PairsBound(p: Problem)
    ensures |BannedPairs(p)| <= |Pairs(p)|
  {
    var banned, all := BannedPairs(p), Pairs(p);
    assert |all - banned| == |all| - |banned|;
  }

  /** One over-drawn round: the withdrawals of the plan solved for `q` are in force in `next`, and
      nothing else was added. */
  ghost predicate NextRound(q: Problem, next: Problem, solve: Engine) {
    exists excess, locks :: RoundBy(q, next, solve(q), excess, locks)
  }

  ghost predicate RoundBy(q: Problem, next: Problem, plan: seq<Route>, excess: Totals, locks: seq<Lock>) {
    && ExcessOf(q, plan, excess) && excess != map[] && next == WithLocks(q, q.locks + locks)
    && (forall h :: Barred(q, plan, excess, locks, h))
    && (forall l :: l in locks ==> Justified(q, plan, excess, l))
  }

  /** The problems solved, one after another. */
  ghost predicate Rounds(p: Problem, solve: Engine, tried: seq<Problem>) {
    && |tried| > 0 && tried[0] == p
    && forall i :: 0 <= i < |tried| - 1 ==> NextRound(tried[i], tried[i + 1], solve)
  }

  ghost predicate NoProfiles(p: Problem) {
    p.speedProfile.None? && p.speedProfiles.None?
  }

  ghost predicate KeepsProfiles(p: Problem, q: Problem) {
    q.speedProfile == p.speedProfile && q.speedProfiles == p.speedProfiles
  }

  /** `solve_within_inventory`: a plan that comes back never over-draws a depot, and against an
      engine that honours its locks one does come back once the rounds allowed cover every pair
      of an order and a depot. The problem that comes with it has its speed profiles still exactly
      when the first plan was within stock, or there were none: each withdrawal drops them, and what
      is solved from then on travels at free flow. */
  method SolveWithinInventory(p: Problem, solve: Engine, maxRounds: nat)
    returns (r: Result<(seq<Route>, Problem)>, ghost tried: seq<Problem>)
    requires Plans(p, solve)
    ensures Rounds(p, solve, tried)
    ensures r.Success? ==>
      && |tried| <= maxRounds + 1 && r.value.1 == tried[|tried| - 1]
      && r.value.0 == solve(r.value.1) && WithinStock(r.value.1, r.value.0)
      && r.value.1 == (if |tried| == 1 then p else WithLocks(p, r.value.1.locks)) && p.locks <= r.value.1.locks
      && (KeepsProfiles(p, r.value.1) <==> WithinStock(p, solve(p)) || NoProfiles(p))
    ensures HonoursLocks(p, solve) && |Pairs(p)| <= maxRounds ==> r.Success?
  {
    hide WithinStock, ExcessOf, BannedPairs, Barred, Justified, PlanOf, Honours, NextRound;
    var current := p;
    tried := [p];
    for round := 0 to maxRounds + 1
      invariant current == (if round == 0 then p else WithLocks(p, current.locks)) && p.locks <= current.locks
      invariant round > 0 ==> !WithinStock(p, solve(p))
      invariant |tried| == round + 1 && tried[round] == current && Rounds(p, solve, tried)
      invariant HonoursLocks(p, solve) ==> |BannedPairs(current)| >= round
    {
      var plan := solve(current);
      assert PlanOf(current, plan);
      var excess := OverDrawn(current, plan);
      if excess == map[] {
        return Success((plan, current)), tried;
      }
      var locks := Withdraw(current, plan, excess);
      if HonoursLocks(p, solve) {
        assert Honours(current, plan);
        RoundBansMore(current, plan, excess, locks);
      }
      ghost var next := WithLocks(current, current.locks + locks);
      IsNextRound(current, next, solve, excess, locks);
      tried := tried + [next];
      current := WithLocks(current, current.locks + locks);
    }
    PairsBound(current);
    assert Pairs(current) == Pairs(p);
    return Failure("still supply more than they hold"), tried;
  }

  lemma {:induction false} IsNextRound(q: Problem, next: Problem, solve: Engine, excess: Totals, locks: seq<Lock>)
    requires RoundBy(q, next, solve(q), excess, locks)
    ensures NextRound(q, next, solve)
  {
  }

  // ------------------------------------------------------------------
  // An engine that honours its locks and still runs out of rounds
  // ------------------------------------------------------------------

  function Crate(): Order {
    OrderSpec(0, map[0 := 1], None, Some(Stop(0, [], 0, 0, None)), 0, 1, 0, {}, None, {})
  }

  function VanAt(i: nat): Vehicle {
    Vehicle(i, map[0 := 1], WindowSpec(0, 9000, Hard), i, None, {}, 1000, None, None, None, None, 0, 0, 0, 0, 0, 0)
  }

  function EmptyDepot(i: nat): Location {
    Location(i, i, 0, None, Some(map[0 := 0]), {}, None)
  }

  /** `n` depots with nothing in stock and a van each, and one crate to deliver. */
  function EmptyDepots(n: nat): Problem {
    Problem(map i: nat | i < n :: EmptyDepot(i), [Crate()], seq(n, (i: nat) => VanAt(i)), Matrix(Zeros(n), Zeros(n)), [],
            None, None)
  }

  function Zeros(n: nat): seq<seq<int>> {
    seq(n, i => seq(n, j => 0))
  }

  /** It can be built: every depot has a row of the matrix to itself. */
  lemma {:induction false} EmptyDepotsAreProper(n: nat)
    requires n > 0
    ensures WellFormed(EmptyDepots(n)) && DistinctPlaces(EmptyDepots(n)) && DistinctOrders(EmptyDepots(n).orders)
  {
    assert StopOf(Crate()).windows == [];
  }

  function FirstAllowed(locks: seq<Lock>, from: nat, n: nat): nat
    decreases n - from
  {
    if from >= n || !HasLock(locks, ForbidOrderOnVehicle(0, from)) then from else FirstAllowed(locks, from + 1, n)
  }

  /** The crate on the first van it is not banned from; nothing when it is banned from all. */
  function FirstVan(q: Problem): seq<Route> {
    var k := FirstAllowed(q.locks, 0, |q.vehicles|);
    if k < |q.vehicles| then [Route(k, [PlanStep(0, Some(0))])] else []
  }

  /** The crate has been withdrawn from the first `k` depots and no other. */
  ghost predicate BannedFrom(locks: seq<Lock>, k: nat, n: nat) {
    forall i: nat :: i < n ==> (HasLock(locks, ForbidOrderOnVehicle(0, i)) <==> i < k)
  }

  lemma {:induction false} FirstAllowedMeans(locks: seq<Lock>, from: nat, n: nat)
    requires from <= n
    ensures var k := FirstAllowed(locks, from, n);
            && from <= k <= n && (forall i: nat :: from <= i < k ==> HasLock(locks, ForbidOrderOnVehicle(0, i)))
            && (k < n ==> !HasLock(locks, ForbidOrderOnVehicle(0, k)))
    decreases n - from
  {
    if from < n {
      FirstAllowedMeans(locks, from + 1, n);
    }
  }

  lemma {:induction false} VanOf(n: nat, vs: seq<Vehicle>, from: nat, i: nat)
    requires from <= i < n && vs == seq(n, (j: nat) => VanAt(j))[from..]
    ensures VehicleOf(vs, i) == Some(VanAt(i))
    decreases n - from
  {
    assert vs[0] == VanAt(from);
    if from < i {
      VanOf(n, vs[1..], from + 1, i);
    }
  }

  lemma {:induction false} CrateIsKnown(n: nat, locks: seq<Lock>)
    ensures OrderOf(WithLocks(EmptyDepots(n), locks).orders, 0) == Some(Crate())
  {
    assert EmptyDepots(n).orders[0] == Crate();
  }

  /** The engine honours every lock. */
  lemma {:induction false} FirstVanHonours(n: nat)
    ensures Plans(EmptyDepots(n), FirstVan) && HonoursLocks(EmptyDepots(n), FirstVan)
  {
    forall locks: seq<Lock>
      ensures PlanOf(WithLocks(EmptyDepots(n), locks), FirstVan(WithLocks(EmptyDepots(n), locks)))
      ensures Honours(WithLocks(EmptyDepots(n), locks), FirstVan(WithLocks(EmptyDepots(n), locks)))
    {
      var q := WithLocks(EmptyDepots(n), locks);
      FirstAllowedMeans(locks, 0, n);
      CrateIsKnown(n, locks);
      var k := FirstAllowed(locks, 0, n);
      if k < n {
        VanOf(n, q.vehicles, 0, k);
      }
    }
  }

  lemma {:induction false} OneStopDraws(p: Problem, r: Route, s: PlanStep, h: Id, d: Id)
    requires r.steps == [s] && s.order.Some?
    ensures Drawn(p, [r], h, d) == if HomeOf(p, r.vehicle) == Some(h) then Takes(p, s.order.value, d) else 0
  {
    assert [r][..0] == [] && r.steps[..0] == [];
    assert Drawn(p, [], h, d) == 0 && TakenBySteps(p, [], d) == 0;
  }

  /** The one plan: the crate leaves the first depot it is not banned from, which over-draws it. */
  lemma {:induction false} CrateOverDraws(n: nat, locks: seq<Lock>, k: nat)
    requires k < n && BannedFrom(locks, k, n)
    ensures var q := WithLocks(EmptyDepots(n), locks);
            && FirstVan(q) == [Route(k, [PlanStep(0, Some(0))])]
            && OverDraws(q, FirstVan(q), k, 0) && forall h, d :: OverDraws(q, FirstVan(q), h, d) ==> h == k
  {
    var q := WithLocks(EmptyDepots(n), locks);
    FirstAllowedMeans(locks, 0, n);
    VanOf(n, q.vehicles, 0, k);
    CrateIsKnown(n, locks);
    var r, s := Route(k, [PlanStep(0, Some(0))]), PlanStep(0, Some(0));
    var f := FirstAllowed(locks, 0, n);
    assert !HasLock(locks, ForbidOrderOnVehicle(0, k));
    assert f == n || !HasLock(locks, ForbidOrderOnVehicle(0, f));
    assert f == k && |q.vehicles| == n && FirstVan(q) == [r];
    assert HomeOf(q, k) == Some(k) && Takes(q, 0, 0) == 1;
    assert k in q.locations && q.locations[k] == EmptyDepot(k) && Stock(q, k) == map[0 := 0];
    OneStopDraws(q, r, s, k, 0);
    OnlyOverDrawnAt(q, r, s, k);
  }

  lemma {:induction false} OnlyOverDrawnAt(p: Problem, r: Route, s: PlanStep, k: Id)
    requires r.steps == [s] && s.order.Some? && HomeOf(p, r.vehicle) == Some(k)
    ensures forall h, d :: OverDraws(p, [r], h, d) ==> h == k
  {
    forall h, d | OverDraws(p, [r], h, d)
      ensures h == k
    {
      OneStopDraws(p, r, s, h, d);
    }
  }

  lemma {:induction false} OneMoreBanned(n: nat, q: Problem, next: Problem, k: nat)
    requires k < n && q == WithLocks(EmptyDepots(n), q.locks) && BannedFrom(q.locks, k, n)
    requires NextRound(q, next, FirstVan)
    ensures next == WithLocks(EmptyDepots(n), next.locks) && BannedFrom(next.locks, k + 1, n)
  {
    CrateOverDraws(n, q.locks, k);
    var plan := FirstVan(q);
    var excess, locks :| RoundBy(q, next, plan, excess, locks);
    assert forall h :: h in excess ==> h == k by {
      forall h | h in excess
        ensures h == k
      {
        var d :| d in excess[h];
        assert OverDraws(q, plan, h, d);
      }
    }
    assert k in excess;
    OnlyTheCrate(n, q, k, plan, excess, locks);
  }

  lemma {:induction false} OnlyTheCrate(n: nat, q: Problem, k: nat, plan: seq<Route>, excess: Totals, locks: seq<Lock>)
    requires k < n && q == WithLocks(EmptyDepots(n), q.locks) && BannedFrom(q.locks, k, n)
    requires plan == FirstVan(q) == [Route(k, [PlanStep(0, Some(0))])]
    requires ExcessOf(q, plan, excess) && k in excess && forall h :: h in excess ==> h == k
    requires forall h :: Barred(q, plan, excess, locks, h)
    requires forall l :: l in locks ==> Justified(q, plan, excess, l)
    ensures BannedFrom(q.locks + locks, k + 1, n)
  {
    hide Drawn, Withdrawn, OrdersOn, ExcessOf;
    var ids := OrdersOn(q, plan, k);
    SomethingIsWithdrawn(q, plan, excess, k);
    WithdrawnMembers(q, ids, excess[k]);
    OrdersOnAre(q, plan, k);
    var going := Withdrawn(q, ids, excess[k]);
    forall id | id in going
      ensures id == 0
    {
      assert Supplies(q, plan, k, id);
    }
    assert going[0] in going;
    assert Barred(q, plan, excess, locks, k);
    assert q.vehicles[k] == VanAt(k) && VanAt(k) in q.vehicles;
    assert HasLock(q.locks + locks, ForbidOrderOnVehicle(0, k));
    OnlyThatVan(n, q.vehicles, 0, k);
    forall i: nat | i < n
      ensures HasLock(q.locks + locks, ForbidOrderOnVehicle(0, i)) <==> i < k + 1
    {
      if HasLock(q.locks, ForbidOrderOnVehicle(0, i)) {
        var l :| l in q.locks && l.kind == ForbidOrderOnVehicle(0, i);
        assert l in q.locks + locks;
      }
      if HasLock(q.locks + locks, ForbidOrderOnVehicle(0, i)) && i >= k {
        var l :| l in q.locks + locks && l.kind == ForbidOrderOnVehicle(0, i);
        assert l !in q.locks;
        assert Justified(q, plan, excess, l);
      }
    }
  }

  lemma {:induction false} OnlyThatVan(n: nat, vs: seq<Vehicle>, from: nat, k: nat)
    requires from <= n && vs == seq(n, (j: nat) => VanAt(j))[from..]
    ensures forall v :: v in FleetAt(vs, k) ==> v == k
    decreases n - from
  {
    if from < n {
      assert vs[0] == VanAt(from);
      OnlyThatVan(n, vs[1..], from + 1, k);
    }
  }

  lemma {:induction false} StillBanned(n: nat, tried: seq<Problem>, i: nat)
    requires Rounds(EmptyDepots(n), FirstVan, tried) && i < |tried| && i <= n
    ensures tried[i] == WithLocks(EmptyDepots(n), tried[i].locks) && BannedFrom(tried[i].locks, i, n)
  {
    if i > 0 {
      StillBanned(n, tried, i - 1);
      assert NextRound(tried[i - 1], tried[i - 1 + 1], FirstVan);
      OneMoreBanned(n, tried[i - 1], tried[i], i - 1);
    }
  }

  /** The round limit is more than a guard against an engine that ignores its locks: over `n` empty
      depots this one honours every lock, and its first `n` plans all over-draw, so that with nine
      depots the default of eight further rounds ends in the error. */
  lemma {:induction false} HonestEngineRunsOut(n: nat, tried: seq<Problem>)
    requires Rounds(EmptyDepots(n), FirstVan, tried) && |tried| <= n
    ensures Plans(EmptyDepots(n), FirstVan) && HonoursLocks(EmptyDepots(n), FirstVan)
    ensures !WithinStock(tried[|tried| - 1], FirstVan(tried[|tried| - 1]))
  {
    FirstVanHonours(n);
    var i := |tried| - 1;
    StillBanned(n, tried, i);
    CrateOverDraws(n, tried[i].locks, i);
  }

  ghost function Tagged(n: nat): set<(Id, Id)> {
    if n == 0 then {} else Tagged(n - 1) + {(0, n - 1)}
  }

  lemma {:induction false} TaggedMeans(n: nat)
    ensures |Tagged(n)| == n && forall a: Id, b: Id :: (a, b) in Tagged(n) <==> a == 0 && b < n
  {
    if n > 0 {
      TaggedMeans(n - 1);
    }
  }

  /** One pair of an order and a depot for each depot. */
  lemma {:induction false} EmptyPairs(n: nat)
    ensures |Pairs(EmptyDepots(n))| == n
  {
    var p := EmptyDepots(n);
    TaggedMeans(n);
    assert p.orders[0] == Crate();
    assert forall i: nat :: i < n ==> p.vehicles[i] == VanAt(i) && VanAt(i) in p.vehicles;
    assert forall v :: v in p.vehicles ==> v.startLocation < n;
    forall pair: (Id, Id)
      ensures pair in Pairs(p) <==> pair in Tagged(n)
    {
      assert pair == (pair.0, pair.1);
      if pair.1 < n {
        assert VanAt(pair.1) in p.vehicles && Crate() in p.orders;
      }
    }
    assert Pairs(p) == Tagged(n);
  }

  /** The bound by pairs is tight: over `n` empty depots, which make `n` pairs, this engine has a
      plan within stock only after more than `n` solves. So with fewer further rounds than pairs
      nothing comes back, and with as many something does. */
  lemma {:induction false} PairsAreNeeded(n: nat, tried: seq<Problem>)
    requires Rounds(EmptyDepots(n), FirstVan, tried)
    requires WithinStock(tried[|tried| - 1], FirstVan(tried[|tried| - 1]))
    ensures |tried| > |Pairs(EmptyDepots(n))| == n
  {
    EmptyPairs(n);
    if |tried| <= n {
      HonestEngineRunsOut(n, tried);
    }
  }
}
