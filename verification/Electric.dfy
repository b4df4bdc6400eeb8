/** Planning charges (vrp/electric.py): how full to leave a charger, and the repair loop that
    places charging stops until no step falls below the reserve. */
module Electric {
  import opened Common
  import opened Model
  import opened Evaluator
  import Battery

  /** What a plan must still hold when it gets home, in parts per thousand. */
  const RESERVE := 100

  /** The round as `plan_charging` takes it: an electric van at known places. */
  ghost predicate Electrical(r: Round, orders: seq<Order>) {
    && Sound(r) && r.vehicle.battery.Some?
    && forall o :: o in orders ==> Sited(r.problem, o)
  }

  function Site(p: Problem, o: Order): nat
    requires Sited(p, o)
  {
    p.locations[StopOf(o).location].matrixIndex
  }

  /** The charge one arc costs; `matrix.distance` raises where there is none. */
  function ArcCost(r: Round, from: nat, to: nat): Result<nat>
    requires Sound(r) && r.vehicle.battery.Some? && from < Size(r.problem) && to < Size(r.problem)
  {
    var metres := r.problem.matrix.distances[from][to];
    if metres == UNREACHABLE then Failure("no route")
    else Success(Battery.ConsumedPpt(r.vehicle.battery.value, r.vehicle.whPerKm, metres))
  }

  function Plus(cost: Result<nat>, rest: Result<nat>): Result<nat> {
    if cost.Failure? then cost else if rest.Failure? then rest else Success(cost.value + rest.value)
  }

  lemma {:induction false} PlusAgain(spent: nat, leg: nat, rest: Result<nat>)
    ensures Plus(Success(spent), Plus(Success(leg), rest)) == Plus(Success(spent + leg), rest)
  {
  }

  /** What the rest of the round costs from a position: every remaining leg, then home. */
  function Need(r: Round, orders: seq<Order>, index: nat, position: nat): Result<nat>
    requires Electrical(r, orders) && index <= |orders| && position < Size(r.problem)
    decreases |orders| - index
  {
    if index == |orders| then ArcCost(r, position, r.problem.locations[EndsAt(r.vehicle)].matrixIndex)
    else
      assert orders[index] in orders;
      var there := Site(r.problem, orders[index]);
      Plus(ArcCost(r, position, there), Need(r, orders, index + 1, there))
  }

  /** `min(FULL_PPT, max(RESERVE_PPT, needed))`. */
  function TargetFor(need: nat): int {
    Min(Battery.FULL, Max(RESERVE, RESERVE + need))
  }

  /** `_target`, leg by leg. */
  method Target(r: Round, orders: seq<Order>, index: nat, charger: nat) returns (target: Result<int>)
    requires Electrical(r, orders) && index <= |orders| && charger < Size(r.problem)
    ensures target.Success? <==> Need(r, orders, index, charger).Success?
    ensures target.Success? ==> target.value == TargetFor(Need(r, orders, index, charger).value)
  {
    var needed := RESERVE;
    var position: nat, k := charger, index;
    ghost var whole := Need(r, orders, index, charger);
    ghost var spent: nat := 0;
    while k < |orders|
      invariant index <= k <= |orders| && position < Size(r.problem) && needed == RESERVE + spent
      invariant whole == Plus(Success(spent), Need(r, orders, k, position))
    {
      assert orders[k] in orders;
      var there := Site(r.problem, orders[k]);
      var leg := ArcCost(r, position, there);
      if leg.Failure? {
        return Failure(leg.reason);
      }
      PlusAgain(spent, leg.value, Need(r, orders, k + 1, there));
      needed, position, k := needed + leg.value, there, k + 1;
      spent := spent + leg.value;
    }
    var leg := ArcCost(r, position, r.problem.locations[EndsAt(r.vehicle)].matrixIndex);
    if leg.Failure? {
      return Failure(leg.reason);
    }
    needed := needed + leg.value;
    return Success(Min(Battery.FULL, Max(RESERVE, needed)));
  }

  // ------------------------------------------------------------------
  // What the target buys
  // ------------------------------------------------------------------

  /** No charge is due from here on. */
  ghost predicate Unplugged(r: Round, index: nat, plugged: bool) {
    forall k :: k in r.charges ==> k < index || (plugged && k == index)
  }

  ghost predicate HoldsAtLeast(steps: seq<Step>, floor: int) {
    forall k :: 0 <= k < |steps| ==> steps[k].soc.Some? && steps[k].soc.value >= floor
  }

  /** A rest of the round that can be driven has a known cost. */
  lemma {:induction false} RestIsKnown(r: Round, orders: seq<Order>, index: nat, plugged: bool, at: Where)
    requires Electrical(r, orders) && index <= |orders| && at.position < Size(r.problem)
    requires Unplugged(r, index, plugged) && Onward(r, orders, index, plugged, at).Success?
    ensures Need(r, orders, index, at.position).Success?
    decreases |orders| - index
  {
    if index < |orders| {
      RestIsKnown(r, orders, index + 1, false, Serving(r, at, orders[index]).value.1);
    }
  }

  /** With no charge ahead, the van gets home with exactly what it left with less the need, and
      never holds less on the way. */
  lemma {:induction false} RestDrains(r: Round, orders: seq<Order>, index: nat, plugged: bool, at: Where, soc: int,
                                      need: nat, steps: seq<Step>)
    requires Electrical(r, orders) && index <= |orders| && at.position < Size(r.problem) && at.soc == Some(soc)
    requires Unplugged(r, index, plugged) && Onward(r, orders, index, plugged, at) == Success(steps)
    requires Need(r, orders, index, at.position) == Success(need)
    ensures |steps| > 0 && HoldsAtLeast(steps, soc - need) && steps[|steps| - 1].soc == Some(soc - need)
    decreases |orders| - index
  {
    if index < |orders| {
      var step := Serving(r, at, orders[index]).value;
      var there := step.1;
      RestIsKnown(r, orders, index + 1, false, there);
      RestDrains(r, orders, index + 1, false, there, there.soc.value,
                 Need(r, orders, index + 1, there.position).value, steps[1..]);
    }
  }

  /** Leaving a charger at the target, the van stays at or above the reserve all the way home
      exactly when the target was not capped at full; then it gets home holding exactly the
      reserve, and any smaller charge would not have done. */
  lemma {:induction false} TargetCarriesHome(r: Round, orders: seq<Order>, index: nat, at: Where, soc: int, need: nat,
                                             steps: seq<Step>)
    requires Electrical(r, orders) && index <= |orders| && at.position < Size(r.problem) && at.soc == Some(soc)
    requires Unplugged(r, index, true) && Onward(r, orders, index, true, at) == Success(steps)
    requires Need(r, orders, index, at.position) == Success(need)
    ensures |steps| > 0
    ensures soc == TargetFor(need) ==> (HoldsAtLeast(steps, 100) <==> 100 + need <= 1000)
    ensures soc == TargetFor(need) && 100 + need <= 1000 ==> steps[|steps| - 1].soc == Some(100)
    ensures soc < 100 + need ==> !HoldsAtLeast(steps, 100)
  {
    RestDrains(r, orders, index, true, at, soc, need, steps);
  }

  // ------------------------------------------------------------------
  // The repair loop
  // ------------------------------------------------------------------

  /** `_first_shortfall`. */
  function FirstShortfall(steps: seq<Step>, from: nat): Option<nat>
    requires from <= |steps|
    decreases |steps| - from
  {
    if from == |steps| then None
    else if steps[from].soc.Some? && steps[from].soc.value < RESERVE then Some(from)
    else FirstShortfall(steps, from + 1)
  }

  lemma {:induction false} NoShortfall(steps: seq<Step>, from: nat)
    requires from <= |steps|
    ensures FirstShortfall(steps, from).None? <==>
      forall k :: from <= k < |steps| && steps[k].soc.Some? ==> steps[k].soc.value >= 100
    ensures FirstShortfall(steps, from).Some? ==>
      var at := FirstShortfall(steps, from).value;
      && from <= at < |steps| && steps[at].soc.Some? && steps[at].soc.value < 100
      && forall k :: from <= k < at && steps[k].soc.Some? ==> steps[k].soc.value >= 100
    decreases |steps| - from
  {
    if from < |steps| {
      NoShortfall(steps, from + 1);
    }
  }

  /** `order_ids.index(id)`. */
  function IndexOf(ids: seq<Id>, id: Id): nat {
    if ids == [] || ids[0] == id then 0 else 1 + IndexOf(ids[1..], id)
  }

  lemma {:induction false} IndexMeans(ids: seq<Id>, id: Id)
    requires id in ids
    ensures IndexOf(ids, id) < |ids| && ids[IndexOf(ids, id)] == id
  {
    if ids[0] != id {
      assert ids == [ids[0]] + ids[1..];
      IndexMeans(ids[1..], id);
    }
  }

  /** `_order_index`: the order served at or last before the shortfall. */
  function OrderIndex(steps: seq<Step>, shortfall: nat, ids: seq<Id>): nat
    requires shortfall < |steps|
  {
    if steps[shortfall].order.Some? && steps[shortfall].order.value in ids then IndexOf(ids, steps[shortfall].order.value)
    else if shortfall == 0 then 0
    else OrderIndex(steps, shortfall - 1, ids)
  }

  lemma {:induction false} OrderIndexIn(steps: seq<Step>, shortfall: nat, ids: seq<Id>)
    requires shortfall < |steps| && ids != []
    ensures OrderIndex(steps, shortfall, ids) < |ids|
  {
    if steps[shortfall].order.Some? && steps[shortfall].order.value in ids {
      IndexMeans(ids, steps[shortfall].order.value);
    } else if shortfall > 0 {
      OrderIndexIn(steps, shortfall - 1, ids);
    }
  }

  /** The shortfall is blamed on the last listed order served by then; on the first of all when none was. */
  lemma {:induction false} OrderIndexMeans(steps: seq<Step>, shortfall: nat, ids: seq<Id>) returns (last: int)
    requires shortfall < |steps| && ids != []
    ensures var index := OrderIndex(steps, shortfall, ids);
            && -1 <= last <= shortfall
            && (if last < 0 then index == 0 else index < |ids| && steps[last].order == Some(ids[index]))
    ensures forall k :: last < k <= shortfall && steps[k].order.Some? ==> steps[k].order.value !in ids
  {
    last := shortfall;
    if steps[shortfall].order.Some? && steps[shortfall].order.value in ids {
      IndexMeans(ids, steps[shortfall].order.value);
    } else if shortfall == 0 {
      last := -1;
    } else {
      last := OrderIndexMeans(steps, shortfall - 1, ids);
    }
  }

  function IdsOf(orders: seq<Order>): seq<Id> {
    seq(|orders|, k requires 0 <= k < |orders| => orders[k].id)
  }

  /** `timeline[index].soc_after_ppt or 0`. */
  function Available(step: Step): int {
    if step.soc.Some? then step.soc.value else 0
  }

  /** `_position_before`: where the van stands before serving this order. */
  function Before(r: Round, orders: seq<Order>, index: nat): (position: nat)
    requires Electrical(r, orders) && index < |orders|
    ensures position < Size(r.problem)
  {
    if index == 0 then r.problem.locations[r.vehicle.startLocation].matrixIndex
    else
      assert orders[index - 1] in orders;
      Site(r.problem, orders[index - 1])
  }

  /** The first charger, by identifier, that costs no more to reach than the charge read from the
      timeline; one the matrix cannot price first is an error. */
  ghost function Choice(r: Round, chargers: set<Id>, orders: seq<Order>, index: nat, available: int): Result<ChargeStop>
    requires Electrical(r, orders) && index < |orders|
    requires forall c :: c in chargers ==> c in r.problem.locations
    decreases |chargers|
  {
    if chargers == {} then Failure("no charger within reach")
    else
      var c: Id := Least(chargers);
      var charger := r.problem.locations[c].matrixIndex;
      var leg, need := ArcCost(r, Before(r, orders, index), charger), Need(r, orders, index, charger);
      if leg.Failure? then Failure("no route")
      else if leg.value > available then Choice(r, chargers - {c}, orders, index, available)
      else if need.Failure? then Failure("no route")
      else Success(ChargeStop(c, TargetFor(need.value)))
  }

  /** The charger chosen was within the charge read and no other before it was; it is left with the reserve on
      top of what the rest of the round costs, or full. */
  lemma {:induction false} ChoiceMeans(r: Round, chargers: set<Id>, orders: seq<Order>, index: nat, available: int)
    requires Electrical(r, orders) && index < |orders|
    requires forall c :: c in chargers ==> c in r.problem.locations
    requires Choice(r, chargers, orders, index, available).Success?
    ensures var stop := Choice(r, chargers, orders, index, available).value;
            && stop.location in chargers && RESERVE <= stop.toSoc <= Battery.FULL
            && ArcCost(r, Before(r, orders, index), r.problem.locations[stop.location].matrixIndex).Success?
            && ArcCost(r, Before(r, orders, index), r.problem.locations[stop.location].matrixIndex).value <= available
            && Need(r, orders, index, r.problem.locations[stop.location].matrixIndex).Success?
            && var need := Need(r, orders, index, r.problem.locations[stop.location].matrixIndex).value;
            stop.toSoc == if 1000 < 100 + need then 1000 else 100 + need
    ensures forall c :: c in chargers && c < Choice(r, chargers, orders, index, available).value.location ==>
      var leg := ArcCost(r, Before(r, orders, index), r.problem.locations[c].matrixIndex); leg.Success? && leg.value > available
    decreases |chargers|
  {
    var c: Id := Least(chargers);
    var leg := ArcCost(r, Before(r, orders, index), r.problem.locations[c].matrixIndex);
    if leg.Success? && leg.value > available {
      ChoiceMeans(r, chargers - {c}, orders, index, available);
    }
  }

  /** `_charge_before`, over the chargers in identifier order. */
  method ChargeBefore(r: Round, chargers: set<Id>, steps: seq<Step>, orders: seq<Order>, index: nat)
    returns (stop: Result<ChargeStop>)
    requires Electrical(r, orders) && index < |orders| && index < |steps|
    requires forall c :: c in chargers ==> c in r.problem.locations
    ensures var choice := Choice(r, chargers, orders, index, Available(steps[index]));
            stop.Success? == choice.Success? && (stop.Success? ==> stop == choice)
  {
    var here, available := Before(r, orders, index), Available(steps[index]);
    var left := chargers;
    while left != {}
      invariant left <= chargers
      invariant Choice(r, chargers, orders, index, available) == Choice(r, left, orders, index, available)
      decreases |left|
    {
      var c: Id := Least(left);
      var charger := r.problem.locations[c].matrixIndex;
      var leg := ArcCost(r, here, charger);
      if leg.Failure? {
        return Failure(leg.reason);
      }
      if leg.value <= available {
        var target := Target(r, orders, index, charger);
        if target.Failure? {
          return Failure(target.reason);
        }
        return Success(ChargeStop(c, target.value));
      }
      left := left - {c};
    }
    return Failure("no charger within reach");
  }

  /** The day's timeline exists and no step of it falls below the reserve. */
  ghost predicate KeepsReserve(r: Round, orders: seq<Order>, startTime: int)
    requires Sound(r) && forall o :: o in orders ==> Sited(r.problem, o)
  {
    Itinerary(r, orders, startTime).Success? &&
    forall k :: 0 <= k < |Itinerary(r, orders, startTime).value| ==>
      var soc := Itinerary(r, orders, startTime).value[k].soc;
      soc.Some? ==> soc.value >= 100
  }

  /** One repair: the order before which a charge is due, and the charge. */
  ghost function Repair(r: Round, chargers: set<Id>, orders: seq<Order>, steps: seq<Step>, shortfall: nat)
    : Result<(nat, ChargeStop)>
    requires Electrical(r, orders) && orders != [] && shortfall < |steps| && |orders| <= |steps|
    requires forall c :: c in chargers ==> c in r.problem.locations
  {
    OrderIndexIn(steps, shortfall, IdsOf(orders));
    var index := OrderIndex(steps, shortfall, IdsOf(orders));
    var stop := Choice(r, chargers, orders, index, Available(steps[index]));
    if stop.Failure? then Failure(stop.reason) else Success((index, stop.value))
  }

  /** The charges after at most so many more repairs, if the last of them leaves no shortfall. */
  ghost function Repaired(r: Round, chargers: set<Id>, orders: seq<Order>, startTime: int, repairs: nat)
    : (charges: Result<map<nat, ChargeStop>>)
    requires Electrical(r, orders) && orders != []
    requires forall c :: c in chargers ==> c in r.problem.locations
    decreases repairs
  {
    var day := Itinerary(r, orders, startTime);
    if repairs == 0 then Failure("still runs flat after charging at every stop")
    else if day.Failure? then Failure(day.reason)
    else
      OnwardLength(r, orders, 0, false, Departing(r, orders, startTime));
      NoShortfall(day.value, 0);
      var shortfall := FirstShortfall(day.value, 0);
      if shortfall.None? then Success(r.charges)
      else
        var repair := Repair(r, chargers, orders, day.value, shortfall.value);
        if repair.Failure? then Failure(repair.reason)
        else
          RepairIsSound(r, chargers, orders, day.value, shortfall.value);
          Repaired(Placing(r, repair.value.0, repair.value.1), chargers, orders, startTime, repairs - 1)
  }

  /** The round with one more charge, or another in its place. */
  function Placing(r: Round, index: nat, stop: ChargeStop): Round {
    r.(charges := r.charges[index := stop])
  }

  lemma {:induction false} RepairIsSound(r: Round, chargers: set<Id>, orders: seq<Order>, steps: seq<Step>, shortfall: nat)
    requires Electrical(r, orders) && orders != [] && shortfall < |steps| && |orders| <= |steps|
    requires forall c :: c in chargers ==> c in r.problem.locations
    requires Repair(r, chargers, orders, steps, shortfall).Success?
    ensures var repair := Repair(r, chargers, orders, steps, shortfall).value;
            && repair.0 < |orders| && repair.1.location in chargers
            && Electrical(Placing(r, repair.0, repair.1), orders)
  {
    var index := OrderIndex(steps, shortfall, IdsOf(orders));
    OrderIndexIn(steps, shortfall, IdsOf(orders));
    ChoiceMeans(r, chargers, orders, index, Available(steps[index]));
  }

  lemma {:induction false} OnwardLength(r: Round, orders: seq<Order>, index: nat, plugged: bool, at: Where)
    requires Electrical(r, orders) && index <= |orders| && at.position < Size(r.problem)
    requires Onward(r, orders, index, plugged, at).Success?
    ensures |Onward(r, orders, index, plugged, at).value| > |orders| - index
    decreases |orders| - index, !plugged
  {
    if index == |orders| {
    } else if !plugged && index in r.charges {
      OnwardLength(r, orders, index, true, Charging(r, at, r.charges[index]).value.1);
    } else {
      OnwardLength(r, orders, index + 1, false, Serving(r, at, orders[index]).value.1);
    }
  }

  ghost predicate Repairable(r: Round, chargers: set<Id>, orders: seq<Order>) {
    Electrical(r, orders) && orders != [] && forall c :: c in chargers ==> c in r.problem.locations
  }

  lemma {:induction false} NoRepairsLeft(r: Round, chargers: set<Id>, orders: seq<Order>, startTime: int)
    requires Repairable(r, chargers, orders)
    ensures Repaired(r, chargers, orders, startTime, 0).Failure?
  {
  }

  /** One turn of the loop, against the specification. */
  lemma {:induction false} RepairedStep(r: Round, chargers: set<Id>, orders: seq<Order>, startTime: int, repairs: nat)
    requires Repairable(r, chargers, orders) && repairs > 0
    ensures var day, whole := Itinerary(r, orders, startTime), Repaired(r, chargers, orders, startTime, repairs);
            if day.Failure? then whole.Failure?
            else if FirstShortfall(day.value, 0).None? then whole == Success(r.charges)
            else
              && FirstShortfall(day.value, 0).value < |day.value| && |orders| <= |day.value|
              && var index := OrderIndex(day.value, FirstShortfall(day.value, 0).value, IdsOf(orders));
              && index < |orders| && index < |day.value|
              && var stop := Choice(r, chargers, orders, index, Available(day.value[index]));
              if stop.Failure? then whole.Failure?
              else
                && Repairable(Placing(r, index, stop.value), chargers, orders)
                && whole == Repaired(Placing(r, index, stop.value), chargers, orders, startTime, repairs - 1)
  {
    var day := Itinerary(r, orders, startTime);
    if day.Success? {
      OnwardLength(r, orders, 0, false, Departing(r, orders, startTime));
      NoShortfall(day.value, 0);
      var shortfall := FirstShortfall(day.value, 0);
      if shortfall.Some? {
        OrderIndexIn(day.value, shortfall.value, IdsOf(orders));
        if Repair(r, chargers, orders, day.value, shortfall.value).Success? {
          RepairIsSound(r, chargers, orders, day.value, shortfall.value);
        }
      }
    }
  }

  lemma {:induction false} SameOtherwise(r: Round, s: Round)
    requires s == r.(charges := s.charges)
    ensures forall charges: map<nat, ChargeStop> :: s.(charges := charges) == r.(charges := charges)
  {
  }

  lemma {:induction false} DayKept(r: Round, orders: seq<Order>, startTime: int)
    requires Electrical(r, orders) && KeepsReserve(r, orders, startTime)
    ensures Itinerary(r, orders, startTime).Success?
  {
  }

  lemma {:induction false} ShortfallMeans(r: Round, orders: seq<Order>, startTime: int)
    requires Electrical(r, orders) && Itinerary(r, orders, startTime).Success?
    ensures KeepsReserve(r, orders, startTime) <==> FirstShortfall(Itinerary(r, orders, startTime).value, 0).None?
  {
    NoShortfall(Itinerary(r, orders, startTime).value, 0);
  }

  /** Charges that come back keep every step at or above the reserve, and stand at chargers. */
  lemma {:induction false} RepairedKeeps(r: Round, chargers: set<Id>, orders: seq<Order>, startTime: int, repairs: nat)
    requires Repairable(r, chargers, orders)
    requires forall k :: k in r.charges ==> k < |orders| && r.charges[k].location in chargers
    requires Repaired(r, chargers, orders, startTime, repairs).Success?
    ensures var charges := Repaired(r, chargers, orders, startTime, repairs).value;
            && Electrical(r.(charges := charges), orders)
            && KeepsReserve(r.(charges := charges), orders, startTime)
            && forall k :: k in charges ==> k < |orders| && charges[k].location in chargers
    decreases repairs
  {
    hide Repaired, Choice, OrderIndex, FirstShortfall, Itinerary, KeepsReserve, Need, ArcCost;
    NoRepairsLeft(r, chargers, orders, startTime);
    RepairedStep(r, chargers, orders, startTime, repairs);
    var steps := Itinerary(r, orders, startTime).value;
    if FirstShortfall(steps, 0).None? {
      ShortfallMeans(r, orders, startTime);
      assert r.(charges := r.charges) == r;
    } else {
      var index := OrderIndex(steps, FirstShortfall(steps, 0).value, IdsOf(orders));
      ChoiceMeans(r, chargers, orders, index, Available(steps[index]));
      var stop := Choice(r, chargers, orders, index, Available(steps[index])).value;
      RepairedKeeps(Placing(r, index, stop), chargers, orders, startTime, repairs - 1);
      SameOtherwise(r, Placing(r, index, stop));
    }
  }

  // ------------------------------------------------------------------
  // Charge on arrival at a charger
  // ------------------------------------------------------------------

  /** Where the van stands when order `j` is next, before any charge due there. */
  ghost function StateAt(r: Round, orders: seq<Order>, index: nat, plugged: bool, at: Where, j: nat): Result<Where>
    requires Electrical(r, orders) && index <= j < |orders| && (plugged ==> index < j) && at.position < Size(r.problem)
    decreases j - index, !plugged
  {
    if index == j then Success(at)
    else if !plugged && index in r.charges then
      var visit := Charging(r, at, r.charges[index]);
      if visit.Failure? then Failure(visit.reason) else StateAt(r, orders, index, true, visit.value.1, j)
    else
      var visit := Serving(r, at, orders[index]);
      if visit.Failure? then Failure(visit.reason) else StateAt(r, orders, index + 1, false, visit.value.1, j)
  }

  /** How many steps bring the van there. */
  function Lead(charges: map<nat, ChargeStop>, index: nat, plugged: bool, j: nat): nat
    requires index <= j && (plugged ==> index < j)
    decreases j - index, !plugged
  {
    if index == j then 0
    else if !plugged && index in charges then 1 + Lead(charges, index, true, j)
    else 1 + Lead(charges, index + 1, false, j)
  }

  lemma {:induction false} LeadCounts(charges: map<nat, ChargeStop>, index: nat, plugged: bool, j: nat)
    requires index <= j && (plugged ==> index < j)
    ensures Lead(charges, index, plugged, j) >= j - index
    ensures Lead(charges, index, plugged, j) == j - index
       <==> forall k :: index <= k < j && k in charges ==> plugged && k == index
    decreases j - index, !plugged
  {
    if index == j {
    } else if !plugged && index in charges {
      LeadCounts(charges, index, true, j);
    } else {
      LeadCounts(charges, index + 1, false, j);
    }
  }

  ghost predicate SameBelow(a: map<nat, ChargeStop>, b: map<nat, ChargeStop>, j: nat) {
    forall k :: 0 <= k < j ==> (k in a <==> k in b) && (k in a ==> a[k] == b[k])
  }

  /** What is charged from order `j` on changes nothing before it. */
  lemma {:induction false} SameStateBelow(r: Round, s: Round, orders: seq<Order>, index: nat, plugged: bool, at: Where,
                                          j: nat)
    requires Electrical(r, orders) && Electrical(s, orders) && s == r.(charges := s.charges)
    requires index <= j < |orders| && (plugged ==> index < j) && at.position < Size(r.problem)
    requires SameBelow(r.charges, s.charges, j)
    ensures StateAt(r, orders, index, plugged, at, j) == StateAt(s, orders, index, plugged, at, j)
    decreases j - index, !plugged
  {
    if index == j {
    } else if !plugged && index in r.charges {
      var visit := Charging(r, at, r.charges[index]);
      assert visit == Charging(s, at, s.charges[index]);
      if visit.Success? {
        SameStateBelow(r, s, orders, index, true, visit.value.1, j);
      }
    } else {
      var visit := Serving(r, at, orders[index]);
      assert visit == Serving(s, at, orders[index]);
      if visit.Success? {
        SameStateBelow(r, s, orders, index + 1, false, visit.value.1, j);
      }
    }
  }

  lemma {:induction false} SameLeadBelow(a: map<nat, ChargeStop>, b: map<nat, ChargeStop>, index: nat, plugged: bool,
                                         j: nat)
    requires index <= j && (plugged ==> index < j) && SameBelow(a, b, j)
    ensures Lead(a, index, plugged, j) == Lead(b, index, plugged, j)
    decreases j - index, !plugged
  {
    if index == j {
    } else if !plugged && index in a {
      SameLeadBelow(a, b, index, true, j);
    } else {
      SameLeadBelow(a, b, index + 1, false, j);
    }
  }

  lemma {:induction false} ChargingMoves(r: Round, at: Where, stop: ChargeStop)
    requires Sound(r) && r.vehicle.battery.Some? && at.position < Size(r.problem) && at.soc.Some?
    requires stop.location in r.problem.locations && stop.toSoc <= Battery.FULL && Charging(r, at, stop).Success?
    ensures var visit := Charging(r, at, stop).value;
            visit.1.position < Size(r.problem) && visit.1.soc.Some? && visit.0.soc == visit.1.soc
  {
  }

  lemma {:induction false} ServingMoves(r: Round, at: Where, o: Order)
    requires Sound(r) && r.vehicle.battery.Some? && Sited(r.problem, o) && at.position < Size(r.problem)
    requires at.soc.Some? && Serving(r, at, o).Success?
    ensures var visit := Serving(r, at, o).value;
            visit.1.position == Site(r.problem, o) < Size(r.problem) && visit.1.soc.Some? && visit.0.soc == visit.1.soc
  {
  }

  /** The van stands where the previous order left it, holding what the last step before says. */
  lemma {:induction false} StateIsOnTimeline(r: Round, orders: seq<Order>, index: nat, plugged: bool, at: Where, j: nat,
                                             rest: seq<Step>)
    requires Electrical(r, orders) && index <= j < |orders| && (plugged ==> index < j)
    requires at.position < Size(r.problem) && at.soc.Some? && Onward(r, orders, index, plugged, at) == Success(rest)
    ensures Lead(r.charges, index, plugged, j) <= |rest|
    ensures var lead, there := Lead(r.charges, index, plugged, j), StateAt(r, orders, index, plugged, at, j);
            && there.Success? && there.value.soc.Some?
            && there.value.soc == (if lead == 0 then at.soc else rest[lead - 1].soc)
            && there.value.position == (if j == index then at.position else Before(r, orders, j))
    decreases j - index, !plugged
  {
    hide Charging, Serving, Leg;
    if index == j {
    } else if !plugged && index in r.charges {
      var visit := Charging(r, at, r.charges[index]).value;
      ChargingMoves(r, at, r.charges[index]);
      StateIsOnTimeline(r, orders, index, true, visit.1, j, rest[1..]);
    } else {
      assert orders[index] in orders;
      var visit := Serving(r, at, orders[index]).value;
      ServingMoves(r, at, orders[index]);
      StateIsOnTimeline(r, orders, index + 1, false, visit.1, j, rest[1..]);
    }
  }

  /** The van gets to this charge with no less than nothing in the battery. */
  ghost predicate Reached(r: Round, orders: seq<Order>, startTime: int, k: nat)
    requires Electrical(r, orders) && k in r.charges && k < |orders|
  {
    var there := StateAt(r, orders, 0, false, Departing(r, orders, startTime), k);
    there.Success? && there.value.soc.Some? && there.value.position < Size(r.problem) &&
    var leg := ArcCost(r, there.value.position, r.problem.locations[r.charges[k].location].matrixIndex);
    leg.Success? && leg.value <= there.value.soc.value
  }

  /** The van never drives on an empty battery to a charger. */
  ghost predicate NeverFlat(r: Round, orders: seq<Order>, startTime: int)
    requires Electrical(r, orders)
  {
    forall k :: k in r.charges && k < |orders| ==> Reached(r, orders, startTime, k)
  }

  /** The leg from the previous order to this charger, against the charge at one step of the day. */
  ghost predicate Affords(r: Round, orders: seq<Order>, k: nat, location: Id, step: Step)
    requires Electrical(r, orders) && k < |orders| && location in r.problem.locations
  {
    var leg := ArcCost(r, Before(r, orders, k), r.problem.locations[location].matrixIndex);
    leg.Success? && leg.value <= Available(step)
  }

  /** The step the van leaves to reach the charge before order `k`. */
  function LeavingStep(charges: map<nat, ChargeStop>, k: nat): nat {
    Lead(charges, 0, false, k)
  }

  lemma {:induction false} LeavingStepExists(r: Round, orders: seq<Order>, startTime: int, k: nat)
    requires Electrical(r, orders) && k < |orders| && Itinerary(r, orders, startTime).Success?
    ensures LeavingStep(r.charges, k) < |Itinerary(r, orders, startTime).value|
    ensures var there := StateAt(r, orders, 0, false, Departing(r, orders, startTime), k);
            && there.Success? && there.value.soc.Some? && there.value.position == Before(r, orders, k)
            && there.value.soc.value == Available(Itinerary(r, orders, startTime).value[LeavingStep(r.charges, k)])
  {
    var at := Departing(r, orders, startTime);
    var rest := Onward(r, orders, 0, false, at).value;
    StateIsOnTimeline(r, orders, 0, false, at, k, rest);
    assert Itinerary(r, orders, startTime).value == [StartOf(r, at)] + rest;
  }

  /** On any day that can be driven, a charger is reached exactly when the leg to it fits the charge
      at the step the van leaves; the code compares the step at the order's own index. */
  lemma {:induction false} ReachedExactly(r: Round, orders: seq<Order>, startTime: int, k: nat)
    requires Electrical(r, orders) && k in r.charges && k < |orders| && Itinerary(r, orders, startTime).Success?
    ensures LeavingStep(r.charges, k) < |Itinerary(r, orders, startTime).value|
    ensures Reached(r, orders, startTime, k)
       <==> Affords(r, orders, k, r.charges[k].location, Itinerary(r, orders, startTime).value[LeavingStep(r.charges, k)])
  {
    LeavingStepExists(r, orders, startTime, k);
  }

  /** The step read is the step left exactly when no charge comes before. */
  lemma {:induction false} LeavesItsOwnIndexExactly(charges: map<nat, ChargeStop>, k: nat)
    ensures LeavingStep(charges, k) == k <==> forall i :: i in charges ==> i >= k
  {
    LeadCounts(charges, 0, false, k);
  }

  /** Placing a charge changes nothing before it. */
  lemma {:induction false} PlacingKeepsEarlier(r: Round, orders: seq<Order>, startTime: int, index: nat, stop: ChargeStop,
                                               k: nat)
    requires Electrical(r, orders) && Electrical(Placing(r, index, stop), orders) && k <= index && k < |orders|
    ensures var at := Departing(r, orders, startTime);
            && StateAt(r, orders, 0, false, at, k) == StateAt(Placing(r, index, stop), orders, 0, false, at, k)
            && Departing(Placing(r, index, stop), orders, startTime) == at
            && LeavingStep(r.charges, k) == LeavingStep(Placing(r, index, stop).charges, k)
  {
    var s := Placing(r, index, stop);
    SameStateBelow(r, s, orders, 0, false, Departing(r, orders, startTime), k);
    SameLeadBelow(r.charges, s.charges, 0, false, k);
  }

  /** What an arc costs does not depend on the charges. */
  lemma {:induction false} SameCost(r: Round, s: Round, origin: nat, destination: nat)
    requires Sound(r) && Sound(s) && r.vehicle.battery.Some? && s == r.(charges := s.charges)
    requires origin < Size(r.problem) && destination < Size(r.problem)
    ensures ArcCost(r, origin, destination) == ArcCost(s, origin, destination)
  {
  }

  /** A charge already placed before is reached as it was. */
  lemma {:induction false} EarlierStillReached(r: Round, orders: seq<Order>, startTime: int, index: nat, stop: ChargeStop,
                                               k: nat)
    requires Electrical(r, orders) && Electrical(Placing(r, index, stop), orders)
    requires k < index && k < |orders| && k in r.charges
    ensures Reached(r, orders, startTime, k) <==> Reached(Placing(r, index, stop), orders, startTime, k)
  {
    hide ArcCost, StateAt;
    PlacingKeepsEarlier(r, orders, startTime, index, stop, k);
    var there := StateAt(r, orders, 0, false, Departing(r, orders, startTime), k);
    if there.Success? && there.value.position < Size(r.problem) {
      SameCost(r, Placing(r, index, stop), there.value.position, r.problem.locations[r.charges[k].location].matrixIndex);
    }
  }

  /** A new charge is reached exactly when the leg fits the charge at the step the van leaves. */
  lemma {:induction false} PlacedReachedExactly(r: Round, orders: seq<Order>, startTime: int, index: nat, stop: ChargeStop)
    requires Electrical(r, orders) && Electrical(Placing(r, index, stop), orders) && index < |orders|
    requires stop.location in r.problem.locations && Itinerary(r, orders, startTime).Success?
    ensures LeavingStep(r.charges, index) < |Itinerary(r, orders, startTime).value|
    ensures Reached(Placing(r, index, stop), orders, startTime, index)
       <==> Affords(r, orders, index, stop.location, Itinerary(r, orders, startTime).value[LeavingStep(r.charges, index)])
  {
    hide ArcCost, StateAt;
    PlacingKeepsEarlier(r, orders, startTime, index, stop, index);
    LeavingStepExists(r, orders, startTime, index);
    SameCost(r, Placing(r, index, stop), Before(r, orders, index), r.problem.locations[stop.location].matrixIndex);
  }

  /** A repair of a day on which the van never runs flat keeps it so exactly when the leg to the new
      charger fits the charge at the step the van leaves, and every later charger is still reached.
      That is the comparison the code makes exactly when no charge comes before. */
  lemma {:induction false} RepairKeepsExactly(r: Round, orders: seq<Order>, startTime: int, index: nat, stop: ChargeStop)
    requires Electrical(r, orders) && Electrical(Placing(r, index, stop), orders) && index < |orders|
    requires stop.location in r.problem.locations
    requires Itinerary(r, orders, startTime).Success? && NeverFlat(r, orders, startTime)
    ensures LeavingStep(r.charges, index) < |Itinerary(r, orders, startTime).value|
    ensures NeverFlat(Placing(r, index, stop), orders, startTime)
       <==> (&& Affords(r, orders, index, stop.location, Itinerary(r, orders, startTime).value[LeavingStep(r.charges, index)])
             && forall k :: k in r.charges && index < k < |orders| ==> Reached(Placing(r, index, stop), orders, startTime, k))
    ensures LeavingStep(r.charges, index) == index <==> forall k :: k in r.charges ==> k >= index
  {
    hide Reached, Affords, LeavingStep, Electrical, Itinerary;
    PlacedReachedExactly(r, orders, startTime, index, stop);
    LeavesItsOwnIndexExactly(r.charges, index);
    forall k | k in r.charges && k < index
      ensures Reached(Placing(r, index, stop), orders, startTime, k)
    {
      EarlierStillReached(r, orders, startTime, index, stop, k);
      assert Reached(r, orders, startTime, k);
    }
    assert index in Placing(r, index, stop).charges;
  }

  ghost predicate First(charges: map<nat, ChargeStop>, k: nat) {
    k in charges && forall i :: i in charges ==> i >= k
  }

  /** The first charger of the day, if any, is reached. */
  ghost predicate FirstChargerReached(r: Round, orders: seq<Order>, startTime: int)
    requires Electrical(r, orders)
  {
    forall k: nat :: First(r.charges, k) && k < |orders| ==> Reached(r, orders, startTime, k)
  }

  /** Whatever is repaired later, the van reaches the first charger of its plan: the comparison made
      for it was at the right step. */
  lemma {:induction false} FirstChargerIsReached(r: Round, chargers: set<Id>, orders: seq<Order>, startTime: int,
                                                 repairs: nat)
    requires Repairable(r, chargers, orders) && FirstChargerReached(r, orders, startTime)
    requires Repaired(r, chargers, orders, startTime, repairs).Success?
    ensures var s := r.(charges := Repaired(r, chargers, orders, startTime, repairs).value);
            Electrical(s, orders) && FirstChargerReached(s, orders, startTime)
    decreases repairs
  {
    hide Repaired, Choice, OrderIndex, FirstShortfall, Itinerary, FirstChargerReached, Need, ArcCost;
    NoRepairsLeft(r, chargers, orders, startTime);
    RepairedStep(r, chargers, orders, startTime, repairs);
    var steps := Itinerary(r, orders, startTime).value;
    if FirstShortfall(steps, 0).None? {
      assert r.(charges := r.charges) == r;
    } else {
      var index := OrderIndex(steps, FirstShortfall(steps, 0).value, IdsOf(orders));
      var stop := Choice(r, chargers, orders, index, Available(steps[index])).value;
      RepairReachesFirst(r, chargers, orders, startTime, index, stop);
      FirstChargerIsReached(Placing(r, index, stop), chargers, orders, startTime, repairs - 1);
      SameOtherwise(r, Placing(r, index, stop));
    }
  }

  lemma {:induction false} UnchargedReachesAll(r: Round, orders: seq<Order>, startTime: int)
    requires Electrical(r, orders) && r.charges == map[]
    ensures FirstChargerReached(r, orders, startTime)
  {
  }

  lemma {:induction false} RepairReachesFirst(r: Round, chargers: set<Id>, orders: seq<Order>, startTime: int,
                                              index: nat, stop: ChargeStop)
    requires Repairable(r, chargers, orders) && FirstChargerReached(r, orders, startTime) && index < |orders|
    requires Itinerary(r, orders, startTime).Success? && |orders| <= |Itinerary(r, orders, startTime).value|
    requires Choice(r, chargers, orders, index, Available(Itinerary(r, orders, startTime).value[index])) == Success(stop)
    ensures Electrical(Placing(r, index, stop), orders)
    ensures FirstChargerReached(Placing(r, index, stop), orders, startTime)
  {
    hide ArcCost, Choice, Reached, LeavingStep, Itinerary;
    ChoiceMeans(r, chargers, orders, index, Available(Itinerary(r, orders, startTime).value[index]));
    var s := Placing(r, index, stop);
    assert Electrical(s, orders);
    forall k: nat | First(s.charges, k) && k < |orders|
      ensures Reached(s, orders, startTime, k)
    {
      assert index in s.charges;
      if k == index {
        assert forall i :: i in r.charges ==> i in s.charges;
        PlacedReachedExactly(r, orders, startTime, index, stop);
        LeavesItsOwnIndexExactly(r.charges, index);
      } else {
        assert forall i :: i in r.charges ==> i in s.charges;
        assert First(r.charges, k);
        EarlierStillReached(r, orders, startTime, index, stop, k);
      }
    }
  }

  // ------------------------------------------------------------------
  // The loop
  // ------------------------------------------------------------------

  /** What the charges that come back achieve. */
  ghost predicate Achieved(r: Round, chargers: set<Id>, orders: seq<Order>, startTime: int, charges: map<nat, ChargeStop>)
    requires Sound(r.(charges := map[])) && r.vehicle.battery.Some?
    requires forall o :: o in orders ==> Sited(r.problem, o)
  {
    && Sound(r.(charges := charges))
    && (forall k :: k in charges ==> k < |orders| && charges[k].location in chargers)
    && (orders != [] ==> KeepsReserve(r.(charges := charges), orders, startTime))
    && FirstChargerReached(r.(charges := charges), orders, startTime)
  }

  lemma {:induction false} RepairsAchieve(r: Round, chargers: set<Id>, orders: seq<Order>, startTime: int)
    requires Repairable(r.(charges := map[]), chargers, orders)
    ensures var bare := r.(charges := map[]);
            var whole := Repaired(bare, chargers, orders, startTime, |orders| + 1);
            && (whole.Success? ==> Achieved(r, chargers, orders, startTime, whole.value))
            && (KeepsReserve(bare, orders, startTime) ==> whole == Success(map[]))
  {
    hide FirstChargerReached, Repaired, Choice, OrderIndex, FirstShortfall, Itinerary, KeepsReserve;
    var bare := r.(charges := map[]);
    var whole := Repaired(bare, chargers, orders, startTime, |orders| + 1);
    UnchargedReachesAll(bare, orders, startTime);
    if whole.Success? {
      RepairedKeeps(bare, chargers, orders, startTime, |orders| + 1);
      FirstChargerIsReached(bare, chargers, orders, startTime, |orders| + 1);
      assert bare.(charges := whole.value) == r.(charges := whole.value);
    }
    RepairedStep(bare, chargers, orders, startTime, |orders| + 1);
    if KeepsReserve(bare, orders, startTime) {
      DayKept(bare, orders, startTime);
      ShortfallMeans(bare, orders, startTime);
    }
  }

  /** `plan_charging`: no charge when the round needs none; otherwise the charges the repairs arrive
      at. With them no step of the day falls below the reserve, and the first charger is reached. */
  method PlanCharging(r: Round, chargers: set<Id>, orders: seq<Order>, startTime: int)
    returns (charges: Result<map<nat, ChargeStop>>)
    requires Sound(r.(charges := map[]))
    requires forall o :: o in orders ==> Sited(r.problem, o)
    requires forall c :: c in chargers ==> c in r.problem.locations
    ensures r.vehicle.battery.None? || orders == [] || KeepsReserve(r.(charges := map[]), orders, startTime) ==>
      charges == Success(map[])
    ensures r.vehicle.battery.Some? && charges.Success? ==> Achieved(r, chargers, orders, startTime, charges.value)
    ensures r.vehicle.battery.Some? && orders != [] ==>
      var repaired := Repaired(r.(charges := map[]), chargers, orders, startTime, |orders| + 1);
      charges.Success? == repaired.Success? && (charges.Success? ==> charges == repaired)
  {
    hide Repaired, Choice, OrderIndex, FirstShortfall, Itinerary, KeepsReserve, Achieved;
    if r.vehicle.battery.None? || orders == [] {
      if r.vehicle.battery.Some? {
        UnchargedAchieves(r, chargers, orders, startTime);
      }
      return Success(map[]);
    }
    RepairsAchieve(r, chargers, orders, startTime);
    ghost var whole := Repaired(r.(charges := map[]), chargers, orders, startTime, |orders| + 1);
    var made: map<nat, ChargeStop> := map[];
    for repairs := 0 to |orders| + 1
      invariant Repairable(r.(charges := made), chargers, orders)
      invariant whole == Repaired(r.(charges := made), chargers, orders, startTime, |orders| + 1 - repairs)
    {
      var planned := r.(charges := made);
      RepairedStep(planned, chargers, orders, startTime, |orders| + 1 - repairs);
      var timeline := BuildTimeline(planned, orders, startTime);
      if timeline.Failure? {
        return Failure(timeline.reason);
      }
      var steps := timeline.value;
      var shortfall := FirstShortfall(steps, 0);
      if shortfall.None? {
        return Success(made);
      }
      var index := OrderIndex(steps, shortfall.value, IdsOf(orders));
      var stop := ChargeBefore(planned, chargers, steps, orders, index);
      if stop.Failure? {
        return Failure(stop.reason);
      }
      assert Placing(planned, index, stop.value) == r.(charges := made[index := stop.value]);
      made := made[index := stop.value];
    }
    NoRepairsLeft(r.(charges := made), chargers, orders, startTime);
    return Failure("still runs flat after charging at every stop");
  }

  lemma {:induction false} UnchargedAchieves(r: Round, chargers: set<Id>, orders: seq<Order>, startTime: int)
    requires Sound(r.(charges := map[])) && r.vehicle.battery.Some? && orders == []
    ensures Achieved(r, chargers, orders, startTime, map[])
  {
    UnchargedReachesAll(r.(charges := map[]), orders, startTime);
  }

  // ------------------------------------------------------------------
  // The step the repair reads
  // ------------------------------------------------------------------

  /** How many steps after this point come before order `j`'s own. */
  function Offset(charges: map<nat, ChargeStop>, index: nat, plugged: bool, j: nat): nat
    requires index <= j
    decreases j - index, !plugged
  {
    if !plugged && index in charges then 1 + Offset(charges, index, true, j)
    else if index == j then 0
    else 1 + Offset(charges, index + 1, false, j)
  }

  lemma {:induction false} OffsetCounts(charges: map<nat, ChargeStop>, index: nat, plugged: bool, j: nat)
    requires index <= j
    ensures Offset(charges, index, plugged, j) >= j - index
    ensures Offset(charges, index, plugged, j) == j - index
       <==> forall k :: index <= k <= j && k in charges ==> plugged && k == index
    decreases j - index, !plugged
  {
    if !plugged && index in charges {
      OffsetCounts(charges, index, true, j);
    } else if index < j {
      OffsetCounts(charges, index + 1, false, j);
    }
  }

  lemma {:induction false} ChargeServesNobody(r: Round, at: Where, stop: ChargeStop)
    requires Sound(r) && at.position < Size(r.problem)
    requires stop.location in r.problem.locations && stop.toSoc <= Battery.FULL
    requires Charging(r, at, stop).Success?
    ensures var visit := Charging(r, at, stop).value; visit.0.order.None? && visit.1.position < Size(r.problem)
  {
  }

  lemma {:induction false} StopServesItsOrder(r: Round, at: Where, o: Order)
    requires Sound(r) && Sited(r.problem, o) && at.position < Size(r.problem) && Serving(r, at, o).Success?
    ensures var visit := Serving(r, at, o).value; visit.0.order == Some(o.id) && visit.1.position < Size(r.problem)
  {
  }

  /** Order `j` has exactly one step, at its offset; an order already served has none. */
  lemma {:induction false} OnlyStepOf(r: Round, orders: seq<Order>, index: nat, plugged: bool, at: Where, j: nat, pos: nat)
    requires Electrical(r, orders) && DistinctOrders(orders) && index <= |orders| && j < |orders|
    requires at.position < Size(r.problem) && Onward(r, orders, index, plugged, at).Success?
    requires pos < |Onward(r, orders, index, plugged, at).value|
    ensures Onward(r, orders, index, plugged, at).value[pos].order == Some(orders[j].id)
       <==> index <= j && pos == Offset(r.charges, index, plugged, j)
    decreases |orders| - index, !plugged
  {
    hide Charging, Serving, Leg;
    if index == |orders| {
    } else if !plugged && index in r.charges {
      ChargeServesNobody(r, at, r.charges[index]);
      if pos > 0 {
        OnlyStepOf(r, orders, index, true, Charging(r, at, r.charges[index]).value.1, j, pos - 1);
      }
    } else {
      StopServesItsOrder(r, at, orders[index]);
      if pos > 0 {
        OnlyStepOf(r, orders, index + 1, false, Serving(r, at, orders[index]).value.1, j, pos - 1);
      }
    }
  }

  /** The repair reads the charge available before an order from the timeline at the order's own
      index. That step is the one the van leaves to reach the order exactly when no charge has
      been placed before it; after an earlier repair it is a step too early. */
  lemma {:induction false} ReadsRightStepExactly(r: Round, orders: seq<Order>, at: Where, start: Step, rest: seq<Step>,
                                                 index: nat)
    requires Electrical(r, orders) && DistinctOrders(orders) && 0 < index < |orders| && at.position < Size(r.problem)
    requires Onward(r, orders, 0, false, at) == Success(rest)
    ensures |rest| > |orders|
    ensures ([start] + rest)[index].order == Some(orders[index - 1].id) <==> forall k :: k in r.charges ==> k >= index
  {
    OnwardLength(r, orders, 0, false, at);
    OnlyStepOf(r, orders, 0, false, at, index - 1, index - 1);
    OffsetCounts(r.charges, 0, false, index - 1);
    assert ([start] + rest)[index] == rest[index - 1];
  }
}
