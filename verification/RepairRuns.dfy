/** Runs of the repair loop (vrp/electric.py): its repairs move along the round and never back, so
    whether a repair keeps the van from running flat is decided at the repair itself. */
module RepairRuns {
  import opened Common
  import opened Model
  import opened Evaluator
  import opened Electric
  import Battery

  predicate Low(step: Step) {
    step.soc.Some? && step.soc.value < RESERVE
  }

  lemma {:induction false} FirstShortfallMeans(steps: seq<Step>, from: nat, s: nat)
    requires from <= |steps| && FirstShortfall(steps, from) == Some(s)
    ensures from <= s < |steps| && Low(steps[s]) && forall k :: from <= k < s ==> !Low(steps[k])
    decreases |steps| - from
  {
    if from < |steps| && !Low(steps[from]) {
      FirstShortfallMeans(steps, from + 1, s);
    }
  }

  // ------------------------------------------------------------------
  // Where the steps of an order stand
  // ------------------------------------------------------------------

  /** The position in the day of the step that serves order `j`. */
  function ServingStep(charges: map<nat, ChargeStop>, j: nat): nat {
    1 + LeavingStep(charges, j) + (if j in charges then 1 else 0)
  }

  lemma {:induction false} OffsetIsLead(charges: map<nat, ChargeStop>, index: nat, plugged: bool, j: nat)
    requires index <= j && (plugged ==> index < j)
    ensures Offset(charges, index, plugged, j) == Lead(charges, index, plugged, j) + (if j in charges then 1 else 0)
    decreases j - index, !plugged
  {
    if index == j {
    } else if !plugged && index in charges {
      OffsetIsLead(charges, index, true, j);
    } else {
      OffsetIsLead(charges, index + 1, false, j);
    }
  }

  /** Orders are served in order, a charge before an order after everything earlier. */
  lemma {:induction false} LeadGrows(charges: map<nat, ChargeStop>, index: nat, plugged: bool, k: nat, j: nat)
    requires index <= k < j && (plugged ==> index < k)
    ensures Lead(charges, index, plugged, j)
         >= Lead(charges, index, plugged, k) + 1 + (if k in charges then 1 else 0)
    decreases k - index, !plugged
  {
    if index == k {
      LeadCounts(charges, k + 1, false, j);
    } else if !plugged && index in charges {
      LeadGrows(charges, index, true, k, j);
    } else {
      LeadGrows(charges, index + 1, false, k, j);
    }
  }

  /** Order `j` is served at its own step and nowhere else. */
  lemma {:induction false} ServedAt(r: Round, orders: seq<Order>, startTime: int, j: nat, pos: nat)
    requires Electrical(r, orders) && DistinctOrders(orders) && j < |orders|
    requires Itinerary(r, orders, startTime).Success? && pos < |Itinerary(r, orders, startTime).value|
    ensures Itinerary(r, orders, startTime).value[pos].order == Some(orders[j].id) <==> pos == ServingStep(r.charges, j)
  {
    var at := Departing(r, orders, startTime);
    var rest := Onward(r, orders, 0, false, at).value;
    assert Itinerary(r, orders, startTime).value == [StartOf(r, at)] + rest;
    OffsetIsLead(r.charges, 0, false, j);
    if pos > 0 {
      OnlyStepOf(r, orders, 0, false, at, j, pos - 1);
    }
  }

  /** From the step of order `k` on, the order a charge is due before is `k` or later; either way
      everything up to the step the van leaves lies before the shortfall, or the order is the first. */
  lemma {:induction false} OrderIndexAt(r: Round, orders: seq<Order>, startTime: int, s: nat)
    requires Electrical(r, orders) && DistinctOrders(orders) && orders != []
    requires Itinerary(r, orders, startTime).Success? && s < |Itinerary(r, orders, startTime).value|
    ensures var j := OrderIndex(Itinerary(r, orders, startTime).value, s, IdsOf(orders));
            && j < |orders| && (j == 0 || ServingStep(r.charges, j) <= s)
            && forall k :: 0 <= k < |orders| && ServingStep(r.charges, k) <= s ==> k <= j
  {
    var steps, ids := Itinerary(r, orders, startTime).value, IdsOf(orders);
    var j := OrderIndex(steps, s, ids);
    OrderIndexIn(steps, s, ids);
    if steps[s].order.Some? && steps[s].order.value in ids {
      IndexMeans(ids, steps[s].order.value);
      ServedAt(r, orders, startTime, j, s);
    } else if s > 0 {
      OrderIndexAt(r, orders, startTime, s - 1);
    }
    forall k | 0 <= k < |orders| && ServingStep(r.charges, k) <= s
      ensures k <= j
    {
      ServedAt(r, orders, startTime, k, s);
      if ServingStep(r.charges, k) == s {
        assert ids[k] == orders[k].id;
        assert ids[j] == ids[k];
      }
      if k > j {
        LeadGrows(r.charges, 0, false, j, k);
      }
    }
  }

  // ------------------------------------------------------------------
  // What one repair leaves as it was
  // ------------------------------------------------------------------

  /** Up to the step the van leaves, the two days are the same; then comes the charge. */
  lemma {:induction false} SameStepsBelow(r: Round, s: Round, orders: seq<Order>, index: nat, plugged: bool, at: Where,
                                          j: nat, a: seq<Step>, b: seq<Step>)
    requires Electrical(r, orders) && Electrical(s, orders) && s == r.(charges := s.charges)
    requires index <= j < |orders| && (plugged ==> index < j) && at.position < Size(r.problem)
    requires SameBelow(r.charges, s.charges, j) && j in s.charges
    requires Onward(r, orders, index, plugged, at) == Success(a) && Onward(s, orders, index, plugged, at) == Success(b)
    ensures var lead := Lead(r.charges, index, plugged, j);
            && lead <= |a| && lead < |b| && a[..lead] == b[..lead] && b[lead].soc == Some(s.charges[j].toSoc)
    decreases j - index, !plugged
  {
    hide Serving, Charging, Leg, Itinerary, Homing;
    if index == j {
      ChargingSame(r, s, at, s.charges[index]);
    } else if !plugged && index in r.charges {
      ChargingSame(r, s, at, r.charges[index]);
      var visit := Charging(r, at, r.charges[index]).value;
      assert a == [visit.0] + a[1..] && b == [visit.0] + b[1..];
      SameStepsBelow(r, s, orders, index, true, visit.1, j, a[1..], b[1..]);
      OneMoreSame(visit.0, a, b, Lead(r.charges, index, true, j));
    } else {
      SameServing(r, s, at, orders[index]);
      StopServesItsOrder(r, at, orders[index]);
      var visit := Serving(r, at, orders[index]).value;
      assert a == [visit.0] + a[1..] && b == [visit.0] + b[1..];
      SameStepsBelow(r, s, orders, index + 1, false, visit.1, j, a[1..], b[1..]);
      OneMoreSame(visit.0, a, b, Lead(r.charges, index + 1, false, j));
    }
  }

  lemma {:induction false} ChargingSame(r: Round, s: Round, at: Where, stop: ChargeStop)
    requires Sound(r) && Sound(s) && s == r.(charges := s.charges) && at.position < Size(r.problem)
    requires stop.location in r.problem.locations && stop.toSoc <= Battery.FULL
    ensures Charging(r, at, stop) == Charging(s, at, stop)
    ensures Charging(r, at, stop).Success? ==>
      var visit := Charging(r, at, stop).value; visit.0.soc == Some(stop.toSoc) && visit.1.position < Size(r.problem)
  {
  }

  lemma {:induction false} SameServing(r: Round, s: Round, at: Where, o: Order)
    requires Sound(r) && Sound(s) && s == r.(charges := s.charges) && Sited(r.problem, o) && at.position < Size(r.problem)
    ensures Serving(r, at, o) == Serving(s, at, o)
  {
  }

  lemma {:induction false} OneMoreSame(step: Step, a: seq<Step>, b: seq<Step>, n: nat)
    requires a != [] && b != [] && a[0] == b[0] == step && n < |a| && n < |b| && a[1..][..n] == b[1..][..n]
    ensures a[..n + 1] == b[..n + 1]
  {
    assert a[..n + 1] == [step] + a[1..][..n] && b[..n + 1] == [step] + b[1..][..n];
  }

  lemma {:induction false} SameDayBelow(r: Round, orders: seq<Order>, startTime: int, index: nat, stop: ChargeStop)
    requires Electrical(r, orders) && Electrical(Placing(r, index, stop), orders) && index < |orders|
    requires Itinerary(r, orders, startTime).Success? && Itinerary(Placing(r, index, stop), orders, startTime).Success?
    ensures var a, b := Itinerary(r, orders, startTime).value, Itinerary(Placing(r, index, stop), orders, startTime).value;
            var leaving := LeavingStep(r.charges, index);
            && leaving < |a| && leaving + 1 < |b| && a[..leaving + 1] == b[..leaving + 1]
            && b[leaving + 1].soc == Some(stop.toSoc)
  {
    hide Onward;
    var s := Placing(r, index, stop);
    var at := Departing(r, orders, startTime);
    assert Departing(s, orders, startTime) == at && StartOf(r, at) == StartOf(s, at);
    var a, b := Onward(r, orders, 0, false, at).value, Onward(s, orders, 0, false, at).value;
    SameStepsBelow(r, s, orders, 0, false, at, index, a, b);
    OneMoreSame(StartOf(r, at), [StartOf(r, at)] + a, [StartOf(s, at)] + b, LeavingStep(r.charges, index));
  }

  // ------------------------------------------------------------------
  // Along a run
  // ------------------------------------------------------------------

  /** Up to each charge already made, and it included, the day is above the reserve; or the van sets
      out below it and every charge is before the first order. */
  ghost predicate Settled(r: Round, orders: seq<Order>, startTime: int)
    requires Electrical(r, orders)
  {
    Itinerary(r, orders, startTime).Success? ==>
      forall k :: k in r.charges && k < |orders| ==> SettledTo(Itinerary(r, orders, startTime).value, r.charges, k)
  }

  ghost predicate SettledTo(steps: seq<Step>, charges: map<nat, ChargeStop>, k: nat) {
    && LeavingStep(charges, k) + 1 < |steps|
    && ((k == 0 && Low(steps[0])) || forall pos :: 0 <= pos <= LeavingStep(charges, k) + 1 ==> !Low(steps[pos]))
  }

  /** Where the next charge goes: no earlier than any made, and after nothing but steps above the
      reserve. */
  lemma {:induction false} RepairMovesOn(r: Round, orders: seq<Order>, startTime: int, s: nat)
    requires Electrical(r, orders) && DistinctOrders(orders) && orders != [] && Settled(r, orders, startTime)
    requires Itinerary(r, orders, startTime).Success?
    requires FirstShortfall(Itinerary(r, orders, startTime).value, 0) == Some(s)
    ensures s < |Itinerary(r, orders, startTime).value|
    ensures var j := OrderIndex(Itinerary(r, orders, startTime).value, s, IdsOf(orders));
            && j < |orders| && (forall k :: k in r.charges && k < |orders| ==> k <= j)
            && (s > 0 ==> LeavingStep(r.charges, j) < s)
            && (s == 0 ==> j == 0)
  {
    hide Itinerary, FirstShortfall, OrderIndex;
    var steps := Itinerary(r, orders, startTime).value;
    FirstShortfallMeans(steps, 0, s);
    OrderIndexAt(r, orders, startTime, s);
    var j := OrderIndex(steps, s, IdsOf(orders));
    LeadCounts(r.charges, 0, false, j);
    forall k | k in r.charges && k < |orders|
      ensures k <= j
    {
      assert SettledTo(steps, r.charges, k);
      if !(k == 0 && Low(steps[0])) {
        assert s > LeavingStep(r.charges, k) + 1;
        assert ServingStep(r.charges, k) <= s;
      }
    }
  }

  /** After it the day is settled again. */
  lemma {:induction false} RepairSettles(r: Round, orders: seq<Order>, startTime: int, s: nat, stop: ChargeStop)
    requires Electrical(r, orders) && DistinctOrders(orders) && orders != [] && Settled(r, orders, startTime)
    requires Itinerary(r, orders, startTime).Success?
    requires FirstShortfall(Itinerary(r, orders, startTime).value, 0) == Some(s) && s < |Itinerary(r, orders, startTime).value|
    requires var j := OrderIndex(Itinerary(r, orders, startTime).value, s, IdsOf(orders));
             j < |orders| && Electrical(Placing(r, j, stop), orders) && stop.toSoc >= RESERVE
    ensures Settled(Placing(r, OrderIndex(Itinerary(r, orders, startTime).value, s, IdsOf(orders)), stop), orders, startTime)
  {
    hide Itinerary, FirstShortfall, OrderIndex;
    var steps := Itinerary(r, orders, startTime).value;
    var j := OrderIndex(steps, s, IdsOf(orders));
    FirstShortfallMeans(steps, 0, s);
    RepairMovesOn(r, orders, startTime, s);
    var p := Placing(r, j, stop);
    if Itinerary(p, orders, startTime).Success? {
      var after := Itinerary(p, orders, startTime).value;
      SameDayBelow(r, orders, startTime, j, stop);
      forall k | k in p.charges && k < |orders|
        ensures SettledTo(after, p.charges, k)
      {
        SameLeadBelow(r.charges, p.charges, 0, false, k);
        if k < j {
          LeadGrows(r.charges, 0, false, k, j);
        }
        SettledStays(r.charges, p.charges, steps, after, s, j, k);
      }
    }
  }

  lemma {:induction false} SettledStays(before: map<nat, ChargeStop>, charges: map<nat, ChargeStop>, steps: seq<Step>,
                                        after: seq<Step>, s: nat, j: nat, k: nat)
    requires k <= j && LeavingStep(before, k) == LeavingStep(charges, k)
    requires k < j ==> LeavingStep(before, k) + 1 <= LeavingStep(before, j)
    requires s < |steps| && (forall pos :: 0 <= pos < s ==> !Low(steps[pos]))
    requires (s > 0 ==> LeavingStep(before, j) < s) && (s == 0 ==> j == 0 && Low(steps[0]))
    requires LeavingStep(before, j) < |steps| && LeavingStep(before, j) + 1 < |after|
    requires steps[..LeavingStep(before, j) + 1] == after[..LeavingStep(before, j) + 1]
    requires !Low(after[LeavingStep(before, j) + 1])
    ensures SettledTo(after, charges, k)
  {
    var n := LeavingStep(before, j);
    forall pos | 0 <= pos <= n
      ensures after[pos] == steps[pos]
    {
      assert after[..n + 1][pos] == steps[..n + 1][pos];
    }
  }

  /** A day without charges is settled, and the van never runs flat to a charger on it. */
  lemma {:induction false} UnchargedIsSettled(r: Round, orders: seq<Order>, startTime: int)
    requires Electrical(r, orders) && r.charges == map[]
    ensures Settled(r, orders, startTime) && NeverFlat(r, orders, startTime)
  {
  }

  /** Along every run over distinct orders, a repair of a day on which the van never runs flat keeps
      it so exactly when the leg to the new charger fits the charge at the step the van leaves. That
      step is the one the code compares with exactly when no charge comes before. */
  lemma {:induction false} RunKeepsExactly(r: Round, chargers: set<Id>, orders: seq<Order>, startTime: int, s: nat,
                                           index: nat, stop: ChargeStop)
    requires Repairable(r, chargers, orders) && DistinctOrders(orders) && Settled(r, orders, startTime)
    requires Itinerary(r, orders, startTime).Success? && s < |Itinerary(r, orders, startTime).value|
    requires FirstShortfall(Itinerary(r, orders, startTime).value, 0) == Some(s)
    requires |orders| <= |Itinerary(r, orders, startTime).value|
    requires Repair(r, chargers, orders, Itinerary(r, orders, startTime).value, s) == Success((index, stop))
    ensures index < |orders| && Repairable(Placing(r, index, stop), chargers, orders)
    ensures stop.location in r.problem.locations && LeavingStep(r.charges, index) < |Itinerary(r, orders, startTime).value|
    ensures Settled(Placing(r, index, stop), orders, startTime)
    ensures NeverFlat(r, orders, startTime) ==>
      (NeverFlat(Placing(r, index, stop), orders, startTime)
       <==> Affords(r, orders, index, stop.location, Itinerary(r, orders, startTime).value[LeavingStep(r.charges, index)]))
    ensures LeavingStep(r.charges, index) == index <==> forall k :: k in r.charges ==> k >= index
  {
    hide Itinerary, FirstShortfall, OrderIndex, Choice, Settled, NeverFlat, Affords, LeavingStep;
    var steps := Itinerary(r, orders, startTime).value;
    RepairIsSound(r, chargers, orders, steps, s);
    ChoiceMeans(r, chargers, orders, index, Available(steps[index]));
    RepairMovesOn(r, orders, startTime, s);
    RepairSettles(r, orders, startTime, s, stop);
    LeavesItsOwnIndexExactly(r.charges, index);
    LeavingStepExists(r, orders, startTime, index);
    if NeverFlat(r, orders, startTime) {
      RepairKeepsExactly(r, orders, startTime, index, stop);
    }
  }
}
