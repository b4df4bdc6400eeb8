/** A round on which the repair loop of vrp/electric.py strands the van: the plan keeps every step
    at or above the reserve, and the van runs flat on the way to its second charge. */
module Stranded {
  import opened Common
  import opened Model
  import opened Evaluator
  import opened Electric
  import Battery

  const DEPOT: nat := 0
  const FIRST: nat := 1
  const SECOND: nat := 2
  const CHARGER: nat := 3
  const HOME: nat := 4

  /** Metres, seconds and parts per thousand of charge alike. */
  function Metres(): seq<seq<int>> {
    [[0, 450, 500, 400, 500],
     [450, 0, 100, 850, 100],
     [500, 100, 0, 890, 10],
     [400, 850, 890, 0, 890],
     [500, 100, 10, 890, 0]]
  }

  function Apart(origin: nat, destination: nat): nat
    requires origin < 5 && destination < 5
  {
    Metres()[origin][destination]
  }

  function Drop(id: Id, place: Id): Order {
    OrderSpec(id, map[], None, Some(Stop(place, [], 0, 0, None)), 0, 0, 0, {}, None, {})
  }

  function Deliveries(): seq<Order> {
    [Drop(0, FIRST), Drop(1, SECOND)]
  }

  function Place(i: nat): Location {
    Location(i, i, 0, None, None, {}, None)
  }

  /** Half charged, with a battery one metre empties by a thousandth. */
  function Van(): Vehicle {
    Vehicle(0, map[], WindowSpec(0, 10000, Hard), DEPOT, Some(HOME), {}, 1000, None, None, None, Some(1000), 1000, 500,
            0, 0, 0, 0)
  }

  function Town(): Problem {
    Problem(map[DEPOT := Place(DEPOT), FIRST := Place(FIRST), SECOND := Place(SECOND), CHARGER := Place(CHARGER),
                HOME := Place(HOME)],
            Deliveries(), [Van()], Matrix(Metres(), Metres()), [], None, None)
  }

  /** The round with the charges made so far, each to full at the one charger. */
  function Day(charges: map<nat, ChargeStop>): Round {
    Round(Town(), Van(), [Battery.Band(Battery.FULL, 1)], charges)
  }

  const FULLY := ChargeStop(CHARGER, Battery.FULL)

  ghost predicate Ours(charges: map<nat, ChargeStop>) {
    charges in [map[], map[0 := FULLY], map[0 := FULLY, 1 := FULLY]]
  }

  lemma {:induction false} DayIsSound(charges: map<nat, ChargeStop>)
    requires Ours(charges)
    ensures Repairable(Day(charges), {CHARGER}, Deliveries())
    ensures Size(Day(charges).problem) == 5 && |Deliveries()| == 2
    ensures 0 in charges ==> charges[0] == FULLY
    ensures 1 in charges ==> charges[1] == FULLY
  {
  }

  lemma {:induction false} MetreCosts(metres: nat)
    ensures Battery.ConsumedPpt(1000, 1000, metres) == metres
  {
  }

  /** Charging to full takes the van to the charger and fills it, however low it arrives. */
  lemma {:induction false} Fills(charges: map<nat, ChargeStop>, at: Where, soc: int)
    requires Ours(charges) && Repairable(Day(charges), {CHARGER}, Deliveries())
    requires at.position < 5 && at.soc == Some(soc) && soc <= Battery.FULL
    ensures var visit := Charging(Day(charges), at, FULLY);
            && visit.Success? && visit.value.0.order.None? && visit.value.0.soc == Some(Battery.FULL)
            && visit.value.1.position == CHARGER && visit.value.1.soc == Some(Battery.FULL)
  {
    DayIsSound(charges);
    MetreCosts(Apart(at.position, CHARGER));
  }

  /** Serving a drop costs the metres to it. */
  lemma {:induction false} Drops(charges: map<nat, ChargeStop>, at: Where, soc: int, k: nat)
    requires Ours(charges) && Repairable(Day(charges), {CHARGER}, Deliveries())
    requires at.position < 5 && at.soc == Some(soc) && k < 2
    ensures var visit, left := Serving(Day(charges), at, Deliveries()[k]), soc - Apart(at.position, k + 1);
            && visit.Success? && visit.value.0.order == Some(k) && visit.value.0.soc == Some(left)
            && visit.value.1.position == k + 1 && visit.value.1.soc == Some(left)
  {
    DayIsSound(charges);
    MetreCosts(Apart(at.position, k + 1));
  }

  lemma {:induction false} GoesHome(charges: map<nat, ChargeStop>, at: Where, soc: int)
    requires Ours(charges) && Repairable(Day(charges), {CHARGER}, Deliveries())
    requires at.position < 5 && at.soc == Some(soc)
    ensures var home := Homing(Day(charges), at);
            home.Success? && home.value.order.None? && home.value.soc == Some(soc - Apart(at.position, HOME))
  {
    DayIsSound(charges);
    MetreCosts(Apart(at.position, HOME));
  }

  /** Which order each step serves, and the charge it reads. */
  datatype Mark = Mark(order: Option<Id>, soc: int)

  ghost predicate Reads(steps: seq<Step>, marks: seq<Mark>) {
    |steps| == |marks| && forall k :: 0 <= k < |marks| ==> steps[k].order == marks[k].order && steps[k].soc == Some(marks[k].soc)
  }

  ghost predicate DayReads(day: Result<seq<Step>>, marks: seq<Mark>) {
    day.Success? && Reads(day.value, marks)
  }

  lemma {:induction false} PrefixedReads(step: Step, mark: Mark, rest: Result<seq<Step>>, marks: seq<Mark>)
    requires step.order == mark.order && step.soc == Some(mark.soc) && DayReads(rest, marks)
    ensures DayReads(Prefixed(step, rest), [mark] + marks)
  {
  }

  /** The day from a place on, with `charges` still to come. */
  function Marks(charges: map<nat, ChargeStop>, index: nat, plugged: bool, position: nat, soc: int): seq<Mark>
    requires index <= 2 && position < 5
    decreases 2 - index, !plugged
  {
    if index == 2 then [Mark(None, soc - Apart(position, HOME))]
    else if !plugged && index in charges then
      [Mark(None, Battery.FULL)] + Marks(charges, index, true, CHARGER, Battery.FULL)
    else
      var left := soc - Apart(position, index + 1);
      [Mark(Some(index), left)] + Marks(charges, index + 1, false, index + 1, left)
  }

  lemma {:induction false} DayIsMarked(charges: map<nat, ChargeStop>, index: nat, plugged: bool, at: Where, soc: int)
    requires Ours(charges) && index <= 2 && at.position < 5 && at.soc == Some(soc) && soc <= Battery.FULL
    ensures Sound(Day(charges)) && forall o :: o in Deliveries() ==> Sited(Day(charges).problem, o)
    ensures |Deliveries()| == 2 && Size(Day(charges).problem) == 5
    ensures DayReads(Onward(Day(charges), Deliveries(), index, plugged, at), Marks(charges, index, plugged, at.position, soc))
    decreases 2 - index, !plugged
  {
    hide Charging, Serving, Homing, Metres, Town, Van, Drop, Deliveries, Sound, Sited, Ours;
    DayIsSound(charges);
    if index == 2 {
      GoesHome(charges, at, soc);
    } else if !plugged && index in charges {
      Fills(charges, at, soc);
      var visit := Charging(Day(charges), at, FULLY).value;
      DayIsMarked(charges, index, true, visit.1, Battery.FULL);
      PrefixedReads(visit.0, Mark(None, Battery.FULL), Onward(Day(charges), Deliveries(), index, true, visit.1),
                    Marks(charges, index, true, CHARGER, Battery.FULL));
    } else {
      Drops(charges, at, soc, index);
      var visit := Serving(Day(charges), at, Deliveries()[index]).value;
      var left := soc - Apart(at.position, index + 1);
      DayIsMarked(charges, index + 1, false, visit.1, left);
      PrefixedReads(visit.0, Mark(Some(index), left), Onward(Day(charges), Deliveries(), index + 1, false, visit.1),
                    Marks(charges, index + 1, false, index + 1, left));
    }
  }

  lemma {:induction false} WholeDay(charges: map<nat, ChargeStop>, startTime: int)
    requires Ours(charges)
    ensures Repairable(Day(charges), {CHARGER}, Deliveries())
    ensures DayReads(Itinerary(Day(charges), Deliveries(), startTime), [Mark(None, 500)] + Marks(charges, 0, false, DEPOT, 500))
  {
    hide Onward, Metres, Ours;
    DayIsSound(charges);
    var at := Departing(Day(charges), Deliveries(), startTime);
    DayIsMarked(charges, 0, false, at, 500);
    PrefixedReads(StartOf(Day(charges), at), Mark(None, 500), Onward(Day(charges), Deliveries(), 0, false, at),
                  Marks(charges, 0, false, DEPOT, 500));
  }

  /** The three days the loop looks at. */
  lemma {:induction false} ThreeDays()
    ensures Marks(map[], 0, false, DEPOT, 500) == [Mark(Some(0), 50), Mark(Some(1), -50), Mark(None, -60)]
    ensures Marks(map[0 := FULLY], 0, false, DEPOT, 500)
         == [Mark(None, 1000), Mark(Some(0), 150), Mark(Some(1), 50), Mark(None, 40)]
    ensures Marks(map[0 := FULLY, 1 := FULLY], 0, false, DEPOT, 500)
         == [Mark(None, 1000), Mark(Some(0), 150), Mark(None, 1000), Mark(Some(1), 110), Mark(None, 100)]
  {
    var one := map[0 := FULLY];
    assert Marks(map[], 2, false, 2, -50) == [Mark(None, -60)];
    assert Marks(map[], 1, false, 1, 50) == [Mark(Some(1), -50), Mark(None, -60)];
    assert Marks(one, 2, false, 2, 50) == [Mark(None, 40)];
    assert Marks(one, 1, false, 1, 150) == [Mark(Some(1), 50), Mark(None, 40)];
    assert Marks(one, 0, true, 3, 1000) == [Mark(Some(0), 150), Mark(Some(1), 50), Mark(None, 40)];
    var both := map[0 := FULLY, 1 := FULLY];
    assert Marks(both, 2, false, 2, 110) == [Mark(None, 100)];
    assert Marks(both, 1, true, 3, 1000) == [Mark(Some(1), 110), Mark(None, 100)];
    assert Marks(both, 1, false, 1, 150) == [Mark(None, 1000), Mark(Some(1), 110), Mark(None, 100)];
    assert Marks(both, 0, true, 3, 1000) == [Mark(Some(0), 150), Mark(None, 1000), Mark(Some(1), 110), Mark(None, 100)];
  }

  /** Each time the one charger is chosen, and left full. */
  lemma {:induction false} ChargesFully(charges: map<nat, ChargeStop>, index: nat, available: int)
    requires Ours(charges) && ((index == 0 && available >= 400) || (index == 1 && available >= 850))
    ensures Repairable(Day(charges), {CHARGER}, Deliveries()) && index < |Deliveries()|
    ensures Choice(Day(charges), {CHARGER}, Deliveries(), index, available) == Success(FULLY)
  {
    DayIsSound(charges);
    var r := Day(charges);
    MetreCosts(10);
    MetreCosts(100);
    MetreCosts(400);
    MetreCosts(850);
    MetreCosts(890);
    assert Need(r, Deliveries(), 2, 2) == Success(10);
    assert Need(r, Deliveries(), 1, 1) == Success(110);
    assert Need(r, Deliveries(), 1, 3) == Success(900);
    assert Need(r, Deliveries(), 0, 3) == Success(960);
  }

  /** Where each of the first two days falls short, and the order the charge goes before. */
  lemma {:induction false} FallsShort(bare: seq<Step>, once: seq<Step>)
    requires Reads(bare, [Mark(None, 500), Mark(Some(0), 50), Mark(Some(1), -50), Mark(None, -60)])
    requires Reads(once, [Mark(None, 500), Mark(None, 1000), Mark(Some(0), 150), Mark(Some(1), 50), Mark(None, 40)])
    ensures FirstShortfall(bare, 0) == Some(1) && OrderIndex(bare, 1, IdsOf(Deliveries())) == 0
    ensures FirstShortfall(once, 0) == Some(3) && OrderIndex(once, 3, IdsOf(Deliveries())) == 1
  {
    assert FirstShortfall(bare, 1) == Some(1);
    assert FirstShortfall(once, 3) == Some(3) && FirstShortfall(once, 2) == Some(3) && FirstShortfall(once, 1) == Some(3);
    assert IdsOf(Deliveries()) == [0, 1];
    assert IndexOf([0, 1], 0) == 0 && [0, 1][1..] == [1] && IndexOf([1], 1) == 0;
  }

  lemma {:induction false} EndsCharged(twice: seq<Step>)
    requires Reads(twice, [Mark(None, 500), Mark(None, 1000), Mark(Some(0), 150), Mark(None, 1000), Mark(Some(1), 110),
                           Mark(None, 100)])
    ensures FirstShortfall(twice, 0).None?
  {
    NoShortfall(twice, 0);
  }

  /** The leg from the first stop to the charger costs 850; the van leaves that stop holding 150. */
  lemma {:induction false} SecondChargeNotReached(startTime: int)
    ensures var two := map[0 := FULLY, 1 := FULLY];
            Electrical(Day(two), Deliveries()) && !Reached(Day(two), Deliveries(), startTime, 1)
  {
    hide Onward, StateAt, Reached;
    var two := map[0 := FULLY, 1 := FULLY];
    ThreeDays();
    WholeDay(two, startTime);
    ReachedExactly(Day(two), Deliveries(), startTime, 1);
    assert Lead(two, 0, true, 1) == 1 && LeavingStep(two, 1) == 2;
    DayIsSound(two);
    MetreCosts(850);
  }

  /** The loop returns two full charges. No step of that day is below the reserve, yet the van leaves
      the first stop holding 150 for a charger 850 away. The comparison for the second charge was
      with the step of the first. */
  lemma {:induction false} SecondChargeStrands(startTime: int)
    ensures var two := map[0 := FULLY, 1 := FULLY];
            && Repairable(Day(map[]), {CHARGER}, Deliveries()) && Electrical(Day(two), Deliveries())
            && Repaired(Day(map[]), {CHARGER}, Deliveries(), startTime, |Deliveries()| + 1) == Success(two)
            && KeepsReserve(Day(two), Deliveries(), startTime) && !NeverFlat(Day(two), Deliveries(), startTime)
  {
    hide Itinerary, Repaired, Choice, FirstShortfall, OrderIndex, Marks, Reached, KeepsReserve;
    hide Metres, Town, Van, Sound, Sited, StateAt, ArcCost;
    var one, two := map[0 := FULLY], map[0 := FULLY, 1 := FULLY];
    ThreeDays();
    WholeDay(map[], startTime);
    WholeDay(one, startTime);
    WholeDay(two, startTime);
    DayIsSound(map[]);
    var bare := Itinerary(Day(map[]), Deliveries(), startTime).value;
    var once := Itinerary(Day(one), Deliveries(), startTime).value;
    var twice := Itinerary(Day(two), Deliveries(), startTime).value;
    FallsShort(bare, once);
    EndsCharged(twice);
    ChargesFully(map[], 0, 500);
    ChargesFully(one, 1, 1000);
    assert Placing(Day(map[]), 0, FULLY) == Day(one) && Placing(Day(one), 1, FULLY) == Day(two);
    RepairedStep(Day(map[]), {CHARGER}, Deliveries(), startTime, 3);
    RepairedStep(Day(one), {CHARGER}, Deliveries(), startTime, 2);
    RepairedStep(Day(two), {CHARGER}, Deliveries(), startTime, 1);
    SecondChargeNotReached(startTime);
    ShortfallMeans(Day(two), Deliveries(), startTime);
  }
}
