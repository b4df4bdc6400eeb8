/** Both passes of vrp/polish.py together: sequence exactly, then leave as late as
    helps. The two passes read an instance differently (hull of hard windows and
    profile for the search, first window and free flow for the scheduler). On
    plain instances they describe the same day, and the polished route is the best;
    with a gap between two hard windows the polished day can be illegal. */
module Polish {
  import opened Common
  import opened TimeDependent
  import opened Model
  import opened Tsptw
  import opened Departure
  import Sequencing

  ghost predicate Drivable(p: Problem, v: Vehicle, orders: seq<Order>) {
    && v.startLocation in p.locations && EndsAt(v) in p.locations
    && (forall k :: 0 <= k < |orders| ==> Sited(p, orders[k]))
    && Valid(TripOf(p, v, orders))
  }

  function Leg(p: Problem, origin: nat, destination: nat): nat
    requires Reachable(p, origin, destination)
  {
    p.matrix.durations[origin][destination]
  }

  /** The stop the scheduler sees: free flow, the first window's opening, the hard windows. */
  function VisitOf(p: Problem, v: Vehicle, o: Order, from: nat): Visit
    requires Sited(p, o) && Reachable(p, from, NodeOf(p, o))
  {
    var windows := StopOf(o).windows;
    Visit(Leg(p, from, NodeOf(p, o)), if windows == [] then None else Some(windows[0].start),
          ServiceTime(o, v, p.locations[StopOf(o).location]), HardOnly(windows))
  }

  // ------------------------------------------------------------------
  // The round along a sequence of the trip's stops
  // ------------------------------------------------------------------

  function From(t: Trip, path: Path, k: nat): nat
    requires k < |path|
    requires forall i :: 0 <= i < |path| ==> path[i] < |t.stops|
  {
    if k == 0 then t.start else t.stops[path[k - 1]]
  }

  lemma {:induction false} LegIsDrivable(t: Trip, path: Path, k: nat)
    requires Valid(t) && Simple(t, path) && k < |path|
    ensures Reachable(t.problem, From(t, path, k), t.stops[path[k]])
  {
    if k > 0 {
      assert path[k - 1] != path[k];
    }
  }

  function VisitAlong(p: Problem, v: Vehicle, orders: seq<Order>, path: Path, k: nat): Visit
    requires Drivable(p, v, orders) && Simple(TripOf(p, v, orders), path) && k < |path|
  {
    var t := TripOf(p, v, orders);
    assert Sited(p, orders[path[k]]);
    LegIsDrivable(t, path, k);
    assert t.stops[path[k]] == NodeOf(p, orders[path[k]]);
    VisitOf(p, v, orders[path[k]], From(t, path, k))
  }

  function RoundAlong(p: Problem, v: Vehicle, orders: seq<Order>, path: Path): (r: Round)
    requires Drivable(p, v, orders) && Simple(TripOf(p, v, orders), path)
    ensures |r.visits| == |path|
  {
    var t := TripOf(p, v, orders);
    Round(seq(|path|, k requires 0 <= k < |path| => VisitAlong(p, v, orders, path, k)),
          Leg(p, t.stops[Last(path)], t.end), v.shift)
  }

  /** No profile, a day starting at or after zero, and at most one window a stop, hard. */
  ghost predicate Plain(p: Problem, v: Vehicle, orders: seq<Order>) {
    && p.speedProfile.None? && p.speedProfiles.None?
    && v.shift.start >= 0
    && forall k :: 0 <= k < |orders| ==> PlainWindows(StopOf(orders[k]).windows)
  }

  ghost predicate PlainWindows(windows: seq<TimeWindow>) {
    windows == [] || (|windows| == 1 && windows[0].hardness == Hard)
  }

  // ------------------------------------------------------------------
  // When a trip and a round describe the same day
  // ------------------------------------------------------------------

  /** The search's facts and the scheduler's stop say the same. */
  ghost predicate SameStop(facts: Facts, visit: Visit, shiftEnd: int) {
    && facts.service == visit.service
    && (if visit.hard == [] then
          visit.opens.None? && facts.opens == 0 && facts.closes == shiftEnd
        else
          |visit.hard| == 1 && visit.opens == Some(visit.hard[0].start)
          && facts.opens == visit.hard[0].start && facts.closes == visit.hard[0].end)
  }

  ghost predicate SameLeg(t: Trip, path: Path, k: nat, leg: nat)
    requires Valid(t) && Simple(t, path) && k < |path|
  {
    LegIsDrivable(t, path, k);
    forall depart :: TravelBetween(t.problem, From(t, path, k), t.stops[path[k]], depart) == leg
  }

  ghost predicate SameDay(t: Trip, path: Path, r: Round)
    requires Valid(t) && Simple(t, path)
  {
    && |r.visits| == |path| == |t.stops|
    && t.depart == r.shift.start >= 0 && t.shiftEnd == r.shift.end
    && (forall k :: 0 <= k < |path| ==> SameStop(t.facts[path[k]], r.visits[k], t.shiftEnd))
    && (forall k :: 0 <= k < |path| ==> SameLeg(t, path, k, r.visits[k].leg))
    && (forall depart :: TravelBetween(t.problem, t.stops[Last(path)], t.end, depart) == r.legHome)
  }

  lemma {:induction false} PlainStop(p: Problem, v: Vehicle, o: Order, from: nat)
    requires Sited(p, o) && Reachable(p, from, NodeOf(p, o)) && PlainWindows(StopOf(o).windows)
    ensures SameStop(ServiceAndWindow(p, v, o), VisitOf(p, v, o, from), v.shift.end)
  {
    var windows := StopOf(o).windows;
    if windows != [] {
      assert windows == [windows[0]] && windows[0] in windows;
      assert HardOnly(windows) == [windows[0]];
    }
  }

  lemma {:induction false} FreeFlowLeg(p: Problem, origin: nat, destination: nat, depart: int)
    requires Reachable(p, origin, destination) && p.speedProfile.None? && p.speedProfiles.None?
    ensures TravelBetween(p, origin, destination, depart) == Leg(p, origin, destination)
  {
  }

  /** On a plain instance the two passes see the same day, along any full sequence. */
  lemma {:induction false} PlainIsSameDay(p: Problem, v: Vehicle, orders: seq<Order>, path: Path)
    requires Drivable(p, v, orders) && Plain(p, v, orders)
    requires Simple(TripOf(p, v, orders), path) && |path| == |orders|
    ensures SameDay(TripOf(p, v, orders), path, RoundAlong(p, v, orders, path))
  {
    var t, r := TripOf(p, v, orders), RoundAlong(p, v, orders, path);
    forall k | 0 <= k < |path|
      ensures SameStop(t.facts[path[k]], r.visits[k], t.shiftEnd)
      ensures SameLeg(t, path, k, r.visits[k].leg)
    {
      assert r.visits[k] == VisitAlong(p, v, orders, path, k);
      LegIsDrivable(t, path, k);
      PlainStop(p, v, orders[path[k]], From(t, path, k));
      forall depart: int
        ensures TravelBetween(t.problem, From(t, path, k), t.stops[path[k]], depart) == r.visits[k].leg
      {
        FreeFlowLeg(p, From(t, path, k), t.stops[path[k]], depart);
      }
    }
    forall depart: int
      ensures TravelBetween(t.problem, t.stops[Last(path)], t.end, depart) == r.legHome
    {
      FreeFlowLeg(p, t.stops[Last(path)], t.end, depart);
    }
  }

  // ------------------------------------------------------------------
  // The search's labels are the schedule's clock
  // ------------------------------------------------------------------

  function LegSum(r: Round, k: nat): nat
    requires k <= |r.visits|
  {
    if k == 0 then 0 else LegSum(r, k - 1) + r.visits[k - 1].leg
  }

  function TravelTime(r: Round): nat {
    LegSum(r, |r.visits|) + r.legHome
  }

  ghost predicate OpenThrough(t: Trip, path: Path, r: Round, k: nat)
    requires Valid(t) && Simple(t, path) && |r.visits| == |path| && k <= |path|
  {
    forall i :: 0 <= i < k ==> Begin(r, r.shift.start, i) <= t.facts[path[i]].closes
  }

  lemma {:induction false} FreeIsNonNegative(r: Round, start: nat, k: nat)
    requires k <= |r.visits|
    ensures Free(r, start, k) >= 0
    decreases k
  {
    if k > 0 {
      FreeIsNonNegative(r, start, k - 1);
      FreeAfter(r, start, k - 1);
    }
  }

  /** The search begins a stop when the scheduler does. */
  lemma {:induction false} SameBegin(t: Trip, path: Path, r: Round, k: nat)
    requires Valid(t) && Simple(t, path) && SameDay(t, path, r) && k < |path|
    ensures Begin(r, r.shift.start, k)
         == Max(Free(r, r.shift.start, k) + r.visits[k].leg, t.facts[path[k]].opens)
    ensures Free(r, r.shift.start, k + 1) == Begin(r, r.shift.start, k) + t.facts[path[k]].service
  {
    FreeIsNonNegative(r, r.shift.start, k);
    FreeAfter(r, r.shift.start, k);
    assert SameStop(t.facts[path[k]], r.visits[k], t.shiftEnd);
  }

  /** What the search makes of one more stop, in the scheduler's terms. */
  lemma {:induction false} ArriveIsBegin(t: Trip, path: Path, r: Round, k: nat, cost: nat, front: Path)
    requires Valid(t) && Simple(t, path) && SameDay(t, path, r) && k < |path|
    ensures var begin := Begin(r, r.shift.start, k);
            Arrive(t, cost, Free(r, r.shift.start, k), r.visits[k].leg, front, path[k])
            == if begin > t.facts[path[k]].closes then None
               else Some(Label(cost + r.visits[k].leg, Free(r, r.shift.start, k + 1), front + [path[k]]))
  {
    SameBegin(t, path, r, k);
  }

  lemma {:induction false} FirstIsArrive(t: Trip, path: Path, r: Round)
    requires Valid(t) && Simple(t, path) && SameDay(t, path, r)
    ensures First(t, path[0]) == Arrive(t, 0, r.shift.start, r.visits[0].leg, [], path[0])
  {
    assert SameLeg(t, path, 0, r.visits[0].leg);
    assert TravelBetween(t.problem, From(t, path, 0), t.stops[path[0]], t.depart) == r.visits[0].leg;
  }

  lemma {:induction false} ExtendIsArrive(t: Trip, path: Path, r: Round, k: nat, l: Label)
    requires Valid(t) && Simple(t, path) && SameDay(t, path, r) && 0 < k < |path|
    requires l.path == path[..k]
    ensures Extendable(t, l, path[k])
    ensures Extend(t, l, path[k]) == Arrive(t, l.cost, l.ready, r.visits[k].leg, l.path, path[k])
  {
    assert Last(l.path) == path[k - 1] != path[k];
    assert SameLeg(t, path, k, r.visits[k].leg);
    assert TravelBetween(t.problem, From(t, path, k), t.stops[path[k]], l.ready) == r.visits[k].leg;
  }

  ghost function ScheduleLabel(t: Trip, path: Path, r: Round, k: nat): Option<Label>
    requires Valid(t) && Simple(t, path) && |r.visits| == |path| && k <= |path|
  {
    if OpenThrough(t, path, r, k) then Some(Label(LegSum(r, k), Free(r, r.shift.start, k), path[..k])) else None
  }

  lemma {:induction false} ScheduleLabelStep(t: Trip, path: Path, r: Round, k: nat)
    requires Valid(t) && Simple(t, path) && SameDay(t, path, r) && k < |path|
    ensures ScheduleLabel(t, path, r, k + 1) ==
      if ScheduleLabel(t, path, r, k).None? then None
      else Arrive(t, LegSum(r, k), Free(r, r.shift.start, k), r.visits[k].leg, path[..k], path[k])
  {
    ArriveIsBegin(t, path, r, k, LegSum(r, k), path[..k]);
    assert path[..k + 1] == path[..k] + [path[k]];
  }

  lemma {:induction false} ScheduleLabelStart(t: Trip, path: Path, r: Round)
    requires Valid(t) && Simple(t, path) && |r.visits| == |path|
    ensures ScheduleLabel(t, path, r, 0).Some? && LegSum(r, 0) == 0 && Free(r, r.shift.start, 0) == r.shift.start
  {
  }

  /** A partial sequence is traced exactly when each stop begins before it closes,
      and then its label carries the schedule's clock and travel. */
  lemma {:induction false} TraceIsSchedule(t: Trip, path: Path, r: Round, k: nat)
    requires Valid(t) && Simple(t, path) && SameDay(t, path, r) && 0 < k <= |path|
    ensures Simple(t, path[..k])
    ensures Trace(t, path[..k]) == ScheduleLabel(t, path, r, k)
    decreases k
  {
    hide Free, OpenThrough, LegSum, Arrive, Begin, Extend, First;
    ScheduleLabelStep(t, path, r, k - 1);
    if k == 1 {
      assert path[..1] == [path[0]] && path[..0] == [];
      ScheduleLabelStart(t, path, r);
      FirstIsArrive(t, path, r);
    } else {
      TraceIsSchedule(t, path, r, k - 1);
      assert path[..k] == path[..k - 1] + [path[k - 1]];
      TraceOfMore(t, path[..k], path[..k - 1], path[k - 1]);
      if Trace(t, path[..k - 1]).Some? {
        ExtendIsArrive(t, path, r, k - 1, Trace(t, path[..k - 1]).value);
      }
    }
  }

  lemma {:induction false} BeginBeforeFree(r: Round, start: int, k: nat, n: nat)
    requires k < n <= |r.visits|
    ensures Begin(r, start, k) <= Free(r, start, n)
    decreases n
  {
    FreeAfter(r, start, n - 1);
    if k < n - 1 {
      BeginBeforeFree(r, start, k, n - 1);
    }
  }

  lemma {:induction false} ClosesIsKept(t: Trip, path: Path, r: Round, k: nat)
    requires Valid(t) && Simple(t, path) && SameDay(t, path, r) && k < |path|
    requires HomeAt(r, r.shift.start) <= r.shift.end
    ensures Begin(r, r.shift.start, k) <= t.facts[path[k]].closes <==> KeptAt(r, Begin(r, r.shift.start, k), k)
  {
    var begin := Begin(r, r.shift.start, k);
    SameBegin(t, path, r, k);
    BeginBeforeFree(r, r.shift.start, k, |path|);
    assert SameStop(t.facts[path[k]], r.visits[k], t.shiftEnd);
    if r.visits[k].hard != [] {
      assert InSome(r.visits[k].hard, begin) <==> Contains(r.visits[k].hard[0], begin);
    }
  }

  /** A sequence is legal to the search exactly when its schedule is legal, and
      the search's total is the schedule's travel. */
  lemma {:induction false} LegalIsSchedulable(t: Trip, path: Path, r: Round)
    requires Valid(t) && Simple(t, path) && SameDay(t, path, r)
    ensures Legal(t, path) <==> LegalFrom(r, r.shift.start)
    ensures Legal(t, path) ==> Total(t, path) == TravelTime(r)
  {
    var n := |path|;
    TraceIsSchedule(t, path, r, n);
    assert path[..n] == path;
    if HomeAt(r, r.shift.start) <= r.shift.end {
      forall k | 0 <= k < n
        ensures Begin(r, r.shift.start, k) <= t.facts[path[k]].closes <==> KeptAt(r, Begin(r, r.shift.start, k), k)
      {
        ClosesIsKept(t, path, r, k);
      }
    }
  }

  // ------------------------------------------------------------------
  // The polished route
  // ------------------------------------------------------------------

  function InOrder(n: nat): (path: Path)
    ensures |path| == n && forall k :: 0 <= k < n ==> path[k] == k
  {
    seq(n, k => k)
  }

  /** `path` visits every order once and `r` is the round along it. */
  ghost predicate IsSequence(p: Problem, v: Vehicle, orders: seq<Order>, path: Path, r: Round) {
    Drivable(p, v, orders) && orders != []
    && Simple(TripOf(p, v, orders), path) && |path| == |orders|
    && r == RoundAlong(p, v, orders, path)
  }

  /** The round is the instance's own: the shift is the van's, each leg the matrix's duration between the
      places driven, and each stop its order's windows and service. */
  lemma {:induction false} RoundIsOnMatrix(p: Problem, v: Vehicle, orders: seq<Order>, path: Path, r: Round)
    requires IsSequence(p, v, orders, path, r)
    ensures Sequencing.Permutes(path, |orders|) && Sequencing.Joined(p, v, Sequencing.Along(orders, path))
    ensures r.shift == v.shift && |r.visits| == |orders|
    ensures forall k :: 0 <= k < |orders| ==> OfOrder(p, v, orders[path[k]], r.visits[k])
    ensures TravelTime(r) == Sequencing.MatrixSum(p, v, Sequencing.Along(orders, path), |orders| + 1)
  {
    Sequencing.ConnectedIsValid(p, v, orders);
    Sequencing.AlongIsJoined(p, v, orders, path);
    forall k | 0 <= k < |orders|
      ensures OfOrder(p, v, orders[path[k]], r.visits[k])
    {
      assert r.visits[k] == VisitAlong(p, v, orders, path, k);
    }
    LegsAreMatrix(p, v, orders, path, r, |orders|);
    MatrixHome(p, v, orders, path, r);
  }

  /** The scheduler's stop, read off the order. */
  ghost predicate OfOrder(p: Problem, v: Vehicle, o: Order, visit: Visit) {
    var stop := if o.delivery.Some? then o.delivery.value else o.pickup.value;
    && stop.location in p.locations
    && visit.opens == (if stop.windows == [] then None else Some(stop.windows[0].start))
    && visit.hard == HardOnly(stop.windows)
    && visit.service == ServiceTime(o, v, p.locations[stop.location])
  }

  lemma {:induction false} LegsAreMatrix(p: Problem, v: Vehicle, orders: seq<Order>, path: Path, r: Round, k: nat)
    requires IsSequence(p, v, orders, path, r) && k <= |orders|
    requires Sequencing.Permutes(path, |orders|) && Sequencing.Joined(p, v, Sequencing.Along(orders, path))
    ensures LegSum(r, k) == Sequencing.MatrixSum(p, v, Sequencing.Along(orders, path), k)
  {
    hide Drivable, RoundAlong, Sequencing.Permutes, Sequencing.Joined, Sequencing.Places, Sequencing.Along, Simple;
    if k > 0 {
      LegsAreMatrix(p, v, orders, path, r, k - 1);
      LegIsMatrix(p, v, orders, path, r, k - 1);
    }
  }

  lemma {:induction false} LegIsMatrix(p: Problem, v: Vehicle, orders: seq<Order>, path: Path, r: Round, k: nat)
    requires IsSequence(p, v, orders, path, r) && k < |orders|
    requires Sequencing.Permutes(path, |orders|) && Sequencing.Joined(p, v, Sequencing.Along(orders, path))
    ensures var places, next := Sequencing.Places(v, Sequencing.Along(orders, path)), k + 1;
            && Sequencing.Road(p, places[k], places[next])
            && r.visits[k].leg == p.matrix.durations[p.locations[places[k]].matrixIndex][p.locations[places[next]].matrixIndex]
  {
    hide ServiceTime, HardOnly;
    assert r.visits[k] == VisitAlong(p, v, orders, path, k);
    if k > 0 {
      assert From(TripOf(p, v, orders), path, k) == NodeOf(p, orders[path[k - 1]]);
    }
  }

  lemma {:induction false} MatrixHome(p: Problem, v: Vehicle, orders: seq<Order>, path: Path, r: Round)
    requires IsSequence(p, v, orders, path, r)
    requires Sequencing.Permutes(path, |orders|) && Sequencing.Joined(p, v, Sequencing.Along(orders, path))
    ensures Sequencing.MatrixSum(p, v, Sequencing.Along(orders, path), |orders| + 1)
         == Sequencing.MatrixSum(p, v, Sequencing.Along(orders, path), |orders|) + r.legHome
  {
    hide ServiceTime, HardOnly, Valid;
    assert TripOf(p, v, orders).stops[Last(path)] == NodeOf(p, orders[path[|orders| - 1]]);
  }

  lemma {:induction false} NobodyWaits(r: Round, start: int, k: nat)
    requires k <= |r.visits| && forall i :: 0 <= i < |r.visits| ==> r.visits[i].opens.None?
    ensures Waited(r, start, k) == 0
  {
    if k > 0 {
      NobodyWaits(r, start, k - 1);
    }
  }

  /** At most one hard window a stop, and a window wherever there is waiting to do. */
  ghost predicate PlainRound(r: Round) {
    forall k :: 0 <= k < |r.visits| ==> |r.visits[k].hard| <= 1 && (r.visits[k].hard == [] ==> r.visits[k].opens.None?)
  }

  /** The scheduler's share: from there, its departure is legal and its duty the shortest. */
  lemma {:induction false} DepartureIsBest(r: Round, start: int, shift: nat)
    requires PlainRound(r) && LegalFrom(r, start) && IsShift(r, start, shift)
    ensures LegalFrom(r, start + shift) && Shortest(r, start, shift)
  {
    DepartureIsSafe(r, start, shift);
    if !SomeHard(r) {
      NobodyWaits(r, start, |r.visits|);
    }
    OnlyWindowIsLast(r, start);
    ShiftIsShortest(r, start, shift);
  }

  lemma {:induction false} PlainIsTimeless(p: Problem, v: Vehicle, orders: seq<Order>)
    requires Drivable(p, v, orders) && Plain(p, v, orders)
    ensures Timeless(TripOf(p, v, orders))
  {
    var t := TripOf(p, v, orders);
    forall o: nat, d: nat | Reachable(p, o, d)
      ensures Steady(p, o, d)
    {
      forall a, b
        ensures TravelBetween(p, o, d, a) == TravelBetween(p, o, d, b)
      {
        FreeFlowLeg(p, o, d, a);
        FreeFlowLeg(p, o, d, b);
      }
    }
  }

  lemma {:induction false} SameDayIsPlain(t: Trip, path: Path, r: Round)
    requires Valid(t) && Simple(t, path) && SameDay(t, path, r)
    ensures PlainRound(r)
  {
    forall k | 0 <= k < |path|
      ensures |r.visits[k].hard| <= 1 && (r.visits[k].hard == [] ==> r.visits[k].opens.None?)
    {
      assert SameStop(t.facts[path[k]], r.visits[k], t.shiftEnd);
    }
  }

  /** Leaving at once along `r` is legal and drives no longer than along `s`. */
  ghost predicate NoWorse(r: Round, s: Round, start: int) {
    LegalFrom(r, start) && PlainRound(r) && TravelTime(r) <= TravelTime(s)
  }

  /** The search's answer up to fourteen stops, the caller's order when it has none or declines. */
  ghost predicate Chosen(p: Problem, v: Vehicle, orders: seq<Order>, path: Path) {
    Drivable(p, v, orders) && orders != [] &&
    (if |orders| > MAX_DP_STOPS then path == InOrder(|orders|)
     else exists answer ::
       && PrunedAnswer(TripOf(p, v, orders), answer)
       && path == if answer.Some? then answer.value else InOrder(|orders|))
  }

  /** The resequencing half of `polish_route`: the search's sequence when it finds
      one, the caller's otherwise. */
  method BestOrder(p: Problem, v: Vehicle, orders: seq<Order>) returns (path: Path, r: Round)
    requires Drivable(p, v, orders) && orders != []
    ensures IsSequence(p, v, orders, path, r)
    ensures Chosen(p, v, orders, path)
    ensures |orders| <= MAX_DP_STOPS && Plain(p, v, orders) ==>
      forall other, s :: IsSequence(p, v, orders, other, s) && LegalFrom(s, v.shift.start) ==>
        NoWorse(r, s, v.shift.start)
  {
    var t := TripOf(p, v, orders);
    path := InOrder(|orders|);
    var improved := Sequence(t);
    if improved.Some? {
      AnswerIsLegal(t, improved);
      path := improved.value;
    }
    assert Chosen(p, v, orders, path);
    r := RoundAlong(p, v, orders, path);
    if |orders| <= MAX_DP_STOPS && Plain(p, v, orders) {
      forall other, s | IsSequence(p, v, orders, other, s) && LegalFrom(s, v.shift.start)
        ensures NoWorse(r, s, v.shift.start)
      {
        SearchIsNoWorse(p, v, orders, improved, path, r, other, s);
      }
    }
  }

  lemma {:induction false} SearchIsNoWorse(p: Problem, v: Vehicle, orders: seq<Order>, answer: Option<Path>, path: Path, r: Round,
                        other: Path, s: Round)
    requires IsSequence(p, v, orders, path, r) && IsSequence(p, v, orders, other, s)
    requires PrunedAnswer(TripOf(p, v, orders), answer) && (answer.Some? ==> path == answer.value)
    requires Plain(p, v, orders) && LegalFrom(s, v.shift.start)
    ensures NoWorse(r, s, v.shift.start)
  {
    var t := TripOf(p, v, orders);
    PlainIsSameDay(p, v, orders, path);
    PlainIsSameDay(p, v, orders, other);
    PlainIsTimeless(p, v, orders);
    CheapestOnTrip(t, answer, path, r, other, s);
    SameDayIsPlain(t, path, r);
  }

  lemma {:induction false} CheapestOnTrip(t: Trip, answer: Option<Path>, path: Path, r: Round, other: Path, s: Round)
    requires Valid(t) && Timeless(t) && |t.stops| > 0
    requires Simple(t, path) && SameDay(t, path, r) && Simple(t, other) && SameDay(t, other, s)
    requires PrunedAnswer(t, answer) && (answer.Some? ==> path == answer.value)
    requires LegalFrom(s, s.shift.start)
    ensures LegalFrom(r, r.shift.start) && TravelTime(r) <= TravelTime(s)
  {
    LegalIsSchedulable(t, path, r);
    LegalIsSchedulable(t, other, s);
    AnswerIsCheapest(t, answer, other);
  }

  /** What polishing promises against any other order of the same stops. */
  ghost predicate Polished(r: Round, s: Round, start: int, shift: nat) {
    LegalFrom(r, start + shift) && Shortest(r, start, shift) && TravelTime(r) <= TravelTime(s)
  }

  lemma {:induction false} NoWorseIsPolished(r: Round, start: int, shift: nat)
    requires IsShift(r, start, shift)
    ensures forall s :: NoWorse(r, s, start) ==> Polished(r, s, start, shift)
  {
    forall s | NoWorse(r, s, start)
      ensures Polished(r, s, start, shift)
    {
      DepartureIsBest(r, start, shift);
    }
  }

  lemma {:induction false} SequenceShift(p: Problem, v: Vehicle, orders: seq<Order>, path: Path, r: Round)
    requires IsSequence(p, v, orders, path, r)
    ensures r.shift == v.shift
  {
  }

  /** `polish_route` without driving-hours rules. On a plain instance of up to
      fourteen stops that have some legal order, the polished route is legal at its
      departure, drives no longer than any legal order, and has the shortest duty its
      order allows, leaving no later than that duty needs. */
  method PolishRoute(p: Problem, v: Vehicle, orders: seq<Order>)
    returns (path: Path, ghost r: Round, departure: int)
    requires Drivable(p, v, orders)
    ensures departure >= v.shift.start
    ensures orders == [] ==> path == [] && departure == v.shift.start
    ensures orders != [] ==> IsSequence(p, v, orders, path, r) && Chosen(p, v, orders, path)
    ensures orders != [] ==> IsShift(r, v.shift.start, departure - v.shift.start)
    ensures 0 < |orders| <= MAX_DP_STOPS && Plain(p, v, orders) ==>
      forall other, s :: IsSequence(p, v, orders, other, s) && LegalFrom(s, v.shift.start) ==>
        Polished(r, s, v.shift.start, departure - v.shift.start)
  {
    hide Polished, NoWorse, Plain, IsSequence, LegalFrom, IsShift, Drivable, Chosen;
    if orders == [] {
      r := Round([], 0, v.shift);
      return [], r, v.shift.start;
    }
    var order, round := BestOrder(p, v, orders);
    SequenceShift(p, v, orders, order, round);
    departure := OptimalDeparture(round);
    path, r := order, round;
    ghost var shift := departure - v.shift.start;
    NoWorseIsPolished(r, v.shift.start, shift);
  }
}
