/** What the sequencing of vrp/polish.py promises, said over the instance itself: its places, its matrix, its
    windows and the van's shift. The search works on a resolved trip (`Tsptw.TripOf`); here a route is a
    sequence of orders. */
module Sequencing {
  import opened Common
  import opened TimeDependent
  import opened Model
  import opened Tsptw

  // ------------------------------------------------------------------
  // A day on the instance
  // ------------------------------------------------------------------

  /** Where an order is served: its delivery's place, or its pickup's when it has no delivery. */
  function PlaceOf(o: Order): Id {
    if o.delivery.Some? then o.delivery.value.location else o.pickup.value.location
  }

  function Home(v: Vehicle): Id {
    if v.endLocation.Some? then v.endLocation.value else v.startLocation
  }

  /** The places of a round: where the van starts, each order's, and where it ends. */
  function Places(v: Vehicle, route: seq<Order>): (places: seq<Id>)
    ensures |places| == |route| + 2
  {
    [v.startLocation] + seq(|route|, k requires 0 <= k < |route| => PlaceOf(route[k])) + [Home(v)]
  }

  /** The matrix has the duration from one place to the other. */
  ghost predicate Road(p: Problem, from: Id, to: Id) {
    from in p.locations && to in p.locations && Reachable(p, p.locations[from].matrixIndex, p.locations[to].matrixIndex)
  }

  /** Every leg of the round can be driven. */
  ghost predicate Joined(p: Problem, v: Vehicle, route: seq<Order>) {
    forall k, next :: 0 <= k <= |route| && next == k + 1 ==> Road(p, Places(v, route)[k], Places(v, route)[next])
  }

  /** The `k`-th leg of the round, left at this moment. */
  ghost function LegTime(p: Problem, v: Vehicle, route: seq<Order>, k: nat, depart: int): nat
    requires Joined(p, v, route) && k <= |route|
  {
    var from, to := Places(v, route)[k], Places(v, route)[k + 1];
    TravelBetween(p, p.locations[from].matrixIndex, p.locations[to].matrixIndex, depart)
  }

  /** The first opening among an order's hard windows; any time when it has none. */
  function Opens(o: Order): int {
    var hard := HardOnly((if o.delivery.Some? then o.delivery.value else o.pickup.value).windows);
    if hard == [] then 0 else FirstOpening(hard)
  }

  /** The last closing among an order's hard windows; the end of the shift when it has none. */
  function Closes(o: Order, v: Vehicle): int {
    var hard := HardOnly((if o.delivery.Some? then o.delivery.value else o.pickup.value).windows);
    if hard == [] then v.shift.end else LastClosing(hard)
  }

  /** When the van is free again after its first `k` orders. */
  ghost function Ready(p: Problem, v: Vehicle, route: seq<Order>, k: nat): int
    requires Joined(p, v, route) && k <= |route|
    decreases k, 0
  {
    if k == 0 then v.shift.start
    else
      assert Road(p, Places(v, route)[k - 1], Places(v, route)[k]);
      Start(p, v, route, k - 1) + ServiceTime(route[k - 1], v, p.locations[Places(v, route)[k]])
  }

  /** When its `k`-th order is begun: on arrival, or at the first opening. */
  ghost function Start(p: Problem, v: Vehicle, route: seq<Order>, k: nat): int
    requires Joined(p, v, route) && k < |route|
    decreases k, 1
  {
    var ready := Ready(p, v, route, k);
    Max(ready + LegTime(p, v, route, k, ready), Opens(route[k]))
  }

  /** Every order begins before its last closing and the van is home before its shift ends. */
  ghost predicate LegalRoute(p: Problem, v: Vehicle, route: seq<Order>)
    requires Joined(p, v, route)
  {
    && OnTime(p, v, route, |route|)
    && var ready := Ready(p, v, route, |route|);
       ready + LegTime(p, v, route, |route|, ready) <= v.shift.end
  }

  ghost predicate OnTime(p: Problem, v: Vehicle, route: seq<Order>, k: nat)
    requires Joined(p, v, route) && k <= |route|
  {
    forall i :: 0 <= i < k ==> Start(p, v, route, i) <= Closes(route[i], v)
  }

  /** The time spent driving on the first `k` legs. */
  ghost function Driven(p: Problem, v: Vehicle, route: seq<Order>, k: nat): nat
    requires Joined(p, v, route) && k <= |route| + 1
  {
    if k == 0 then 0 else Driven(p, v, route, k - 1) + LegTime(p, v, route, k - 1, Ready(p, v, route, k - 1))
  }

  /** The matrix's own durations along the first `k` legs. */
  ghost function MatrixSum(p: Problem, v: Vehicle, route: seq<Order>, k: nat): int
    requires Joined(p, v, route) && k <= |route| + 1
  {
    if k == 0 then 0
    else
      var from, to := Places(v, route)[k - 1], Places(v, route)[k];
      assert Road(p, from, to);
      MatrixSum(p, v, route, k - 1) + p.matrix.durations[p.locations[from].matrixIndex][p.locations[to].matrixIndex]
  }

  ghost predicate NoProfiles(p: Problem) {
    p.speedProfile.None? && p.speedProfiles.None?
  }

  /** Without profiles a round takes the durations of the matrix. */
  lemma {:induction false} DrivenOnMatrix(p: Problem, v: Vehicle, route: seq<Order>, k: nat)
    requires Joined(p, v, route) && k <= |route| + 1 && NoProfiles(p)
    ensures Driven(p, v, route, k) == MatrixSum(p, v, route, k)
  {
    if k > 0 {
      DrivenOnMatrix(p, v, route, k - 1);
    }
  }

  // ------------------------------------------------------------------
  // Rearranging the orders
  // ------------------------------------------------------------------

  /** Each of the first `n` numbers once. */
  ghost predicate Permutes(path: seq<nat>, n: nat) {
    && |path| == n && NoRepeats(path)
    && forall k :: 0 <= k < |path| ==> path[k] < n
  }

  function Along(orders: seq<Order>, path: seq<nat>): (route: seq<Order>)
    requires forall k :: 0 <= k < |path| ==> path[k] < |orders|
    ensures |route| == |path| && forall k :: 0 <= k < |path| ==> route[k] == orders[path[k]]
  {
    seq(|path|, k requires 0 <= k < |path| => orders[path[k]])
  }

  /** From the van's start to every order, between any two of them, and from each to the van's end there
      is a road, and the orders' windows are in order. */
  ghost predicate Connected(p: Problem, v: Vehicle, orders: seq<Order>) {
    && v.startLocation in p.locations && Home(v) in p.locations
    && (forall i :: 0 <= i < |orders| ==> Sited(p, orders[i]))
    && (forall i :: 0 <= i < |orders| ==>
          Road(p, v.startLocation, PlaceOf(orders[i])) && Road(p, PlaceOf(orders[i]), Home(v)))
    && (forall i, j :: 0 <= i < |orders| && 0 <= j < |orders| && i != j ==> Road(p, PlaceOf(orders[i]), PlaceOf(orders[j])))
  }

  /** The search may be asked exactly when the roads are there. */
  lemma {:induction false} ConnectedIsValid(p: Problem, v: Vehicle, orders: seq<Order>)
    requires v.startLocation in p.locations && EndsAt(v) in p.locations
    requires forall k :: 0 <= k < |orders| ==> Sited(p, orders[k])
    ensures Connected(p, v, orders) <==> Valid(TripOf(p, v, orders))
  {
    var t := TripOf(p, v, orders);
    assert forall k :: 0 <= k < |orders| ==> t.stops[k] == p.locations[PlaceOf(orders[k])].matrixIndex;
  }

  /** Two different orders of a rearrangement are two different orders of the list. */
  lemma {:induction false} AlongIsJoined(p: Problem, v: Vehicle, orders: seq<Order>, path: seq<nat>)
    requires Connected(p, v, orders) && orders != [] && Permutes(path, |orders|)
    ensures Joined(p, v, Along(orders, path))
  {
    var route := Along(orders, path);
    forall k, next | 0 <= k <= |route| && next == k + 1
      ensures Road(p, Places(v, route)[k], Places(v, route)[next])
    {
      if 0 < k < |route| {
        assert path[k - 1] != path[k];
      }
    }
  }

  // ------------------------------------------------------------------
  // The search's labels are the instance's clock
  // ------------------------------------------------------------------

  /** The trip's stop visited `k`-th is the round's `k`-th order. */
  ghost predicate SameStop(t: Trip, path: Path, p: Problem, v: Vehicle, route: seq<Order>, k: nat)
    requires k < |path| == |route| && Joined(p, v, route)
  {
    var place := Places(v, route)[k + 1];
    assert Road(p, Places(v, route)[k], place);
    && path[k] < |t.stops| == |t.facts|
    && t.stops[path[k]] == p.locations[place].matrixIndex
    && t.facts[path[k]].service == ServiceTime(route[k], v, p.locations[place])
    && t.facts[path[k]].opens == Opens(route[k])
    && t.facts[path[k]].closes == Closes(route[k], v)
  }

  /** The trip, visited along `path`, is the round on the instance. */
  ghost predicate Describes(t: Trip, path: Path, p: Problem, v: Vehicle, route: seq<Order>)
    requires Joined(p, v, route)
  {
    && t.problem == p && t.depart == v.shift.start && t.shiftEnd == v.shift.end
    && |path| == |route| == |t.stops|
    && v.startLocation in p.locations && t.start == p.locations[v.startLocation].matrixIndex
    && Home(v) in p.locations && t.end == p.locations[Home(v)].matrixIndex
    && forall k :: 0 <= k < |path| ==> SameStop(t, path, p, v, route, k)
  }

  lemma {:induction false} TripDescribes(p: Problem, v: Vehicle, orders: seq<Order>, path: Path)
    requires Connected(p, v, orders) && Permutes(path, |orders|) && Joined(p, v, Along(orders, path))
    ensures Describes(TripOf(p, v, orders), path, p, v, Along(orders, path))
  {
    hide Joined, ServiceTime;
    var t, route := TripOf(p, v, orders), Along(orders, path);
    forall k | 0 <= k < |path|
      ensures SameStop(t, path, p, v, route, k)
    {
      assert t.facts[path[k]] == ServiceAndWindow(p, v, orders[path[k]]);
    }
  }

  ghost function RouteLabel(p: Problem, v: Vehicle, route: seq<Order>, path: Path, k: nat): Option<Label>
    requires Joined(p, v, route) && k <= |route| == |path|
  {
    if OnTime(p, v, route, k) then Some(Label(Driven(p, v, route, k), Ready(p, v, route, k), path[..k])) else None
  }

  /** What the search makes of the next order. */
  ghost function Onward(t: Trip, p: Problem, v: Vehicle, route: seq<Order>, path: Path, k: nat): Option<Label>
    requires Joined(p, v, route) && Describes(t, path, p, v, route) && k < |path|
  {
    assert SameStop(t, path, p, v, route, k);
    var ready := Ready(p, v, route, k);
    Arrive(t, Driven(p, v, route, k), ready, LegTime(p, v, route, k, ready), path[..k], path[k])
  }

  lemma {:induction false} LabelStep(t: Trip, p: Problem, v: Vehicle, route: seq<Order>, path: Path, k: nat)
    requires Joined(p, v, route) && Describes(t, path, p, v, route) && k < |path|
    ensures RouteLabel(p, v, route, path, k + 1)
         == if RouteLabel(p, v, route, path, k).None? then None else Onward(t, p, v, route, path, k)
  {
    hide ServiceTime, TravelBetween, Opens, Closes, Places, Joined;
    assert SameStop(t, path, p, v, route, k);
    assert path[..k + 1] == path[..k] + [path[k]];
  }

  lemma {:induction false} FirstIsOnward(t: Trip, p: Problem, v: Vehicle, route: seq<Order>, path: Path)
    requires Joined(p, v, route) && Describes(t, path, p, v, route) && Valid(t) && |path| > 0
    ensures path[0] < |t.stops| && First(t, path[0]) == Onward(t, p, v, route, path, 0)
  {
    hide ServiceTime, TravelBetween, Opens, Closes, Joined;
    assert SameStop(t, path, p, v, route, 0);
    assert path[..0] == [];
  }

  lemma {:induction false} ExtendIsOnward(t: Trip, p: Problem, v: Vehicle, route: seq<Order>, path: Path, k: nat)
    requires Joined(p, v, route) && Describes(t, path, p, v, route) && Valid(t) && 0 < k < |path|
    requires path[k - 1] != path[k] && RouteLabel(p, v, route, path, k).Some?
    ensures var l := RouteLabel(p, v, route, path, k).value;
            Extendable(t, l, path[k]) && Extend(t, l, path[k]) == Onward(t, p, v, route, path, k)
  {
    hide ServiceTime, TravelBetween, Opens, Closes, Joined, OnTime, Ready, Driven;
    assert SameStop(t, path, p, v, route, k) && SameStop(t, path, p, v, route, k - 1);
  }

  lemma {:induction false} TraceIsRoute(t: Trip, p: Problem, v: Vehicle, route: seq<Order>, path: Path, k: nat)
    requires Joined(p, v, route) && Describes(t, path, p, v, route) && Valid(t) && Simple(t, path) && 0 < k <= |path|
    requires |path| == |route|
    ensures Simple(t, path[..k])
    ensures Trace(t, path[..k]) == RouteLabel(p, v, route, path, k)
    decreases k
  {
    hide Arrive, OnTime, Driven, Ready, Valid, Onward, Joined, Describes, RouteLabel, First, Extend;
    LabelStep(t, p, v, route, path, k - 1);
    if k == 1 {
      assert path[..1] == [path[0]];
      LabelAtStart(p, v, route, path);
      FirstIsOnward(t, p, v, route, path);
    } else {
      TraceIsRoute(t, p, v, route, path, k - 1);
      assert path[..k] == path[..k - 1] + [path[k - 1]];
      TraceOfMore(t, path[..k], path[..k - 1], path[k - 1]);
      assert path[k - 2] != path[k - 1];
      if RouteLabel(p, v, route, path, k - 1).Some? {
        ExtendIsOnward(t, p, v, route, path, k - 1);
      }
    }
  }

  lemma {:induction false} LabelAtStart(p: Problem, v: Vehicle, route: seq<Order>, path: Path)
    requires Joined(p, v, route) && |route| == |path|
    ensures RouteLabel(p, v, route, path, 0).Some?
  {
  }

  lemma {:induction false} LegalOnRoute(t: Trip, p: Problem, v: Vehicle, route: seq<Order>, path: Path)
    requires Joined(p, v, route) && Describes(t, path, p, v, route) && Valid(t) && Simple(t, path)
    ensures Legal(t, path) <==> LegalRoute(p, v, route)
    ensures Legal(t, path) ==> Total(t, path) == Driven(p, v, route, |route| + 1)
  {
    hide ServiceTime, TravelBetween, OnTime, Ready, Valid, Joined;
    TraceIsRoute(t, p, v, route, path, |path|);
    assert path[..|path|] == path;
    assert SameStop(t, path, p, v, route, |path| - 1);
  }

  /** The search calls legal exactly the rearrangements whose day on the instance is, and its total is the
      time they drive. */
  lemma {:induction false} LegalMeans(p: Problem, v: Vehicle, orders: seq<Order>, t: Trip, path: Path)
    requires Asked(p, v, orders, t)
    ensures Legal(t, path) <==> LegalAlong(p, v, orders, path)
    ensures Legal(t, path) ==> Total(t, path) == TimeAlong(p, v, orders, path)
  {
    hide LegalRoute, Connected, Joined, Driven, Describes, Trace;
    if Permutes(path, |orders|) {
      AlongIsJoined(p, v, orders, path);
      TripDescribes(p, v, orders, path);
      assert |path| == |Along(orders, path)|;
      LegalOnRoute(t, p, v, Along(orders, path), path);
    }
  }

  // ------------------------------------------------------------------
  // The answer
  // ------------------------------------------------------------------

  /** A legal day along this rearrangement. */
  ghost predicate LegalAlong(p: Problem, v: Vehicle, orders: seq<Order>, path: seq<nat>) {
    && Permutes(path, |orders|) && Joined(p, v, Along(orders, path))
    && LegalRoute(p, v, Along(orders, path))
  }

  /** Travel on no arc depends on when it is driven. */
  ghost predicate DepartureFree(p: Problem) {
    forall origin: nat, destination: nat :: Reachable(p, origin, destination) ==> Steady(p, origin, destination)
  }

  ghost function TimeAlong(p: Problem, v: Vehicle, orders: seq<Order>, path: seq<nat>): nat
    requires LegalAlong(p, v, orders, path)
  {
    Driven(p, v, Along(orders, path), |orders| + 1)
  }

  ghost function DistanceAlong(p: Problem, v: Vehicle, orders: seq<Order>, path: seq<nat>): int
    requires LegalAlong(p, v, orders, path)
  {
    MatrixSum(p, v, Along(orders, path), |orders| + 1)
  }

  lemma {:induction false} NoProfilesAreSteady(p: Problem)
    requires NoProfiles(p)
    ensures DepartureFree(p)
  {
  }

  /** There is something to sequence and every road it may need. */
  ghost predicate Asked(p: Problem, v: Vehicle, orders: seq<Order>, t: Trip) {
    orders != [] && Connected(p, v, orders) && EndsAt(v) in p.locations && t == TripOf(p, v, orders) && Valid(t)
  }

  lemma {:induction false} SteadyIsTimeless(p: Problem, v: Vehicle, orders: seq<Order>, t: Trip)
    requires Asked(p, v, orders, t) && DepartureFree(p)
    ensures Timeless(t)
  {
    hide Steady, Connected, Reachable;
  }

  /** Nothing legal on the instance drives less than the search's answer. */
  lemma {:induction false} AnswerOnInstance(p: Problem, v: Vehicle, orders: seq<Order>, t: Trip, path: Path, other: Path)
    requires Asked(p, v, orders, t)
    requires PrunedAnswer(t, Some(path))
    requires LegalAlong(p, v, orders, path) && LegalAlong(p, v, orders, other)
    ensures DepartureFree(p) ==> TimeAlong(p, v, orders, path) <= TimeAlong(p, v, orders, other)
    ensures NoProfiles(p) ==> DistanceAlong(p, v, orders, path) <= DistanceAlong(p, v, orders, other)
  {
    hide PrunedAnswer, TripOf, LegalRoute, Connected, Joined, Driven, MatrixSum, Permutes, DepartureFree;
    LegalMeans(p, v, orders, t, path);
    LegalMeans(p, v, orders, t, other);
    if NoProfiles(p) {
      NoProfilesAreSteady(p);
      DrivenOnMatrix(p, v, Along(orders, path), |orders| + 1);
      DrivenOnMatrix(p, v, Along(orders, other), |orders| + 1);
    }
    if DepartureFree(p) {
      SteadyIsTimeless(p, v, orders, t);
      AnswerIsCheapest(t, Some(path), other);
    }
  }

  lemma {:induction false} LegalEverywhere(p: Problem, v: Vehicle, orders: seq<Order>, t: Trip)
    requires Asked(p, v, orders, t)
    ensures forall path :: Legal(t, path) <==> LegalAlong(p, v, orders, path)
  {
    forall path
      ensures Legal(t, path) <==> LegalAlong(p, v, orders, path)
    {
      LegalMeans(p, v, orders, t, path);
    }
  }

  /** `tsptw_sequence`: the identifiers along a legal rearrangement of the orders, or None when the route is
      too long or no rearrangement is legal. Whenever travel does not depend on the departure no legal
      rearrangement drives less; without profiles, by the durations of the matrix. */
  method TsptwSequence(p: Problem, v: Vehicle, orders: seq<Order>) returns (ids: Option<seq<Id>>, ghost path: seq<nat>)
    requires Connected(p, v, orders)
    ensures |orders| == 0 || |orders| > 14 ==> ids == None
    ensures 0 < |orders| <= 14 ==> (ids.None? <==> !exists other :: LegalAlong(p, v, orders, other))
    ensures ids.Some? ==> LegalAlong(p, v, orders, path)
    ensures ids.Some? ==> |ids.value| == |path| && forall k :: 0 <= k < |path| ==> ids.value[k] == orders[path[k]].id
    ensures (ids.Some? && DepartureFree(p) ==>
               forall other :: LegalAlong(p, v, orders, other) ==>
                 TimeAlong(p, v, orders, path) <= TimeAlong(p, v, orders, other))
    ensures (ids.Some? && NoProfiles(p) ==>
               forall other :: LegalAlong(p, v, orders, other) ==>
                 DistanceAlong(p, v, orders, path) <= DistanceAlong(p, v, orders, other))
  {
    hide PrunedAnswer, Legal, LegalRoute, DepartureFree, NoProfiles, TimeAlong, DistanceAlong, Joined;
    ConnectedIsValid(p, v, orders);
    var t := TripOf(p, v, orders);
    hide TripOf, Connected, Valid;
    var answer := Sequence(t);
    path := if answer.Some? then answer.value else [];
    if 0 < |orders| <= MAX_DP_STOPS {
      AnswerIsLegal(t, answer);
      LegalEverywhere(p, v, orders, t);
    }
    if answer.None? {
      return None, path;
    }
    forall other | LegalAlong(p, v, orders, other)
      ensures DepartureFree(p) ==> TimeAlong(p, v, orders, path) <= TimeAlong(p, v, orders, other)
      ensures NoProfiles(p) ==> DistanceAlong(p, v, orders, path) <= DistanceAlong(p, v, orders, other)
    {
      AnswerOnInstance(p, v, orders, t, path, other);
    }
    return Some(OrdersAlong(orders, answer.value)), path;
  }
}
