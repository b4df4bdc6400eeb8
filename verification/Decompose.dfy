/** Cluster-first partitioning (`partition`, `_cut_by_demand` and `_assign_vehicles` of
    vrp/decompose.py). The sweep is any rearrangement of its stops and every rounding of a
    float any whole number: nothing proved here rests on either. */
module Decompose {
  import opened Common
  import opened Model

  function Demand(p: Problem, id: Id): nat {
    var o := OrderOf(p.orders, id);
    if o.Some? then SumOver(o.value.quantities, o.value.quantities.Keys) else 0
  }

  /** Demand of the first `k` stops. */
  function LoadTo(p: Problem, ids: seq<Id>, k: nat): nat
    requires k <= |ids|
  {
    if k == 0 then 0 else LoadTo(p, ids, k - 1) + Demand(p, ids[k - 1])
  }

  function Load(p: Problem, ids: seq<Id>): nat {
    LoadTo(p, ids, |ids|)
  }

  function Joined<T>(groups: seq<seq<T>>): seq<T> {
    if groups == [] then [] else Joined(groups[..|groups| - 1]) + groups[|groups| - 1]
  }

  lemma {:induction false} JoinedGrows<T>(groups: seq<seq<T>>, last: seq<T>)
    ensures Joined(groups + [last]) == Joined(groups) + last
  {
    assert (groups + [last])[..|groups|] == groups;
  }

  // ------------------------------------------------------------------
  // Cutting a sweep
  // ------------------------------------------------------------------

  /** A new run is due before stop `k`: the runs so far have had their share of the demand, there
      are runs left to fill and more than enough stops to fill them. */
  predicate Due(p: Problem, ordered: seq<Id>, groups: int, runs: nat, k: nat)
    requires k <= |ordered|
  {
    LoadTo(p, ordered, k) * groups >= Load(p, ordered) * runs && groups - runs > 0 && |ordered| - k > groups - runs
  }

  /** No new run is due strictly inside a stretch. */
  ghost predicate NoneDue(p: Problem, ordered: seq<Id>, groups: int, runs: nat, from: int, to: int)
    requires 0 <= from && to <= |ordered|
  {
    forall j :: from < j < to ==> !Due(p, ordered, groups, runs, j)
  }

  /** The first `k` stops, run after run, counting from `counted` earlier runs: each run after the
      first starts where one is due, and goes on while none is. */
  ghost predicate Runs(p: Problem, ordered: seq<Id>, groups: int, counted: nat, cuts: seq<seq<Id>>, k: int) {
    if cuts == [] then k == 0
    else
      var front, run := cuts[..|cuts| - 1], cuts[|cuts| - 1];
      var from := k - |run|;
      && 0 <= from <= k <= |ordered| && run == ordered[from..k]
      && (front != [] ==> Due(p, ordered, groups, counted + |front|, from))
      && NoneDue(p, ordered, groups, counted + |cuts|, from, k)
      && Runs(p, ordered, groups, counted, front, from)
  }

  lemma {:induction false} RunsJoin(p: Problem, ordered: seq<Id>, groups: int, counted: nat, cuts: seq<seq<Id>>, k: int)
    requires Runs(p, ordered, groups, counted, cuts, k)
    ensures 0 <= k <= |ordered| && Joined(cuts) == ordered[..k]
  {
    hide Due, NoneDue;
    if cuts != [] {
      RunsJoin(p, ordered, groups, counted, cuts[..|cuts| - 1], k - |cuts[|cuts| - 1]|);
    }
  }

  /** A run starts as early as it may: the runs before it have had their share of the demand by
      then, and had not before their last stop, unless the run just closed is that stop alone. */
  lemma {:induction false} MarksAreFair(p: Problem, ordered: seq<Id>, groups: int, counted: nat, cuts: seq<seq<Id>>,
                                        mark: int)
    requires Runs(p, ordered, groups, counted, cuts, mark) && cuts != []
    requires 0 <= mark <= |ordered| && Due(p, ordered, groups, counted + |cuts|, mark)
    ensures LoadTo(p, ordered, mark) * groups >= Load(p, ordered) * (counted + |cuts|)
    ensures |cuts[|cuts| - 1]| > 1 ==>
      mark > 0 && LoadTo(p, ordered, mark - 1) * groups < Load(p, ordered) * (counted + |cuts|)
  {
    if |cuts[|cuts| - 1]| > 1 {
      assert !Due(p, ordered, groups, counted + |cuts|, mark - 1);
    }
  }

  ghost predicate OnlyFirstEmpty(cuts: seq<seq<Id>>) {
    forall i :: 1 <= i < |cuts| ==> cuts[i] != []
  }

  /** What the loop has settled before stop `k`. The first run is empty only when another is due at
      once, which takes a sweep without demand. */
  ghost predicate Cutting(p: Problem, ordered: seq<Id>, groups: int, cuts: seq<seq<Id>>, k: nat) {
    && k <= |ordered| && 1 <= |cuts| <= groups
    && Runs(p, ordered, groups, 0, cuts, k) && OnlyFirstEmpty(cuts)
    && (k > 0 ==> (cuts[0] == [] <==> Due(p, ordered, groups, 1, 0)) && cuts[|cuts| - 1] != [])
    && (k == 0 ==> cuts == [[]])
  }

  lemma {:induction false} CutHere(p: Problem, ordered: seq<Id>, groups: int, cuts: seq<seq<Id>>, k: nat)
    requires Cutting(p, ordered, groups, cuts, k) && k < |ordered| && Due(p, ordered, groups, |cuts|, k)
    ensures Cutting(p, ordered, groups, cuts + [[ordered[k]]], k + 1)
  {
    var next := cuts + [[ordered[k]]];
    assert next[..|cuts|] == cuts && next[|cuts|] == [ordered[k]];
  }

  lemma {:induction false} CarryOn(p: Problem, ordered: seq<Id>, groups: int, cuts: seq<seq<Id>>, k: nat)
    requires Cutting(p, ordered, groups, cuts, k) && k < |ordered| && !Due(p, ordered, groups, |cuts|, k)
    ensures Cutting(p, ordered, groups, cuts[|cuts| - 1 := cuts[|cuts| - 1] + [ordered[k]]], k + 1)
  {
    hide Due;
    var last := |cuts| - 1;
    var next := cuts[last := cuts[last] + [ordered[k]]];
    assert next[..last] == cuts[..last];
  }

  function NonEmpty(cuts: seq<seq<Id>>): seq<seq<Id>> {
    if cuts == [] then []
    else if cuts[0] == [] then NonEmpty(cuts[1..])
    else [cuts[0]] + NonEmpty(cuts[1..])
  }

  ghost predicate Solid(cuts: seq<seq<Id>>) {
    forall i :: 0 <= i < |cuts| ==> cuts[i] != []
  }

  lemma {:induction false} AllKept(cuts: seq<seq<Id>>)
    requires Solid(cuts)
    ensures NonEmpty(cuts) == cuts
  {
    if cuts != [] {
      AllKept(cuts[1..]);
    }
  }

  /** An empty first run can be dropped, if it is still counted. */
  lemma {:induction false} DropFirst(p: Problem, ordered: seq<Id>, groups: int, cuts: seq<seq<Id>>, k: int)
    requires Runs(p, ordered, groups, 0, cuts, k) && cuts != [] && cuts[0] == []
    ensures Runs(p, ordered, groups, 1, cuts[1..], k)
  {
    hide Due, NoneDue;
    if |cuts| > 1 {
      var front, run := cuts[..|cuts| - 1], cuts[|cuts| - 1];
      DropFirst(p, ordered, groups, front, k - |run|);
      assert cuts[1..][..|cuts| - 2] == front[1..];
    }
  }

  /** How many runs are counted before the first: one when a second run is due before any stop. */
  function CountedFirst(p: Problem, ordered: seq<Id>, groups: int): nat {
    if Due(p, ordered, groups, 1, 0) then 1 else 0
  }

  /** Every run has a stop, and together they are the sweep, cut exactly where a run is due. */
  ghost predicate CutsWhereDue(p: Problem, ordered: seq<Id>, groups: int, cuts: seq<seq<Id>>) {
    Solid(cuts) && Runs(p, ordered, groups, CountedFirst(p, ordered, groups), cuts, |ordered|)
  }

  lemma {:induction false} Finished(p: Problem, ordered: seq<Id>, groups: int, cuts: seq<seq<Id>>)
    requires Cutting(p, ordered, groups, cuts, |ordered|) && ordered != []
    ensures CutsWhereDue(p, ordered, groups, NonEmpty(cuts)) && |NonEmpty(cuts)| <= groups
  {
    hide Runs, Due;
    if cuts[0] == [] {
      DropFirst(p, ordered, groups, cuts, |ordered|);
      AllKept(cuts[1..]);
    } else {
      AllKept(cuts);
    }
  }

  /** `_cut_by_demand`: the sweep in at most `groups` runs, cut exactly where the shares say. */
  method CutByDemand(p: Problem, ordered: seq<Id>, groups: int) returns (cuts: seq<seq<Id>>)
    requires ordered != [] && NoRepeats(ordered)
    ensures CutsWhereDue(p, ordered, groups, cuts)
    ensures |cuts| <= Max(groups, 1)
  {
    hide Load, LoadTo, Due, Cutting, CutsWhereDue;
    if groups <= 1 {
      WholeSweep(p, ordered, groups);
      return [ordered];
    }
    cuts := [[]];
    var running := 0;
    StartCutting(p, ordered, groups);
    for k := 0 to |ordered|
      invariant running == LoadTo(p, ordered, k)
      invariant Cutting(p, ordered, groups, cuts, k)
    {
      StartMeans(p, ordered, groups, cuts, k);
      var remaining := groups - |cuts|;
      if running * groups >= Load(p, ordered) * |cuts| && remaining > 0 && |ordered| - k > remaining {
        CutHere(p, ordered, groups, cuts, k);
        cuts := cuts + [[ordered[k]]];
      } else {
        CarryOn(p, ordered, groups, cuts, k);
        cuts := cuts[|cuts| - 1 := cuts[|cuts| - 1] + [ordered[k]]];
      }
      running := running + Demand(p, ordered[k]);
      LoadStep(p, ordered, k);
    }
    Finished(p, ordered, groups, cuts);
    cuts := NonEmpty(cuts);
  }

  lemma {:induction false} LoadStep(p: Problem, ordered: seq<Id>, k: nat)
    requires k < |ordered|
    ensures LoadTo(p, ordered, k + 1) == LoadTo(p, ordered, k) + Demand(p, ordered[k])
  {
  }

  lemma {:induction false} WholeSweep(p: Problem, ordered: seq<Id>, groups: int)
    requires ordered != [] && groups <= 1
    ensures CutsWhereDue(p, ordered, groups, [ordered])
  {
    assert [ordered][..0] == [];
    assert !Due(p, ordered, groups, 1, 0);
    assert Runs(p, ordered, groups, 0, [], 0);
  }

  lemma {:induction false} StartCutting(p: Problem, ordered: seq<Id>, groups: int)
    requires groups > 1
    ensures Cutting(p, ordered, groups, [[]], 0) && LoadTo(p, ordered, 0) == 0
  {
    var cuts: seq<seq<Id>> := [[]];
    assert cuts[..0] == [];
    assert Runs(p, ordered, groups, 0, [], 0);
  }

  lemma {:induction false} StartMeans(p: Problem, ordered: seq<Id>, groups: int, cuts: seq<seq<Id>>, k: nat)
    requires k <= |ordered| && Cutting(p, ordered, groups, cuts, k)
    ensures |cuts| >= 1
    ensures Due(p, ordered, groups, |cuts|, k) <==>
      LoadTo(p, ordered, k) * groups >= Load(p, ordered) * |cuts| && groups - |cuts| > 0 && |ordered| - k > groups - |cuts|
  {
  }

  // ------------------------------------------------------------------
  // Sharing out the fleet
  // ------------------------------------------------------------------

  function Sum(shares: seq<int>): int {
    if shares == [] then 0 else Sum(shares[..|shares| - 1]) + shares[|shares| - 1]
  }

  lemma {:induction false} SumAfter(shares: seq<int>, i: nat, x: int)
    requires i < |shares|
    ensures Sum(shares[i := x]) == Sum(shares) - shares[i] + x
  {
    var last := |shares| - 1;
    if i < last {
      SumAfter(shares[..last], i, x);
      assert shares[i := x][..last] == shares[..last][i := x];
    } else {
      assert shares[i := x][..last] == shares[..last];
    }
  }

  ghost predicate AtLeastOne(shares: seq<int>) {
    forall i :: 0 <= i < |shares| ==> shares[i] >= 1
  }

  lemma {:induction false} SumOfSmall(shares: seq<int>)
    requires forall i :: 0 <= i < |shares| ==> shares[i] <= 1
    ensures Sum(shares) <= |shares|
  {
    if shares != [] {
      SumOfSmall(shares[..|shares| - 1]);
    }
  }

  /** `xs.index(max(xs))`: the first of the largest. */
  function FirstLargest(xs: seq<int>): nat
    requires xs != []
  {
    if |xs| == 1 then 0
    else
      var i := FirstLargest(xs[..|xs| - 1]);
      if i < |xs| && xs[|xs| - 1] > xs[i] then |xs| - 1 else i
  }

  lemma {:induction false} FirstLargestMeans(xs: seq<int>)
    requires xs != []
    ensures var i := FirstLargest(xs); i < |xs| && forall j :: 0 <= j < |xs| ==> xs[j] <= xs[i]
    ensures var i := FirstLargest(xs); forall j :: 0 <= j < i ==> xs[j] < xs[i]
  {
    if |xs| > 1 {
      FirstLargestMeans(xs[..|xs| - 1]);
    }
  }

  /** Where a share was cut, it was among the largest: none is left more than one above it. */
  ghost predicate CutFromTop(rounded: seq<int>, shares: seq<int>) {
    && |shares| == |rounded|
    && (forall i :: 0 <= i < |shares| ==> shares[i] <= rounded[i])
    && (forall i, j :: 0 <= i < |shares| && 0 <= j < |shares| && shares[i] < rounded[i] ==> shares[j] <= shares[i] + 1)
  }

  /** The first settlement loop: more handed out than there are vehicles. */
  method CutShares(rounded: seq<int>, vehicles: nat) returns (shares: seq<int>)
    requires AtLeastOne(rounded) && |rounded| <= vehicles
    ensures AtLeastOne(shares) && CutFromTop(rounded, shares)
    ensures Sum(rounded) > vehicles ==> Sum(shares) == vehicles
    ensures Sum(rounded) <= vehicles ==> shares == rounded
  {
    shares := rounded;
    while Sum(shares) > vehicles
      invariant AtLeastOne(shares) && CutFromTop(rounded, shares)
      invariant Sum(rounded) > vehicles ==> Sum(shares) >= vehicles
      invariant Sum(rounded) <= vehicles ==> shares == rounded
      decreases Sum(shares)
    {
      if shares == [] || forall i :: 0 <= i < |shares| ==> shares[i] <= 1 {
        SumOfSmall(shares);
      }
      FirstLargestMeans(shares);
      var i := FirstLargest(shares);
      SumAfter(shares, i, shares[i] - 1);
      shares := shares[i := shares[i] - 1];
    }
  }

  /** The shares that settle the rounding: all of the fleet, one vehicle at least to each cluster,
      an excess taken from the largest shares and a shortfall given to the largest load. */
  ghost predicate Settles(rounded: seq<int>, loads: seq<nat>, vehicles: nat, shares: seq<int>)
    requires |rounded| == |loads|
  {
    && |shares| == |rounded| && AtLeastOne(shares) && Sum(shares) == vehicles
    && (Sum(rounded) >= vehicles ==> CutFromTop(rounded, shares))
    && (Sum(rounded) < vehicles && rounded != [] ==>
          forall i :: 0 <= i < |shares| && i != FirstLargest(loads) ==> shares[i] == rounded[i])
  }

  method SettleShares(rounded: seq<int>, loads: seq<nat>, vehicles: nat) returns (shares: seq<int>)
    requires AtLeastOne(rounded) && 1 <= |rounded| == |loads| <= vehicles
    ensures Settles(rounded, loads, vehicles, shares)
  {
    shares := CutShares(rounded, vehicles);
    FirstLargestMeans(loads);
    while Sum(shares) < vehicles
      invariant |shares| == |rounded| && AtLeastOne(shares) && Sum(shares) <= vehicles
      invariant Sum(rounded) >= vehicles ==> CutFromTop(rounded, shares) && Sum(shares) == vehicles
      invariant Sum(rounded) < vehicles ==>
        forall i :: 0 <= i < |shares| && i != FirstLargest(loads) ==> shares[i] == rounded[i]
      decreases vehicles - Sum(shares)
    {
      var i := FirstLargest(loads);
      SumAfter(shares, i, shares[i] + 1);
      shares := shares[i := shares[i] + 1];
    }
  }

  /** Consecutive stretches of the fleet, none empty, together all of it. */
  ghost predicate Fleets(fleet: seq<Id>, fleets: seq<seq<Id>>, shares: seq<int>) {
    && |fleets| == |shares| && Joined(fleets) == fleet
    && forall i :: 0 <= i < |fleets| ==> |fleets[i]| == shares[i] >= 1
  }

  method Deal(fleet: seq<Id>, shares: seq<int>) returns (fleets: seq<seq<Id>>)
    requires AtLeastOne(shares) && Sum(shares) == |fleet|
    ensures Fleets(fleet, fleets, shares)
  {
    fleets := [];
    var cursor := 0;
    for k := 0 to |shares|
      invariant |fleets| == k && 0 <= cursor == Sum(shares[..k]) <= |fleet|
      invariant Joined(fleets) == fleet[..cursor]
      invariant forall i :: 0 <= i < k ==> |fleets[i]| == shares[i] >= 1
    {
      assert shares[..k + 1][..k] == shares[..k];
      SumOfPrefix(shares, k + 1);
      var next := fleet[cursor..cursor + shares[k]];
      JoinedGrows(fleets, next);
      fleets := fleets + [next];
      cursor := cursor + shares[k];
    }
    assert shares[..|shares|] == shares;
  }

  lemma {:induction false} SumOfPrefix(shares: seq<int>, k: nat)
    requires AtLeastOne(shares) && k <= |shares|
    ensures Sum(shares[..k]) <= Sum(shares)
    decreases |shares|
  {
    if k < |shares| {
      SumOfPrefix(shares[..|shares| - 1], k);
      assert shares[..|shares| - 1][..k] == shares[..k];
    } else {
      assert shares[..k] == shares;
    }
  }

  function Floored(rounded: seq<int>): seq<int> {
    seq(|rounded|, i requires 0 <= i < |rounded| => Max(1, rounded[i]))
  }

  /** `_assign_vehicles`, whatever the proportional shares were rounded to. */
  method AssignVehicles(fleet: seq<Id>, loads: seq<nat>, rounded: seq<int>)
    returns (r: Result<seq<seq<Id>>>, ghost shares: seq<int>)
    requires |rounded| == |loads|
    ensures r.Success? <==> |loads| <= |fleet| && (loads == [] ==> fleet == [])
    ensures r.Success? ==> Fleets(fleet, r.value, shares) && Settles(Floored(rounded), loads, |fleet|, shares)
  {
    shares := [];
    if |fleet| < |loads| {
      return Failure("more clusters than vehicles"), shares;
    }
    if loads == [] {
      if fleet == [] {
        return Success([]), [];
      }
      return Failure("no largest load among no clusters"), shares;
    }
    var settled := SettleShares(Floored(rounded), loads, |fleet|);
    var fleets := Deal(fleet, settled);
    return Success(fleets), settled;
  }

  // ------------------------------------------------------------------
  // The partition
  // ------------------------------------------------------------------

  datatype SubProblem = SubProblem(index: nat, orders: seq<Id>, vehicles: seq<Id>)

  /** When the order's day starts. */
  function Opens(o: Order): int {
    if StopOf(o).windows == [] then 0 else StopOf(o).windows[0].start
  }

  lemma {:induction false} OpensFirst(o: Order)
    ensures var windows := (if o.delivery.Some? then o.delivery.value else o.pickup.value).windows;
            Opens(o) == if windows == [] then 0 else windows[0].start
  {
  }

  /** The orders whose day starts at one of these instants. */
  function OpeningAt(orders: seq<Order>, instants: set<int>): seq<Id> {
    if orders == [] then []
    else
      var front, o := OpeningAt(orders[..|orders| - 1], instants), orders[|orders| - 1];
      if Opens(o) in instants then front + [o.id] else front
  }

  function OrderIds(orders: seq<Order>): seq<Id> {
    seq(|orders|, k requires 0 <= k < |orders| => orders[k].id)
  }

  function VehicleIds(vs: seq<Vehicle>): seq<Id> {
    seq(|vs|, k requires 0 <= k < |vs| => vs[k].id)
  }

  lemma {:induction false} OpeningSplits(orders: seq<Order>, some: set<int>, other: set<int>)
    requires some !! other
    ensures multiset(OpeningAt(orders, some + other)) == multiset(OpeningAt(orders, some)) + multiset(OpeningAt(orders, other))
  {
    if orders != [] {
      OpeningSplits(orders[..|orders| - 1], some, other);
    }
  }

  lemma {:induction false} OpeningAll(orders: seq<Order>, instants: set<int>)
    requires forall o :: o in orders ==> Opens(o) in instants
    ensures OpeningAt(orders, instants) == OrderIds(orders)
  {
    if orders != [] {
      OpeningAll(orders[..|orders| - 1], instants);
      assert OrderIds(orders) == OrderIds(orders[..|orders| - 1]) + [orders[|orders| - 1].id];
    }
  }

  lemma {:induction false} OpeningMembers(orders: seq<Order>, instants: set<int>)
    ensures forall id :: id in OpeningAt(orders, instants) ==>
      exists o :: o in orders && o.id == id && Opens(o) in instants
    ensures OpeningAt(orders, instants) == [] ==> forall o :: o in orders ==> Opens(o) !in instants
  {
    if orders != [] {
      var front, o := orders[..|orders| - 1], orders[|orders| - 1];
      OpeningMembers(front, instants);
      assert orders == front + [o];
    }
  }

  lemma {:induction false} OpeningDistinct(orders: seq<Order>, instants: set<int>)
    requires DistinctOrders(orders)
    ensures NoRepeats(OpeningAt(orders, instants))
  {
    if orders != [] {
      var front, o := orders[..|orders| - 1], orders[|orders| - 1];
      OpeningDistinct(front, instants);
      OpeningMembers(front, instants);
      var before := OpeningAt(front, instants);
      assert forall x :: x in front ==> x.id != o.id;
      assert o.id !in before;
      assert forall i :: 0 <= i < |before| ==> before[i] in before;
    }
  }

  function Bag(ids: seq<Id>): multiset<Id> {
    multiset(ids)
  }

  /** A rearrangement of the stops it is given. */
  ghost predicate Rearranges(sweep: seq<Id> -> seq<Id>) {
    forall ids: seq<Id> :: Bag(sweep(ids)) == Bag(ids)
  }

  lemma {:induction false} RearrangedDistinct(a: seq<Id>, b: seq<Id>)
    requires multiset(a) == multiset(b) && NoRepeats(b)
    ensures NoRepeats(a) && |a| == |b|
  {
    assert |multiset(a)| == |a| && |multiset(b)| == |b|;
    forall i, j | 0 <= i < j < |a|
      ensures a[i] != a[j]
    {
      if a[i] == a[j] {
        TwiceCounts(a, i, j);
        OneOccurrence(b, a[i]);
      }
    }
  }

  lemma {:induction false} TwiceCounts(a: seq<Id>, i: nat, j: nat)
    requires i < j < |a| && a[i] == a[j]
    ensures multiset(a)[a[i]] >= 2
  {
    assert a == a[..j] + [a[j]] + a[j + 1..];
    assert a[i] in a[..j];
  }

  lemma {:induction false} OpeningStep(orders: seq<Order>, k: nat, t: int)
    requires k < |orders|
    ensures OpeningAt(orders[..k + 1], {t})
         == OpeningAt(orders[..k], {t}) + (if Opens(orders[k]) == t then [orders[k].id] else [])
  {
    assert orders[..k + 1][..k] == orders[..k] && orders[..k + 1][k] == orders[k];
  }

  /** `by_window`, filled order by order. */
  method ByWindow(orders: seq<Order>) returns (byWindow: map<int, seq<Id>>)
    ensures forall t :: t in byWindow <==> OpeningAt(orders, {t}) != []
    ensures forall t :: t in byWindow ==> byWindow[t] == OpeningAt(orders, {t})
  {
    hide OpeningAt, Opens;
    byWindow := map[];
    NoneOpening();
    for k := 0 to |orders|
      invariant forall t :: t in byWindow <==> OpeningAt(orders[..k], {t}) != []
      invariant forall t :: t in byWindow ==> byWindow[t] == OpeningAt(orders[..k], {t})
    {
      var o := orders[k];
      var windows := (if o.delivery.Some? then o.delivery.value else o.pickup.value).windows;
      var t := if windows == [] then 0 else windows[0].start;
      OpensFirst(o);
      forall u
        ensures OpeningAt(orders[..k + 1], {u})
             == OpeningAt(orders[..k], {u}) + (if Opens(o) == u then [o.id] else [])
      {
        OpeningStep(orders, k, u);
      }
      byWindow := byWindow[t := (if t in byWindow then byWindow[t] else []) + [o.id]];
    }
    assert orders[..|orders|] == orders;
  }

  lemma {:induction false} NoneOpening()
    ensures forall t: int :: OpeningAt([], {t}) == []
  {
  }

  lemma {:induction false} JoinedAppends(a: seq<seq<Id>>, b: seq<seq<Id>>)
    ensures Joined(a + b) == Joined(a) + Joined(b)
  {
    if b == [] {
      assert a + b == a;
    } else {
      var front, last := b[..|b| - 1], b[|b| - 1];
      JoinedAppends(a, front);
      assert (a + b)[..|a + b| - 1] == a + front && (a + b)[|a + b| - 1] == last;
      assert Joined(a + b) == Joined(a + front) + last && Joined(b) == Joined(front) + last;
    }
  }

  /** Every stop of the cluster opens at the same instant. */
  ghost predicate OneWindow(orders: seq<Order>, cluster: seq<Id>) {
    exists t :: forall id :: id in cluster ==> id in OpeningAt(orders, {t})
  }

  /** The clusters hold, once each, the orders opening at these instants. */
  ghost predicate Clusters(orders: seq<Order>, instants: set<int>, groups: seq<seq<Id>>) {
    && Bag(Joined(groups)) == Bag(OpeningAt(orders, instants))
    && Solid(groups)
    && forall i :: 0 <= i < |groups| ==> OneWindow(orders, groups[i])
  }

  lemma {:induction false} NoClusters(orders: seq<Order>)
    ensures Clusters(orders, {}, [])
  {
    OpeningMembers(orders, {});
    if OpeningAt(orders, {}) != [] {
      HasMember(OpeningAt(orders, {}));
    }
  }

  lemma {:induction false} JoinedHolds(groups: seq<seq<Id>>, i: nat, id: Id)
    requires i < |groups| && id in groups[i]
    ensures id in Joined(groups)
  {
    if i < |groups| - 1 {
      JoinedHolds(groups[..|groups| - 1], i, id);
    }
  }

  lemma {:induction false} SameBag(a: seq<Id>, b: seq<Id>, id: Id)
    requires Bag(a) == Bag(b) && id in a
    ensures id in b
  {
    assert id in Bag(a);
  }

  lemma {:induction false} CutsAreClusters(p: Problem, t: int, ordered: seq<Id>, groups: int, cuts: seq<seq<Id>>)
    requires Bag(ordered) == Bag(OpeningAt(p.orders, {t})) && CutsWhereDue(p, ordered, groups, cuts)
    ensures Clusters(p.orders, {t}, cuts)
  {
    RunsJoin(p, ordered, groups, CountedFirst(p, ordered, groups), cuts, |ordered|);
    assert ordered[..|ordered|] == ordered;
    forall i | 0 <= i < |cuts|
      ensures OneWindow(p.orders, cuts[i])
    {
      forall id | id in cuts[i]
        ensures id in OpeningAt(p.orders, {t})
      {
        JoinedHolds(cuts, i, id);
        SameBag(ordered, OpeningAt(p.orders, {t}), id);
      }
    }
  }

  lemma {:induction false} ClustersGrow(orders: seq<Order>, instants: set<int>, groups: seq<seq<Id>>, t: int,
                                        cuts: seq<seq<Id>>)
    requires t !in instants && Clusters(orders, instants, groups) && Clusters(orders, {t}, cuts)
    ensures Clusters(orders, instants + {t}, groups + cuts)
  {
    hide OneWindow, OpeningAt;
    OpeningSplits(orders, instants, {t});
    JoinedAppends(groups, cuts);
  }

  lemma {:induction false} AllClusters(orders: seq<Order>, instants: set<int>, groups: seq<seq<Id>>)
    requires Clusters(orders, instants, groups)
    requires forall t :: t in instants <==> OpeningAt(orders, {t}) != []
    ensures Bag(Joined(groups)) == Bag(OrderIds(orders))
    ensures groups == [] <==> orders == []
  {
    forall o | o in orders
      ensures Opens(o) in instants
    {
      OpeningMembers(orders, {Opens(o)});
    }
    OpeningAll(orders, instants);
    assert |Bag(Joined(groups))| == |Joined(groups)| && |Bag(OrderIds(orders))| == |orders|;
    if groups != [] {
      assert groups[|groups| - 1] != [];
    }
  }

  /** The orders of one opening instant, swept and cut where runs are due. */
  ghost predicate CutWindow(p: Problem, groupsFor: nat -> int, sweep: seq<Id> -> seq<Id>, t: int, cuts: seq<seq<Id>>) {
    var members := OpeningAt(p.orders, {t});
    CutsWhereDue(p, sweep(members), Max(1, groupsFor(|members|)), cuts)
  }

  /** The clusters are the cuts of one opening instant after another. */
  ghost predicate WindowByWindow(p: Problem, groupsFor: nat -> int, sweep: seq<Id> -> seq<Id>, instants: seq<int>,
                                 groups: seq<seq<Id>>)
  {
    if instants == [] then groups == []
    else exists front, cuts ::
      && groups == front + cuts && WindowByWindow(p, groupsFor, sweep, instants[..|instants| - 1], front)
      && CutWindow(p, groupsFor, sweep, instants[|instants| - 1], cuts)
  }

  lemma {:induction false} NextWindow(p: Problem, groupsFor: nat -> int, sweep: seq<Id> -> seq<Id>, instants: seq<int>,
                                      k: nat, front: seq<seq<Id>>, cuts: seq<seq<Id>>)
    requires k < |instants| && WindowByWindow(p, groupsFor, sweep, instants[..k], front)
    requires CutWindow(p, groupsFor, sweep, instants[k], cuts)
    ensures WindowByWindow(p, groupsFor, sweep, instants[..k + 1], front + cuts)
  {
    assert instants[..k + 1][..k] == instants[..k];
  }

  /** The instants at which some order's day starts, in order. */
  function Openings(orders: seq<Order>): seq<int> {
    Sorted(set o | o in orders :: Opens(o))
  }

  /** The three passes before the fleet is shared: by opening instant, swept, cut by demand. */
  method Cluster(p: Problem, groupsFor: nat -> int, sweep: seq<Id> -> seq<Id>) returns (groups: seq<seq<Id>>)
    requires DistinctOrders(p.orders) && Rearranges(sweep)
    ensures Bag(Joined(groups)) == Bag(OrderIds(p.orders)) && Solid(groups)
    ensures forall i :: 0 <= i < |groups| ==> OneWindow(p.orders, groups[i])
    ensures groups == [] <==> p.orders == []
    ensures WindowByWindow(p, groupsFor, sweep, Openings(p.orders), groups)
  {
    hide OpeningAt, Clusters, OneWindow, CutsWhereDue, DistinctOrders, Solid, Bag, WindowByWindow, CutWindow;
    var byWindow := ByWindow(p.orders);
    var instants := Sorted(byWindow.Keys);
    SortedMeans(byWindow.Keys);
    KeysAreOpenings(p.orders, byWindow.Keys);
    NoWindows(p, groupsFor, sweep);
    assert instants[..0] == [];
    groups := [];
    NoClusters(p.orders);
    assert Firsts(instants, 0) == {};
    for k := 0 to |instants|
      invariant Clusters(p.orders, Firsts(instants, k), groups)
      invariant WindowByWindow(p, groupsFor, sweep, instants[..k], groups)
    {
      var t := instants[k];
      assert t in instants;
      var members := byWindow[t];
      var ordered := sweep(members);
      OpeningDistinct(p.orders, {t});
      SweptDistinct(ordered, members);
      var cuts := CutByDemand(p, ordered, Max(1, groupsFor(|members|)));
      CutsAreClusters(p, t, ordered, Max(1, groupsFor(|members|)), cuts);
      NextFirst(instants, k);
      ClustersGrow(p.orders, Firsts(instants, k), groups, t, cuts);
      IsCutWindow(p, groupsFor, sweep, t, cuts);
      NextWindow(p, groupsFor, sweep, instants, k, groups, cuts);
      groups := groups + cuts;
    }
    assert instants[..|instants|] == instants;
    assert Firsts(instants, |instants|) == byWindow.Keys;
    AllClusters(p.orders, byWindow.Keys, groups);
    ClustersMeans(p.orders, byWindow.Keys, groups);
  }

  lemma {:induction false} IsCutWindow(p: Problem, groupsFor: nat -> int, sweep: seq<Id> -> seq<Id>, t: int,
                                       cuts: seq<seq<Id>>)
    requires CutsWhereDue(p, sweep(OpeningAt(p.orders, {t})), Max(1, groupsFor(|OpeningAt(p.orders, {t})|)), cuts)
    ensures CutWindow(p, groupsFor, sweep, t, cuts)
  {
  }

  lemma {:induction false} NoWindows(p: Problem, groupsFor: nat -> int, sweep: seq<Id> -> seq<Id>)
    ensures WindowByWindow(p, groupsFor, sweep, [], [])
  {
  }

  lemma {:induction false} KeysAreOpenings(orders: seq<Order>, keys: set<int>)
    requires forall t :: t in keys <==> OpeningAt(orders, {t}) != []
    ensures Sorted(keys) == Openings(orders)
  {
    forall t
      ensures t in keys <==> exists o :: o in orders && Opens(o) == t
    {
      OpeningMembers(orders, {t});
      if OpeningAt(orders, {t}) != [] {
        HasMember(OpeningAt(orders, {t}));
      }
    }
    assert keys == set o | o in orders :: Opens(o);
  }

  ghost function Firsts(xs: seq<int>, k: nat): set<int>
    requires k <= |xs|
  {
    set i | 0 <= i < k :: xs[i]
  }

  lemma {:induction false} NextFirst(xs: seq<int>, k: nat)
    requires Ascending(xs) && k < |xs|
    ensures Firsts(xs, k + 1) == Firsts(xs, k) + {xs[k]} && xs[k] !in Firsts(xs, k)
  {
  }

  lemma {:induction false} SweptDistinct(ordered: seq<Id>, members: seq<Id>)
    requires Bag(ordered) == Bag(members) && NoRepeats(members) && members != []
    ensures NoRepeats(ordered) && ordered != []
  {
    RearrangedDistinct(ordered, members);
  }

  lemma {:induction false} ClustersMeans(orders: seq<Order>, instants: set<int>, groups: seq<seq<Id>>)
    requires Clusters(orders, instants, groups)
    ensures Solid(groups) && forall i :: 0 <= i < |groups| ==> OneWindow(orders, groups[i])
  {
  }

  function Loads(p: Problem, groups: seq<seq<Id>>): seq<nat> {
    seq(|groups|, i requires 0 <= i < |groups| => Load(p, groups[i]))
  }

  function RoundedShares(loads: seq<nat>, shareOf: nat -> int): seq<int> {
    seq(|loads|, i requires 0 <= i < |loads| => shareOf(loads[i]))
  }

  /** Every order in exactly one cluster, whose stops open together; the fleet shared out whole,
      at least one vehicle to a cluster. */
  ghost predicate Partitioned(p: Problem, parts: seq<SubProblem>) {
    && (forall i :: 0 <= i < |parts| ==>
          parts[i].index == i && parts[i].orders != [] && parts[i].vehicles != [] && OneWindow(p.orders, parts[i].orders))
    && Bag(Joined(OrdersOf(parts))) == Bag(OrderIds(p.orders))
    && Joined(FleetsOf(parts)) == VehicleIds(p.vehicles)
  }

  function OrdersOf(parts: seq<SubProblem>): seq<seq<Id>> {
    seq(|parts|, i requires 0 <= i < |parts| => parts[i].orders)
  }

  function FleetsOf(parts: seq<SubProblem>): seq<seq<Id>> {
    seq(|parts|, i requires 0 <= i < |parts| => parts[i].vehicles)
  }

  /** `partition`, for any sweep that rearranges its stops and any rounding of the wanted
      number of runs and of the proportional shares. */
  method Partition(p: Problem, groupsFor: nat -> int, sweep: seq<Id> -> seq<Id>, shareOf: nat -> int)
    returns (r: Result<seq<SubProblem>>, groups: seq<seq<Id>>)
    requires DistinctOrders(p.orders) && Rearranges(sweep)
    ensures Bag(Joined(groups)) == Bag(OrderIds(p.orders)) && Solid(groups)
    ensures WindowByWindow(p, groupsFor, sweep, Openings(p.orders), groups)
    ensures r.Success? <==> |groups| <= |p.vehicles| && (p.orders == [] ==> p.vehicles == [])
    ensures r.Success? ==> Partitioned(p, r.value) && OrdersOf(r.value) == groups
    ensures r.Success? && groups != [] ==>
      exists shares :: Fleets(VehicleIds(p.vehicles), FleetsOf(r.value), shares)
        && Settles(Floored(RoundedShares(Loads(p, groups), shareOf)), Loads(p, groups), |p.vehicles|, shares)
  {
    hide OneWindow, Settles, Rearranges, Load, Bag, WindowByWindow, Openings;
    groups := Cluster(p, groupsFor, sweep);
    var loads := Loads(p, groups);
    var fleets, shares := AssignVehicles(VehicleIds(p.vehicles), loads, RoundedShares(loads, shareOf));
    if fleets.Failure? {
      return Failure(fleets.reason), groups;
    }
    var parts := seq(|groups|, i requires 0 <= i < |groups| => SubProblem(i, groups[i], fleets.value[i]));
    assert OrdersOf(parts) == groups && FleetsOf(parts) == fleets.value;
    return Success(parts), groups;
  }
}
