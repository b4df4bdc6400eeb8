/** How far the pruned search is optimal (vrp/polish.py:277-286).

    Its documentation argues that no-passing keeps the pruning optimal under a
    speed profile. It does not: the search minimises the sum of leg durations, and
    an earlier label can enter slower traffic. For every profile, the search is
    optimal on all instances exactly when no arc's travel depends on its departure. */
module TsptwOptimality {
  import opened Common
  import opened TimeDependent
  import opened Model
  import opened Tsptw

  ghost predicate DepartureFree(p: Profile) {
    forall freeFlow: nat, a, b :: Travel(p, freeFlow, a) == Travel(p, freeFlow, b)
  }

  ghost predicate Under(t: Trip, p: Profile) {
    Valid(t) && 0 < |t.stops| <= MAX_DP_STOPS
    && t.problem.speedProfiles.None? && t.problem.speedProfile == Some(p)
  }

  ghost predicate NeverBeaten(t: Trip, answer: Option<Path>)
    requires Valid(t)
  {
    forall path :: Legal(t, path) ==>
      answer.Some? && Legal(t, answer.value) && Total(t, answer.value) <= Total(t, path)
  }

  /** What the search is given: a sound instance under the profile, one of its vehicles, and some of
      its orders. */
  ghost predicate Posed(q: Problem, v: Vehicle, orders: seq<Order>, p: Profile) {
    && WellFormed(q) && DistinctPlaces(q) && DistinctOrders(q.orders) && v in q.vehicles
    && (forall k :: 0 <= k < |orders| ==> orders[k] in q.orders && Sited(q, orders[k]))
    && Under(TripOf(q, v, orders), p)
  }

  ghost predicate AlwaysOptimal(p: Profile) {
    forall q, v, orders, answer :: Posed(q, v, orders, p) && PrunedAnswer(TripOf(q, v, orders), answer) ==>
      NeverBeaten(TripOf(q, v, orders), answer)
  }

  lemma {:induction false} FreeIsTimeless(t: Trip, p: Profile)
    requires Under(t, p) && DepartureFree(p)
    ensures Timeless(t)
  {
    forall o: nat, d: nat | Reachable(t.problem, o, d)
      ensures Steady(t.problem, o, d)
    {
    }
  }

  // ------------------------------------------------------------------
  // The instance on which pruning costs the optimum
  // ------------------------------------------------------------------

  /** An earlier departure that pays more than a later one. */
  lemma {:induction false} EarlierCanCostMore(p: Profile) returns (freeFlow: nat, early: int, late: int)
    requires !DepartureFree(p)
    ensures early < late && Travel(p, freeFlow, early) > Travel(p, freeFlow, late)
  {
    var f: nat, a, b :| Travel(p, f, a) != Travel(p, f, b);
    freeFlow := f;
    var slow, fast := if Travel(p, f, a) > Travel(p, f, b) then a else b,
                      if Travel(p, f, a) > Travel(p, f, b) then b else a;
    early := slow;
    if slow < fast {
      late := fast;
    } else {
      var days := slow - fast + 1;
      TravelRepeats(p, fast, f * PPT, days);
      MulMonotone(1, Span(p), days);
      late := fast + days * Span(p);
      assert days <= days * Span(p);
    }
  }

  /** Depot 0 and stops 1, 2, 3 a moment apart; only the way home costs anything. */
  function Durations(home: nat, far: nat): seq<seq<int>> {
    [[0, 0, 0, 0], [far, 0, 0, 0], [far, 0, 0, 0], [home, 0, 0, 0]]
  }

  function Opens(i: nat, early: int, late: int): int {
    if i == 0 then early else early - (late - early)
  }

  function Service(i: nat, early: int, late: int): int {
    if i == 1 then late - early else 0
  }

  /** Stop `i + 1`: the first opens at `early`; the second takes `late - early` to serve. */
  function DuelOrder(i: nat, early: int, late: int): Order
    requires early < late
  {
    var window: TimeWindow := WindowSpec(Opens(i, early, late), early + 3 * (late - early), Hard);
    OrderSpec(i, map[], None, Some(Stop(i + 1, [window], Service(i, early, late), 0, None)), 0, 0, 0, {}, None, {})
  }

  function DuelOrders(early: int, late: int): seq<Order>
    requires early < late
  {
    [DuelOrder(0, early, late), DuelOrder(1, early, late), DuelOrder(2, early, late)]
  }

  ghost function DuelVan(p: Profile, home: nat, early: int, late: int): Vehicle
    requires early < late
  {
    var shift: TimeWindow := WindowSpec(early - (late - early), late + Travel(p, home, late), Hard);
    Vehicle(0, map[], shift, 0, None, {}, 1000, None, None, None, None, 0, 0, 0, 0, 0, 0)
  }

  function At(i: nat): Location {
    Location(i, i, 0, None, None, {}, None)
  }

  ghost function Instance(p: Profile, home: nat, far: nat, early: int, late: int): Problem
    requires early < late
  {
    Problem(map[0 := At(0), 1 := At(1), 2 := At(2), 3 := At(3)], DuelOrders(early, late), [DuelVan(p, home, early, late)],
            Matrix(Durations(home, far), Durations(0, 0)), [], Some(p), None)
  }

  lemma {:induction false} DuelFacts(p: Profile, home: nat, far: nat, early: int, late: int, i: nat)
    requires early < late && i < 3
    ensures var q, o := Instance(p, home, far, early, late), DuelOrder(i, early, late);
            && Sited(q, o) && NodeOf(q, o) == i + 1
            && ServiceAndWindow(q, DuelVan(p, home, early, late), o)
            == Facts(Service(i, early, late), Opens(i, early, late), early + 3 * (late - early))
  {
    var window: TimeWindow := WindowSpec(Opens(i, early, late), early + 3 * (late - early), Hard);
    assert [window][1..] == [] && HardOnly([window]) == [window];
  }

  lemma {:induction false} InstanceIsProper(p: Profile, home: nat, far: nat, early: int, late: int)
    requires early < late
    ensures var q := Instance(p, home, far, early, late);
            && WellFormed(q) && DistinctPlaces(q) && DistinctOrders(q.orders) && DuelVan(p, home, early, late) in q.vehicles
            && forall k :: 0 <= k < 3 ==> DuelOrders(early, late)[k] in q.orders && Sited(q, DuelOrders(early, late)[k])
  {
    var q := Instance(p, home, far, early, late);
    DuelFacts(p, home, far, early, late, 0);
    DuelFacts(p, home, far, early, late, 1);
    DuelFacts(p, home, far, early, late, 2);
    assert q.vehicles[0] == DuelVan(p, home, early, late);
    assert forall k :: 0 <= k < 3 ==> q.orders[k] == DuelOrders(early, late)[k] == DuelOrder(k, early, late);
  }

  /** The trip the search makes of it: three stops a moment apart. */
  ghost function Duel(p: Profile, home: nat, far: nat, early: int, late: int): (t: Trip)
    requires early < late
    ensures Under(t, p)
  {
    var gap := late - early;
    var closes := early + 3 * gap;
    Trip(Instance(p, home, far, early, late), 0, 0, [1, 2, 3],
         [Facts(0, early, closes), Facts(gap, early - gap, closes), Facts(0, early - gap, closes)],
         early - gap, late + Travel(p, home, late))
  }

  lemma {:induction false} DuelIsPosed(p: Profile, home: nat, far: nat, early: int, late: int)
    requires early < late
    ensures var q, v, orders := Instance(p, home, far, early, late), DuelVan(p, home, early, late), DuelOrders(early, late);
            Posed(q, v, orders, p) && TripOf(q, v, orders) == Duel(p, home, far, early, late)
  {
    hide Sited, WellFormed, DistinctPlaces, ServiceAndWindow, NodeOf, Instance, DuelOrder;
    var q, v, orders := Instance(p, home, far, early, late), DuelVan(p, home, early, late), DuelOrders(early, late);
    InstanceIsProper(p, home, far, early, late);
    DuelEnds(p, home, far, early, late);
    var t := TripOf(q, v, orders);
    forall i: nat | i < 3
      ensures t.stops[i] == i + 1 && t.facts[i] == Duel(p, home, far, early, late).facts[i]
    {
      assert orders[i] == DuelOrder(i, early, late);
      DuelFacts(p, home, far, early, late, i);
    }
    assert t.stops == [1, 2, 3] && t.facts == Duel(p, home, far, early, late).facts;
  }

  lemma {:induction false} DuelEnds(p: Profile, home: nat, far: nat, early: int, late: int)
    requires early < late
    ensures var q, v := Instance(p, home, far, early, late), DuelVan(p, home, early, late);
            && v.startLocation in q.locations && EndsAt(v) in q.locations
            && q.locations[v.startLocation].matrixIndex == 0 && q.locations[EndsAt(v)].matrixIndex == 0
            && v.shift.start == early - (late - early) && v.shift.end == late + Travel(p, home, late)
  {
  }

  /** What the instance is built for: three stops a moment apart, with these facts. */
  ghost predicate Clustered(t: Trip, early: int, late: int) {
    && early < late
    && Valid(t) && |t.stops| == 3
    && t.depart == early - (late - early)
    && (forall i :: 0 <= i < 3 ==>
          t.facts[i] == Facts(Service(i, early, late), Opens(i, early, late), early + 3 * (late - early)))
    && (forall i :: 0 <= i < 3 ==> TravelBetween(t.problem, t.start, t.stops[i], t.depart) == 0)
    && (forall i, j, depart :: 0 <= i < 3 && 0 <= j < 3 && i != j ==>
          TravelBetween(t.problem, t.stops[i], t.stops[j], depart) == 0)
  }

  lemma {:induction false} DuelIsClustered(p: Profile, home: nat, far: nat, early: int, late: int)
    requires early < late
    ensures Clustered(Duel(p, home, far, early, late), early, late)
  {
  }

  /** One more stop costs nothing: it is served when ready, once it opens. */
  lemma {:induction false} StepCost(t: Trip, early: int, late: int, path: Path, front: Path, ready: int, i: nat)
    requires Clustered(t, early, late)
    requires Simple(t, path) && front != [] && path == front + [i] && Simple(t, front) && i < 3
    requires Trace(t, front) == Some(Label(0, ready, front))
    requires ready <= early + 3 * (late - early)
    ensures Trace(t, path) == Some(Label(0, Max(ready, Opens(i, early, late)) + Service(i, early, late), path))
  {
    TraceOfMore(t, path, front, i);
    assert Last(front) in front;
    assert TravelBetween(t.problem, t.stops[Last(front)], t.stops[i], ready) == 0;
  }

  lemma {:induction false} FirstCost(t: Trip, early: int, late: int, i: nat)
    requires Clustered(t, early, late) && i < 3
    ensures Simple(t, [i])
    ensures Trace(t, [i]) == Some(Label(0, Opens(i, early, late) + Service(i, early, late), [i]))
  {
  }

  /** Every sequence is traced, free, and ready in time. */
  lemma {:induction false} AllTraced(t: Trip, early: int, late: int, path: Path)
    requires Clustered(t, early, late) && Simple(t, path) && |path| <= 3
    ensures var l := Trace(t, path);
            l.Some? && l.value.cost == 0
            && l.value.ready <= (if |path| == 1 then early else if |path| == 2 then late else late + (late - early))
    decreases |path|
  {
    if |path| == 1 {
      assert path == [path[0]];
      FirstCost(t, early, late, path[0]);
    } else {
      var front := path[..|path| - 1];
      AllTraced(t, early, late, front);
      assert path == front + [Last(path)];
      StepCost(t, early, late, path, front, Trace(t, front).value.ready, Last(path));
    }
  }

  const ALL := {0, 1, 2}
  const LATE_FIRST: Path := [0, 1, 2]
  const EARLY_FIRST: Path := [1, 0, 2]

  lemma {:induction false} SimplePair(t: Trip, i: nat, j: nat)
    requires |t.stops| == 3 && i < 3 && j < 3 && i != j
    ensures Simple(t, [i, j]) && [i, j] == [i] + [j]
  {
  }

  lemma {:induction false} SimpleTriple(t: Trip, i: nat, j: nat, k: nat)
    requires |t.stops| == 3 && i < 3 && j < 3 && k < 3 && i != j && i != k && j != k
    ensures Simple(t, [i, j, k]) && [i, j, k] == [i, j] + [k]
  {
  }

  lemma {:induction false} PairTrace(t: Trip, early: int, late: int, i: nat, j: nat, ready: int)
    requires Clustered(t, early, late) && i < 3 && j < 3 && i != j
    requires ready == Max(Opens(i, early, late) + Service(i, early, late), Opens(j, early, late))
                      + Service(j, early, late)
    ensures Simple(t, [i, j]) && Trace(t, [i, j]) == Some(Label(0, ready, [i, j]))
  {
    FirstCost(t, early, late, i);
    SimplePair(t, i, j);
    StepCost(t, early, late, [i, j], [i], Opens(i, early, late) + Service(i, early, late), j);
  }

  lemma {:induction false} TripleTrace(t: Trip, early: int, late: int, i: nat, j: nat, k: nat, before: int, ready: int)
    requires Clustered(t, early, late)
    requires i < 3 && j < 3 && k < 3 && i != j && i != k && j != k
    requires Simple(t, [i, j]) && Trace(t, [i, j]) == Some(Label(0, before, [i, j]))
    requires before <= early + 3 * (late - early)
    requires ready == Max(before, Opens(k, early, late)) + Service(k, early, late)
    ensures Simple(t, [i, j, k]) && Trace(t, [i, j, k]) == Some(Label(0, ready, [i, j, k]))
  {
    SimpleTriple(t, i, j, k);
    StepCost(t, early, late, [i, j, k], [i, j], before, k);
  }

  /** Serving the slow stop second makes the van late at the third; serving it first does not. */
  lemma {:induction false} TripleTraces(t: Trip, early: int, late: int)
    requires Clustered(t, early, late)
    ensures Simple(t, LATE_FIRST) && Trace(t, LATE_FIRST) == Some(Label(0, late, LATE_FIRST))
    ensures Simple(t, EARLY_FIRST) && Trace(t, EARLY_FIRST) == Some(Label(0, early, EARLY_FIRST))
  {
    PairTrace(t, early, late, 0, 1, late);
    TripleTrace(t, early, late, 0, 1, 2, late, late);
    PairTrace(t, early, late, 1, 0, early);
    TripleTrace(t, early, late, 1, 0, 2, early, early);
  }

  lemma {:induction false} ThreeStops(t: Trip, path: Path)
    requires |t.stops| == 3 && Simple(t, path) && |path| == 3
    ensures path in {[0, 1, 2], [1, 0, 2], [0, 2, 1], [2, 0, 1], [1, 2, 0], [2, 1, 0]}
    ensures Elements(path) == ALL
  {
    assert path == [path[0], path[1], path[2]];
  }

  /** The answer is free so far and is not the sequence that is late at the third stop. */
  lemma {:induction false} AnswerIsNotLate(t: Trip, early: int, late: int, path: Path)
    requires Clustered(t, early, late) && PrunedAnswer(t, Some(path))
    ensures Simple(t, path) && |path| == 3 && path != LATE_FIRST
    ensures Trace(t, path).Some? && Trace(t, path).value.cost == 0
  {
    TripleTraces(t, early, late);
    var table: Table, best: Option<nat> :|
      Layer(t, table, 3) && Complete(t, table, 3) && Picks(t, table, Some(path), best);
    var key, k :| key in table && 0 <= k < |table[key]| && InTimeAt(t, table, key, k)
      && table[key][k].path == path && TotalAt(t, table, key, k) == best.value;
    LateIsPruned(t, table, key, k, early, late);
    assert Filed(t, key, table[key][k], 3);
    AllTraced(t, early, late, path);
  }

  /** Whatever the pruned search answers, it goes home at the dear moment or from a far stop. */
  lemma {:induction false} DuelAnswerIsDear(p: Profile, home: nat, far: nat, early: int, late: int, answer: Option<Path>)
    requires early < late && Travel(p, home, early) > Travel(p, home, late)
    requires forall depart :: Travel(p, far, depart) > Travel(p, home, late)
    requires PrunedAnswer(Duel(p, home, far, early, late), answer)
    ensures var t := Duel(p, home, far, early, late);
            && Legal(t, LATE_FIRST) && Total(t, LATE_FIRST) == Travel(p, home, late)
            && answer.Some? && Legal(t, answer.value) && Total(t, answer.value) > Total(t, LATE_FIRST)
  {
    var t := Duel(p, home, far, early, late);
    DuelIsClustered(p, home, far, early, late);
    TripleTraces(t, early, late);
    assert Legal(t, LATE_FIRST);
    LegalForcesAnswer(t, answer, LATE_FIRST);
    AnswerIsNotLate(t, early, late, answer.value);
    ThreeStops(t, answer.value);
    if answer.value == EARLY_FIRST {
      assert Total(t, answer.value) == Travel(p, home, early);
    } else {
      assert Last(answer.value) < 2;
    }
  }

  lemma {:induction false} LateIsPruned(t: Trip, table: Table, key: Key, k: nat, early: int, late: int)
    requires Valid(t) && |t.stops| == 3 && early < late
    requires Layer(t, table, 3) && Complete(t, table, 3)
    requires Simple(t, EARLY_FIRST) && Trace(t, EARLY_FIRST) == Some(Label(0, early, EARLY_FIRST))
    requires Simple(t, LATE_FIRST) && Trace(t, LATE_FIRST) == Some(Label(0, late, LATE_FIRST))
    requires key in table && k < |table[key]|
    ensures table[key][k].path != LATE_FIRST
  {
    if table[key][k].path == LATE_FIRST {
      assert Filed(t, key, table[key][k], 3);
      ThreeStops(t, EARLY_FIRST);
      ThreeStops(t, LATE_FIRST);
      assert KeyOf(EARLY_FIRST) == key;
      assert CoveredIn(t, table, key, Trace(t, EARLY_FIRST).value);
      var j :| 0 <= j < |table[key]| && AsGood(t, table[key][j], Label(0, early, EARLY_FIRST));
      assert Filed(t, key, table[key][j], 3);
      ThreeStops(t, table[key][j].path);
      assert Dominates(table[key][j], table[key][k]);
    }
  }

  // ------------------------------------------------------------------
  // Some answer exists on the instance
  // ------------------------------------------------------------------

  function Undominated(a: Label, b: Label): (labels: seq<Label>)
    ensures Antichain(labels) && labels != []
    ensures forall l :: l in labels ==> l == a || l == b
    ensures exists k :: 0 <= k < |labels| && Dominates(labels[k], a)
    ensures exists k :: 0 <= k < |labels| && Dominates(labels[k], b)
  {
    assert Dominates([a][0], a) && Dominates([b][0], b);
    assert Dominates([a, b][0], a) && Dominates([a, b][1], b);
    if Dominates(a, b) then [a] else if Dominates(b, a) then [b] else [a, b]
  }

  ghost predicate Represents(t: Trip, labels: seq<Label>, path: Path)
    requires Valid(t) && Simple(t, path)
  {
    Trace(t, path).Some? && exists k :: 0 <= k < |labels| && AsGood(t, labels[k], Trace(t, path).value)
  }

  /** Of two sequences with the same key, what the table keeps. */
  lemma {:induction false} Survivors(t: Trip, early: int, late: int, a: Path, b: Path) returns (labels: seq<Label>)
    requires Clustered(t, early, late)
    requires Simple(t, a) && Simple(t, b) && |a| == |b| == 3 && KeyOf(a) == KeyOf(b)
    ensures labels != [] && Antichain(labels)
    ensures forall k :: 0 <= k < |labels| ==> Filed(t, KeyOf(a), labels[k], 3)
    ensures Represents(t, labels, a) && Represents(t, labels, b)
  {
    AllTraced(t, early, late, a);
    AllTraced(t, early, late, b);
    var x, y := Trace(t, a).value, Trace(t, b).value;
    labels := Undominated(x, y);
    assert Filed(t, KeyOf(a), x, 3) && Filed(t, KeyOf(a), y, 3);
    assert forall k :: 0 <= k < |labels| && Dominates(labels[k], x) ==> AsGood(t, labels[k], x);
    assert forall k :: 0 <= k < |labels| && Dominates(labels[k], y) ==> AsGood(t, labels[k], y);
  }

  /** What a table keeps under the full set for one last stop. */
  ghost predicate Stored(t: Trip, labels: seq<Label>, last: nat)
    requires Valid(t)
  {
    && labels != [] && Antichain(labels)
    && (forall k :: 0 <= k < |labels| ==> Filed(t, Key(ALL, last), labels[k], 3))
  }

  ghost predicate Spans(t: Trip, labels: seq<Label>, last: nat)
    requires Valid(t)
  {
    forall path :: Simple(t, path) && |path| == 3 && Last(path) == last ==> Represents(t, labels, path)
  }

  lemma {:induction false} TwoWaysToEnd(path: Path, x: nat, y: nat, last: nat)
    requires |path| == 3 && path[2] == last && NoRepeats(path) && path[0] < 3 && path[1] < 3
    requires x < 3 && y < 3 && last < 3 && x != y && x != last && y != last
    ensures path == [x, y, last] || path == [y, x, last]
  {
    assert path[0] != path[1] && path[0] != path[2] && path[1] != path[2];
    assert path == [path[0], path[1], path[2]];
  }

  lemma {:induction false} KeepFor(t: Trip, early: int, late: int, x: nat, y: nat, last: nat) returns (labels: seq<Label>)
    requires Clustered(t, early, late)
    requires x < 3 && y < 3 && last < 3 && x != y && x != last && y != last
    ensures Stored(t, labels, last) && Spans(t, labels, last)
  {
    var a, b := [x, y, last], [y, x, last];
    assert Simple(t, a) && Simple(t, b);
    ThreeStops(t, a);
    ThreeStops(t, b);
    labels := Survivors(t, early, late, a, b);
    forall path | Simple(t, path) && |path| == 3 && Last(path) == last
      ensures Represents(t, labels, path)
    {
      TwoWaysToEnd(path, x, y, last);
    }
  }

  lemma {:induction false} KeptIsLayer(t: Trip, table: Table, to0: seq<Label>, to1: seq<Label>, to2: seq<Label>)
    requires Valid(t) && table == map[Key(ALL, 0) := to0, Key(ALL, 1) := to1, Key(ALL, 2) := to2]
    requires Stored(t, to0, 0) && Stored(t, to1, 1) && Stored(t, to2, 2)
    ensures Layer(t, table, 3)
  {
    forall key | key in table
      ensures Stored(t, table[key], key.last) && key == Key(ALL, key.last)
    {
      if key.last == 0 {
        assert key == Key(ALL, 0);
      } else if key.last == 1 {
        assert key == Key(ALL, 1);
      } else {
        assert key == Key(ALL, 2);
      }
    }
  }

  lemma {:induction false} KeptCovers(t: Trip, table: Table, path: Path, to0: seq<Label>, to1: seq<Label>, to2: seq<Label>)
    requires Valid(t) && |t.stops| == 3
    requires table == map[Key(ALL, 0) := to0, Key(ALL, 1) := to1, Key(ALL, 2) := to2]
    requires Simple(t, path) && |path| == 3
    requires Last(path) == 0 ==> Represents(t, to0, path)
    requires Last(path) == 1 ==> Represents(t, to1, path)
    requires Last(path) == 2 ==> Represents(t, to2, path)
    ensures Trace(t, path).Some? && CoveredIn(t, table, KeyOf(path), Trace(t, path).value)
  {
    ThreeStops(t, path);
    assert KeyOf(path) == Key(ALL, Last(path));
  }

  lemma {:induction false} FullLayerExists(t: Trip, early: int, late: int) returns (table: Table)
    requires Clustered(t, early, late)
    ensures Layer(t, table, 3) && Complete(t, table, 3)
  {
    var to0 := KeepFor(t, early, late, 1, 2, 0);
    var to1 := KeepFor(t, early, late, 0, 2, 1);
    var to2 := KeepFor(t, early, late, 0, 1, 2);
    table := map[Key(ALL, 0) := to0, Key(ALL, 1) := to1, Key(ALL, 2) := to2];
    assert Layer(t, table, 3) by {
      KeptIsLayer(t, table, to0, to1, to2);
    }
    assert Complete(t, table, 3) by {
      forall path | Simple(t, path) && |path| == 3 && Trace(t, path).Some?
        ensures CoveredIn(t, table, KeyOf(path), Trace(t, path).value)
      {
        KeptCovers(t, table, path, to0, to1, to2);
      }
    }
  }

  ghost predicate Cheaper(t: Trip, table: Table, key: Key, k: nat, bound: nat)
    requires Valid(t) && Layer(t, table, |t.stops|) && key in table && k < |table[key]|
  {
    InTimeAt(t, table, key, k) && TotalAt(t, table, key, k) < bound
  }

  /** Totals are natural numbers, so among labels home in time one is least. */
  lemma {:induction false} LeastPick(t: Trip, table: Table, key: Key, k: nat) returns (answer: Path, best: nat)
    requires Valid(t) && Layer(t, table, |t.stops|)
    requires key in table && k < |table[key]| && InTimeAt(t, table, key, k)
    ensures Picks(t, table, Some(answer), Some(best))
    decreases TotalAt(t, table, key, k)
  {
    if other, j :| other in table && 0 <= j < |table[other]| && Cheaper(t, table, other, j, TotalAt(t, table, key, k)) {
      answer, best := LeastPick(t, table, other, j);
    } else {
      answer, best := table[key][k].path, TotalAt(t, table, key, k);
      forall other, j | other in table && 0 <= j < |table[other]|
        ensures BestCovers(t, table, Some(best), other, j)
      {
        assert !Cheaper(t, table, other, j, best);
      }
      assert Achieves(t, table, answer, best);
    }
  }

  lemma {:induction false} DuelHasAnswer(t: Trip, early: int, late: int) returns (answer: Option<Path>)
    requires Clustered(t, early, late)
    ensures PrunedAnswer(t, answer)
  {
    var table := FullLayerExists(t, early, late);
    if key, k :| key in table && 0 <= k < |table[key]| && InTimeAt(t, table, key, k) {
      var path, best := LeastPick(t, table, key, k);
      answer := Some(path);
      assert Picks(t, table, answer, Some(best));
    } else {
      answer := None;
      assert Picks(t, table, None, None);
    }
  }

  /** Any departure on a long enough arc takes longer than `seconds`. */
  lemma {:induction false} FarEnough(p: Profile, seconds: nat, depart: int) returns (far: nat)
    ensures far == (seconds + 1) * Fastest(p.multipliers)
    ensures Travel(p, far, depart) > seconds
  {
    var top := Fastest(p.multipliers);
    MulMonotone(0, seconds + 1, top);
    far := (seconds + 1) * top;
    assert far == seconds * top + top;
    var s := Travel(p, far, depart);
    SecondsIsLeast(p, depart, far * PPT, s);
    CoveredAtMost(p, depart, s);
    if s <= seconds {
      MulMonotone(s, seconds, top);
      assert false;
    }
  }

  /** If some arc's travel depends on its departure, there is an instance whose
      every pruned answer is dearer than a legal sequence the search discarded. */
  lemma {:induction false} PruningLosesOptimum(p: Profile)
    returns (q: Problem, v: Vehicle, orders: seq<Order>, path: Path, answer: Option<Path>)
    requires !DepartureFree(p)
    ensures Posed(q, v, orders, p)
    ensures Legal(TripOf(q, v, orders), path) && PrunedAnswer(TripOf(q, v, orders), answer)
    ensures forall any :: PrunedAnswer(TripOf(q, v, orders), any) ==>
      any.Some? && Legal(TripOf(q, v, orders), any.value)
      && Total(TripOf(q, v, orders), any.value) > Total(TripOf(q, v, orders), path)
  {
    var home, early, late := EarlierCanCostMore(p);
    var limit := Travel(p, home, late);
    var far := FarEnough(p, limit, 0);
    forall depart: int
      ensures Travel(p, far, depart) > limit
    {
      var same := FarEnough(p, limit, depart);
    }
    q, v, orders := Instance(p, home, far, early, late), DuelVan(p, home, early, late), DuelOrders(early, late);
    path := LATE_FIRST;
    var t := Duel(p, home, far, early, late);
    DuelIsPosed(p, home, far, early, late);
    DuelIsClustered(p, home, far, early, late);
    answer := DuelHasAnswer(t, early, late);
    forall any | PrunedAnswer(t, any)
      ensures Legal(t, path)
      ensures any.Some? && Legal(t, any.value) && Total(t, any.value) > Total(t, path)
    {
      DuelAnswerIsDear(p, home, far, early, late, any);
    }
  }

  /** The documented optimality holds for a profile exactly when departures do not matter. */
  lemma {:induction false} OptimalExactlyWhenDepartureFree(p: Profile)
    ensures AlwaysOptimal(p) <==> DepartureFree(p)
  {
    if DepartureFree(p) {
      forall q, v, orders, answer | Posed(q, v, orders, p) && PrunedAnswer(TripOf(q, v, orders), answer)
        ensures NeverBeaten(TripOf(q, v, orders), answer)
      {
        FreeIsNeverBeaten(TripOf(q, v, orders), p, answer);
      }
    } else {
      var q, v, orders, path, answer := PruningLosesOptimum(p);
      assert !NeverBeaten(TripOf(q, v, orders), answer);
    }
  }

  lemma {:induction false} FreeIsNeverBeaten(t: Trip, p: Profile, answer: Option<Path>)
    requires Under(t, p) && DepartureFree(p) && PrunedAnswer(t, answer)
    ensures NeverBeaten(t, answer)
  {
    FreeIsTimeless(t, p);
    forall path | Legal(t, path)
      ensures answer.Some? && Legal(t, answer.value) && Total(t, answer.value) <= Total(t, path)
    {
      AnswerIsCheapest(t, answer, path);
    }
  }
}
