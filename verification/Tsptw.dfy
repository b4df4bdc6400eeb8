/** Exact sequencing of a short route (vrp/polish.py): Held-Karp over subsets with
    time windows, keeping only labels that are not dominated in cost and readiness.

    Two different promises are proved. Under any speed profile the pruned search
    finds a legal sequence whenever one exists. Its answer is the cheapest legal
    sequence when travel does not depend on the departure; `TsptwOptimality`
    shows that this condition cannot be weakened. */
module Tsptw {
  import opened Common
  import opened TimeDependent
  import opened Model

  const MAX_DP_STOPS := 14

  /** What one stop costs and when it may be served. */
  datatype Facts = Facts(service: nat, opens: int, closes: int)

  /** The route being sequenced: matrix nodes and facts, in the caller's order. */
  datatype Trip = Trip(problem: Problem, start: nat, end: nat, stops: seq<nat>, facts: seq<Facts>,
                       depart: int, shiftEnd: int)

  ghost predicate Valid(t: Trip) {
    && |t.stops| == |t.facts|
    && (forall i :: 0 <= i < |t.stops| ==> Reachable(t.problem, t.start, t.stops[i]))
    && (forall i :: 0 <= i < |t.stops| ==> Reachable(t.problem, t.stops[i], t.end))
    && (forall i, j :: 0 <= i < |t.stops| && 0 <= j < |t.stops| && i != j ==>
          Reachable(t.problem, t.stops[i], t.stops[j]))
  }

  // ------------------------------------------------------------------
  // Paths and their labels
  // ------------------------------------------------------------------

  type Path = seq<nat>

  /** A partial sequence with the travel it has cost and when the van is free again. */
  datatype Label = Label(cost: nat, ready: int, path: Path)

  /** Distinct stops of the trip, in visiting order. */
  ghost predicate Simple(t: Trip, path: Path) {
    && path != []
    && (forall k :: 0 <= k < |path| ==> path[k] < |t.stops|)
    && NoRepeats(path)
  }

  function Last(path: Path): nat
    requires path != []
  {
    path[|path| - 1]
  }

  ghost function Arrive(t: Trip, cost: nat, clock: int, leg: nat, path: Path, i: nat): Option<Label>
    requires i < |t.facts|
  {
    var begin := Max(clock + leg, t.facts[i].opens);
    if begin > t.facts[i].closes then None
    else Some(Label(cost + leg, begin + t.facts[i].service, path + [i]))
  }

  ghost function First(t: Trip, i: nat): Option<Label>
    requires Valid(t) && i < |t.stops|
  {
    Arrive(t, 0, t.depart, TravelBetween(t.problem, t.start, t.stops[i], t.depart), [], i)
  }

  ghost predicate Extendable(t: Trip, l: Label, i: nat) {
    l.path != [] && Last(l.path) < |t.stops| && i < |t.stops| && i != Last(l.path)
  }

  ghost function Extend(t: Trip, l: Label, i: nat): Option<Label>
    requires Valid(t) && Extendable(t, l, i)
  {
    Arrive(t, l.cost, l.ready, TravelBetween(t.problem, t.stops[Last(l.path)], t.stops[i], l.ready), l.path, i)
  }

  /** The label of a whole partial sequence driven stop by stop, or None when a window is missed. */
  ghost function Trace(t: Trip, path: Path): (l: Option<Label>)
    requires Valid(t) && Simple(t, path)
    ensures l.Some? ==> l.value.path == path
    decreases |path|
  {
    if |path| == 1 then
      assert path == [path[0]];
      First(t, path[0])
    else
      var front := path[..|path| - 1];
      assert path == front + [Last(path)];
      var l := Trace(t, front);
      if l.None? then None else Extend(t, l.value, Last(path))
  }

  /** One more stop: the trace of the front, extended. */
  lemma {:induction false} TraceOfMore(t: Trip, path: Path, front: Path, i: nat)
    requires Valid(t) && Simple(t, path) && front != [] && path == front + [i]
    ensures Simple(t, front) && i < |t.stops| && i !in front
    ensures Trace(t, path) == if Trace(t, front).None? then None else Extend(t, Trace(t, front).value, i)
  {
    assert path[..|path| - 1] == front;
    assert Last(path) == i;
    forall k | 0 <= k < |front|
      ensures front[k] == path[k] && front[k] != i
    {
    }
  }

  ghost function Home(t: Trip, l: Label): nat
    requires Valid(t) && l.path != [] && Last(l.path) < |t.stops|
  {
    TravelBetween(t.problem, t.stops[Last(l.path)], t.end, l.ready)
  }

  ghost predicate InTime(t: Trip, l: Label)
    requires Valid(t) && l.path != [] && Last(l.path) < |t.stops|
  {
    l.ready + Home(t, l) <= t.shiftEnd
  }

  /** A legal sequence: every stop once, every window met, home before the shift ends. */
  ghost predicate Legal(t: Trip, path: Path)
    requires Valid(t)
  {
    Simple(t, path) && |path| == |t.stops| && Trace(t, path).Some? && InTime(t, Trace(t, path).value)
  }

  ghost function Total(t: Trip, path: Path): nat
    requires Valid(t) && Legal(t, path)
  {
    var l := Trace(t, path).value;
    l.cost + Home(t, l)
  }

  /** Travel on an arc does not depend on when it is driven. */
  ghost predicate Steady(p: Problem, origin: nat, destination: nat)
    requires Reachable(p, origin, destination)
  {
    forall a, b :: TravelBetween(p, origin, destination, a) == TravelBetween(p, origin, destination, b)
  }

  ghost predicate Timeless(t: Trip)
    requires Valid(t)
  {
    && (forall i :: 0 <= i < |t.stops| ==> Steady(t.problem, t.stops[i], t.end))
    && (forall i, j :: 0 <= i < |t.stops| && 0 <= j < |t.stops| && i != j ==>
          Steady(t.problem, t.stops[i], t.stops[j]))
  }

  // ------------------------------------------------------------------
  // Dominance
  // ------------------------------------------------------------------

  /** `a` is ready no later than `b`, and no dearer when departures do not matter. */
  ghost predicate AsGood(t: Trip, a: Label, b: Label)
    requires Valid(t)
  {
    a.ready <= b.ready && (Timeless(t) ==> a.cost <= b.cost)
  }

  /** What pruning may assume: the better label can do whatever the worse one can, as well. */
  lemma {:induction false} ExtendKeepsOrder(t: Trip, a: Label, b: Label, i: nat)
    requires Valid(t) && Extendable(t, a, i) && Extendable(t, b, i) && Last(a.path) == Last(b.path)
    requires AsGood(t, a, b) && Extend(t, b, i).Some?
    ensures Extend(t, a, i).Some? && AsGood(t, Extend(t, a, i).value, Extend(t, b, i).value)
  {
    var from, to := t.stops[Last(a.path)], t.stops[i];
    TravelNoPassing(t.problem, from, to, a.ready, b.ready);
    if Timeless(t) {
      assert Steady(t.problem, from, to);
      assert TravelBetween(t.problem, from, to, a.ready) == TravelBetween(t.problem, from, to, b.ready);
    }
  }

  lemma {:induction false} HomeKeepsOrder(t: Trip, a: Label, b: Label)
    requires Valid(t) && a.path != [] && b.path != []
    requires Last(a.path) == Last(b.path) < |t.stops|
    requires AsGood(t, a, b) && InTime(t, b)
    ensures InTime(t, a) && (Timeless(t) ==> a.cost + Home(t, a) <= b.cost + Home(t, b))
  {
    var from := t.stops[Last(a.path)];
    TravelNoPassing(t.problem, from, t.end, a.ready, b.ready);
    if Timeless(t) {
      assert Steady(t.problem, from, t.end);
      assert TravelBetween(t.problem, from, t.end, a.ready) == TravelBetween(t.problem, from, t.end, b.ready);
    }
  }

  // ------------------------------------------------------------------
  // Label tables
  // ------------------------------------------------------------------

  /** The source's bit mask and last stop; the mask is the set of its one-bits. */
  datatype Key = Key(visited: set<nat>, last: nat)

  type Table = map<Key, seq<Label>>

  function KeyOf(path: Path): Key
    requires path != []
  {
    Key(Elements(path), Last(path))
  }

  predicate Dominates(a: Label, b: Label) {
    a.cost <= b.cost && a.ready <= b.ready
  }

  ghost predicate DominatedIn(table: Table, key: Key, l: Label) {
    key in table && exists k :: 0 <= k < |table[key]| && Dominates(table[key][k], l)
  }

  ghost predicate Antichain(labels: seq<Label>) {
    forall i, j :: 0 <= i < |labels| && 0 <= j < |labels| && i != j ==> !Dominates(labels[i], labels[j])
  }

  /** Each label is the trace of a partial sequence of `size` stops filed under its own key. */
  ghost predicate Filed(t: Trip, key: Key, l: Label, size: nat)
    requires Valid(t)
  {
    && Simple(t, l.path) && |l.path| == size
    && KeyOf(l.path) == key
    && Trace(t, l.path) == Some(l)
  }

  ghost predicate Layer(t: Trip, table: Table, size: nat)
    requires Valid(t)
  {
    forall key :: key in table ==>
      && table[key] != []
      && Antichain(table[key])
      && forall k :: 0 <= k < |table[key]| ==> Filed(t, key, table[key][k], size)
  }

  ghost predicate CoveredIn(t: Trip, table: Table, key: Key, l: Label)
    requires Valid(t)
  {
    key in table && exists k :: 0 <= k < |table[key]| && AsGood(t, table[key][k], l)
  }

  /** Every partial sequence of `size` stops is matched by a label kept under its key. */
  ghost predicate Complete(t: Trip, table: Table, size: nat)
    requires Valid(t)
  {
    forall path :: Simple(t, path) && |path| == size && Trace(t, path).Some? ==>
      CoveredIn(t, table, KeyOf(path), Trace(t, path).value)
  }

  /** Whatever `was` dominated, `now` still dominates. */
  ghost predicate Grows(was: Table, now: Table) {
    forall key, l :: DominatedIn(was, key, l) ==> DominatedIn(now, key, l)
  }

  /** `_push`: skip a dominated label, drop those it dominates. */
  method Push(table: Table, key: Key, added: Label) returns (now: Table)
    requires key in table ==> Antichain(table[key])
    ensures DominatedIn(now, key, added)
    ensures Grows(table, now)
    ensures now.Keys == table.Keys + {key}
    ensures forall k :: k in table && k != key ==> now[k] == table[k]
    ensures Antichain(now[key]) && now[key] != []
    ensures forall l :: l in now[key] ==> l == added || (key in table && l in table[key])
  {
    var others := if key in table then table[key] else [];
    var kept: seq<Label> := [];
    for k := 0 to |others|
      invariant forall i :: 0 <= i < k ==> !Dominates(others[i], added)
      invariant forall i :: 0 <= i < |kept| ==> kept[i] in others[..k] && !Dominates(added, kept[i])
      invariant forall i :: 0 <= i < k ==> Dominates(added, others[i]) || others[i] in kept
      invariant Antichain(kept)
      invariant forall i, j :: 0 <= i < |kept| && k <= j < |others| ==>
        !Dominates(kept[i], others[j]) && !Dominates(others[j], kept[i])
    {
      var other := others[k];
      if other.cost <= added.cost && other.ready <= added.ready {
        assert Dominates(table[key][k], added);
        return table;
      }
      assert others[..k + 1] == others[..k] + [other];
      if !(added.cost <= other.cost && added.ready <= other.ready) {
        kept := kept + [other];
      }
    }
    now := table[key := kept + [added]];
    PushGrows(table, key, added, kept);
  }

  /** Nothing is lost by keeping the new label and those it does not dominate. */
  lemma {:induction false} PushGrows(table: Table, key: Key, added: Label, kept: seq<Label>)
    requires key in table ==> forall i :: 0 <= i < |table[key]| ==> Dominates(added, table[key][i]) || table[key][i] in kept
    ensures Grows(table, table[key := kept + [added]]) && DominatedIn(table[key := kept + [added]], key, added)
  {
    var now := table[key := kept + [added]];
    forall other, l | DominatedIn(table, other, l)
      ensures DominatedIn(now, other, l)
    {
      if other == key {
        var k :| 0 <= k < |table[key]| && Dominates(table[key][k], l);
        if Dominates(added, table[key][k]) {
          assert Dominates(now[key][|kept|], l);
        } else {
          var i :| 0 <= i < |kept| && kept[i] == table[key][k];
          assert Dominates(now[key][i], l);
        }
      }
    }
    assert Dominates(now[key][|kept|], added);
  }

  // ------------------------------------------------------------------
  // Growing a layer
  // ------------------------------------------------------------------

  /** `_floor`: the fastest an arc can ever be. */
  function Floor(p: Problem, origin: nat, destination: nat): int
    requires Reachable(p, origin, destination)
  {
    var freeFlow := p.matrix.durations[origin][destination];
    var profile := ProfileForArc(p, freeFlow);
    if profile.None? || freeFlow <= 0 then freeFlow else FastestPossible(freeFlow, profile.value)
  }

  /** The cheap bound never exceeds the exact leg, so it rejects nothing the leg would keep. */
  lemma {:induction false} FloorIsAdmissible(p: Problem, origin: nat, destination: nat, depart: int)
    requires Reachable(p, origin, destination)
    ensures 0 <= Floor(p, origin, destination) <= TravelBetween(p, origin, destination, depart)
  {
    var freeFlow := p.matrix.durations[origin][destination];
    var profile := ProfileForArc(p, freeFlow);
    if profile.Some? {
      BoundIsAdmissible(profile.value, freeFlow, depart);
    }
  }

  function Grown(key: Key, i: nat): Key {
    Key(key.visited + {i}, i)
  }

  /** The candidates of `l` at stops below `upTo` are dominated in `table`. */
  ghost predicate Offered(t: Trip, table: Table, key: Key, l: Label, upTo: nat)
    requires Valid(t)
  {
    forall i | 0 <= i < upTo && i < |t.stops| && i !in key.visited && Extendable(t, l, i) && Extend(t, l, i).Some? ::
      DominatedIn(table, Grown(key, i), Extend(t, l, i).value)
  }

  lemma {:induction false} OfferedGrows(t: Trip, was: Table, now: Table, key: Key, l: Label, upTo: nat)
    requires Valid(t) && Grows(was, now) && Offered(t, was, key, l, upTo)
    ensures Offered(t, now, key, l, upTo)
  {
  }

  lemma {:induction false} ExtendFiled(t: Trip, key: Key, l: Label, size: nat, i: nat)
    requires Valid(t) && Filed(t, key, l, size) && i < |t.stops| && i !in key.visited
    ensures Extendable(t, l, i)
    ensures Extend(t, l, i).Some? ==> Filed(t, Grown(key, i), Extend(t, l, i).value, size + 1)
  {
    assert Last(l.path) in l.path;
    if Extend(t, l, i).Some? {
      var path := l.path + [i];
      assert path[..|path| - 1] == l.path;
      assert Elements(path) == Elements(l.path) + {i};
      assert i !in l.path;
    }
  }

  /** The innermost loop: every stop a label can still go to. */
  method ExpandLabel(t: Trip, start: Table, key: Key, l: Label, ghost size: nat) returns (table: Table)
    requires Valid(t) && size > 0 && Filed(t, key, l, size) && Layer(t, start, size + 1)
    ensures Layer(t, table, size + 1) && Grows(start, table)
    ensures Offered(t, table, key, l, |t.stops|)
  {
    table := start;
    for i := 0 to |t.stops|
      invariant Layer(t, table, size + 1) && Grows(start, table)
      invariant Offered(t, table, key, l, i)
    {
      if i in key.visited {
        continue;
      }
      ExtendFiled(t, key, l, size, i);
      var facts := t.facts[i];
      FloorIsAdmissible(t.problem, t.stops[Last(l.path)], t.stops[i], l.ready);
      if l.ready + Floor(t.problem, t.stops[Last(l.path)], t.stops[i]) > facts.closes {
        continue;
      }
      var leg := Drive(t.problem, t.stops[Last(l.path)], t.stops[i], l.ready);
      var begin := Max(l.ready + leg, facts.opens);
      if begin > facts.closes {
        continue;
      }
      ghost var before := table;
      table := Push(table, Grown(key, i), Label(l.cost + leg, begin + facts.service, l.path + [i]));
      OfferedGrows(t, before, table, key, l, i);
      PushedLayer(t, before, table, Grown(key, i), Extend(t, l, i).value, size + 1);
    }
  }

  lemma {:induction false} PushedLayer(t: Trip, was: Table, now: Table, key: Key, added: Label, size: nat)
    requires Valid(t) && Layer(t, was, size) && Filed(t, key, added, size)
    requires now.Keys == was.Keys + {key}
    requires forall k :: k in was && k != key ==> now[k] == was[k]
    requires Antichain(now[key]) && now[key] != []
    requires forall l :: l in now[key] ==> l == added || (key in was && l in was[key])
    ensures Layer(t, now, size)
  {
    forall k, i | k in now && 0 <= i < |now[k]|
      ensures Filed(t, k, now[k][i], size)
    {
      var l := now[k][i];
      assert l in now[k];
      if k == key && l != added {
        assert key in was && l in was[key];
      }
    }
  }

  /** All labels kept under one key. */
  method ExpandKey(t: Trip, start: Table, key: Key, labels: seq<Label>, ghost size: nat) returns (table: Table)
    requires Valid(t) && size > 0 && Layer(t, start, size + 1)
    requires forall k :: 0 <= k < |labels| ==> Filed(t, key, labels[k], size)
    ensures Layer(t, table, size + 1) && Grows(start, table)
    ensures forall k :: 0 <= k < |labels| ==> Offered(t, table, key, labels[k], |t.stops|)
  {
    table := start;
    for k := 0 to |labels|
      invariant Layer(t, table, size + 1) && Grows(start, table)
      invariant forall i :: 0 <= i < k ==> Offered(t, table, key, labels[i], |t.stops|)
    {
      ghost var before := table;
      table := ExpandLabel(t, table, key, labels[k], size);
      forall i | 0 <= i < k
        ensures Offered(t, table, key, labels[i], |t.stops|)
      {
        OfferedGrows(t, before, table, key, labels[i], |t.stops|);
      }
    }
  }

  ghost predicate KeyOffered(t: Trip, state: Table, table: Table, key: Key)
    requires Valid(t) && key in state
  {
    forall k :: 0 <= k < |state[key]| ==> Offered(t, table, key, state[key][k], |t.stops|)
  }

  /** One round of the outer loop: all partial sequences one stop longer. */
  method NextLayer(t: Trip, state: Table, ghost size: nat) returns (table: Table)
    requires Valid(t) && size > 0 && Layer(t, state, size) && Complete(t, state, size)
    ensures Layer(t, table, size + 1) && Complete(t, table, size + 1)
  {
    table := map[];
    var todo := state.Keys;
    while todo != {}
      invariant todo <= state.Keys
      invariant Layer(t, table, size + 1)
      invariant forall key :: key in state && key !in todo ==> KeyOffered(t, state, table, key)
    {
      var key :| key in todo;
      ghost var before := table;
      table := ExpandKey(t, table, key, state[key], size);
      forall other | other in state && other !in todo
        ensures KeyOffered(t, state, table, other)
      {
        forall k | 0 <= k < |state[other]|
          ensures Offered(t, table, other, state[other][k], |t.stops|)
        {
          assert KeyOffered(t, state, before, other);
          OfferedGrows(t, before, table, other, state[other][k], |t.stops|);
        }
      }
      todo := todo - {key};
    }
    forall path | Simple(t, path) && |path| == size + 1 && Trace(t, path).Some?
      ensures CoveredIn(t, table, KeyOf(path), Trace(t, path).value)
    {
      CoveredByNext(t, state, table, size, path);
    }
  }

  /** A traced sequence of several stops is its traced front, extended by its last stop. */
  lemma {:induction false} TraceSteps(t: Trip, path: Path)
    requires Valid(t) && Simple(t, path) && |path| > 1 && Trace(t, path).Some?
    ensures var front, i := path[..|path| - 1], Last(path);
            && Simple(t, front) && Trace(t, front).Some?
            && i !in KeyOf(front).visited && Extendable(t, Trace(t, front).value, i)
            && Trace(t, path) == Extend(t, Trace(t, front).value, i)
            && KeyOf(path) == Grown(KeyOf(front), i)
  {
    var front, i := path[..|path| - 1], Last(path);
    assert path == front + [i];
    assert Elements(path) == Elements(front) + {i};
  }

  /** A longer sequence is covered because its front is, and the better front was extended too. */
  lemma {:induction false} CoveredByNext(t: Trip, state: Table, table: Table, size: nat, path: Path)
    requires Valid(t) && size > 0 && Layer(t, state, size) && Complete(t, state, size)
    requires forall key :: key in state ==> KeyOffered(t, state, table, key)
    requires Simple(t, path) && |path| == size + 1 && Trace(t, path).Some?
    ensures CoveredIn(t, table, KeyOf(path), Trace(t, path).value)
  {
    TraceSteps(t, path);
    var front := path[..|path| - 1];
    var better := BetterFront(t, state, table, size, front);
    ExtensionCovered(t, table, KeyOf(front), better, Trace(t, front).value, size, Last(path));
  }

  lemma {:induction false} BetterFront(t: Trip, state: Table, table: Table, size: nat, front: Path) returns (better: Label)
    requires Valid(t) && size > 0 && Layer(t, state, size) && Complete(t, state, size)
    requires forall key :: key in state ==> KeyOffered(t, state, table, key)
    requires Simple(t, front) && |front| == size && Trace(t, front).Some?
    ensures Offered(t, table, KeyOf(front), better, |t.stops|)
    ensures Filed(t, KeyOf(front), better, size) && AsGood(t, better, Trace(t, front).value)
  {
    var key := KeyOf(front);
    assert CoveredIn(t, state, key, Trace(t, front).value);
    var k :| 0 <= k < |state[key]| && AsGood(t, state[key][k], Trace(t, front).value);
    better := state[key][k];
    assert KeyOffered(t, state, table, key);
  }

  lemma {:induction false} ExtensionCovered(t: Trip, table: Table, key: Key, better: Label, worse: Label, size: nat, i: nat)
    requires Valid(t) && size > 0 && Filed(t, key, better, size) && AsGood(t, better, worse)
    requires i < |t.stops| && i !in key.visited
    requires Extendable(t, worse, i) && Last(worse.path) == key.last && Extend(t, worse, i).Some?
    requires Offered(t, table, key, better, |t.stops|)
    ensures CoveredIn(t, table, Grown(key, i), Extend(t, worse, i).value)
  {
    ExtendFiled(t, key, better, size, i);
    ExtendKeepsOrder(t, better, worse, i);
    var candidate := Extend(t, better, i).value;
    assert DominatedIn(table, Grown(key, i), candidate);
    var j :| 0 <= j < |table[Grown(key, i)]| && Dominates(table[Grown(key, i)][j], candidate);
    assert AsGood(t, table[Grown(key, i)][j], Extend(t, worse, i).value);
  }

  // ------------------------------------------------------------------
  // The whole search
  // ------------------------------------------------------------------

  /** The first layer: one stop each. */
  method FirstLayer(t: Trip) returns (state: Table)
    requires Valid(t)
    ensures Layer(t, state, 1) && Complete(t, state, 1)
  {
    state := map[];
    for i := 0 to |t.stops|
      invariant Layer(t, state, 1)
      invariant forall key :: key in state ==> key.last < i
      invariant forall j :: 0 <= j < i && First(t, j).Some? ==>
        Key({j}, j) in state && state[Key({j}, j)] == [First(t, j).value]
    {
      var leg := Drive(t.problem, t.start, t.stops[i], t.depart);
      var begin := Max(t.depart + leg, t.facts[i].opens);
      if begin > t.facts[i].closes {
        continue;
      }
      var added := Label(leg, begin + t.facts[i].service, [i]);
      assert Elements([i]) == {i};
      assert Filed(t, Key({i}, i), added, 1);
      state := state[Key({i}, i) := [added]];
    }
    forall path | Simple(t, path) && |path| == 1 && Trace(t, path).Some?
      ensures CoveredIn(t, state, KeyOf(path), Trace(t, path).value)
    {
      assert path == [path[0]];
      assert Elements(path) == {path[0]};
      assert AsGood(t, state[KeyOf(path)][0], Trace(t, path).value);
    }
  }

  ghost predicate InTimeAt(t: Trip, table: Table, key: Key, k: nat)
    requires Valid(t) && Layer(t, table, |t.stops|) && key in table && k < |table[key]|
  {
    assert Filed(t, key, table[key][k], |t.stops|);
    InTime(t, table[key][k])
  }

  ghost function TotalAt(t: Trip, table: Table, key: Key, k: nat): nat
    requires Valid(t) && Layer(t, table, |t.stops|) && key in table && k < |table[key]|
  {
    assert Filed(t, key, table[key][k], |t.stops|);
    table[key][k].cost + Home(t, table[key][k])
  }

  /** If this label gets home in time, there is a best total and it is no more. */
  ghost predicate BestCovers(t: Trip, table: Table, best: Option<nat>, key: Key, k: nat)
    requires Valid(t) && Layer(t, table, |t.stops|) && key in table && k < |table[key]|
  {
    InTimeAt(t, table, key, k) ==> best.Some? && best.value <= TotalAt(t, table, key, k)
  }

  ghost predicate Achieves(t: Trip, table: Table, path: Path, best: nat)
    requires Valid(t) && Layer(t, table, |t.stops|)
  {
    exists key, k :: key in table && 0 <= k < |table[key]| && InTimeAt(t, table, key, k)
      && table[key][k].path == path && TotalAt(t, table, key, k) == best
  }

  /** The answer read off a full layer: its cheapest label home in time, or None. */
  ghost predicate Picks(t: Trip, table: Table, answer: Option<Path>, best: Option<nat>)
    requires Valid(t) && Layer(t, table, |t.stops|)
  {
    && answer.Some? == best.Some?
    && (answer.Some? ==> Achieves(t, table, answer.value, best.value))
    && (forall key, k | key in table && 0 <= k < |table[key]| :: BestCovers(t, table, best, key, k))
  }

  /** The contract of the pruned search: its answer is picked from a complete full layer. */
  ghost predicate PrunedAnswer(t: Trip, answer: Option<Path>)
    requires Valid(t)
  {
    exists table: Table, best: Option<nat> ::
      Layer(t, table, |t.stops|) && Complete(t, table, |t.stops|) && Picks(t, table, answer, best)
  }

  /** `tsptw_sequence` on a resolved trip. */
  method Sequence(t: Trip) returns (answer: Option<Path>)
    requires Valid(t)
    ensures |t.stops| == 0 || |t.stops| > MAX_DP_STOPS ==> answer == None
    ensures 0 < |t.stops| <= MAX_DP_STOPS ==> PrunedAnswer(t, answer)
  {
    var count := |t.stops|;
    if count > MAX_DP_STOPS || count == 0 {
      return None;
    }
    var state := FirstLayer(t);
    for size := 1 to count
      invariant Layer(t, state, size) && Complete(t, state, size)
    {
      var next := NextLayer(t, state, size);
      if next == map[] {
        NothingLonger(t, next, size + 1, count);
        assert Picks(t, next, None, None);
        return None;
      }
      state := next;
    }
    var best;
    answer, best := PickBest(t, state);
  }

  lemma {:induction false} FrontTraced(t: Trip, path: Path, size: nat)
    requires Valid(t) && Simple(t, path) && Trace(t, path).Some? && 0 < size <= |path|
    ensures Simple(t, path[..size]) && Trace(t, path[..size]).Some?
    decreases |path|
  {
    if size < |path| {
      var front := path[..|path| - 1];
      FrontTraced(t, front, size);
      assert front[..size] == path[..size];
    } else {
      assert path[..size] == path;
    }
  }

  /** When no sequence of `size` stops is legal, no longer one is. */
  lemma {:induction false} NoneThatLong(t: Trip, table: Table, size: nat, path: Path)
    requires Valid(t) && table == map[] && Complete(t, table, size)
    requires Simple(t, path) && 0 < size <= |path|
    ensures Trace(t, path).None?
  {
    if Trace(t, path).Some? {
      FrontTraced(t, path, size);
      assert false;
    }
  }

  lemma {:induction false} NothingLonger(t: Trip, table: Table, size: nat, count: nat)
    requires Valid(t) && table == map[] && 0 < size <= count && Complete(t, table, size)
    ensures Layer(t, table, count) && Complete(t, table, count)
  {
    forall path | Simple(t, path) && |path| == count
      ensures Trace(t, path).None?
    {
      NoneThatLong(t, table, size, path);
    }
  }

  /** The inner loop of the final choice: the labels under one full key. */
  method PickWithin(t: Trip, state: Table, key: Key, start: Option<Path>, startLeast: nat)
    returns (answer: Option<Path>, least: nat)
    requires Valid(t) && |t.stops| > 0 && Layer(t, state, |t.stops|) && key in state
    requires start.Some? ==> Achieves(t, state, start.value, startLeast)
    ensures answer.Some? ==> Achieves(t, state, answer.value, least)
    ensures start.Some? ==> answer.Some? && least <= startLeast
    ensures forall k | 0 <= k < |state[key]| :: BestCovers(t, state, Best(answer, least), key, k)
  {
    answer, least := start, startLeast;
    for at := 0 to |state[key]|
      invariant answer.Some? ==> Achieves(t, state, answer.value, least)
      invariant start.Some? ==> answer.Some? && least <= startLeast
      invariant forall k | 0 <= k < at :: BestCovers(t, state, Best(answer, least), key, k)
    {
      var l := state[key][at];
      assert Filed(t, key, l, |t.stops|);
      var home := Drive(t.problem, t.stops[Last(l.path)], t.end, l.ready);
      if l.ready + home > t.shiftEnd {
        assert BestCovers(t, state, Best(answer, least), key, at);
        continue;
      }
      assert InTimeAt(t, state, key, at) && TotalAt(t, state, key, at) == l.cost + home;
      ghost var was := Best(answer, least);
      if answer.None? || l.cost + home < least {
        answer, least := Some(l.path), l.cost + home;
      }
      forall k | 0 <= k <= at
        ensures BestCovers(t, state, Best(answer, least), key, k)
      {
        assert k < at ==> BestCovers(t, state, was, key, k);
      }
    }
  }

  function Best(answer: Option<Path>, least: nat): Option<nat> {
    if answer.Some? then Some(least) else None
  }

  /** The final loop over the labels of the full mask. */
  method PickBest(t: Trip, state: Table) returns (answer: Option<Path>, best: Option<nat>)
    requires Valid(t) && |t.stops| > 0 && Layer(t, state, |t.stops|)
    ensures Picks(t, state, answer, best)
  {
    answer := None;
    var least: nat := 0;
    var todo := state.Keys;
    while todo != {}
      invariant todo <= state.Keys
      invariant answer.Some? ==> Achieves(t, state, answer.value, least)
      invariant forall key, k | key in state && key !in todo && 0 <= k < |state[key]| ::
        BestCovers(t, state, Best(answer, least), key, k)
    {
      var key :| key in todo;
      ghost var was := Best(answer, least);
      answer, least := PickWithin(t, state, key, answer, least);
      forall other, k | other in state && other !in todo && 0 <= k < |state[other]|
        ensures BestCovers(t, state, Best(answer, least), other, k)
      {
        assert BestCovers(t, state, was, other, k);
      }
      todo := todo - {key};
    }
    best := Best(answer, least);
  }

  // ------------------------------------------------------------------
  // What the answer means
  // ------------------------------------------------------------------

  lemma {:induction false} PickIsLegal(t: Trip, table: Table, path: Path, best: nat)
    requires Valid(t) && |t.stops| > 0 && Layer(t, table, |t.stops|) && Achieves(t, table, path, best)
    ensures Legal(t, path) && Total(t, path) == best
  {
    var key, k :| key in table && 0 <= k < |table[key]| && InTimeAt(t, table, key, k)
      && table[key][k].path == path && TotalAt(t, table, key, k) == best;
    assert Filed(t, key, table[key][k], |t.stops|);
  }

  /** Every legal sequence has a kept label home in time, no dearer when departures do not matter. */
  lemma {:induction false} LegalIsKept(t: Trip, table: Table, path: Path) returns (key: Key, k: nat)
    requires Valid(t) && Layer(t, table, |t.stops|) && Complete(t, table, |t.stops|) && Legal(t, path)
    ensures key in table && k < |table[key]| && InTimeAt(t, table, key, k)
    ensures Timeless(t) ==> TotalAt(t, table, key, k) <= Total(t, path)
  {
    var l := Trace(t, path).value;
    key := KeyOf(path);
    assert CoveredIn(t, table, key, l);
    k :| 0 <= k < |table[key]| && AsGood(t, table[key][k], l);
    assert Filed(t, key, table[key][k], |t.stops|);
    HomeKeepsOrder(t, table[key][k], l);
  }

  /** A legal sequence forces an answer, which is no dearer when departures do not matter. */
  lemma {:induction false} LegalForcesAnswer(t: Trip, answer: Option<Path>, path: Path)
    requires Valid(t) && |t.stops| > 0 && PrunedAnswer(t, answer) && Legal(t, path)
    ensures answer.Some? && Legal(t, answer.value)
    ensures Timeless(t) ==> Total(t, answer.value) <= Total(t, path)
  {
    var table: Table, best: Option<nat> :|
      Layer(t, table, |t.stops|) && Complete(t, table, |t.stops|) && Picks(t, table, answer, best);
    var key, k := LegalIsKept(t, table, path);
    assert BestCovers(t, table, best, key, k);
    PickIsLegal(t, table, answer.value, best.value);
  }

  /** Under any speed profile: the answer is legal, and it is None only when no
      sequence at all is legal. */
  lemma {:induction false} AnswerIsLegal(t: Trip, answer: Option<Path>)
    requires Valid(t) && |t.stops| > 0 && PrunedAnswer(t, answer)
    ensures answer.Some? ==> Legal(t, answer.value)
    ensures answer.None? <==> !exists path :: Legal(t, path)
  {
    forall path | Legal(t, path)
      ensures answer.Some?
    {
      LegalForcesAnswer(t, answer, path);
    }
    if answer.Some? {
      var table: Table, best: Option<nat> :|
        Layer(t, table, |t.stops|) && Complete(t, table, |t.stops|) && Picks(t, table, answer, best);
      PickIsLegal(t, table, answer.value, best.value);
    }
  }

  /** When travel does not depend on the departure, no legal sequence is cheaper. */
  lemma {:induction false} AnswerIsCheapest(t: Trip, answer: Option<Path>, path: Path)
    requires Valid(t) && |t.stops| > 0 && PrunedAnswer(t, answer) && Timeless(t) && Legal(t, path)
    ensures answer.Some? && Legal(t, answer.value) && Total(t, answer.value) <= Total(t, path)
  {
    LegalForcesAnswer(t, answer, path);
  }

  /** A legal sequence is a permutation of the stops. */
  lemma {:induction false} LegalVisitsAll(t: Trip, path: Path, i: nat)
    requires Valid(t) && Legal(t, path) && i < |t.stops|
    ensures i in path
  {
    DistinctFillRange(path, |t.stops|, i);
  }

  // ------------------------------------------------------------------
  // From an instance to a trip
  // ------------------------------------------------------------------

  function FirstOpening(ws: seq<TimeWindow>): int
    requires ws != []
  {
    if |ws| == 1 then ws[0].start else Min(ws[0].start, FirstOpening(ws[1..]))
  }

  function LastClosing(ws: seq<TimeWindow>): int
    requires ws != []
  {
    if |ws| == 1 then ws[0].end else Max(ws[0].end, LastClosing(ws[1..]))
  }

  /** The hull is the tightest interval around the windows. */
  lemma {:induction false} HullIsTight(ws: seq<TimeWindow>)
    requires ws != []
    ensures forall i :: 0 <= i < |ws| ==> FirstOpening(ws) <= ws[i].start && ws[i].end <= LastClosing(ws)
    ensures exists i :: 0 <= i < |ws| && ws[i].start == FirstOpening(ws)
    ensures exists i :: 0 <= i < |ws| && ws[i].end == LastClosing(ws)
  {
    if |ws| == 1 {
      assert ws[0].start == FirstOpening(ws) && ws[0].end == LastClosing(ws);
    } else {
      var rest := ws[1..];
      HullIsTight(rest);
      assert forall i :: 1 <= i < |ws| ==> ws[i] == rest[i - 1];
      var i :| 0 <= i < |rest| && rest[i].start == FirstOpening(rest);
      var j :| 0 <= j < |rest| && rest[j].end == LastClosing(rest);
      assert ws[i + 1].start == FirstOpening(rest) && ws[j + 1].end == LastClosing(rest);
      assert ws[0].start == FirstOpening(ws) || ws[i + 1].start == FirstOpening(ws);
      assert ws[0].end == LastClosing(ws) || ws[j + 1].end == LastClosing(ws);
    }
  }

  /** `_service_and_window`: the hull of the hard windows, or the shift when there are none. */
  function ServiceAndWindow(p: Problem, v: Vehicle, o: Order): Facts
    requires Sited(p, o)
  {
    var stop := StopOf(o);
    var hard := HardOnly(stop.windows);
    Facts(ServiceTime(o, v, p.locations[stop.location]),
          if hard == [] then 0 else FirstOpening(hard),
          if hard == [] then v.shift.end else LastClosing(hard))
  }

  function NodeOf(p: Problem, o: Order): nat
    requires Sited(p, o)
  {
    p.locations[StopOf(o).location].matrixIndex
  }

  function TripOf(p: Problem, v: Vehicle, orders: seq<Order>): (t: Trip)
    requires v.startLocation in p.locations && EndsAt(v) in p.locations
    requires forall k :: 0 <= k < |orders| ==> Sited(p, orders[k])
    ensures |t.stops| == |t.facts| == |orders|
  {
    Trip(p, p.locations[v.startLocation].matrixIndex, p.locations[EndsAt(v)].matrixIndex,
         seq(|orders|, k requires 0 <= k < |orders| && Sited(p, orders[k]) => NodeOf(p, orders[k])),
         seq(|orders|, k requires 0 <= k < |orders| && Sited(p, orders[k]) => ServiceAndWindow(p, v, orders[k])),
         v.shift.start, v.shift.end)
  }

  function OrdersAlong(orders: seq<Order>, path: Path): (ids: seq<Id>)
    requires forall k :: 0 <= k < |path| ==> path[k] < |orders|
    ensures |ids| == |path|
  {
    seq(|path|, k requires 0 <= k < |path| => orders[path[k]].id)
  }
}
