/** The accelerated local search (vrp/localsearch.py): granular neighbourhoods, a position map, a
    work queue and constant-time deltas. One turn of its loop is a function of the tour and the
    queue, so that what the search does can be said of any matrix, whether or not it returns. */
module Accelerated {
  import opened Common
  import opened LocalSearch

  // ------------------------------------------------------------------
  // Granular neighbourhoods
  // ------------------------------------------------------------------

  /** Stable insertion by distance from `node`, as a stable sort places a later element. */
  function Insert(d: Grid, n: nat, node: nat, x: nat, sorted: seq<nat>): seq<nat>
    requires Covers(d, n) && node < n && x < n && Within(sorted, n)
  {
    if sorted == [] then [x]
    else if Dist(d, node, x) < Dist(d, node, sorted[0]) then [x] + sorted
    else [sorted[0]] + Insert(d, n, node, x, sorted[1..])
  }

  ghost predicate Ascending(d: Grid, n: nat, node: nat, s: seq<nat>)
    requires Covers(d, n) && node < n && Within(s, n)
  {
    forall i, j :: 0 <= i < j < |s| ==> Dist(d, node, s[i]) <= Dist(d, node, s[j])
  }

  lemma {:induction false} InsertMembers(d: Grid, n: nat, node: nat, x: nat, s: seq<nat>)
    requires Covers(d, n) && node < n && x < n && Within(s, n)
    ensures |Insert(d, n, node, x, s)| == |s| + 1
    ensures forall b :: b in Insert(d, n, node, x, s) <==> b in s || b == x
    ensures Within(Insert(d, n, node, x, s), n)
  {
    if s != [] {
      assert s == [s[0]] + s[1..];
      if Dist(d, node, x) >= Dist(d, node, s[0]) {
        InsertMembers(d, n, node, x, s[1..]);
        assert Insert(d, n, node, x, s) == [s[0]] + Insert(d, n, node, x, s[1..]);
      } else {
        assert Insert(d, n, node, x, s) == [x] + s;
      }
    }
  }

  lemma {:induction false} InsertAscends(d: Grid, n: nat, node: nat, x: nat, s: seq<nat>)
    requires Covers(d, n) && node < n && x < n && Within(s, n) && Ascending(d, n, node, s)
    ensures Within(Insert(d, n, node, x, s), n)
    ensures Ascending(d, n, node, Insert(d, n, node, x, s))
  {
    InsertMembers(d, n, node, x, s);
    if s != [] && Dist(d, node, x) >= Dist(d, node, s[0]) {
      var rest := Insert(d, n, node, x, s[1..]);
      InsertAscends(d, n, node, x, s[1..]);
      InsertMembers(d, n, node, x, s[1..]);
      forall k | 0 <= k < |rest|
        ensures Dist(d, node, s[0]) <= Dist(d, node, rest[k])
      {
        assert rest[k] in rest;
        if rest[k] != x {
          var j :| 0 <= j < |s[1..]| && s[1..][j] == rest[k];
          assert s[j + 1] == rest[k];
        }
      }
    }
  }

  /** `granular` lists some nearest stops of `node`, and the depot. */
  ghost predicate Nearest(d: Grid, n: nat, node: nat, k: nat, granular: seq<nat>)
    requires Covers(d, n) && node < n
  {
    && Within(granular, n) && node !in granular
    && (node != 0 ==> 0 in granular)
    && |granular| >= Min(k, n - 1)
    && (forall i, b :: 0 <= i < Min(k, n - 1) && 0 <= b < n && b != node && b !in granular ==>
          Dist(d, node, granular[i]) <= Dist(d, node, b))
    && (k >= n - 1 ==> forall b :: 0 <= b < n && b != node ==> b in granular)
  }

  /** The stops below `m` other than `node`, as a stable sort by distance orders them. */
  function Ranked(d: Grid, n: nat, node: nat, m: nat): (others: seq<nat>)
    requires Covers(d, n) && node < n && m <= n
    ensures Within(others, n)
  {
    if m == 0 then []
    else if m - 1 == node then Ranked(d, n, node, m - 1)
    else
      InsertMembers(d, n, node, m - 1, Ranked(d, n, node, m - 1));
      Insert(d, n, node, m - 1, Ranked(d, n, node, m - 1))
  }

  /** One stop's row of `_neighbours`. */
  function RowOf(d: Grid, n: nat, node: nat, k: nat): (row: seq<nat>)
    requires Covers(d, n) && node < n
    ensures Within(row, n)
  {
    var others := Ranked(d, n, node, n);
    var nearest := others[..Min(k, |others|)];
    if 0 !in nearest && node != 0 then nearest + [0] else nearest
  }

  ghost predicate AreRows(d: Grid, n: nat, k: nat, granular: seq<seq<nat>>)
    requires Covers(d, n)
  {
    |granular| == n && forall node :: 0 <= node < n ==> granular[node] == RowOf(d, n, node, k)
  }

  /** Every other stop, by distance from `node`. */
  method ByDistance(d: Grid, n: nat, node: nat) returns (others: seq<nat>)
    requires Covers(d, n) && node < n
    ensures others == Ranked(d, n, node, n)
    ensures |others| == n - 1 && Within(others, n) && Ascending(d, n, node, others)
    ensures forall b :: b in others <==> 0 <= b < n && b != node
  {
    others := [];
    for other := 0 to n
      invariant others == Ranked(d, n, node, other) && Within(others, n) && Ascending(d, n, node, others)
      invariant |others| == if node < other then other - 1 else other
      invariant forall b :: b in others <==> 0 <= b < other && b != node
    {
      if other != node {
        InsertAscends(d, n, node, other, others);
        InsertMembers(d, n, node, other, others);
        others := Insert(d, n, node, other, others);
      }
    }
  }

  /** One stop's row of `_neighbours`: the first `k` by distance, and the depot. */
  method NearestTo(d: Grid, n: nat, node: nat, k: nat) returns (nearest: seq<nat>)
    requires Covers(d, n) && node < n
    ensures nearest == RowOf(d, n, node, k) && Nearest(d, n, node, k, nearest)
  {
    hide Ranked, Nearest;
    var others := ByDistance(d, n, node);
    nearest := others[..Min(k, n - 1)];
    if 0 !in nearest && node != 0 {
      nearest := nearest + [0];
    }
    RowIsNearest(d, n, node, k, others, nearest);
  }

  lemma {:induction false} RowIsNearest(d: Grid, n: nat, node: nat, k: nat, others: seq<nat>, nearest: seq<nat>)
    requires Covers(d, n) && node < n && Within(others, n) && |others| == n - 1 && Ascending(d, n, node, others)
    requires forall b :: b in others <==> 0 <= b < n && b != node
    requires var first := others[..Min(k, n - 1)];
             nearest == if 0 !in first && node != 0 then first + [0] else first
    ensures Nearest(d, n, node, k, nearest)
  {
    hide Ascending;
    var count := Min(k, n - 1);
    var first := others[..count];
    FirstAreNearest(d, n, node, others, count);
    assert forall b :: b in first ==> b in others;
    assert count == n - 1 ==> first == others;
    forall i, b | 0 <= i < count && 0 <= b < n && b != node && b !in nearest
      ensures Dist(d, node, nearest[i]) <= Dist(d, node, b)
    {
      assert nearest[i] == others[i] && b in others && b !in first;
    }
  }

  lemma {:induction false} FirstAreNearest(d: Grid, n: nat, node: nat, others: seq<nat>, count: nat)
    requires Covers(d, n) && node < n && Within(others, n) && Ascending(d, n, node, others)
    requires count <= |others|
    ensures Within(others[..count], n)
    ensures forall i, j :: 0 <= i < count <= j < |others| ==> Dist(d, node, others[i]) <= Dist(d, node, others[j])
    ensures forall i, b :: 0 <= i < count && b in others && b !in others[..count] ==>
      Dist(d, node, others[i]) <= Dist(d, node, b)
  {
    forall i, b | 0 <= i < count && b in others && b !in others[..count]
      ensures Dist(d, node, others[i]) <= Dist(d, node, b)
    {
      var j :| 0 <= j < |others| && others[j] == b;
      assert forall x :: 0 <= x < count ==> others[x] in others[..count];
    }
  }

  /** `_neighbours`, for every stop. */
  method Neighbours(d: Grid, n: nat, k: nat) returns (granular: seq<seq<nat>>)
    requires Covers(d, n)
    ensures AreRows(d, n, k, granular)
    ensures forall node :: 0 <= node < n ==> Nearest(d, n, node, k, granular[node])
  {
    granular := [];
    for node := 0 to n
      invariant |granular| == node
      invariant forall x :: 0 <= x < node ==> granular[x] == RowOf(d, n, x, k) && Nearest(d, n, x, k, granular[x])
    {
      var nearest := NearestTo(d, n, node, k);
      granular := granular + [nearest];
    }
  }

  // ------------------------------------------------------------------
  // The accelerated search
  // ------------------------------------------------------------------

  /** `{node: index for index, node in enumerate(route)}`. */
  function Positions(route: Route): (position: map<nat, nat>)
    requires NoRepeats(route)
    ensures forall k :: 0 <= k < |route| ==> route[k] in position && position[route[k]] == k
  {
    map k | 0 <= k < |route| :: route[k] := k
  }

  lemma {:induction false} PositionOf(route: Route, n: nat, node: nat)
    requires Tour(route, n) && node < n
    ensures node in Positions(route) && Positions(route)[node] < n && route[Positions(route)[node]] == node
  {
    DistinctFillRange(route, n, node);
    var k :| 0 <= k < n && route[k] == node;
    assert Positions(route)[route[k]] == k;
  }

  /** The work queue holds each waiting stop once, and `queued` is its contents. */
  ghost predicate Waiting(queue: seq<nat>, queued: set<nat>, n: nat) {
    NoRepeats(queue) && queued == Elements(queue) && Within(queue, n)
  }

  /** The queue with these stops behind it, those waiting already left where they are. */
  function Woken(queue: seq<nat>, nodes: seq<nat>): (all: seq<nat>)
    ensures forall x :: x in all <==> x in queue || x in nodes
    decreases |nodes|
  {
    if nodes == [] then queue
    else
      assert nodes == [nodes[0]] + nodes[1..];
      Woken(if nodes[0] in queue then queue else queue + [nodes[0]], nodes[1..])
  }

  lemma {:induction false} WokenStep(queue: seq<nat>, nodes: seq<nat>, k: nat)
    requires k < |nodes|
    ensures Woken(queue, nodes[k..]) == Woken(if nodes[k] in queue then queue else queue + [nodes[k]], nodes[k + 1..])
  {
    assert nodes[k..][1..] == nodes[k + 1..];
  }

  /** `wake`: queue the stops that are not queued already. */
  method Wake(queue0: seq<nat>, queued0: set<nat>, nodes: seq<nat>, ghost n: nat)
    returns (queue: seq<nat>, queued: set<nat>)
    requires Waiting(queue0, queued0, n) && Within(nodes, n)
    ensures Waiting(queue, queued, n) && queue0 <= queue
    ensures queued == queued0 + Elements(nodes) && queue == Woken(queue0, nodes)
  {
    hide Woken;
    queue, queued := queue0, queued0;
    assert nodes[0..] == nodes;
    for k := 0 to |nodes|
      invariant Waiting(queue, queued, n) && queue0 <= queue
      invariant queued == queued0 + Elements(nodes[..k])
      invariant Woken(queue0, nodes) == Woken(queue, nodes[k..])
    {
      WokenStep(queue, nodes, k);
      assert nodes[..k + 1] == nodes[..k] + [nodes[k]];
      if nodes[k] !in queued {
        ghost var before := queue;
        queued := queued + {nodes[k]};
        queue := queue + [nodes[k]];
        assert Elements(queue) == Elements(before) + {nodes[k]};
      }
    }
    assert nodes[..|nodes|] == nodes;
    NothingWoken(queue, nodes[|nodes|..]);
  }

  lemma {:induction false} NothingWoken(queue: seq<nat>, nodes: seq<nat>)
    requires nodes == []
    ensures Woken(queue, nodes) == queue
  {
  }

  /** After a move: the stops it touched, and without don't-look bits every stop. */
  method WakeMoved(queue0: seq<nat>, queued0: set<nat>, touched: seq<nat>, route: Route, dontLookBits: bool, ghost n: nat)
    returns (queue: seq<nat>, queued: set<nat>)
    requires Waiting(queue0, queued0, n) && Within(touched, n) && Within(route, n)
    ensures Waiting(queue, queued, n) && queue0 <= queue
    ensures queued == queued0 + Elements(touched) + if dontLookBits then {} else Elements(route)
    ensures queue == Woken(Woken(queue0, touched), if dontLookBits then [] else route)
  {
    queue, queued := Wake(queue0, queued0, touched, n);
    if !dontLookBits {
      queue, queued := Wake(queue, queued, route, n);
    } else {
      NothingWoken(queue, []);
    }
  }

  // ------------------------------------------------------------------
  // One turn
  // ------------------------------------------------------------------

  /** The four-edge test accepts putting the stop at `i` after the stop at `t`. */
  predicate TakesRelocate(d: Grid, n: nat, route: Route, i: nat, t: nat)
    requires Covers(d, n) && Tour(route, n) && 1 <= i < n && t < n
  {
    Next(route, t) != route[i] && Added(d, n, route, i, t) < Removed(d, n, route, i)
  }

  /** The two-edge test accepts reversing between the two stops. */
  predicate TakesFlip(d: Grid, n: nat, route: Route, i: nat, t: nat)
    requires Covers(d, n) && Tour(route, n) && i < n && t < n
  {
    Min(i, t) >= 1 && Max(i, t) - Min(i, t) >= 2 && FlipDelta(d, n, route, Min(i, t), Max(i, t)) < 0
  }

  /** A tour a move makes, and the stops it wakes. */
  datatype Change = Change(route: Route, touched: seq<nat>)

  function Relocated(n: nat, route: Route, i: nat, t: nat): (c: Change)
    requires Tour(route, n) && 1 <= i < n && t < n && t != i && Next(route, t) != route[i]
    ensures Tour(c.route, n) && Within(c.touched, n)
  {
    MovedIsTour(route, n, i, Slot(i, t));
    Change(Moved(route, i, Slot(i, t)), [route[i - 1], Next(route, i), route[i], route[t], Next(route, t)])
  }

  function Reversed(n: nat, route: Route, left: nat, right: nat): (c: Change)
    requires Tour(route, n) && 1 <= left < right < n
    ensures Tour(c.route, n) && Within(c.touched, n)
  {
    FlippedIsTour(route, n, left, right);
    Change(Flipped(route, left, right), [route[left - 1], route[left], route[right - 1], route[right]])
  }

  /** The move the stop at `i` makes with the stop at `t`, if any: a relocate before a 2-opt. */
  function Offer(d: Grid, n: nat, route: Route, i: nat, t: nat): (c: Option<Change>)
    requires Covers(d, n) && Tour(route, n) && 1 <= i < n && t < n
    ensures c.Some? ==> Tour(c.value.route, n) && Within(c.value.touched, n)
  {
    if t == i then None
    else if TakesRelocate(d, n, route, i, t) then Some(Relocated(n, route, i, t))
    else if TakesFlip(d, n, route, i, t) then Some(Reversed(n, route, Min(i, t), Max(i, t)))
    else None
  }

  /** The first candidate with an accepted move. */
  function FirstMove(d: Grid, n: nat, route: Route, i: nat, candidates: seq<nat>): (c: Option<Change>)
    requires Covers(d, n) && Tour(route, n) && 1 <= i < n && Within(candidates, n)
    ensures c.Some? ==> Tour(c.value.route, n) && Within(c.value.touched, n)
  {
    if candidates == [] then None
    else
      PositionOf(route, n, candidates[0]);
      var offer := Offer(d, n, route, i, Positions(route)[candidates[0]]);
      if offer.Some? then offer else FirstMove(d, n, route, i, candidates[1..])
  }

  /** What the search holds between two turns: the tour and the queue. */
  datatype Work = Work(route: Route, queue: seq<nat>)

  ghost predicate Live(w: Work, n: nat) {
    Tour(w.route, n) && Within(w.queue, n)
  }

  ghost predicate Rows(granular: seq<seq<nat>>, n: nat) {
    |granular| == n && forall i :: 0 <= i < n ==> Within(granular[i], n)
  }

  lemma {:induction false} WokenWithin(queue: seq<nat>, nodes: seq<nat>, n: nat)
    requires Within(queue, n) && Within(nodes, n)
    ensures Within(Woken(queue, nodes), n)
  {
    var all := Woken(queue, nodes);
    forall k | 0 <= k < |all|
      ensures all[k] < n
    {
      assert all[k] in all;
    }
  }

  /** The head of the queue is looked at; an accepted move changes the tour and wakes stops. */
  function Turn(d: Grid, n: nat, granular: seq<seq<nat>>, dontLookBits: bool, w: Work): (v: Work)
    requires Covers(d, n) && Live(w, n) && Rows(granular, n) && w.queue != []
    ensures Live(v, n)
  {
    var node, rest := w.queue[0], w.queue[1..];
    PositionOf(w.route, n, node);
    var i := Positions(w.route)[node];
    var move := if i == 0 then None else FirstMove(d, n, w.route, i, granular[node]);
    if move.None? then Work(w.route, rest)
    else
      var c := move.value;
      var woken := Woken(rest, c.touched + [node]);
      WokenWithin(rest, c.touched + [node], n);
      WokenWithin(woken, if dontLookBits then [] else c.route, n);
      Work(c.route, Woken(woken, if dontLookBits then [] else c.route))
  }

  /** After so many turns, or as many as there were to take. */
  ghost function After(d: Grid, n: nat, granular: seq<seq<nat>>, dontLookBits: bool, w: Work, turns: nat): (v: Work)
    requires Covers(d, n) && Live(w, n) && Rows(granular, n)
    ensures Live(v, n)
  {
    if turns == 0 then w
    else
      var x := After(d, n, granular, dontLookBits, w, turns - 1);
      if x.queue == [] then x else Turn(d, n, granular, dontLookBits, x)
  }

  lemma {:induction false} NoTurnYet(d: Grid, n: nat, granular: seq<seq<nat>>, dontLookBits: bool, start: Work)
    requires Covers(d, n) && Live(start, n) && Rows(granular, n)
    ensures After(d, n, granular, dontLookBits, start, 0) == start
  {
  }

  lemma {:induction false} OneMoreTurn(d: Grid, n: nat, granular: seq<seq<nat>>, dontLookBits: bool, start: Work, turns: nat,
                                       w: Work)
    requires Covers(d, n) && Live(start, n) && Rows(granular, n)
    requires After(d, n, granular, dontLookBits, start, turns) == w && w.queue != []
    ensures Live(w, n)
    ensures After(d, n, granular, dontLookBits, start, turns + 1) == Turn(d, n, granular, dontLookBits, w)
  {
  }

  /** A turn without a move only shortens the queue. */
  lemma {:induction false} IdleTurn(d: Grid, n: nat, granular: seq<seq<nat>>, dontLookBits: bool, w: Work, i: nat)
    requires Covers(d, n) && Live(w, n) && Rows(granular, n) && w.queue != [] && i < n && w.route[i] == w.queue[0]
    requires i > 0 ==> FirstMove(d, n, w.route, i, granular[w.queue[0]]).None?
    ensures Turn(d, n, granular, dontLookBits, w) == Work(w.route, w.queue[1..])
  {
    hide FirstMove;
    assert Positions(w.route)[w.route[i]] == i;
  }

  /** A turn with a move. */
  lemma {:induction false} MovingTurn(d: Grid, n: nat, granular: seq<seq<nat>>, dontLookBits: bool, w: Work, i: nat, c: Change)
    requires Covers(d, n) && Live(w, n) && Rows(granular, n) && w.queue != [] && 0 < i < n && w.route[i] == w.queue[0]
    requires FirstMove(d, n, w.route, i, granular[w.queue[0]]) == Some(c)
    ensures Turn(d, n, granular, dontLookBits, w)
         == Work(c.route, Woken(Woken(w.queue[1..], c.touched + [w.queue[0]]), if dontLookBits then [] else c.route))
  {
    hide FirstMove, Woken;
    assert Positions(w.route)[w.route[i]] == i;
  }

  /** The search ends with this tour. */
  ghost predicate Returns(d: Grid, n: nat, granular: seq<seq<nat>>, dontLookBits: bool, start: Route, route: Route)
    requires Covers(d, n) && Tour(start, n) && Rows(granular, n)
  {
    exists turns: nat :: After(d, n, granular, dontLookBits, Work(start, start), turns) == Work(route, [])
  }

  // ------------------------------------------------------------------
  // The source's loops
  // ------------------------------------------------------------------

  /** Relocate one stop after another, judged by the four edges it changes. */
  method TryRelocate(d: Grid, n: nat, route: Route, index: nat, target: nat, counted: nat)
    returns (move: Option<Change>, evaluations: nat)
    requires Covers(d, n) && Tour(route, n) && 1 <= index < n && target < n && target != index
    ensures move.Some? <==> TakesRelocate(d, n, route, index, target)
    ensures move.Some? ==> move == Some(Relocated(n, route, index, target))
    ensures move.Some? ==> TourLength(d, n, move.value.route) < TourLength(d, n, route)
                           && OthersKeepEdges(route, move.value.route, move.value.touched)
    ensures move.None? ==> !RelocateHelps(d, n, route, index, target)
  {
    move, evaluations := None, counted;
    var node, other := route[index], route[target];
    NextByRemainder(route, index);
    NextByRemainder(route, target);
    var previous, following, after := route[index - 1], route[(index + 1) % n], route[(target + 1) % n];
    if after != node {
      evaluations := evaluations + 1;
      var removed := Dist(d, previous, node) + Dist(d, node, following) - Dist(d, previous, following);
      var added := Dist(d, other, node) + Dist(d, node, after) - Dist(d, other, after);
      RelocateDelta(d, n, route, index, target);
      if added < removed {
        var insertAt := if target < index then target + 1 else target;
        move := Some(Change(Moved(route, index, insertAt), [previous, following, node, other, after]));
        RelocateWakes(n, route, index, target);
      }
    }
  }

  /** Reverse the segment between two stops, judged by the two edges it replaces. */
  method TryFlip(d: Grid, n: nat, route: Route, index: nat, target: nat, counted: nat)
    returns (move: Option<Change>, evaluations: nat)
    requires Covers(d, n) && Tour(route, n) && index < n && target < n
    ensures move.Some? <==> TakesFlip(d, n, route, index, target)
    ensures move.Some? ==> move == Some(Reversed(n, route, Min(index, target), Max(index, target)))
    ensures move.Some? ==> OthersKeepEdges(route, move.value.route, move.value.touched)
    ensures move.Some? && Reversible(d, n) ==> TourLength(d, n, move.value.route) < TourLength(d, n, route)
    ensures move.None? && Reversible(d, n) ==> !FlipHelps(d, n, route, index, target)
  {
    move, evaluations := None, counted;
    var left, right := if index < target then index else target, if index < target then target else index;
    if right - left >= 2 && left >= 1 {
      evaluations := evaluations + 1;
      NextByRemainder(route, right - 1);
      var a, b, c, e := route[left - 1], route[left], route[right - 1], route[right % n];
      FlipDeltaExactly(d, n, route, left, right);
      if Dist(d, a, c) + Dist(d, b, e) - Dist(d, a, b) - Dist(d, c, e) < 0 {
        move := Some(Change(Flipped(route, left, right), [a, b, c, e]));
        FlipWakes(n, route, left, right);
      }
    }
  }

  /** The inner loop: the first candidate whose relocate or 2-opt delta is negative. */
  method TryNode(d: Grid, n: nat, route: Route, position: map<nat, nat>, index: nat,
                 candidates: seq<nat>, counted: nat)
    returns (move: Option<Change>, evaluations: nat)
    requires Covers(d, n) && Tour(route, n) && position == Positions(route)
    requires 1 <= index < n && Within(candidates, n)
    ensures move == FirstMove(d, n, route, index, candidates)
    ensures move.Some? ==> OthersKeepEdges(route, move.value.route, move.value.touched)
    ensures move.Some? && Reversible(d, n) ==> TourLength(d, n, move.value.route) < TourLength(d, n, route)
    ensures move.None? && Reversible(d, n) ==> SettledAt(d, n, route, index, candidates)
  {
    hide OthersKeepEdges, RelocateHelps, FlipHelps, TourLength, Positions, TakesRelocate, TakesFlip, Relocated, Reversed,
         Reversible;
    move, evaluations := None, counted;
    for k := 0 to |candidates|
      invariant FirstMove(d, n, route, index, candidates) == FirstMove(d, n, route, index, candidates[k..])
      invariant Reversible(d, n) ==>
        forall c, t :: 0 <= c < k && 0 <= t < n && route[t] == candidates[c] && t != index ==>
          !RelocateHelps(d, n, route, index, t) && !FlipHelps(d, n, route, index, t)
    {
      assert candidates[k..][1..] == candidates[k + 1..];
      var other := candidates[k];
      PositionOf(route, n, other);
      var target := position[other];
      if target == index {
        continue;
      }
      move, evaluations := TryRelocate(d, n, route, index, target, evaluations);
      if move.Some? {
        return;
      }
      move, evaluations := TryFlip(d, n, route, index, target, evaluations);
      if move.Some? {
        return;
      }
    }
    move := None;
  }

  /** Every stop that is not waiting has no improving move. */
  ghost predicate RestSettled(d: Grid, n: nat, route: Route, granular: seq<seq<nat>>, queued: set<nat>)
    requires Covers(d, n) && Tour(route, n) && |granular| == n
  {
    forall i :: 0 <= i < n && route[i] !in queued ==> SettledAt(d, n, route, i, granular[route[i]])
  }

  // ------------------------------------------------------------------
  // What the don't-look bits leave
  // ------------------------------------------------------------------

  /** The stop was looked at in an earlier tour where no move of its own helped, and it has the
      same neighbours now. */
  ghost predicate LookedAt(d: Grid, n: nat, earlier: Route, route: Route, candidates: seq<nat>, node: nat)
    requires Covers(d, n) && Tour(route, n)
  {
    && Tour(earlier, n)
    && (exists i :: 0 <= i < n && earlier[i] == node && SettledAt(d, n, earlier, i, candidates))
    && forall y :: Linked(Closed(earlier), node, y) <==> Linked(Closed(route), node, y)
  }

  /** Nothing has happened at the stop since it was last looked at; the depot is never moved. */
  ghost predicate Rested(d: Grid, n: nat, route: Route, candidates: seq<nat>, node: nat)
    requires Covers(d, n) && Tour(route, n)
  {
    node == 0 || exists earlier :: LookedAt(d, n, earlier, route, candidates, node)
  }

  lemma {:induction false} RestedNow(d: Grid, n: nat, route: Route, candidates: seq<nat>, i: nat)
    requires Covers(d, n) && Tour(route, n) && i < n && SettledAt(d, n, route, i, candidates)
    ensures Rested(d, n, route, candidates, route[i])
  {
    assert LookedAt(d, n, route, route, candidates, route[i]);
  }

  lemma {:induction false} DepotRests(d: Grid, n: nat, route: Route, candidates: seq<nat>)
    requires Covers(d, n) && Tour(route, n)
    ensures Rested(d, n, route, candidates, 0) && (n > 0 ==> SettledAt(d, n, route, 0, candidates))
  {
  }

  lemma {:induction false} RestedStays(d: Grid, n: nat, route: Route, next: Route, touched: seq<nat>,
                                       candidates: seq<nat>, node: nat)
    requires Covers(d, n) && Tour(route, n) && Tour(next, n) && OthersKeepEdges(route, next, touched)
    requires node !in touched && Rested(d, n, route, candidates, node)
    ensures Rested(d, n, next, candidates, node)
  {
    if node != 0 {
      var earlier :| LookedAt(d, n, earlier, route, candidates, node);
      assert LookedAt(d, n, earlier, next, candidates, node);
    }
  }

  /** Every stop that is not waiting is rested. */
  ghost predicate AllRested(d: Grid, n: nat, route: Route, granular: seq<seq<nat>>, queued: set<nat>)
    requires Covers(d, n) && Tour(route, n) && |granular| == n
  {
    forall node :: 0 <= node < n && node !in queued ==> Rested(d, n, route, granular[node], node)
  }

  lemma {:induction false} MoveKeepsRested(d: Grid, n: nat, route: Route, next: Route, touched: seq<nat>,
                                           granular: seq<seq<nat>>, before: set<nat>, after: set<nat>, node: nat)
    requires Covers(d, n) && Tour(route, n) && Tour(next, n) && OthersKeepEdges(route, next, touched) && |granular| == n
    requires AllRested(d, n, route, granular, before + {node})
    requires forall x :: x in before || x in touched || x == node ==> x in after
    ensures AllRested(d, n, next, granular, after)
  {
    hide OthersKeepEdges, Rested, Tour, Covers;
    forall x | 0 <= x < n && x !in after
      ensures Rested(d, n, next, granular[x], x)
    {
      RestedStays(d, n, route, next, touched, granular[x], x);
    }
  }

  /** `accelerated_search`, on a matrix whose 2-opt deltas are exact. It takes turns until none is
      left, at a tour no longer than the one it was given, where every stop has had no improving
      move of its own since it last got a new neighbour; with the don't-look bits off, no relocate
      or 2-opt in any stop's granular neighbourhood improves the tour it returns. */
  method AcceleratedSearch(d: Grid, n: nat, start: Route, k: nat, dontLookBits: bool)
    returns (route: Route, evaluations: nat, granular: seq<seq<nat>>)
    requires Covers(d, n) && Reversible(d, n) && Tour(start, n)
    ensures AreRows(d, n, k, granular) && forall node :: 0 <= node < n ==> Nearest(d, n, node, k, granular[node])
    ensures Returns(d, n, granular, dontLookBits, start, route)
    ensures Tour(route, n) && TourLength(d, n, route) <= TourLength(d, n, start)
    ensures forall node :: 0 <= node < n ==> Rested(d, n, route, granular[node], node)
    ensures !dontLookBits ==> Settled(d, n, route, granular)
    ensures !dontLookBits && k >= n - 1 ==> NaivelySettled(d, n, route)
  {
    hide OthersKeepEdges, Rested, TourLength, SettledAt, NaivelySettled, FirstMove, Woken, Reversible, RowOf, Turn, After,
         Positions;
    route, evaluations := start, 0;
    granular := Neighbours(d, n, k);
    var position := Positions(route);
    var queue, queued := route, Elements(route);
    forall node | 0 <= node < n
      ensures node in queued
    {
      DistinctFillRange(route, n, node);
    }
    ghost var turns: nat := 0;
    NoTurnYet(d, n, granular, dontLookBits, Work(start, start));
    while queue != []
      invariant Tour(route, n) && TourLength(d, n, route) <= TourLength(d, n, start)
      invariant position == Positions(route)
      invariant Waiting(queue, queued, n)
      invariant After(d, n, granular, dontLookBits, Work(start, start), turns) == Work(route, queue)
      invariant !dontLookBits ==> RestSettled(d, n, route, granular, queued)
      invariant AllRested(d, n, route, granular, queued)
      decreases TourLength(d, n, route), |queue|
    {
      var node := queue[0];
      Popped(queue, queued, n);
      ghost var w := Work(route, queue);
      OneMoreTurn(d, n, granular, dontLookBits, Work(start, start), turns, w);
      queue, queued := queue[1..], queued - {node};
      turns := turns + 1;
      PositionOf(route, n, node);
      var index := position[node];
      if index == 0 {
        DepotRests(d, n, route, granular[node]);
        IdleTurn(d, n, granular, dontLookBits, w, index);
        continue;
      }
      var move, count := TryNode(d, n, route, position, index, granular[node], evaluations);
      evaluations := count;
      if move.Some? {
        MovingTurn(d, n, granular, dontLookBits, w, index, move.value);
        ghost var was, rested := route, queued;
        route, position := move.value.route, Positions(move.value.route);
        queue, queued := WakeMoved(queue, queued, move.value.touched + [node], route, dontLookBits, n);
        MoveKeepsRested(d, n, was, route, move.value.touched, granular, rested, queued, node);
      } else {
        IdleTurn(d, n, granular, dontLookBits, w, index);
        RestedNow(d, n, route, granular[node], index);
      }
    }
    if !dontLookBits && k >= n - 1 {
      SettledIsNaive(d, n, route, granular);
    }
  }

  lemma {:induction false} Popped(queue: seq<nat>, queued: set<nat>, n: nat)
    requires Waiting(queue, queued, n) && queue != []
    ensures Waiting(queue[1..], queued - {queue[0]}, n)
  {
    assert queue == [queue[0]] + queue[1..];
    assert Elements(queue[1..]) == Elements(queue) - {queue[0]};
  }
}
