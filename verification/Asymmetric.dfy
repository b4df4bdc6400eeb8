/** What the accelerated local search (vrp/localsearch.py) does on matrices whose stops are not
    symmetric: it can take the same turns for ever, and it can end at a longer tour. */
module Asymmetric {
  import opened Common
  import opened LocalSearch
  import opened Accelerated

  // ------------------------------------------------------------------
  // Turns over four places
  // ------------------------------------------------------------------

  lemma {:induction false} FirstOffer(d: Grid, route: Route, i: nat, candidates: seq<nat>, t: nat)
    requires Covers(d, 4) && Tour(route, 4) && 1 <= i < 4 && t < 4 && Within(candidates, 4)
    requires candidates != [] && route[t] == candidates[0]
    ensures FirstMove(d, 4, route, i, candidates) ==
      if Offer(d, 4, route, i, t).Some? then Offer(d, 4, route, i, t) else FirstMove(d, 4, route, i, candidates[1..])
  {
    hide Offer;
    assert Positions(route)[route[t]] == t;
  }

  /** The first offer among three candidates, at these places of the tour. */
  lemma {:induction false} ThreeOffers(d: Grid, route: Route, i: nat, row: seq<nat>, t: nat, u: nat, v: nat)
    requires Covers(d, 4) && Tour(route, 4) && 1 <= i < 4 && t < 4 && u < 4 && v < 4
    requires Within(row, 4) && row == [route[t], route[u], route[v]]
    ensures FirstMove(d, 4, route, i, row) ==
      if Offer(d, 4, route, i, t).Some? then Offer(d, 4, route, i, t)
      else if Offer(d, 4, route, i, u).Some? then Offer(d, 4, route, i, u)
      else Offer(d, 4, route, i, v)
  {
    hide Offer;
    FirstOffer(d, route, i, row, t);
    FirstOffer(d, route, i, row[1..], u);
    FirstOffer(d, route, i, row[1..][1..], v);
    assert row[1..][1..][1..] == [];
  }

  /** The tours the moves of four places make. */
  lemma {:induction false} FourMoved(a: nat, b: nat, c: nat)
    ensures Flipped([0, a, b, c], 1, 3) == [0, b, a, c]
    ensures Moved([0, a, b, c], 1, 2) == [0, b, a, c] && Moved([0, a, b, c], 1, 3) == [0, b, c, a]
    ensures Moved([0, a, b, c], 2, 3) == [0, a, c, b]
  {
    assert [a, b][1..] == [b] && [b][1..] == [];
    assert Reverse([b]) == [b] && Reverse([a, b]) == [b, a];
    assert [0, a, b, c][1..3] == [a, b];
  }

  lemma {:induction false} NobodyNew(queue: seq<nat>, nodes: seq<nat>)
    requires forall x :: x in nodes ==> x in queue
    ensures Woken(queue, nodes) == queue
    decreases |nodes|
  {
    if nodes != [] {
      assert nodes[0] in nodes;
      NobodyNew(queue, nodes[1..]);
    }
  }

  lemma {:induction false} WokenJoins(queue: seq<nat>, a: seq<nat>, b: seq<nat>)
    ensures Woken(queue, a + b) == Woken(Woken(queue, a), b)
    decreases |a|
  {
    if a == [] {
      assert a + b == b;
    } else {
      assert (a + b)[1..] == a[1..] + b;
      WokenJoins(if a[0] in queue then queue else queue + [a[0]], a[1..], b);
    }
  }

  lemma {:induction false} AllNew(queue: seq<nat>, late: seq<nat>)
    requires NoRepeats(late) && forall x :: x in late ==> x !in queue
    ensures Woken(queue, late) == queue + late
    decreases |late|
  {
    if late != [] {
      assert late == [late[0]] + late[1..];
      AllNew(queue + [late[0]], late[1..]);
      assert queue + [late[0]] + late[1..] == queue + late;
    } else {
      assert queue + late == queue;
    }
  }

  /** The stops woken that did not wait already join the queue; `early` and `others` wait. */
  lemma {:induction false} WakesLate(queue: seq<nat>, nodes: seq<nat>, early: seq<nat>, late: seq<nat>, others: seq<nat>)
    requires nodes == early + late + others && NoRepeats(late)
    requires forall x :: x in early ==> x in queue
    requires forall x :: x in late ==> x !in queue
    requires forall x :: x in others ==> x in queue + late
    ensures Woken(queue, nodes) == queue + late
  {
    WokenJoins(queue, early + late, others);
    WokenJoins(queue, early, late);
    NobodyNew(queue, early);
    AllNew(queue, late);
    NobodyNew(queue + late, others);
  }

  /** A turn whose move leaves everybody waiting, with the don't-look bits or without. */
  lemma {:induction false} MovesAndWakes(d: Grid, granular: seq<seq<nat>>, dontLookBits: bool, w: Work, i: nat, c: Change,
                                         queue: seq<nat>)
    requires Covers(d, 4) && Rows(granular, 4) && Live(w, 4) && w.queue != [] && 0 < i < 4 && w.route[i] == w.queue[0]
    requires FirstMove(d, 4, w.route, i, granular[w.queue[0]]) == Some(c)
    requires Woken(w.queue[1..], c.touched + [w.queue[0]]) == queue
    requires forall x: nat :: x < 4 ==> x in queue
    ensures Turn(d, 4, granular, dontLookBits, w) == Work(c.route, queue)
  {
    hide FirstMove, Woken;
    MovingTurn(d, 4, granular, dontLookBits, w, i, c);
    NobodyNew(queue, if dontLookBits then [] else c.route);
  }

  lemma {:induction false} FourLong(d: Grid, a: nat, b: nat, c: nat)
    requires Covers(d, 4) && a < 4 && b < 4 && c < 4
    ensures Within([0, a, b, c], 4) && TourLength(d, 4, [0, a, b, c]) == d[0][a] + d[a][b] + d[b][c] + d[c][0]
  {
    var closed := [0, a, b, c, 0];
    assert Closed([0, a, b, c]) == closed;
    assert closed[1..] == [a, b, c, 0] && [a, b, c, 0][1..] == [b, c, 0] && [b, c, 0][1..] == [c, 0];
    assert [c, 0][1..] == [0] && Length(d, 4, [0]) == 0;
    assert Length(d, 4, [c, 0]) == d[c][0];
    assert Length(d, 4, [b, c, 0]) == d[b][c] + d[c][0];
    assert Length(d, 4, [a, b, c, 0]) == d[a][b] + d[b][c] + d[c][0];
  }

  lemma {:induction false} InsertsInto(d: Grid, node: nat, x: nat, a: nat, b: nat)
    requires Covers(d, 4) && node < 4 && x < 4 && a < 4 && b < 4
    ensures Within([a], 4) && Within([a, b], 4)
    ensures Insert(d, 4, node, x, [a]) == if d[node][x] < d[node][a] then [x, a] else [a, x]
    ensures Insert(d, 4, node, x, [a, b])
         == if d[node][x] < d[node][a] then [x, a, b] else if d[node][x] < d[node][b] then [a, x, b] else [a, b, x]
  {
    assert [a][1..] == [] && [a, b][1..] == [b] && [b][1..] == [];
    assert Insert(d, 4, node, x, [b]) == if d[node][x] < d[node][b] then [x, b] else [b, x];
  }

  /** A row, by inserting the three other places in turn. */
  lemma {:induction false} RankedFour(d: Grid, node: nat)
    requires Covers(d, 4) && node < 4
    ensures var x, y, z := if node == 0 then 1 else 0, if node <= 1 then 2 else 1, if node <= 2 then 3 else 2;
            Within(Insert(d, 4, node, y, [x]), 4)
            && Ranked(d, 4, node, 4) == Insert(d, 4, node, z, Insert(d, 4, node, y, [x]))
  {
    var x, y := if node == 0 then 1 else 0, if node <= 1 then 2 else 1;
    InsertsInto(d, node, y, x, x);
    assert Ranked(d, 4, node, 0) == [];
    assert Ranked(d, 4, node, 1) == if node == 0 then [] else [0];
    assert Ranked(d, 4, node, 2) == if node == 0 then [1] else if node == 1 then [0] else Insert(d, 4, node, 1, [0]);
    assert Ranked(d, 4, node, 3) == if node == 2 then Insert(d, 4, node, 1, [0])
                                    else if node == 3 then Insert(d, 4, node, 2, Insert(d, 4, node, 1, [0]))
                                    else Insert(d, 4, node, y, [x]);
  }

  /** What the search works with on four places, from three neighbours on. */
  lemma {:induction false} FourRows(d: Grid, k: nat, granular: seq<seq<nat>>)
    requires Covers(d, 4) && k >= 3 && |granular| == 4
    requires forall node :: 0 <= node < 4 ==> |granular[node]| == 3 && granular[node] == Ranked(d, 4, node, 4)
    requires forall node :: 1 <= node < 4 ==> 0 in granular[node]
    ensures AreRows(d, 4, k, granular) && Rows(granular, 4)
  {
    hide Ranked;
    forall node | 0 <= node < 4
      ensures granular[node] == RowOf(d, 4, node, k) && Within(granular[node], 4)
    {
      assert granular[node][..3] == granular[node];
    }
  }

  // ------------------------------------------------------------------
  // A search that never returns
  // ------------------------------------------------------------------

  /** Reversing the second and third stops always looks a second shorter than it is. */
  function Loop(): Grid {
    [[0, 1, 0, 0], [0, 0, 0, 1], [0, 3, 0, 1], [0, 3, 1, 0]]
  }

  function LoopRows(): seq<seq<nat>> {
    [[2, 3, 1], [0, 2, 3], [0, 3, 1], [0, 2, 1]]
  }

  lemma {:induction false} LoopCovers()
    ensures Covers(Loop(), 4) && Rows(LoopRows(), 4) && !Reversible(Loop(), 4)
  {
    assert Loop()[1][2] != Loop()[2][1];
  }

  /** The four states the search goes through. */
  function LoopState(m: nat): Work {
    if m % 4 == 0 then Work([0, 1, 2, 3], [0, 1, 2, 3])
    else if m % 4 == 1 then Work([0, 1, 2, 3], [1, 2, 3])
    else if m % 4 == 2 then Work([0, 2, 1, 3], [2, 3, 0, 1])
    else Work([0, 1, 3, 2], [3, 0, 1, 2])
  }

  lemma {:induction false} LoopIdles(dontLookBits: bool)
    ensures Covers(Loop(), 4) && Rows(LoopRows(), 4) && Live(LoopState(0), 4)
    ensures Turn(Loop(), 4, LoopRows(), dontLookBits, LoopState(0)) == LoopState(1)
  {
    LoopCovers();
    IdleTurn(Loop(), 4, LoopRows(), dontLookBits, LoopState(0), 0);
  }

  lemma {:induction false} LoopFlips(dontLookBits: bool)
    ensures Covers(Loop(), 4) && Rows(LoopRows(), 4) && Live(LoopState(1), 4)
    ensures Turn(Loop(), 4, LoopRows(), dontLookBits, LoopState(1)) == LoopState(2)
  {
    hide FirstMove, Turn, Woken, Moved, Flipped;
    LoopCovers();
    var change := Change([0, 2, 1, 3], [0, 1, 2, 3]);
    assert FirstMove(Loop(), 4, [0, 1, 2, 3], 1, LoopRows()[1]) == Some(change) by {
      ThreeOffers(Loop(), [0, 1, 2, 3], 1, LoopRows()[1], 0, 2, 3);
      FourMoved(1, 2, 3);
    }
    WakesLate([2, 3], change.touched + [1], [], [0, 1], [2, 3, 1]);
    MovesAndWakes(Loop(), LoopRows(), dontLookBits, LoopState(1), 1, change, [2, 3, 0, 1]);
  }

  lemma {:induction false} LoopRelocates(dontLookBits: bool)
    ensures Covers(Loop(), 4) && Rows(LoopRows(), 4) && Live(LoopState(2), 4)
    ensures Turn(Loop(), 4, LoopRows(), dontLookBits, LoopState(2)) == LoopState(3)
  {
    hide FirstMove, Turn, Woken, Moved, Flipped;
    LoopCovers();
    var change := Change([0, 1, 3, 2], [0, 1, 2, 3, 0]);
    assert FirstMove(Loop(), 4, [0, 2, 1, 3], 1, LoopRows()[2]) == Some(change) by {
      ThreeOffers(Loop(), [0, 2, 1, 3], 1, LoopRows()[2], 0, 3, 2);
      FourMoved(2, 1, 3);
    }
    WakesLate([3, 0, 1], change.touched + [2], [0, 1], [2], [3, 0, 2]);
    MovesAndWakes(Loop(), LoopRows(), dontLookBits, LoopState(2), 1, change, [3, 0, 1, 2]);
  }

  lemma {:induction false} LoopRestores(dontLookBits: bool)
    ensures Covers(Loop(), 4) && Rows(LoopRows(), 4) && Live(LoopState(3), 4)
    ensures Turn(Loop(), 4, LoopRows(), dontLookBits, LoopState(3)) == LoopState(4)
  {
    hide FirstMove, Turn, Woken, Moved, Flipped;
    LoopCovers();
    var change := Change([0, 1, 2, 3], [1, 2, 3, 2, 0]);
    assert FirstMove(Loop(), 4, [0, 1, 3, 2], 2, LoopRows()[3]) == Some(change) by {
      ThreeOffers(Loop(), [0, 1, 3, 2], 2, LoopRows()[3], 0, 3, 1);
      FourMoved(1, 3, 2);
    }
    WakesLate([0, 1, 2], change.touched + [3], [1, 2], [3], [2, 0, 3]);
    MovesAndWakes(Loop(), LoopRows(), dontLookBits, LoopState(3), 2, change, [0, 1, 2, 3]);
  }

  lemma {:induction false} LoopTurn(dontLookBits: bool, m: nat)
    ensures Covers(Loop(), 4) && Rows(LoopRows(), 4) && Live(LoopState(m), 4) && LoopState(m).queue != []
    ensures Turn(Loop(), 4, LoopRows(), dontLookBits, LoopState(m)) == LoopState(m + 1)
  {
    hide Turn, Loop, LoopRows;
    LoopCovers();
    match m % 4
    case 0 => LoopIdles(dontLookBits);
    case 1 => LoopFlips(dontLookBits);
    case 2 => LoopRelocates(dontLookBits);
    case _ => LoopRestores(dontLookBits);
  }

  /** After any number of turns the search is in one of the four states. */
  lemma {:induction false} LoopRecurs(dontLookBits: bool, turns: nat)
    ensures Covers(Loop(), 4) && Rows(LoopRows(), 4) && Live(LoopState(0), 4) && LoopState(turns).queue != []
    ensures After(Loop(), 4, LoopRows(), dontLookBits, LoopState(0), turns) == LoopState(turns)
  {
    hide Turn, LoopState, Loop, LoopRows;
    LoopTurn(dontLookBits, turns);
    LoopTurn(dontLookBits, 0);
    if turns > 0 {
      LoopRecurs(dontLookBits, turns - 1);
      LoopTurn(dontLookBits, turns - 1);
    }
  }

  lemma {:induction false} LoopRowsAre(k: nat)
    requires k >= 3
    ensures Covers(Loop(), 4) && Rows(LoopRows(), 4) && AreRows(Loop(), 4, k, LoopRows())
  {
    hide Ranked, Insert;
    LoopCovers();
    forall node | 0 <= node < 4
      ensures LoopRows()[node] == Ranked(Loop(), 4, node, 4)
    {
      RankedFour(Loop(), node);
      var x, y, z := if node == 0 then 1 else 0, if node <= 1 then 2 else 1, if node <= 2 then 3 else 2;
      InsertsInto(Loop(), node, y, x, x);
      InsertsInto(Loop(), node, z, x, y);
      InsertsInto(Loop(), node, z, y, x);
    }
    FourRows(Loop(), k, LoopRows());
  }

  /** Without symmetric stops the search need not end: with three neighbours or more, with the
      don't-look bits or without, this one is back where it began every four turns. */
  lemma {:induction false} NeverReturns(k: nat, dontLookBits: bool)
    requires k >= 3
    ensures Covers(Loop(), 4) && !Reversible(Loop(), 4) && Tour([0, 1, 2, 3], 4)
    ensures Rows(LoopRows(), 4) && AreRows(Loop(), 4, k, LoopRows())
    ensures forall route :: !Returns(Loop(), 4, LoopRows(), dontLookBits, [0, 1, 2, 3], route)
  {
    hide After;
    LoopCovers();
    LoopRowsAre(k);
    forall turns: nat
      ensures After(Loop(), 4, LoopRows(), dontLookBits, LoopState(0), turns).queue != []
    {
      LoopRecurs(dontLookBits, turns);
    }
    assert LoopState(0) == Work([0, 1, 2, 3], [0, 1, 2, 3]);
  }

  // ------------------------------------------------------------------
  // A search that ends at a longer tour
  // ------------------------------------------------------------------

  function Uphill(): Grid {
    [[0, 5, 3, 0], [2, 0, 0, 1], [5, 3, 0, 0], [2, 3, 3, 0]]
  }

  function UphillRows(): seq<seq<nat>> {
    [[3, 2, 1], [2, 3, 0], [3, 1, 0], [0, 1, 2]]
  }

  lemma {:induction false} UphillCovers()
    ensures Covers(Uphill(), 4) && Rows(UphillRows(), 4) && !Reversible(Uphill(), 4)
  {
    assert Uphill()[1][2] != Uphill()[2][1];
  }

  /** What the search goes through, to an empty queue. */
  function UphillState(m: nat): Work {
    match m
    case 0 => Work([0, 1, 2, 3], [0, 1, 2, 3])
    case 1 => Work([0, 1, 2, 3], [1, 2, 3])
    case 2 => Work([0, 2, 1, 3], [2, 3, 0, 1])
    case 3 => Work([0, 1, 2, 3], [3, 0, 1, 2])
    case 4 => Work([0, 2, 1, 3], [0, 1, 2, 3])
    case 5 => Work([0, 2, 1, 3], [1, 2, 3])
    case 6 => Work([0, 2, 3, 1], [2, 3, 1, 0])
    case 7 => Work([0, 3, 2, 1], [3, 1, 0, 2])
    case 8 => Work([0, 3, 2, 1], [1, 0, 2])
    case 9 => Work([0, 3, 2, 1], [0, 2])
    case 10 => Work([0, 3, 2, 1], [2])
    case _ => Work([0, 3, 2, 1], [])
  }

  lemma {:induction false} UphillFirst(dontLookBits: bool)
    ensures Covers(Uphill(), 4) && Rows(UphillRows(), 4) && Live(UphillState(0), 4)
    ensures Turn(Uphill(), 4, UphillRows(), dontLookBits, UphillState(0)) == UphillState(1)
  {
    UphillCovers();
    IdleTurn(Uphill(), 4, UphillRows(), dontLookBits, UphillState(0), 0);
  }

  lemma {:induction false} UphillSecond(dontLookBits: bool)
    ensures Covers(Uphill(), 4) && Rows(UphillRows(), 4) && Live(UphillState(1), 4)
    ensures Turn(Uphill(), 4, UphillRows(), dontLookBits, UphillState(1)) == UphillState(2)
  {
    hide FirstMove, Turn, Woken, Moved, Flipped;
    UphillCovers();
    var change := Change([0, 2, 1, 3], [0, 1, 2, 3]);
    assert FirstMove(Uphill(), 4, [0, 1, 2, 3], 1, UphillRows()[1]) == Some(change) by {
      ThreeOffers(Uphill(), [0, 1, 2, 3], 1, UphillRows()[1], 2, 3, 0);
      FourMoved(1, 2, 3);
    }
    WakesLate([2, 3], change.touched + [1], [], [0, 1], [2, 3, 1]);
    MovesAndWakes(Uphill(), UphillRows(), dontLookBits, UphillState(1), 1, change, [2, 3, 0, 1]);
  }

  lemma {:induction false} UphillThird(dontLookBits: bool)
    ensures Covers(Uphill(), 4) && Rows(UphillRows(), 4) && Live(UphillState(2), 4)
    ensures Turn(Uphill(), 4, UphillRows(), dontLookBits, UphillState(2)) == UphillState(3)
  {
    hide FirstMove, Turn, Woken, Moved, Flipped;
    UphillCovers();
    var change := Change([0, 1, 2, 3], [0, 1, 2, 1, 3]);
    assert FirstMove(Uphill(), 4, [0, 2, 1, 3], 1, UphillRows()[2]) == Some(change) by {
      ThreeOffers(Uphill(), [0, 2, 1, 3], 1, UphillRows()[2], 3, 2, 0);
      FourMoved(2, 1, 3);
    }
    WakesLate([3, 0, 1], change.touched + [2], [0, 1], [2], [1, 3, 2]);
    MovesAndWakes(Uphill(), UphillRows(), dontLookBits, UphillState(2), 1, change, [3, 0, 1, 2]);
  }

  lemma {:induction false} UphillFourth(dontLookBits: bool)
    ensures Covers(Uphill(), 4) && Rows(UphillRows(), 4) && Live(UphillState(3), 4)
    ensures Turn(Uphill(), 4, UphillRows(), dontLookBits, UphillState(3)) == UphillState(4)
  {
    hide FirstMove, Turn, Woken, Moved, Flipped;
    UphillCovers();
    var change := Change([0, 2, 1, 3], [0, 1, 2, 3]);
    assert FirstMove(Uphill(), 4, [0, 1, 2, 3], 3, UphillRows()[3]) == Some(change) by {
      ThreeOffers(Uphill(), [0, 1, 2, 3], 3, UphillRows()[3], 0, 1, 2);
      FourMoved(1, 2, 3);
    }
    WakesLate([0, 1, 2], change.touched + [3], [0, 1, 2], [3], [3]);
    MovesAndWakes(Uphill(), UphillRows(), dontLookBits, UphillState(3), 3, change, [0, 1, 2, 3]);
  }

  lemma {:induction false} UphillFifth(dontLookBits: bool)
    ensures Covers(Uphill(), 4) && Rows(UphillRows(), 4) && Live(UphillState(4), 4)
    ensures Turn(Uphill(), 4, UphillRows(), dontLookBits, UphillState(4)) == UphillState(5)
  {
    UphillCovers();
    IdleTurn(Uphill(), 4, UphillRows(), dontLookBits, UphillState(4), 0);
  }

  lemma {:induction false} UphillSixth(dontLookBits: bool)
    ensures Covers(Uphill(), 4) && Rows(UphillRows(), 4) && Live(UphillState(5), 4)
    ensures Turn(Uphill(), 4, UphillRows(), dontLookBits, UphillState(5)) == UphillState(6)
  {
    hide FirstMove, Turn, Woken, Moved, Flipped;
    UphillCovers();
    var change := Change([0, 2, 3, 1], [2, 3, 1, 3, 0]);
    assert FirstMove(Uphill(), 4, [0, 2, 1, 3], 2, UphillRows()[1]) == Some(change) by {
      ThreeOffers(Uphill(), [0, 2, 1, 3], 2, UphillRows()[1], 1, 3, 0);
      FourMoved(2, 1, 3);
    }
    assert change.touched + [1] == [2, 3, 1, 3] + [0, 1];
    assert [2, 3] + [1] == [2, 3, 1] && [2, 3, 1] + [0] == [2, 3, 1, 0];
    WokenJoins([2, 3], [2, 3, 1, 3], [0, 1]);
    WakesLate([2, 3], [2, 3, 1, 3], [2, 3], [1], [3]);
    WakesLate([2, 3, 1], [0, 1], [], [0], [1]);
    MovesAndWakes(Uphill(), UphillRows(), dontLookBits, UphillState(5), 2, change, [2, 3, 1, 0]);
  }

  lemma {:induction false} UphillSeventh(dontLookBits: bool)
    ensures Covers(Uphill(), 4) && Rows(UphillRows(), 4) && Live(UphillState(6), 4)
    ensures Turn(Uphill(), 4, UphillRows(), dontLookBits, UphillState(6)) == UphillState(7)
  {
    hide FirstMove, Turn, Woken, Moved, Flipped;
    UphillCovers();
    var change := Change([0, 3, 2, 1], [0, 2, 3, 1]);
    assert FirstMove(Uphill(), 4, [0, 2, 3, 1], 1, UphillRows()[2]) == Some(change) by {
      ThreeOffers(Uphill(), [0, 2, 3, 1], 1, UphillRows()[2], 2, 3, 0);
      FourMoved(2, 3, 1);
    }
    WakesLate([3, 1, 0], change.touched + [2], [0], [2], [3, 1, 2]);
    MovesAndWakes(Uphill(), UphillRows(), dontLookBits, UphillState(6), 1, change, [3, 1, 0, 2]);
  }

  lemma {:induction false} UphillEighth(dontLookBits: bool)
    ensures Covers(Uphill(), 4) && Rows(UphillRows(), 4) && Live(UphillState(7), 4)
    ensures Turn(Uphill(), 4, UphillRows(), dontLookBits, UphillState(7)) == UphillState(8)
  {
    hide FirstMove, Turn, Moved, Flipped;
    UphillCovers();
    ThreeOffers(Uphill(), [0, 3, 2, 1], 1, UphillRows()[3], 0, 3, 2);
    IdleTurn(Uphill(), 4, UphillRows(), dontLookBits, UphillState(7), 1);
  }

  lemma {:induction false} UphillNinth(dontLookBits: bool)
    ensures Covers(Uphill(), 4) && Rows(UphillRows(), 4) && Live(UphillState(8), 4)
    ensures Turn(Uphill(), 4, UphillRows(), dontLookBits, UphillState(8)) == UphillState(9)
  {
    hide FirstMove, Turn, Moved, Flipped;
    UphillCovers();
    ThreeOffers(Uphill(), [0, 3, 2, 1], 3, UphillRows()[1], 2, 1, 0);
    IdleTurn(Uphill(), 4, UphillRows(), dontLookBits, UphillState(8), 3);
  }

  lemma {:induction false} UphillTenth(dontLookBits: bool)
    ensures Covers(Uphill(), 4) && Rows(UphillRows(), 4) && Live(UphillState(9), 4)
    ensures Turn(Uphill(), 4, UphillRows(), dontLookBits, UphillState(9)) == UphillState(10)
  {
    UphillCovers();
    IdleTurn(Uphill(), 4, UphillRows(), dontLookBits, UphillState(9), 0);
  }

  lemma {:induction false} UphillLast(dontLookBits: bool)
    ensures Covers(Uphill(), 4) && Rows(UphillRows(), 4) && Live(UphillState(10), 4)
    ensures Turn(Uphill(), 4, UphillRows(), dontLookBits, UphillState(10)) == UphillState(11)
  {
    hide FirstMove, Turn, Moved, Flipped;
    UphillCovers();
    ThreeOffers(Uphill(), [0, 3, 2, 1], 2, UphillRows()[2], 1, 3, 0);
    IdleTurn(Uphill(), 4, UphillRows(), dontLookBits, UphillState(10), 2);
  }

  lemma {:induction false} UphillTurns(dontLookBits: bool, turns: nat)
    requires turns <= 11
    ensures Covers(Uphill(), 4) && Rows(UphillRows(), 4) && Live(UphillState(0), 4)
    ensures After(Uphill(), 4, UphillRows(), dontLookBits, UphillState(0), turns) == UphillState(turns)
  {
    hide Turn;
    UphillCovers();
    if turns > 0 {
      UphillTurns(dontLookBits, turns - 1);
      UphillTurn(dontLookBits, turns - 1);
    }
  }

  lemma {:induction false} UphillTurn(dontLookBits: bool, m: nat)
    requires m <= 10
    ensures Covers(Uphill(), 4) && Rows(UphillRows(), 4) && Live(UphillState(m), 4) && UphillState(m).queue != []
    ensures Turn(Uphill(), 4, UphillRows(), dontLookBits, UphillState(m)) == UphillState(m + 1)
  {
    hide Turn;
    match m
    case 0 => UphillFirst(dontLookBits);
    case 1 => UphillSecond(dontLookBits);
    case 2 => UphillThird(dontLookBits);
    case 3 => UphillFourth(dontLookBits);
    case 4 => UphillFifth(dontLookBits);
    case 5 => UphillSixth(dontLookBits);
    case 6 => UphillSeventh(dontLookBits);
    case 7 => UphillEighth(dontLookBits);
    case 8 => UphillNinth(dontLookBits);
    case 9 => UphillTenth(dontLookBits);
    case _ => UphillLast(dontLookBits);
  }

  lemma {:induction false} UphillRowsAre(k: nat)
    requires k >= 3
    ensures Covers(Uphill(), 4) && Rows(UphillRows(), 4) && AreRows(Uphill(), 4, k, UphillRows())
  {
    hide Ranked, Insert;
    UphillCovers();
    forall node | 0 <= node < 4
      ensures UphillRows()[node] == Ranked(Uphill(), 4, node, 4)
    {
      RankedFour(Uphill(), node);
      var x, y, z := if node == 0 then 1 else 0, if node <= 1 then 2 else 1, if node <= 2 then 3 else 2;
      InsertsInto(Uphill(), node, y, x, x);
      InsertsInto(Uphill(), node, z, x, y);
      InsertsInto(Uphill(), node, z, y, x);
    }
    FourRows(Uphill(), k, UphillRows());
  }

  /** And where it does end, the tour may be longer: here of length eight, from one of seven. */
  lemma {:induction false} ReturnsLonger(k: nat, dontLookBits: bool)
    requires k >= 3
    ensures Covers(Uphill(), 4) && !Reversible(Uphill(), 4) && Tour([0, 1, 2, 3], 4) && Tour([0, 3, 2, 1], 4)
    ensures Rows(UphillRows(), 4) && AreRows(Uphill(), 4, k, UphillRows())
    ensures Returns(Uphill(), 4, UphillRows(), dontLookBits, [0, 1, 2, 3], [0, 3, 2, 1])
    ensures TourLength(Uphill(), 4, [0, 1, 2, 3]) == 7 && TourLength(Uphill(), 4, [0, 3, 2, 1]) == 8
  {
    hide After;
    UphillCovers();
    UphillRowsAre(k);
    UphillTurns(dontLookBits, 11);
    FourLong(Uphill(), 1, 2, 3);
    FourLong(Uphill(), 3, 2, 1);
  }
}
