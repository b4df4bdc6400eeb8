/** What the sequencing search (vrp/polish.py) does not see: it reads a stop's hard windows as one
    interval, from the first opening to the last closing, gaps included. */
module Gaps {
  import opened Common
  import opened Model
  import opened Tsptw
  import opened Departure
  import opened Polish

  /** Each window opens the second after the one before it closes. */
  ghost predicate Gapless(ws: seq<TimeWindow>) {
    forall i :: 0 < i < |ws| ==> ws[i].start == ws[i - 1].end + 1
  }

  ghost predicate InHull(ws: seq<TimeWindow>, begin: int)
    requires ws != []
  {
    FirstOpening(ws) <= begin <= LastClosing(ws)
  }

  lemma {:induction false} HullOfSorted(ws: seq<TimeWindow>)
    requires ws != [] && SortedDisjoint(ws)
    ensures FirstOpening(ws) == ws[0].start && LastClosing(ws) == ws[|ws| - 1].end
  {
    HullIsTight(ws);
  }

  lemma {:induction false} GaplessFills(ws: seq<TimeWindow>, begin: int)
    requires ws != [] && Gapless(ws) && ws[0].start <= begin <= ws[|ws| - 1].end
    ensures InSome(ws, begin)
  {
    if begin <= ws[0].end {
      assert Contains(ws[0], begin);
    } else {
      var rest := ws[1..];
      GaplessFills(rest, begin);
      var i :| 0 <= i < |rest| && Contains(rest[i], begin);
      assert Contains(ws[i + 1], begin);
    }
  }

  lemma {:induction false} HardStaySorted(ws: seq<TimeWindow>)
    requires SortedDisjoint(ws)
    ensures SortedDisjoint(HardOnly(ws))
  {
    if ws != [] {
      HardStaySorted(ws[1..]);
      var rest := HardOnly(ws[1..]);
      forall j | 0 <= j < |rest|
        ensures ws[0].end < rest[j].start
      {
        HardMember(ws[1..], rest[j]);
        var i :| 0 <= i < |ws[1..]| && ws[1..][i] == rest[j];
        assert ws[i + 1] == rest[j];
      }
    }
  }

  /** The second after a window closes, when the next has not opened. */
  lemma {:induction false} GapIsMissed(ws: seq<TimeWindow>, i: nat)
    requires SortedDisjoint(ws) && 0 < i < |ws| && ws[i].start != ws[i - 1].end + 1
    ensures InHull(ws, ws[i - 1].end + 1) && !InSome(ws, ws[i - 1].end + 1)
  {
    HullIsTight(ws);
    assert ws[i - 1].end < ws[i].start;
    forall j | 0 <= j < |ws|
      ensures !Contains(ws[j], ws[i - 1].end + 1)
    {
      assert j < i - 1 ==> ws[j].end < ws[i - 1].start;
      assert j > i ==> ws[i].end < ws[j].start;
    }
  }

  lemma {:induction false} WindowsLieInHull(ws: seq<TimeWindow>, begin: int)
    requires ws != [] && InSome(ws, begin)
    ensures InHull(ws, begin)
  {
    HullIsTight(ws);
  }

  lemma {:induction false} GaplessHull(ws: seq<TimeWindow>, begin: int)
    requires ws != [] && SortedDisjoint(ws) && Gapless(ws) && InHull(ws, begin)
    ensures InSome(ws, begin)
  {
    HullOfSorted(ws);
    GaplessFills(ws, begin);
  }

  /** Beginning inside the hull is beginning inside a hard window exactly when no gap lies between
      two of them: elsewhere the search serves a stop in the gap. */
  lemma {:induction false} HullIsKeptExactly(ws: seq<TimeWindow>)
    requires ws != [] && SortedDisjoint(ws)
    ensures (forall begin :: InHull(ws, begin) <==> InSome(ws, begin)) <==> Gapless(ws)
  {
    hide InHull, InSome, SortedDisjoint;
    if Gapless(ws) {
      forall begin
        ensures InHull(ws, begin) <==> InSome(ws, begin)
      {
        if InSome(ws, begin) {
          WindowsLieInHull(ws, begin);
        }
        if InHull(ws, begin) {
          GaplessHull(ws, begin);
        }
      }
    } else {
      var i :| 0 < i < |ws| && ws[i].start != ws[i - 1].end + 1;
      GapIsMissed(ws, i);
    }
  }

  /** When the search has this stop of a sequence begin. */
  ghost function BeginAlong(t: Trip, path: Path, k: nat): int
    requires Valid(t) && Simple(t, path) && k < |path| && Trace(t, path[..k + 1]).Some?
  {
    Trace(t, path[..k + 1]).value.ready - t.facts[path[k]].service
  }

  /** A sequence that can be traced can be traced to each of its stops, each begun in its hull. */
  lemma {:induction false} BeginsInHull(t: Trip, path: Path, k: nat)
    requires Valid(t) && Simple(t, path) && Trace(t, path).Some? && k < |path|
    ensures Trace(t, path[..k + 1]).Some?
    ensures t.facts[path[k]].opens <= BeginAlong(t, path, k) <= t.facts[path[k]].closes
    decreases |path|
  {
    if k == |path| - 1 {
      assert path[..k + 1] == path;
    } else {
      var front := path[..|path| - 1];
      BeginsInHull(t, front, k);
      assert front[..k + 1] == path[..k + 1];
    }
  }

  /** Where no stop has a gap between its hard windows, a legal sequence keeps every promise: each
      stop with hard windows begins inside one. */
  lemma {:induction false} LegalKeepsPromises(p: Problem, v: Vehicle, orders: seq<Order>, path: Path, k: nat)
    requires v.startLocation in p.locations && EndsAt(v) in p.locations
    requires forall i :: 0 <= i < |orders| ==> Sited(p, orders[i])
    requires Valid(TripOf(p, v, orders)) && Legal(TripOf(p, v, orders), path) && k < |path|
    requires Gapless(HardOnly(StopOf(orders[path[k]]).windows))
    ensures Trace(TripOf(p, v, orders), path[..k + 1]).Some?
    ensures var hard := HardOnly(StopOf(orders[path[k]]).windows);
            hard == [] || InSome(hard, BeginAlong(TripOf(p, v, orders), path, k))
  {
    var o := orders[path[k]];
    BeginsInHull(TripOf(p, v, orders), path, k);
    assert Sited(p, o);
    HardStaySorted(StopOf(o).windows);
    if HardOnly(StopOf(o).windows) != [] {
      HullIsKeptExactly(HardOnly(StopOf(o).windows));
    }
  }

  // ------------------------------------------------------------------
  // Where the two passes disagree
  // ------------------------------------------------------------------

  /** One stop fifty seconds away with a gap from 10 to 100 between its hard windows. */
  function GapOrder(): Order {
    OrderSpec(0, map[], None, Some(Stop(1, [WindowSpec(0, 10, Hard), WindowSpec(100, 110, Hard)], 0, 0, None)),
              0, 0, 0, {}, None, {})
  }

  function GapVan(): Vehicle {
    Vehicle(0, map[], WindowSpec(0, 1000, Hard), 0, None, {}, 1000, None, None, None, None, 0, 0, 0, 0, 0, 0)
  }

  function GapDay(): Problem {
    var legs := [[0, 50], [50, 0]];
    Problem(map[0 := Location(0, 0, 0, None, None, {}, None), 1 := Location(1, 1, 0, None, None, {}, None)],
            [GapOrder()], [GapVan()], Matrix(legs, legs), [], None, None)
  }

  lemma {:induction false} GapStop()
    ensures var p, v, orders := GapDay(), GapVan(), [GapOrder()];
            && Drivable(p, v, orders) && Simple(TripOf(p, v, orders), [0])
            && TripOf(p, v, orders) == Trip(p, 0, 0, [1], [Facts(0, 0, 110)], 0, 1000)
            && RoundAlong(p, v, orders, [0]).visits
            == [Visit(50, Some(0), 0, [WindowSpec(0, 10, Hard), WindowSpec(100, 110, Hard)])]
            && RoundAlong(p, v, orders, [0]).legHome == 50 && RoundAlong(p, v, orders, [0]).shift == v.shift
  {
    var w := StopOf(GapOrder()).windows;
    assert HardOnly(w[1..][1..]) == [] && HardOnly(w[1..]) == [w[1]] && HardOnly(w) == w;
    assert FirstOpening(w[1..]) == 100 && LastClosing(w[1..]) == 110;
  }

  /** The search takes the gap for open time and calls the day legal; the scheduler, which waits only
      for the first window, serves in the gap too and calls it illegal. So the polished day breaks
      its promise wherever it departs. */
  lemma {:induction false} GapIsTakenForOpen(shift: nat)
    ensures var p, v, orders := GapDay(), GapVan(), [GapOrder()];
            && Drivable(p, v, orders) && Legal(TripOf(p, v, orders), [0])
            && IsSequence(p, v, orders, [0], RoundAlong(p, v, orders, [0]))
            && (IsShift(RoundAlong(p, v, orders, [0]), 0, shift) ==> !LegalFrom(RoundAlong(p, v, orders, [0]), 0 + shift))
  {
    GapStop();
    var p, v, orders := GapDay(), GapVan(), [GapOrder()];
    var t, r := TripOf(p, v, orders), RoundAlong(p, v, orders, [0]);
    assert TravelBetween(t.problem, 0, 1, 0) == 50 && TravelBetween(t.problem, 1, 0, 50) == 50;
    assert Trace(t, [0]) == First(t, 0) == Some(Label(50, 50, [0]));
    assert Begin(r, 0, 0) == 50 && !KeptAt(r, 50, 0);
  }
}
