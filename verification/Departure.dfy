/** Departure-time scheduling (vrp/polish.py): leave later so that waiting at
    customers becomes time off duty.

    The pass works on `schedule_route` (vrp/hos/schedule.py) without driving-hours
    rules. That scheduler charges free flow whatever the instance's speed profile,
    and waits only for a stop's first window; both are kept here. */
module Departure {
  import opened Common
  import opened Model

  /** One stop of a round, resolved: the free-flow leg to it, when its first window
      opens, how long it takes, and its hard windows. */
  datatype Visit = Visit(leg: nat, opens: Option<int>, service: nat, hard: seq<TimeWindow>)

  /** A round in driving order, the leg home, and the vehicle's shift. */
  datatype Round = Round(visits: seq<Visit>, legHome: nat, shift: TimeWindow)

  // ------------------------------------------------------------------
  // The schedule, stop by stop
  // ------------------------------------------------------------------

  /** When the van is free again after `k` stops, having left at `start`. */
  function Free(r: Round, start: int, k: nat): int
    requires k <= |r.visits|
    decreases k, 0
  {
    if k == 0 then start else Begin(r, start, k - 1) + r.visits[k - 1].service
  }

  function Arrival(r: Round, start: int, k: nat): int
    requires k < |r.visits|
    decreases k, 1
  {
    Free(r, start, k) + r.visits[k].leg
  }

  function Begin(r: Round, start: int, k: nat): int
    requires k < |r.visits|
    decreases k, 2
  {
    var arrival := Arrival(r, start, k);
    if r.visits[k].opens.None? then arrival else Max(arrival, r.visits[k].opens.value)
  }

  lemma {:induction false} FreeAfter(r: Round, start: int, k: nat)
    requires k < |r.visits|
    ensures Free(r, start, k + 1) == Begin(r, start, k) + r.visits[k].service
    ensures Begin(r, start, k) >= Arrival(r, start, k) == Free(r, start, k) + r.visits[k].leg
  {
  }

  function HomeAt(r: Round, start: int): int {
    Free(r, start, |r.visits|) + r.legHome
  }

  /** Waiting at the first `k` stops together. */
  function Waited(r: Round, start: int, k: nat): nat
    requires k <= |r.visits|
    decreases k
  {
    if k == 0 then 0
    else Waited(r, start, k - 1) + Begin(r, start, k - 1) - Arrival(r, start, k - 1)
  }

  datatype Step = Step(stop: Option<nat>, arrival: int, startService: int, departure: int)

  ghost predicate IsSchedule(r: Round, start: int, steps: seq<Step>) {
    && |steps| == |r.visits| + 2
    && steps[0] == Step(None, start, start, start)
    && (forall k :: 0 <= k < |r.visits| ==>
          steps[k + 1] == Step(Some(k), Arrival(r, start, k), Begin(r, start, k), Free(r, start, k + 1)))
    && steps[|r.visits| + 1] == Step(None, HomeAt(r, start), HomeAt(r, start), HomeAt(r, start))
  }

  /** `schedule_route` with no driving-hours rules: the timeline, and whether it ends inside the shift. */
  method ScheduleRoute(r: Round, start: int) returns (steps: seq<Step>, legal: bool)
    ensures IsSchedule(r, start, steps)
    ensures legal <==> HomeAt(r, start) <= r.shift.end
  {
    var clock := start;
    steps := [Step(None, clock, clock, clock)];
    for k := 0 to |r.visits|
      invariant |steps| == k + 1 && clock == Free(r, start, k)
      invariant steps[0] == Step(None, start, start, start)
      invariant forall i :: 0 <= i < k ==>
        steps[i + 1] == Step(Some(i), Arrival(r, start, i), Begin(r, start, i), Free(r, start, i + 1))
    {
      var arrival := clock + r.visits[k].leg;
      var opens := r.visits[k].opens;
      var begin := if opens.None? then arrival else Max(arrival, opens.value);
      clock := begin + r.visits[k].service;
      FreeAfter(r, start, k);
      steps := steps + [Step(Some(k), arrival, begin, clock)];
    }
    clock := clock + r.legHome;
    steps := steps + [Step(None, clock, clock, clock)];
    legal := clock <= r.shift.end;
  }

  /** A later departure pushes each stop by what the waiting before it cannot absorb. */
  lemma {:induction false} PushAt(r: Round, start: int, later: nat, k: nat)
    requires k <= |r.visits|
    ensures Free(r, start + later, k) == Free(r, start, k) + Max(0, later - Waited(r, start, k))
    ensures forall i :: 0 <= i < k ==>
      Begin(r, start + later, i) == Begin(r, start, i) + Max(0, later - Waited(r, start, i + 1))
    decreases k
  {
    if k > 0 {
      PushAt(r, start, later, k - 1);
      FreeAfter(r, start, k - 1);
      FreeAfter(r, start + later, k - 1);
    }
  }

  // ------------------------------------------------------------------
  // Legality and the room to leave later
  // ------------------------------------------------------------------

  predicate KeptAt(r: Round, begin: int, k: nat)
    requires k < |r.visits|
  {
    r.visits[k].hard == [] || InSome(r.visits[k].hard, begin)
  }

  ghost predicate AllKept(r: Round, start: int) {
    forall k :: 0 <= k < |r.visits| ==> KeptAt(r, Begin(r, start, k), k)
  }

  /** Every promise kept and home before the shift ends. */
  ghost predicate LegalFrom(r: Round, start: int) {
    AllKept(r, start) && HomeAt(r, start) <= r.shift.end
  }

  /** `duty_duration`: from leaving the depot to coming back. */
  function DutyTime(r: Round, start: int): int {
    HomeAt(r, start) - start
  }

  /** The latest end among hard windows containing the service. */
  function LatestEnd(ws: seq<TimeWindow>, begin: int): int
    requires InSome(ws, begin)
  {
    assert forall i :: 1 <= i < |ws| ==> ws[i] == ws[1..][i - 1];
    if !InSome(ws[1..], begin) then ws[0].end
    else if Contains(ws[0], begin) then Max(ws[0].end, LatestEnd(ws[1..], begin))
    else LatestEnd(ws[1..], begin)
  }

  /** It is the end of one of them, and of none later. */
  lemma {:induction false} LatestEndMeans(ws: seq<TimeWindow>, begin: int) returns (k: nat)
    requires InSome(ws, begin)
    ensures k < |ws| && Contains(ws[k], begin) && ws[k].end == LatestEnd(ws, begin)
    ensures forall i :: 0 <= i < |ws| && Contains(ws[i], begin) ==> ws[i].end <= LatestEnd(ws, begin)
  {
    var rest := ws[1..];
    assert forall i :: 1 <= i < |ws| ==> ws[i] == rest[i - 1];
    if !InSome(rest, begin) {
      forall i | 1 <= i < |ws|
        ensures !Contains(ws[i], begin)
      {
        assert !Contains(rest[i - 1], begin);
      }
      k := 0;
    } else {
      var j := LatestEndMeans(rest, begin);
      k := if Contains(ws[0], begin) && ws[0].end >= LatestEnd(rest, begin) then 0 else j + 1;
    }
  }

  /** `W_k + l_k - s_k`: how much later the van may leave before stop `k` misses its window. */
  function RoomAt(r: Round, start: int, k: nat): int
    requires k < |r.visits| && r.visits[k].hard != [] && KeptAt(r, Begin(r, start, k), k)
  {
    Waited(r, start, k + 1) + LatestEnd(r.visits[k].hard, Begin(r, start, k)) - Begin(r, start, k)
  }

  ghost predicate SomeHard(r: Round) {
    exists k :: 0 <= k < |r.visits| && r.visits[k].hard != []
  }

  /** The least room over the stops that carry a hard window. */
  ghost predicate IsRoom(r: Round, start: int, room: int)
    requires AllKept(r, start)
  {
    && (forall k :: 0 <= k < |r.visits| && r.visits[k].hard != [] ==> room <= RoomAt(r, start, k))
    && (exists k :: 0 <= k < |r.visits| && r.visits[k].hard != [] && room == RoomAt(r, start, k))
  }

  /** `_slack`: None when a promise is already broken, zero when there is nothing to bind. */
  method Slack(r: Round, start: int, steps: seq<Step>) returns (room: Option<int>)
    requires IsSchedule(r, start, steps)
    ensures room.None? <==> !AllKept(r, start)
    ensures room.Some? ==> room.value >= 0
    ensures room.Some? && (!LegalFrom(r, start) || !SomeHard(r)) ==> room.value == 0
    ensures room.Some? && LegalFrom(r, start) && SomeHard(r) ==> IsRoom(r, start, room.value)
  {
    var waiting := 0;
    var limit: Option<int> := None;
    for k := 0 to |r.visits|
      invariant waiting == Waited(r, start, k)
      invariant forall i :: 0 <= i < k ==> KeptAt(r, Begin(r, start, i), i)
      invariant limit.None? ==> forall i :: 0 <= i < k ==> r.visits[i].hard == []
      invariant limit.Some? ==> limit.value >= 0
      invariant limit.Some? ==> forall i :: 0 <= i < k && r.visits[i].hard != [] ==> limit.value <= RoomAt(r, start, i)
      invariant limit.Some? ==> exists i :: 0 <= i < k && r.visits[i].hard != [] && limit.value == RoomAt(r, start, i)
    {
      var step := steps[k + 1];
      waiting := waiting + step.startService - step.arrival;
      var windows := r.visits[k].hard;
      if windows == [] {
        continue;
      }
      if !InSome(windows, step.startService) {
        assert !KeptAt(r, Begin(r, start, k), k);
        return None;
      }
      ghost var binding := LatestEndMeans(windows, step.startService);
      var room := waiting + (LatestEnd(windows, step.startService) - step.startService);
      assert room == RoomAt(r, start, k);
      limit := Some(if limit.None? then room else Min(limit.value, room));
    }
    if steps[|steps| - 1].arrival > r.shift.end {
      return Some(0);
    }
    return Some(if limit.Some? then Max(0, limit.value) else 0);
  }

  method TotalWait(r: Round, start: int, steps: seq<Step>) returns (wait: int)
    requires IsSchedule(r, start, steps)
    ensures wait == Waited(r, start, |r.visits|)
  {
    wait := 0;
    for k := 0 to |r.visits|
      invariant wait == Waited(r, start, k)
    {
      wait := wait + steps[k + 1].startService - steps[k + 1].arrival;
    }
  }

  /** What `optimal_departure` adds to the start of the shift. */
  ghost predicate IsShift(r: Round, start: int, shift: nat) {
    if LegalFrom(r, start) && SomeHard(r) then
      exists room :: IsRoom(r, start, room) && shift == Min(room, Waited(r, start, |r.visits|))
    else shift == 0
  }

  /** `optimal_departure` without driving-hours rules. */
  method OptimalDeparture(r: Round) returns (departure: int)
    ensures departure >= r.shift.start
    ensures IsShift(r, r.shift.start, departure - r.shift.start)
  {
    var start := r.shift.start;
    if r.visits == [] {
      return start;
    }
    var steps, _ := ScheduleRoute(r, start);
    var room := Slack(r, start, steps);
    if room.None? || room.value == 0 {
      if room.Some? && LegalFrom(r, start) && SomeHard(r) {
        assert Min(0, Waited(r, start, |r.visits|)) == 0;
      }
      return start;
    }
    var wait := TotalWait(r, start, steps);
    var shift := Min(room.value, wait);
    if shift <= 0 {
      assert shift == 0;
      return start;
    }
    return start + shift;
  }

  // ------------------------------------------------------------------
  // What the chosen departure achieves
  // ------------------------------------------------------------------

  lemma {:induction false} WaitedGrows(r: Round, start: int, k: nat, n: nat)
    requires k <= n <= |r.visits|
    ensures Waited(r, start, k) <= Waited(r, start, n)
    decreases n
  {
    if k < n {
      WaitedGrows(r, start, k, n - 1);
    }
  }

  /** Within the room of every bound stop, every promise stays kept. */
  lemma {:induction false} KeptWithinRoom(r: Round, start: int, later: nat, k: nat)
    requires AllKept(r, start) && k < |r.visits|
    requires r.visits[k].hard != [] ==> later <= RoomAt(r, start, k)
    ensures KeptAt(r, Begin(r, start + later, k), k)
  {
    assert KeptAt(r, Begin(r, start, k), k);
    if r.visits[k].hard != [] {
      PushAt(r, start, later, k + 1);
      var latest := LatestEnd(r.visits[k].hard, Begin(r, start, k));
      var i := LatestEndMeans(r.visits[k].hard, Begin(r, start, k));
      assert Contains(r.visits[k].hard[i], Begin(r, start + later, k));
    }
  }

  /** Whatever the windows: a legal day stays legal, ends at the same moment, and
      its duty shrinks by exactly the shift. */
  lemma {:induction false} DepartureIsSafe(r: Round, start: int, shift: nat)
    requires LegalFrom(r, start) && IsShift(r, start, shift)
    ensures LegalFrom(r, start + shift)
    ensures HomeAt(r, start + shift) == HomeAt(r, start)
    ensures DutyTime(r, start + shift) == DutyTime(r, start) - shift
  {
    PushAt(r, start, shift, |r.visits|);
    var departure := start + shift;
    forall k | 0 <= k < |r.visits|
      ensures KeptAt(r, Begin(r, departure, k), k)
    {
      KeptWithinRoom(r, start, shift, k);
    }
  }

  /** No stop has a hard window that ends later than the one holding its service. */
  ghost predicate InLastWindow(r: Round, start: int)
    requires AllKept(r, start)
  {
    forall k, i :: 0 <= k < |r.visits| && 0 <= i < |r.visits[k].hard| ==> EndsByNow(r, start, k, i)
  }

  ghost predicate EndsByNow(r: Round, start: int, k: nat, i: nat)
    requires AllKept(r, start) && k < |r.visits| && i < |r.visits[k].hard|
  {
    assert KeptAt(r, Begin(r, start, k), k);
    r.visits[k].hard[i].end <= LatestEnd(r.visits[k].hard, Begin(r, start, k))
  }

  /** A stop's only hard window is its last. */
  lemma {:induction false} OnlyWindowIsLast(r: Round, start: int)
    requires AllKept(r, start)
    requires forall k :: 0 <= k < |r.visits| ==> |r.visits[k].hard| <= 1
    ensures InLastWindow(r, start)
  {
    forall k, i | 0 <= k < |r.visits| && 0 <= i < |r.visits[k].hard|
      ensures EndsByNow(r, start, k, i)
    {
      assert KeptAt(r, Begin(r, start, k), k);
      var j := LatestEndMeans(r.visits[k].hard, Begin(r, start, k));
    }
  }

  /** From the last hard window of a stop, no legal departure lies beyond its room. */
  lemma {:induction false} BeyondRoomIsIllegal(r: Round, start: int, later: nat, k: nat)
    requires AllKept(r, start) && AllKept(r, start + later) && InLastWindow(r, start)
    requires k < |r.visits| && r.visits[k].hard != []
    ensures later <= RoomAt(r, start, k)
  {
    assert KeptAt(r, Begin(r, start, k), k) && KeptAt(r, Begin(r, start + later, k), k);
    var i :| 0 <= i < |r.visits[k].hard| && Contains(r.visits[k].hard[i], Begin(r, start + later, k));
    assert EndsByNow(r, start, k, i);
    PushAt(r, start, later, k + 1);
  }

  /** No later departure has a shorter duty; an earlier one that ties is not missed. */
  ghost predicate Shortest(r: Round, start: int, shift: nat) {
    forall departure :: departure >= start && LegalFrom(r, departure) ==>
      && DutyTime(r, start + shift) <= DutyTime(r, departure)
      && (DutyTime(r, departure) == DutyTime(r, start + shift) ==> start + shift <= departure)
  }

  /** No legal departure is later than this one. */
  ghost predicate LastLegal(r: Round, departure: int) {
    forall d :: d > departure ==> !LegalFrom(r, d)
  }

  /** The pass is beaten exactly by a legal departure beyond the shift, where waiting is left over. */
  lemma {:induction false} ShortestExactly(r: Round, start: int, shift: nat)
    requires LegalFrom(r, start) && IsShift(r, start, shift)
    ensures shift <= Waited(r, start, |r.visits|)
    ensures Shortest(r, start, shift) <==> shift == Waited(r, start, |r.visits|) || LastLegal(r, start + shift)
  {
    var n := |r.visits|;
    PushAt(r, start, shift, n);
    DepartureIsSafe(r, start, shift);
    forall d | d >= start && LegalFrom(r, d)
      ensures DutyTime(r, d) == DutyTime(r, start) - Min(d - start, Waited(r, start, n))
    {
      PushAt(r, start, d - start, n);
    }
    if d :| d > start + shift && LegalFrom(r, d) {
      assert shift < Waited(r, start, n) ==> DutyTime(r, d) < DutyTime(r, start + shift);
    }
  }

  /** With a shift short of the waiting, the shift is the room of some stop. */
  lemma {:induction false} BindingStop(r: Round, start: int, shift: nat) returns (k: nat)
    requires LegalFrom(r, start) && IsShift(r, start, shift) && SomeHard(r)
    requires shift < Waited(r, start, |r.visits|)
    ensures k < |r.visits| && r.visits[k].hard != [] && KeptAt(r, Begin(r, start, k), k) && shift == RoomAt(r, start, k)
  {
    var room :| IsRoom(r, start, room) && shift == Min(room, Waited(r, start, |r.visits|));
    k :| 0 <= k < |r.visits| && r.visits[k].hard != [] && room == RoomAt(r, start, k);
  }

  /** With every service in its stop's last hard window, no legal departure has a shorter duty and no
      earlier one ties, exactly when some stop has a hard window or nobody waits. Waiting that only
      soft windows cause is never recovered. */
  lemma {:induction false} ShiftIsShortest(r: Round, start: int, shift: nat)
    requires LegalFrom(r, start) && IsShift(r, start, shift) && InLastWindow(r, start)
    ensures Shortest(r, start, shift) <==> (SomeHard(r) || Waited(r, start, |r.visits|) == 0)
  {
    var wait := Waited(r, start, |r.visits|);
    ShortestExactly(r, start, shift);
    if SomeHard(r) && shift < wait {
      var k := BindingStop(r, start, shift);
      forall d | d > start + shift
        ensures !LegalFrom(r, d)
      {
        if LegalFrom(r, d) {
          BeyondRoomIsIllegal(r, start, d - start, k);
        }
      }
    } else if shift < wait {
      PushAt(r, start, wait, |r.visits|);
      assert LegalFrom(r, start + wait);
    }
  }

  // ------------------------------------------------------------------
  // Several hard windows at one stop
  // ------------------------------------------------------------------

  /** A stop is never delayed into another window: the hard window it leaves its service in is one
      that already held it. */
  lemma {:induction false} WindowIsKept(r: Round, start: int, shift: nat, k: nat) returns (i: nat)
    requires LegalFrom(r, start) && IsShift(r, start, shift) && k < |r.visits| && r.visits[k].hard != []
    ensures i < |r.visits[k].hard|
    ensures Contains(r.visits[k].hard[i], Begin(r, start, k)) && Contains(r.visits[k].hard[i], Begin(r, start + shift, k))
  {
    assert KeptAt(r, Begin(r, start, k), k);
    PushAt(r, start, shift, k + 1);
    i := LatestEndMeans(r.visits[k].hard, Begin(r, start, k));
    var room :| IsRoom(r, start, room) && shift == Min(room, Waited(r, start, |r.visits|));
    assert room <= RoomAt(r, start, k);
  }

  /** A stop's hard windows come in order and apart, as its constructor demands. */
  ghost predicate HardApart(r: Round) {
    forall k :: 0 <= k < |r.visits| ==> SortedDisjoint(r.visits[k].hard)
  }

  /** How much later the van leaves for this stop's service to begin as this hard window opens. */
  function OpeningAt(r: Round, start: int, k: nat, i: nat): int
    requires k < |r.visits| && i < |r.visits[k].hard|
  {
    Waited(r, start, k + 1) + r.visits[k].hard[i].start - Begin(r, start, k)
  }

  /** Every stop with a hard window has room for all the waiting of the day. */
  ghost predicate RoomCoversWait(r: Round, start: int)
    requires AllKept(r, start)
  {
    forall k :: 0 <= k < |r.visits| && r.visits[k].hard != [] ==>
      (assert KeptAt(r, Begin(r, start, k), k); RoomAt(r, start, k) >= Waited(r, start, |r.visits|))
  }

  /** Some departure timed to a hard window's opening is legal, and later than some stop has room for. */
  ghost predicate MissesOpening(r: Round, start: int)
    requires AllKept(r, start)
  {
    exists j :: 0 <= j < |r.visits| && r.visits[j].hard != []
      && (assert KeptAt(r, Begin(r, start, j), j); OpensBeyond(r, start, RoomAt(r, start, j)))
  }

  ghost predicate OpensBeyond(r: Round, start: int, shift: int) {
    exists k, i :: 0 <= k < |r.visits| && 0 <= i < |r.visits[k].hard|
      && OpeningAt(r, start, k, i) > shift && LegalFrom(r, start + OpeningAt(r, start, k, i))
  }

  lemma {:induction false} ShiftIsRoomOrWait(r: Round, start: int, shift: nat)
    requires LegalFrom(r, start) && IsShift(r, start, shift)
    ensures SomeHard(r) ==> (shift == Waited(r, start, |r.visits|) <==> RoomCoversWait(r, start))
    ensures SomeHard(r) && !RoomCoversWait(r, start) ==> (OpensBeyond(r, start, shift) <==> MissesOpening(r, start))
  {
    if SomeHard(r) {
      var room :| IsRoom(r, start, room) && shift == Min(room, Waited(r, start, |r.visits|));
      var k :| 0 <= k < |r.visits| && r.visits[k].hard != [] && room == RoomAt(r, start, k);
      forall j | 0 <= j < |r.visits| && r.visits[j].hard != []
        ensures KeptAt(r, Begin(r, start, j), j) && room <= RoomAt(r, start, j)
        ensures OpensBeyond(r, start, RoomAt(r, start, j)) ==> OpensBeyond(r, start, room)
      {
        assert KeptAt(r, Begin(r, start, j), j);
      }
    }
  }

  /** The chosen departure is the earliest of those with the shortest legal duty exactly when every
      stop with a hard window has room for all the waiting, or leaving for no hard window's opening
      is legal any later than some stop has room for; and without a hard window, when nobody waits. */
  lemma {:induction false} OptimalExactly(r: Round, start: int, shift: nat)
    requires LegalFrom(r, start) && IsShift(r, start, shift) && HardApart(r)
    ensures Shortest(r, start, shift) <==>
      if SomeHard(r) then RoomCoversWait(r, start) || !MissesOpening(r, start) else Waited(r, start, |r.visits|) == 0
  {
    hide IsShift, RoomCoversWait, MissesOpening, LegalFrom, Shortest;
    var wait := Waited(r, start, |r.visits|);
    ShortestExactly(r, start, shift);
    ShiftIsRoomOrWait(r, start, shift);
    if !SomeHard(r) {
      UnboundLeavesWaiting(r, start, shift);
    } else if shift < wait {
      if d :| d > start + shift && LegalFrom(r, d) {
        SomeOpeningIsLegal(r, start, shift, d - start);
      }
    }
  }

  /** Without a hard window the pass does not move, and all the waiting could be recovered. */
  lemma {:induction false} UnboundLeavesWaiting(r: Round, start: int, shift: nat)
    requires LegalFrom(r, start) && IsShift(r, start, shift) && !SomeHard(r)
    ensures shift == 0 && (Waited(r, start, |r.visits|) > 0 ==> !LastLegal(r, start))
  {
    var wait := Waited(r, start, |r.visits|);
    PushAt(r, start, wait, |r.visits|);
    assert LegalFrom(r, start + wait);
  }

  /** The first legal departure after the shift brings some stop to the opening of a hard window. */
  lemma {:induction false} SomeOpeningIsLegal(r: Round, start: int, shift: nat, later: nat)
    requires LegalFrom(r, start) && IsShift(r, start, shift) && HardApart(r) && SomeHard(r)
    requires shift < Waited(r, start, |r.visits|) && later > shift && LegalFrom(r, start + later)
    ensures OpensBeyond(r, start, shift)
    decreases later
  {
    if later - 1 == shift {
      var k := BindingStop(r, start, shift);
      OpensNext(r, start, shift, k);
    } else if LegalFrom(r, start + (later - 1)) {
      SomeOpeningIsLegal(r, start, shift, later - 1);
    } else {
      ReachesOpening(r, start, later);
    }
  }

  /** One second past the end of its window, the binding stop is at the opening of the next. */
  lemma {:induction false} OpensNext(r: Round, start: int, shift: nat, k: nat)
    requires AllKept(r, start) && HardApart(r) && k < |r.visits| && r.visits[k].hard != []
    requires KeptAt(r, Begin(r, start, k), k) && shift == RoomAt(r, start, k) && LegalFrom(r, start + (shift + 1))
    ensures OpensBeyond(r, start, shift)
  {
    var hard := r.visits[k].hard;
    var begin := Begin(r, start + (shift + 1), k);
    PushAt(r, start, shift + 1, k + 1);
    assert KeptAt(r, begin, k);
    var i :| 0 <= i < |hard| && Contains(hard[i], begin);
    var j := LatestEndMeans(hard, Begin(r, start, k));
    assert i > j;
    assert OpeningAt(r, start, k, i) == shift + 1;
  }

  /** Where leaving a second earlier is not legal, some stop is at an opening. */
  lemma {:induction false} ReachesOpening(r: Round, start: int, later: nat)
    requires later > 0 && LegalFrom(r, start + later) && !LegalFrom(r, start + (later - 1))
    ensures forall shift: nat :: shift < later ==> OpensBeyond(r, start, shift)
  {
    PushAt(r, start, later, |r.visits|);
    PushAt(r, start, later - 1, |r.visits|);
    var k :| 0 <= k < |r.visits| && !KeptAt(r, Begin(r, start + (later - 1), k), k);
    assert KeptAt(r, Begin(r, start + later, k), k);
    var hard := r.visits[k].hard;
    var i :| 0 <= i < |hard| && Contains(hard[i], Begin(r, start + later, k));
    assert !Contains(hard[i], Begin(r, start + (later - 1), k));
    assert OpeningAt(r, start, k, i) == later;
  }

  const SPLIT_DAY := Round([Visit(0, Some(0), 0, [WindowSpec(0, 10, Hard), WindowSpec(100, 110, Hard)]),
                            Visit(0, Some(200), 0, [WindowSpec(200, 300, Hard)])],
                           0, WindowSpec(0, 1000, Hard))

  /** What that costs: here the pass leaves at most 10 seconds later, where leaving 100 seconds
      later, for the opening of the first stop's second window, is legal and shorter. */
  lemma {:induction false} SecondWindowIsMissed(shift: nat)
    requires IsShift(SPLIT_DAY, 0, shift)
    ensures LegalFrom(SPLIT_DAY, 0) && LegalFrom(SPLIT_DAY, 100)
    ensures shift <= 10 && DutyTime(SPLIT_DAY, 100) < DutyTime(SPLIT_DAY, shift)
    ensures OpeningAt(SPLIT_DAY, 0, 0, 1) == 100 && OpensBeyond(SPLIT_DAY, 0, shift)
  {
    var r := SPLIT_DAY;
    SplitDayTimes(0);
    SplitDayTimes(100);
    SplitDayTimes(shift);
    assert Contains(r.visits[0].hard[0], 0) && Contains(r.visits[0].hard[1], 100);
    assert Contains(r.visits[1].hard[0], 200);
    assert KeptAt(r, 0, 0) && KeptAt(r, 100, 0) && KeptAt(r, 200, 1);
    assert r.visits[0].hard != [];
  }

  lemma {:induction false} SplitDayTimes(start: nat)
    ensures var r := SPLIT_DAY;
            && Begin(r, start, 0) == start && Begin(r, start, 1) == Max(start, 200)
            && Waited(r, start, 1) == 0
            && HomeAt(r, start) == Max(start, 200)
  {
    var r := SPLIT_DAY;
    assert Free(r, start, 1) == Begin(r, start, 0);
    assert Free(r, start, 2) == Begin(r, start, 1);
  }
}
