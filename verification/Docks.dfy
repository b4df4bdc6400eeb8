/** Staggered departures (`_stagger` of vrp/decompose.py): vehicles are dealt to their depot's
    bays in identifier order, and each takes the next free slot on its bay. */
module Docks {
  import opened Common
  import opened Model

  /** The slots handed out, and when each used bay is free again. */
  datatype Yard = Yard(offsets: map<Id, int>, nextFree: map<(Id, nat), int>)

  function FreeAt(y: Yard, depot: Id, bay: nat, start: int): int {
    if (depot, bay) in y.nextFree then y.nextFree[(depot, bay)] else start
  }

  /** The first of the first `n` bays to come free. */
  function FirstFree(y: Yard, depot: Id, n: nat, start: int): nat
    requires n > 0
  {
    if n == 1 then 0
    else
      var b := FirstFree(y, depot, n - 1, start);
      if FreeAt(y, depot, n - 1, start) < FreeAt(y, depot, b, start) then n - 1 else b
  }

  lemma {:induction false} FirstFreeMeans(y: Yard, depot: Id, n: nat, start: int)
    requires n > 0
    ensures var b := FirstFree(y, depot, n, start);
            && b < n
            && (forall c: nat :: c < n ==> FreeAt(y, depot, b, start) <= FreeAt(y, depot, c, start))
            && (forall c: nat :: c < b ==> FreeAt(y, depot, b, start) < FreeAt(y, depot, c, start))
  {
    if n > 1 {
      FirstFreeMeans(y, depot, n - 1, start);
    }
  }

  function SortedIds(s: set<Id>): seq<Id> {
    SortedMeans(s);
    var ids := Sorted(s);
    assert forall i :: 0 <= i < |ids| ==> ids[i] in ids;
    ids
  }

  lemma {:induction false} SortedIdsMeans(s: set<Id>)
    ensures Ascending(SortedIds(s)) && forall id :: id in SortedIds(s) <==> id in s
  {
    SortedMeans(s);
  }

  /** The vehicles with work, in identifier order. */
  function Busy(ids: seq<Id>, assignment: map<Id, seq<Id>>): seq<Id> {
    if ids == [] then []
    else if ids[|ids| - 1] in assignment && assignment[ids[|ids| - 1]] != [] then
      Busy(ids[..|ids| - 1], assignment) + [ids[|ids| - 1]]
    else Busy(ids[..|ids| - 1], assignment)
  }

  // ------------------------------------------------------------------
  // Slots
  // ------------------------------------------------------------------

  /** The vehicle is known, and its depot has a bay if loading there takes time. */
  ghost predicate Stageable(p: Problem, id: Id)
    requires WellFormed(p)
  {
    var v := VehicleOf(p.vehicles, id);
    v.Some? && (var depot := p.locations[v.value.startLocation];
                depot.dockCapacity == Some(0) ==> depot.dwellOverhead == 0)
  }

  function Home(p: Problem, id: Id): Id
    requires WellFormed(p) && Stageable(p, id)
  {
    VehicleOf(p.vehicles, id).value.startLocation
  }

  function ShiftStart(p: Problem, id: Id): int
    requires WellFormed(p) && Stageable(p, id)
  {
    VehicleOf(p.vehicles, id).value.shift.start
  }

  /** The depot counts its bays and loading occupies one. */
  predicate Docked(p: Problem, depot: Id)
    requires depot in p.locations
  {
    p.locations[depot].dockCapacity.Some? && p.locations[depot].dwellOverhead > 0
  }

  /** One vehicle takes its slot. */
  function Take(p: Problem, y: Yard, id: Id): Yard
    requires WellFormed(p) && Stageable(p, id)
  {
    var depot, start := Home(p, id), ShiftStart(p, id);
    if !Docked(p, depot) then y.(offsets := y.offsets[id := start])
    else
      var bay := FirstFree(y, depot, p.locations[depot].dockCapacity.value, start);
      var slot := Max(start, FreeAt(y, depot, bay, start));
      Yard(y.offsets[id := slot], y.nextFree[(depot, bay) := slot + p.locations[depot].dwellOverhead])
  }

  function Staged(p: Problem, ids: seq<Id>): Yard
    requires WellFormed(p) && forall id :: id in ids ==> Stageable(p, id)
  {
    if ids == [] then Yard(map[], map[])
    else
      assert forall id :: id in ids[..|ids| - 1] ==> id in ids;
      Take(p, Staged(p, ids[..|ids| - 1]), ids[|ids| - 1])
  }

  /** One turn of the loop. */
  method TakeSlot(p: Problem, y: Yard, id: Id) returns (r: Result<Yard>)
    requires WellFormed(p)
    ensures r.Success? <==> Stageable(p, id)
    ensures r.Success? ==> r.value == Take(p, y, id)
  {
    var found := VehicleOf(p.vehicles, id);
    if found.None? {
      return Failure("unknown vehicle");
    }
    var depot, start := found.value.startLocation, found.value.shift.start;
    var span := p.locations[depot].dwellOverhead;
    if p.locations[depot].dockCapacity.None? || span <= 0 {
      return Success(y.(offsets := y.offsets[id := start]));
    }
    var bays := p.locations[depot].dockCapacity.value;
    if bays == 0 {
      return Failure("no bay to load at");
    }
    var bay := FirstFree(y, depot, bays, start);
    var slot := Max(start, FreeAt(y, depot, bay, start));
    return Success(Yard(y.offsets[id := slot], y.nextFree[(depot, bay) := slot + span]));
  }

  /** `_stagger`. */
  method Stagger(p: Problem, assignment: map<Id, seq<Id>>) returns (r: Result<map<Id, int>>)
    requires WellFormed(p)
    ensures var busy := Busy(SortedIds(assignment.Keys), assignment);
            && (r.Success? <==> forall id :: id in busy ==> Stageable(p, id))
            && (r.Success? ==> r.value == Staged(p, busy).offsets)
  {
    hide Take, Stageable, WellFormed, SortedIds;
    var ids := SortedIds(assignment.Keys);
    SortedIdsMeans(assignment.Keys);
    var y := Yard(map[], map[]);
    for k := 0 to |ids|
      invariant forall id :: id in Busy(ids[..k], assignment) ==> Stageable(p, id)
      invariant Staged(p, Busy(ids[..k], assignment)) == y
    {
      var id := ids[k];
      ghost var before := Busy(ids[..k], assignment);
      assert ids[..k + 1][..k] == ids[..k] && ids[..k + 1][k] == id;
      if assignment[id] != [] {
        assert (before + [id])[..|before|] == before;
        var next := TakeSlot(p, y, id);
        if next.Failure? {
          Unstageable(p, ids, k, assignment);
          return Failure(next.reason);
        }
        y := next.value;
      }
    }
    assert ids[..|ids|] == ids;
    return Success(y.offsets);
  }

  lemma {:induction false} BusyMembers(ids: seq<Id>, assignment: map<Id, seq<Id>>, id: Id)
    ensures id in Busy(ids, assignment) <==> id in ids && id in assignment && assignment[id] != []
  {
    if ids != [] {
      BusyMembers(ids[..|ids| - 1], assignment, id);
      assert ids == ids[..|ids| - 1] + [ids[|ids| - 1]];
    }
  }

  lemma {:induction false} Unstageable(p: Problem, ids: seq<Id>, k: nat, assignment: map<Id, seq<Id>>)
    requires WellFormed(p) && k < |ids| && ids[k] in assignment && assignment[ids[k]] != [] && !Stageable(p, ids[k])
    ensures !forall id :: id in Busy(ids, assignment) ==> Stageable(p, id)
  {
    BusyMembers(ids, assignment, ids[k]);
  }

  // ------------------------------------------------------------------
  // Bays are never shared
  // ------------------------------------------------------------------

  /** Which bay each docked vehicle took. */
  ghost function BaysOf(p: Problem, ids: seq<Id>): map<Id, nat>
    requires WellFormed(p) && forall id :: id in ids ==> Stageable(p, id)
  {
    if ids == [] then map[]
    else
      var front, id := ids[..|ids| - 1], ids[|ids| - 1];
      assert forall x :: x in front ==> x in ids;
      if !Docked(p, Home(p, id)) then BaysOf(p, front)
      else
        BaysOf(p, front)[id := FirstFree(Staged(p, front), Home(p, id), p.locations[Home(p, id)].dockCapacity.value,
                                         ShiftStart(p, id))]
  }

  /** The vehicle occupies a bay of this depot. */
  ghost predicate Occupies(p: Problem, id: Id, depot: Id)
    requires WellFormed(p)
  {
    Stageable(p, id) && Home(p, id) == depot && Docked(p, depot)
  }

  function Span(p: Problem, depot: Id): nat {
    if depot in p.locations then p.locations[depot].dwellOverhead else 0
  }

  /** Everyone loaded on a real bay, no sooner than their shift, and is off it by the time it is free. */
  ghost predicate Parked(p: Problem, id: Id, y: Yard, bays: map<Id, nat>)
    requires WellFormed(p) && Stageable(p, id)
  {
    id in y.offsets && y.offsets[id] >= ShiftStart(p, id) &&
    (if Docked(p, Home(p, id)) then
       id in bays && bays[id] < p.locations[Home(p, id)].dockCapacity.value &&
       (Home(p, id), bays[id]) in y.nextFree &&
       y.offsets[id] + Span(p, Home(p, id)) <= y.nextFree[(Home(p, id), bays[id])]
     else y.offsets[id] == ShiftStart(p, id))
  }

  /** Two vehicles on one bay load one after the other. */
  ghost predicate Clear(p: Problem, a: Id, b: Id, y: Yard, bays: map<Id, nat>, depot: Id)
    requires a in y.offsets && b in y.offsets && a in bays && b in bays
  {
    bays[a] == bays[b] ==>
      y.offsets[a] + Span(p, depot) <= y.offsets[b] || y.offsets[b] + Span(p, depot) <= y.offsets[a]
  }

  ghost predicate Orderly(p: Problem, ids: seq<Id>, y: Yard, bays: map<Id, nat>)
    requires WellFormed(p) && forall id :: id in ids ==> Stageable(p, id)
  {
    && (forall id :: id in y.offsets <==> id in ids)
    && (forall id :: id in ids ==> Parked(p, id, y, bays))
    && (forall a, b :: a in ids && b in ids && a != b && Home(p, a) == Home(p, b) && Docked(p, Home(p, a)) ==>
          Clear(p, a, b, y, bays, Home(p, a)))
  }

  /** What taking a slot on a bay does. */
  ghost predicate TakesBay(p: Problem, y: Yard, id: Id, next: Yard, bay: nat)
    requires WellFormed(p) && Stageable(p, id)
  {
    var depot, start := Home(p, id), ShiftStart(p, id);
    && id in next.offsets && bay < (if Docked(p, depot) then p.locations[depot].dockCapacity.value else 0)
    && next.offsets == y.offsets[id := next.offsets[id]]
    && next.offsets[id] == Max(start, FreeAt(y, depot, bay, start))
    && next.nextFree == y.nextFree[(depot, bay) := next.offsets[id] + Span(p, depot)]
  }

  lemma {:induction false} TakeMeans(p: Problem, y: Yard, id: Id)
    requires WellFormed(p) && Stageable(p, id) && Docked(p, Home(p, id))
    ensures TakesBay(p, y, id, Take(p, y, id),
                     FirstFree(y, Home(p, id), p.locations[Home(p, id)].dockCapacity.value, ShiftStart(p, id)))
  {
    FirstFreeMeans(y, Home(p, id), p.locations[Home(p, id)].dockCapacity.value, ShiftStart(p, id));
  }

  lemma {:induction false} ParkedStays(p: Problem, x: Id, id: Id, y: Yard, bays: map<Id, nat>, next: Yard, bay: nat)
    requires WellFormed(p) && Stageable(p, id) && Stageable(p, x) && x != id
    requires Parked(p, x, y, bays) && TakesBay(p, y, id, next, bay)
    ensures Parked(p, x, next, bays[id := bay]) && next.offsets[x] == y.offsets[x]
  {
  }

  lemma {:induction false} NewIsClear(p: Problem, x: Id, id: Id, y: Yard, bays: map<Id, nat>, next: Yard, bay: nat)
    requires WellFormed(p) && Stageable(p, id) && Stageable(p, x) && x != id
    requires Parked(p, x, y, bays) && TakesBay(p, y, id, next, bay)
    requires Home(p, x) == Home(p, id) && Docked(p, Home(p, id))
    ensures x in next.offsets && Clear(p, x, id, next, bays[id := bay], Home(p, id))
    ensures Clear(p, id, x, next, bays[id := bay], Home(p, id))
  {
  }

  lemma {:induction false} BayIsOrderly(p: Problem, front: seq<Id>, id: Id, y: Yard, bays: map<Id, nat>, next: Yard, bay: nat)
    requires WellFormed(p) && Stageable(p, id) && id !in front && Docked(p, Home(p, id))
    requires forall x :: x in front ==> Stageable(p, x)
    requires Orderly(p, front, y, bays) && TakesBay(p, y, id, next, bay)
    ensures Orderly(p, front + [id], next, bays[id := bay])
  {
    hide Stageable, WellFormed;
    forall x | x in front
      ensures Parked(p, x, next, bays[id := bay]) && next.offsets[x] == y.offsets[x]
      ensures Home(p, x) == Home(p, id) ==>
        Clear(p, x, id, next, bays[id := bay], Home(p, id)) && Clear(p, id, x, next, bays[id := bay], Home(p, id))
    {
      ParkedStays(p, x, id, y, bays, next, bay);
      if Home(p, x) == Home(p, id) {
        NewIsClear(p, x, id, y, bays, next, bay);
      }
    }
    assert Parked(p, id, next, bays[id := bay]);
  }

  lemma {:induction false} FreeIsOrderly(p: Problem, front: seq<Id>, id: Id, y: Yard, bays: map<Id, nat>)
    requires WellFormed(p) && Stageable(p, id) && id !in front && !Docked(p, Home(p, id))
    requires forall x :: x in front ==> Stageable(p, x)
    requires Orderly(p, front, y, bays)
    ensures Orderly(p, front + [id], y.(offsets := y.offsets[id := ShiftStart(p, id)]), bays)
  {
    hide Stageable, WellFormed;
  }

  lemma {:induction false} StagedIsOrderly(p: Problem, ids: seq<Id>)
    requires WellFormed(p) && NoRepeats(ids) && forall id :: id in ids ==> Stageable(p, id)
    ensures Orderly(p, ids, Staged(p, ids), BaysOf(p, ids))
  {
    hide Orderly, TakesBay;
    if ids == [] {
      NothingIsOrderly(p);
    } else {
      var front, id := ids[..|ids| - 1], ids[|ids| - 1];
      assert forall x :: x in front ==> x in ids;
      StagedIsOrderly(p, front);
      if Docked(p, Home(p, id)) {
        TakeMeans(p, Staged(p, front), id);
        BayIsOrderly(p, front, id, Staged(p, front), BaysOf(p, front), Staged(p, ids), BaysOf(p, ids)[id]);
      } else {
        FreeIsOrderly(p, front, id, Staged(p, front), BaysOf(p, front));
      }
      assert ids == front + [id];
    }
  }

  lemma {:induction false} NothingIsOrderly(p: Problem)
    requires WellFormed(p)
    ensures Orderly(p, [], Yard(map[], map[]), map[])
  {
  }

  // ------------------------------------------------------------------
  // Never more vehicles loading than bays
  // ------------------------------------------------------------------

  /** The vehicles on the depot's bays at an instant. */
  ghost function LoadingAt(p: Problem, offsets: map<Id, int>, depot: Id, instant: int): set<Id>
    requires WellFormed(p)
  {
    set id | id in offsets && Occupies(p, id, depot) && offsets[id] <= instant < offsets[id] + Span(p, depot)
  }

  /** Distinct values below `n` cannot number more than `n`. */
  lemma {:induction false} FewBays(s: set<Id>, bays: map<Id, nat>, n: nat)
    requires forall id :: id in s ==> id in bays && bays[id] < n
    requires forall a, b :: a in s && b in s && a != b ==> bays[a] != bays[b]
    ensures |s| <= n
  {
    if n > 0 {
      if a :| a in s && bays[a] == n - 1 {
        FewBays(s - {a}, bays, n - 1);
      } else {
        FewBays(s, bays, n - 1);
      }
    } else {
      EmptyOrNot(s);
    }
  }

  /** At every instant at most as many vehicles are loading at a depot as it has bays, and
      none starts before its shift; where loading takes no bay, a vehicle starts at its shift. */
  lemma {:induction false} BaysSuffice(p: Problem, ids: seq<Id>, depot: Id, instant: int)
    requires WellFormed(p) && NoRepeats(ids) && forall id :: id in ids ==> Stageable(p, id)
    ensures depot in p.locations && p.locations[depot].dockCapacity.Some? ==>
      |LoadingAt(p, Staged(p, ids).offsets, depot, instant)| <= p.locations[depot].dockCapacity.value
    ensures forall id :: id in Staged(p, ids).offsets <==> id in ids
    ensures forall id :: id in ids ==> Staged(p, ids).offsets[id] >= ShiftStart(p, id)
    ensures forall id :: id in ids && !Docked(p, Home(p, id)) ==> Staged(p, ids).offsets[id] == ShiftStart(p, id)
  {
    hide Staged, BaysOf;
    StagedIsOrderly(p, ids);
    var y, bays := Staged(p, ids), BaysOf(p, ids);
    if depot in p.locations && p.locations[depot].dockCapacity.Some? {
      var loading := LoadingAt(p, y.offsets, depot, instant);
      forall a, b | a in loading && b in loading && a != b
        ensures bays[a] != bays[b]
      {
        assert Clear(p, a, b, y, bays, depot);
      }
      FewBays(loading, bays, p.locations[depot].dockCapacity.value);
    }
  }

  // ------------------------------------------------------------------
  // Equal shifts: the k-th vehicle waits for k div capacity loadings
  // ------------------------------------------------------------------

  function AtDepot(p: Problem, ids: seq<Id>, depot: Id): nat
    requires WellFormed(p) && forall id :: id in ids ==> Stageable(p, id)
  {
    if ids == [] then 0
    else
      assert forall x :: x in ids[..|ids| - 1] ==> x in ids;
      AtDepot(p, ids[..|ids| - 1], depot) + if Home(p, ids[|ids| - 1]) == depot then 1 else 0
  }

  /** Every bay has had `q` loadings, the first `r` of them one more. */
  ghost predicate Dealt(y: Yard, depot: Id, bays: nat, start: int, span: int, q: nat, r: nat) {
    forall b: nat :: b < bays ==> FreeAt(y, depot, b, start) == start + q * span + (if b < r then span else 0)
  }

  /** After `j` vehicles. */
  ghost predicate DealtTo(y: Yard, depot: Id, bays: nat, start: int, span: int, j: nat)
    requires bays > 0
  {
    Dealt(y, depot, bays, start, span, j / bays, j % bays)
  }

  lemma {:induction false} NextShare(j: nat, n: nat)
    requires n > 0
    ensures j % n + 1 < n ==> (j + 1) / n == j / n && (j + 1) % n == j % n + 1
    ensures j % n + 1 == n ==> (j + 1) / n == j / n + 1 && (j + 1) % n == 0
  {
    var q, r := j / n, j % n;
    assert j + 1 == q * n + (r + 1);
    if r + 1 < n {
      DivModUnique(j + 1, n, q, r + 1);
    } else {
      assert (q + 1) * n == q * n + n;
      DivModUnique(j + 1, n, q + 1, 0);
    }
  }

  /** The next vehicle goes to bay `r` and leaves `q` loadings after the shift starts. */
  lemma {:induction false} NextDeal(y: Yard, depot: Id, bays: nat, start: int, span: int, q: nat, r: nat)
    requires r < bays && span > 0 && Dealt(y, depot, bays, start, span, q, r)
    ensures FirstFree(y, depot, bays, start) == r && FreeAt(y, depot, r, start) == start + q * span >= start
  {
    FirstFreeMeans(y, depot, bays, start);
    MulMonotone(0, q, span);
    assert FreeAt(y, depot, r, start) == start + q * span;
  }

  lemma {:induction false} DealOn(y: Yard, next: Yard, depot: Id, bays: nat, start: int, span: int, q: nat, r: nat)
    requires r < bays && Dealt(y, depot, bays, start, span, q, r)
    requires next.nextFree == y.nextFree[(depot, r) := start + q * span + span]
    ensures if r + 1 < bays then Dealt(next, depot, bays, start, span, q, r + 1)
            else Dealt(next, depot, bays, start, span, q + 1, 0)
  {
    assert (q + 1) * span == q * span + span;
    forall b: nat | b < bays
      ensures FreeAt(next, depot, b, start) == start + q * span + (if b < r + 1 then span else 0)
    {
      assert FreeAt(y, depot, b, start) == start + q * span + (if b < r then span else 0);
    }
  }

  lemma {:induction false} OthersKeepDeal(y: Yard, next: Yard, depot: Id, bays: nat, start: int, span: int, q: nat, r: nat)
    requires Dealt(y, depot, bays, start, span, q, r)
    requires forall b: nat :: FreeAt(next, depot, b, start) == FreeAt(y, depot, b, start)
    ensures Dealt(next, depot, bays, start, span, q, r)
  {
  }

  lemma {:induction false} TakeDeals(p: Problem, y: Yard, id: Id, depot: Id, start: int, j: nat)
    requires WellFormed(p) && Stageable(p, id) && depot in p.locations && Docked(p, depot)
    requires Home(p, id) == depot ==> ShiftStart(p, id) == start
    requires p.locations[depot].dockCapacity.value > 0
    requires DealtTo(y, depot, p.locations[depot].dockCapacity.value, start, Span(p, depot), j)
    ensures DealtTo(Take(p, y, id), depot, p.locations[depot].dockCapacity.value, start, Span(p, depot),
                    if Home(p, id) == depot then j + 1 else j)
    ensures id in Take(p, y, id).offsets
    ensures Home(p, id) == depot ==>
      Take(p, y, id).offsets[id] == start + j / p.locations[depot].dockCapacity.value * Span(p, depot)
  {
    hide Dealt, WellFormed, FreeAt, FirstFree;
    var bays, span := p.locations[depot].dockCapacity.value, Span(p, depot);
    if Home(p, id) == depot {
      NextDeal(y, depot, bays, start, span, j / bays, j % bays);
      DealOn(y, Take(p, y, id), depot, bays, start, span, j / bays, j % bays);
      NextShare(j, bays);
    } else {
      OthersUntouched(p, y, id, depot, start);
      OthersKeepDeal(y, Take(p, y, id), depot, bays, start, span, j / bays, j % bays);
    }
  }

  lemma {:induction false} OthersUntouched(p: Problem, y: Yard, id: Id, depot: Id, start: int)
    requires WellFormed(p) && Stageable(p, id) && Home(p, id) != depot
    ensures forall b: nat :: FreeAt(Take(p, y, id), depot, b, start) == FreeAt(y, depot, b, start)
  {
  }

  ghost predicate SameShift(p: Problem, ids: seq<Id>, depot: Id, start: int)
    requires WellFormed(p) && forall id :: id in ids ==> Stageable(p, id)
  {
    forall id :: id in ids && Home(p, id) == depot ==> ShiftStart(p, id) == start
  }

  lemma {:induction false} StagedDeals(p: Problem, ids: seq<Id>, depot: Id, start: int)
    requires WellFormed(p) && forall id :: id in ids ==> Stageable(p, id)
    requires depot in p.locations && Docked(p, depot) && p.locations[depot].dockCapacity.value > 0
    requires SameShift(p, ids, depot, start)
    ensures DealtTo(Staged(p, ids), depot, p.locations[depot].dockCapacity.value, start, Span(p, depot),
                  AtDepot(p, ids, depot))
  {
    hide DealtTo, Take;
    if ids == [] {
      NothingDealt(depot, p.locations[depot].dockCapacity.value, start, Span(p, depot));
    } else {
      var front, id := ids[..|ids| - 1], ids[|ids| - 1];
      assert forall x :: x in front ==> x in ids;
      StagedDeals(p, front, depot, start);
      TakeDeals(p, Staged(p, front), id, depot, start, AtDepot(p, front, depot));
    }
  }

  lemma {:induction false} NothingDealt(depot: Id, bays: nat, start: int, span: int)
    requires bays > 0
    ensures DealtTo(Yard(map[], map[]), depot, bays, start, span, 0)
  {
    DivModUnique(0, bays, 0, 0);
  }

  /** Where a depot's vehicles all start their shift together, the one with `k` before it in
      identifier order leaves `k div bays` loadings after the shift starts. */
  lemma {:induction false} KthLeavesInTurn(p: Problem, ids: seq<Id>, depot: Id, start: int, i: nat)
    requires WellFormed(p) && NoRepeats(ids) && forall id :: id in ids ==> Stageable(p, id)
    requires depot in p.locations && Docked(p, depot) && p.locations[depot].dockCapacity.value > 0
    requires SameShift(p, ids, depot, start)
    requires i < |ids| && Home(p, ids[i]) == depot
    ensures forall x :: x in ids[..i] ==> x in ids
    ensures ids[i] in Staged(p, ids).offsets && Staged(p, ids).offsets[ids[i]]
         == start + AtDepot(p, ids[..i], depot) / p.locations[depot].dockCapacity.value * Span(p, depot)
  {
    hide DealtTo, Take;
    var front, id := ids[..|ids| - 1], ids[|ids| - 1];
    assert forall x :: x in front ==> x in ids;
    assert forall x :: x in ids[..i] ==> x in ids;
    if i == |ids| - 1 {
      StagedDeals(p, front, depot, start);
      TakeDeals(p, Staged(p, front), id, depot, start, AtDepot(p, front, depot));
      OffsetsGrow(p, Staged(p, front), id);
    } else {
      assert front[..i] == ids[..i] && front[i] == ids[i];
      KthLeavesInTurn(p, front, depot, start, i);
      OffsetsGrow(p, Staged(p, front), id);
    }
  }

  lemma {:induction false} OffsetsGrow(p: Problem, y: Yard, id: Id)
    requires WellFormed(p) && Stageable(p, id)
    ensures id in Take(p, y, id).offsets
    ensures forall x :: x in y.offsets && x != id ==> x in Take(p, y, id).offsets && Take(p, y, id).offsets[x] == y.offsets[x]
  {
  }

  lemma {:induction false} BusyAscends(ids: seq<Id>, assignment: map<Id, seq<Id>>)
    requires Ascending(ids)
    ensures Ascending(Busy(ids, assignment))
  {
    if ids != [] {
      var front, id := ids[..|ids| - 1], ids[|ids| - 1];
      BusyAscends(front, assignment);
      var busy := Busy(front, assignment);
      forall x | x in busy
        ensures x < id
      {
        BusyMembers(front, assignment, x);
      }
      assert forall i :: 0 <= i < |busy| ==> busy[i] in busy;
    }
  }

  /** The queue at the docks: every vehicle with work, once, in identifier order. */
  lemma {:induction false} QueueMeans(assignment: map<Id, seq<Id>>)
    ensures var queue := Busy(SortedIds(assignment.Keys), assignment);
            && Ascending(queue) && NoRepeats(queue)
            && forall id :: id in queue <==> id in assignment && assignment[id] != []
  {
    SortedIdsMeans(assignment.Keys);
    BusyAscends(SortedIds(assignment.Keys), assignment);
    forall id
      ensures id in Busy(SortedIds(assignment.Keys), assignment) <==> id in assignment && assignment[id] != []
    {
      BusyMembers(SortedIds(assignment.Keys), assignment, id);
    }
  }
}
