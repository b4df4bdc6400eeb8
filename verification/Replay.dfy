/** The epoch controller and the day replayer (vrp/epochs.py, vrp/replay.py).

    A day is a sequence of dispatch waves. At each wave an arbitrary policy chooses
    among the open orders; must-go orders are dispatched whatever it says; the rest
    is carried over. The theorems hold for every day and every policy. */
module Replay {
  import opened Common
  import opened Model
  import opened Diagnose
  import Refusals

  // ------------------------------------------------------------------
  // Waves
  // ------------------------------------------------------------------

  datatype Epoch = Epoch(index: nat, start: int, end: int)

  /** The waves of a horizon: contiguous, the last one short where it does not divide. */
  ghost predicate Waves(horizon: TimeWindow, length: int, waves: seq<Epoch>) {
    && length > 0
    && (forall k :: 0 <= k < |waves| ==>
          waves[k] == Epoch(k, horizon.start + k * length, Min(horizon.start + (k + 1) * length, horizon.end)))
    && (forall k :: 0 <= k < |waves| ==> horizon.start + k * length < horizon.end)
    && horizon.end <= horizon.start + |waves| * length
  }

  /** `epochs`. */
  method Epochs(horizon: TimeWindow, length: int) returns (r: Result<seq<Epoch>>)
    ensures r.Success? <==> length > 0
    ensures r.Success? ==> Waves(horizon, length, r.value)
  {
    if length <= 0 {
      return Failure("an epoch length must be positive");
    }
    var waves: seq<Epoch> := [];
    var start, index: nat := horizon.start, 0;
    while start < horizon.end
      invariant index == |waves| && start == horizon.start + index * length
      invariant forall k :: 0 <= k < |waves| ==>
        waves[k] == Epoch(k, horizon.start + k * length, Min(horizon.start + (k + 1) * length, horizon.end))
      invariant forall k :: 0 <= k < |waves| ==> horizon.start + k * length < horizon.end
      decreases horizon.end - start
    {
      assert (index + 1) * length == index * length + length;
      waves := waves + [Epoch(index, start, Min(start + length, horizon.end))];
      start, index := start + length, index + 1;
    }
    return Success(waves);
  }

  /** The waves tile the horizon: each ends where the next begins, and the last ends the day. */
  lemma {:induction false} WavesTile(horizon: TimeWindow, length: int, waves: seq<Epoch>, k: nat)
    requires Waves(horizon, length, waves) && k < |waves|
    ensures waves[0].start == horizon.start
    ensures k + 1 < |waves| ==> waves[k].end == waves[k + 1].start == waves[k].start + length
    ensures k + 1 == |waves| ==> waves[k].end == horizon.end
  {
    assert (k + 1) * length == k * length + length;
    if k + 1 < |waves| {
      assert horizon.start + (k + 1) * length < horizon.end;
    }
  }

  // ------------------------------------------------------------------
  // One decision
  // ------------------------------------------------------------------

  datatype Classification = Classification(mustGo: seq<Id>, deferrable: seq<Id>)

  datatype Dispatch = Dispatch(dispatched: seq<Id>, postponed: seq<Id>, forced: seq<Id>)

  /** A policy sees the open work, its classification and the wave. Any function will do. */
  type Policy = (seq<Id>, Classification, Epoch) -> seq<Id>

  /** The elements of `ids` inside, or outside, a set, in order. */
  function Keep(ids: seq<Id>, s: set<Id>): seq<Id> {
    if ids == [] then []
    else if ids[0] in s then [ids[0]] + Keep(ids[1..], s)
    else Keep(ids[1..], s)
  }

  function Drop(ids: seq<Id>, s: set<Id>): seq<Id> {
    if ids == [] then []
    else if ids[0] in s then Drop(ids[1..], s)
    else [ids[0]] + Drop(ids[1..], s)
  }

  lemma {:induction false} KeepDropMembers(ids: seq<Id>, s: set<Id>)
    ensures forall id :: id in Keep(ids, s) <==> id in ids && id in s
    ensures forall id :: id in Drop(ids, s) <==> id in ids && id !in s
  {
    if ids != [] {
      KeepDropMembers(ids[1..], s);
      assert ids == [ids[0]] + ids[1..];
    }
  }

  lemma {:induction false} KeepDropDistinct(ids: seq<Id>, s: set<Id>)
    requires NoRepeats(ids)
    ensures NoRepeats(Keep(ids, s)) && NoRepeats(Drop(ids, s))
  {
    if ids != [] {
      KeepDropDistinct(ids[1..], s);
      KeepDropMembers(ids[1..], s);
      assert ids[0] !in ids[1..];
    }
  }

  /** `must_go`: no vehicle could still reach it leaving at the next wave. */
  predicate MustGo(p: Problem, id: Id, postponedTo: int)
    requires WellFormed(p)
  {
    var o := OrderOf(p.orders, id);
    o.Some? && forall v :: v in p.vehicles ==> !Reaches(p, o.value, v, postponedTo)
  }

  predicate Reaches(p: Problem, o: Order, v: Vehicle, notBefore: int)
    requires WellFormed(p) && o in p.orders && v in p.vehicles
  {
    assert Sited(p, o);
    CanReach(p, o, v, notBefore)
  }

  /** An order must go exactly when every vehicle, leaving its depot at the next wave, would come after all its
      hard windows; with no vehicle, every order must. */
  lemma {:induction false} MustGoMeans(p: Problem, id: Id, o: Order, postponedTo: int)
    requires WellFormed(p) && OrderOf(p.orders, id) == Some(o)
    ensures forall v :: v in p.vehicles ==> Placed(p, o, v)
    ensures MustGo(p, id, postponedTo)
       <==> forall v :: v in p.vehicles ==> Refusals.ComesTooLate(p, o, v, postponedTo)
  {
    assert Sited(p, o);
    forall v | v in p.vehicles
      ensures Placed(p, o, v) && (Reaches(p, o, v, postponedTo) <==> !Refusals.ComesTooLate(p, o, v, postponedTo))
    {
      Refusals.ReachMeans(p, o, v, postponedTo);
    }
  }

  function Split(p: Problem, ids: seq<Id>, postponedTo: int): Classification
    requires WellFormed(p)
    decreases |ids|
  {
    if ids == [] then Classification([], [])
    else
      var id, rest := ids[|ids| - 1], Split(p, ids[..|ids| - 1], postponedTo);
      if MustGo(p, id, postponedTo) then rest.(mustGo := rest.mustGo + [id])
      else rest.(deferrable := rest.deferrable + [id])
  }

  const UNKNOWN_ORDER := "unknown order"

  /** Every request is an order of the instance; `problem.order` raises for any other. */
  predicate AllKnown(p: Problem, ids: seq<Id>) {
    forall id :: id in ids ==> OrderOf(p.orders, id).Some?
  }

  /** `classify`, appending to two lists. */
  method Classify(p: Problem, ids: seq<Id>, postponedTo: int) returns (r: Result<Classification>)
    requires WellFormed(p)
    ensures r.Success? <==> AllKnown(p, ids)
    ensures r.Success? ==> r.value == Split(p, ids, postponedTo)
    ensures r.Failure? ==> r.reason == UNKNOWN_ORDER
  {
    var must, defer: seq<Id> := [], [];
    for k := 0 to |ids|
      invariant AllKnown(p, ids[..k])
      invariant Split(p, ids[..k], postponedTo) == Classification(must, defer)
    {
      assert ids[..k + 1][..k] == ids[..k];
      if OrderOf(p.orders, ids[k]).None? {
        return Failure(UNKNOWN_ORDER);
      }
      if MustGo(p, ids[k], postponedTo) {
        must := must + [ids[k]];
      } else {
        defer := defer + [ids[k]];
      }
    }
    assert ids[..|ids|] == ids;
    return Success(Classification(must, defer));
  }

  lemma {:induction false} SplitMembers(p: Problem, ids: seq<Id>, postponedTo: int)
    requires WellFormed(p)
    ensures forall id :: id in Split(p, ids, postponedTo).mustGo <==> id in ids && MustGo(p, id, postponedTo)
    ensures forall id :: id in Split(p, ids, postponedTo).deferrable <==> id in ids && !MustGo(p, id, postponedTo)
    decreases |ids|
  {
    if ids != [] {
      var front := ids[..|ids| - 1];
      SplitMembers(p, front, postponedTo);
      assert ids == front + [ids[|ids| - 1]];
    }
  }

  /** `decide`: the policy's choice, with must-go work forced out whatever it chose. */
  function Decide(p: Problem, open: seq<Id>, wave: Epoch, policy: Policy): Result<Dispatch>
    requires WellFormed(p)
  {
    var split := Split(p, open, wave.end);
    var chosen := Elements(policy(open, split, wave));
    if !AllKnown(p, open) then Failure(UNKNOWN_ORDER)
    else if exists id :: id in chosen && id !in open then Failure("policy dispatched orders that are not open")
    else
      var forced := Drop(split.mustGo, chosen);
      var dispatched := Keep(open, chosen + Elements(forced));
      Success(Dispatch(dispatched, Drop(open, Elements(dispatched)), forced))
  }

  /** Every open order goes or waits, once, and none does both. */
  ghost predicate Partitions(open: seq<Id>, going: seq<Id>, waiting: seq<Id>) {
    && NoRepeats(going) && NoRepeats(waiting)
    && (forall id :: id in open <==> id in going || id in waiting)
    && (forall id :: id in going ==> id !in waiting)
  }

  /** AC-3.1, and the partition: every open order goes or waits, a must-go order
      goes, and exactly the must-go orders the policy left out are reported as forced. */
  lemma {:induction false} DecideMeans(p: Problem, open: seq<Id>, wave: Epoch, policy: Policy)
    requires WellFormed(p) && NoRepeats(open)
    requires Decide(p, open, wave, policy).Success?
    ensures var d := Decide(p, open, wave, policy).value;
            var chosen := policy(open, Split(p, open, wave.end), wave);
            && Partitions(open, d.dispatched, d.postponed)
            && (forall id :: id in d.postponed ==> !MustGo(p, id, wave.end) && id !in chosen)
            && (forall id :: id in d.forced <==> id in open && MustGo(p, id, wave.end) && id !in chosen)
  {
    var split := Split(p, open, wave.end);
    var chosen := Elements(policy(open, split, wave));
    SplitMembers(p, open, wave.end);
    var forced := Drop(split.mustGo, chosen);
    KeepDropMembers(split.mustGo, chosen);
    var going := chosen + Elements(forced);
    KeepDropMembers(open, going);
    KeepDropDistinct(open, going);
    var dispatched := Keep(open, going);
    KeepDropMembers(open, Elements(dispatched));
    KeepDropDistinct(open, Elements(dispatched));
  }

  // ------------------------------------------------------------------
  // Arrivals
  // ------------------------------------------------------------------

  /** When each request became known, in the mapping's own order. */
  datatype Day = Day(arrivals: seq<(Id, int)>)

  ghost predicate DistinctArrivals(day: Day) {
    forall i, j :: 0 <= i < j < |day.arrivals| ==> day.arrivals[i].0 != day.arrivals[j].0
  }

  predicate Before(a: (Id, int), b: (Id, int)) {
    a.1 < b.1 || (a.1 == b.1 && a.0 <= b.0)
  }

  function InsertArrival(a: (Id, int), s: seq<(Id, int)>): seq<(Id, int)> {
    if s == [] || Before(a, s[0]) then [a] + s else [s[0]] + InsertArrival(a, s[1..])
  }

  function SortArrivals(s: seq<(Id, int)>): seq<(Id, int)> {
    if s == [] then [] else InsertArrival(s[0], SortArrivals(s[1..]))
  }

  function SeenBy(s: seq<(Id, int)>, instant: int): seq<Id> {
    if s == [] then []
    else if s[0].1 <= instant then [s[0].0] + SeenBy(s[1..], instant)
    else SeenBy(s[1..], instant)
  }

  /** `Day.known_by`: the requests visible at `instant`, by arrival then identifier. */
  function KnownBy(day: Day, instant: int): seq<Id> {
    SeenBy(SortArrivals(day.arrivals), instant)
  }

  ghost predicate Listed(s: seq<(Id, int)>, id: Id, instant: int) {
    exists k :: 0 <= k < |s| && s[k].0 == id && s[k].1 <= instant
  }

  ghost predicate Arrived(day: Day, id: Id, instant: int) {
    Listed(day.arrivals, id, instant)
  }

  lemma {:induction false} InsertArrivalMembers(a: (Id, int), s: seq<(Id, int)>)
    ensures forall x :: x in InsertArrival(a, s) <==> x == a || x in s
    ensures NoRepeats(Names(s)) && a.0 !in Names(s) ==> NoRepeats(Names(InsertArrival(a, s)))
  {
    if s == [] || Before(a, s[0]) {
      NamesMembers([a] + s);
      NamesMembers(s);
      assert Names([a] + s) == [a.0] + Names(s);
    } else {
      InsertArrivalMembers(a, s[1..]);
      var rest := InsertArrival(a, s[1..]);
      assert s == [s[0]] + s[1..];
      assert Names(s) == [s[0].0] + Names(s[1..]);
      assert Names([s[0]] + rest) == [s[0].0] + Names(rest);
      NamesMembers(rest);
      NamesMembers(s[1..]);
      if NoRepeats(Names(s)) && a.0 !in Names(s) {
        assert Names(s)[0] == s[0].0 && Names(s)[1..] == Names(s[1..]);
        assert s[0].0 !in Names(s[1..]);
        assert s[0].0 !in Names(rest);
      }
    }
  }

  function Names(s: seq<(Id, int)>): seq<Id> {
    seq(|s|, k requires 0 <= k < |s| => s[k].0)
  }

  lemma {:induction false} NamesMembers(s: seq<(Id, int)>)
    ensures forall id :: id in Names(s) <==> exists x :: x in s && x.0 == id
  {
    forall id
      ensures id in Names(s) <==> exists x :: x in s && x.0 == id
    {
      if id in Names(s) {
        var k :| 0 <= k < |Names(s)| && Names(s)[k] == id;
        assert s[k] in s && s[k].0 == id;
      }
      if exists x :: x in s && x.0 == id {
        var x :| x in s && x.0 == id;
        var k :| 0 <= k < |s| && s[k] == x;
        assert Names(s)[k] == id;
      }
    }
  }

  lemma {:induction false} NamesSame(a: seq<(Id, int)>, b: seq<(Id, int)>)
    requires forall x :: x in a <==> x in b
    ensures forall id :: id in Names(a) <==> id in Names(b)
  {
    forall id
      ensures id in Names(a) <==> id in Names(b)
    {
      if id in Names(a) {
        var k :| 0 <= k < |Names(a)| && Names(a)[k] == id;
        assert a[k] in b;
        var j :| 0 <= j < |b| && b[j] == a[k];
        assert Names(b)[j] == id;
      }
      if id in Names(b) {
        var k :| 0 <= k < |Names(b)| && Names(b)[k] == id;
        assert b[k] in a;
        var j :| 0 <= j < |a| && a[j] == b[k];
        assert Names(a)[j] == id;
      }
    }
  }

  lemma {:induction false} NamesTail(s: seq<(Id, int)>)
    requires s != []
    ensures Names(s)[0] == s[0].0 && Names(s)[1..] == Names(s[1..])
    ensures NoRepeats(Names(s)) ==> NoRepeats(Names(s[1..])) && s[0].0 !in Names(s[1..])
  {
    assert Names(s) == [s[0].0] + Names(s[1..]);
    if NoRepeats(Names(s)) {
      forall i, j | 0 <= i < j < |s| - 1
        ensures Names(s[1..])[i] != Names(s[1..])[j]
      {
        assert Names(s)[i + 1] != Names(s)[j + 1];
      }
      forall k | 0 <= k < |s| - 1
        ensures Names(s[1..])[k] != s[0].0
      {
        assert Names(s[1..])[k] == Names(s)[k + 1];
        assert Names(s)[0] != Names(s)[k + 1];
      }
    }
  }

  lemma {:induction false} SortMembers(s: seq<(Id, int)>)
    ensures forall x :: x in SortArrivals(s) <==> x in s
    ensures NoRepeats(Names(s)) ==> NoRepeats(Names(SortArrivals(s)))
  {
    if s != [] {
      SortMembers(s[1..]);
      InsertArrivalMembers(s[0], SortArrivals(s[1..]));
      assert s == [s[0]] + s[1..];
      NamesTail(s);
      NamesSame(s[1..], SortArrivals(s[1..]));
    }
  }

  lemma {:induction false} ListedStep(s: seq<(Id, int)>, id: Id, instant: int)
    requires s != []
    ensures Listed(s, id, instant) <==> (s[0].0 == id && s[0].1 <= instant) || Listed(s[1..], id, instant)
  {
    var rest := s[1..];
    if Listed(s, id, instant) {
      var k :| 0 <= k < |s| && s[k].0 == id && s[k].1 <= instant;
      assert k > 0 ==> rest[k - 1] == s[k];
    }
    if Listed(rest, id, instant) {
      var k :| 0 <= k < |rest| && rest[k].0 == id && rest[k].1 <= instant;
      assert s[k + 1] == rest[k];
    }
  }

  lemma {:induction false} SeenMembers(s: seq<(Id, int)>, id: Id, instant: int)
    ensures id in SeenBy(s, instant) <==> Listed(s, id, instant)
  {
    if s != [] {
      SeenMembers(s[1..], id, instant);
      ListedStep(s, id, instant);
    }
  }

  lemma {:induction false} ListedSame(a: seq<(Id, int)>, b: seq<(Id, int)>, id: Id, instant: int)
    requires forall x :: x in a ==> x in b
    ensures Listed(a, id, instant) ==> Listed(b, id, instant)
  {
    if Listed(a, id, instant) {
      var k :| 0 <= k < |a| && a[k].0 == id && a[k].1 <= instant;
      assert a[k] in b;
      var j :| 0 <= j < |b| && b[j] == a[k];
    }
  }

  lemma {:induction false} SeenDistinct(s: seq<(Id, int)>, instant: int)
    requires NoRepeats(Names(s))
    ensures NoRepeats(SeenBy(s, instant))
    ensures forall id :: id in SeenBy(s, instant) ==> id in Names(s)
  {
    if s != [] {
      NamesTail(s);
      SeenDistinct(s[1..], instant);
      assert Names(s) == [s[0].0] + Names(s[1..]);
    }
  }

  /** `known_by` lists each request that has arrived once, and no other. */
  lemma {:induction false} KnownByMeans(day: Day, instant: int)
    requires DistinctArrivals(day)
    ensures NoRepeats(KnownBy(day, instant))
    ensures forall id :: id in KnownBy(day, instant) <==> Arrived(day, id, instant)
  {
    var s := day.arrivals;
    SortMembers(s);
    SeenDistinct(SortArrivals(s), instant);
    forall id
      ensures id in KnownBy(day, instant) <==> Arrived(day, id, instant)
    {
      SeenMembers(SortArrivals(s), id, instant);
      ListedSame(s, SortArrivals(s), id, instant);
      ListedSame(SortArrivals(s), s, id, instant);
    }
  }

  ghost predicate InTurn(s: seq<(Id, int)>) {
    forall i, j :: 0 <= i < j < |s| ==> s[i].1 < s[j].1 || (s[i].1 == s[j].1 && s[i].0 <= s[j].0)
  }

  lemma {:induction false} InsertInTurn(a: (Id, int), s: seq<(Id, int)>)
    requires InTurn(s)
    ensures InTurn(InsertArrival(a, s))
  {
    if s != [] && !Before(a, s[0]) {
      InsertInTurn(a, s[1..]);
      InsertArrivalMembers(a, s[1..]);
      var rest := InsertArrival(a, s[1..]);
      forall k | 0 <= k < |rest|
        ensures s[0].1 < rest[k].1 || (s[0].1 == rest[k].1 && s[0].0 <= rest[k].0)
      {
        assert rest[k] in rest;
      }
    }
  }

  lemma {:induction false} SortInTurn(s: seq<(Id, int)>)
    ensures InTurn(SortArrivals(s))
  {
    if s != [] {
      SortInTurn(s[1..]);
      InsertInTurn(s[0], SortArrivals(s[1..]));
    }
  }

  /** What is seen, with its moments, keeps the order of the whole list. */
  lemma {:induction false} SeenInTurn(s: seq<(Id, int)>, instant: int, i: nat, j: nat) returns (x: nat, y: nat)
    requires i < j < |SeenBy(s, instant)|
    ensures x < y < |s| && s[x].0 == SeenBy(s, instant)[i] && s[y].0 == SeenBy(s, instant)[j]
  {
    if s[0].1 > instant {
      x, y := SeenInTurn(s[1..], instant, i, j);
      x, y := x + 1, y + 1;
    } else if i > 0 {
      x, y := SeenInTurn(s[1..], instant, i - 1, j - 1);
      x, y := x + 1, y + 1;
    } else {
      y := SeenAt(s[1..], instant, j - 1);
      x, y := 0, y + 1;
    }
  }

  lemma {:induction false} SeenAt(s: seq<(Id, int)>, instant: int, i: nat) returns (x: nat)
    requires i < |SeenBy(s, instant)|
    ensures x < |s| && s[x].0 == SeenBy(s, instant)[i]
  {
    if s[0].1 > instant {
      x := SeenAt(s[1..], instant, i);
      x := x + 1;
    } else if i > 0 {
      x := SeenAt(s[1..], instant, i - 1);
      x := x + 1;
    } else {
      x := 0;
    }
  }

  /** The requests are listed by arrival, and by identifier where they arrive together. */
  lemma {:induction false} KnownInTurn(day: Day, instant: int, i: nat, j: nat) returns (a: int, b: int)
    requires i < j < |KnownBy(day, instant)|
    ensures var ids := KnownBy(day, instant);
            && (ids[i], a) in day.arrivals && (ids[j], b) in day.arrivals
            && (a < b || (a == b && ids[i] <= ids[j]))
  {
    var s := SortArrivals(day.arrivals);
    SortMembers(day.arrivals);
    SortInTurn(day.arrivals);
    var x, y := SeenInTurn(s, instant, i, j);
    assert s[x] in s && s[y] in s;
    a, b := s[x].1, s[y].1;
  }

  // ------------------------------------------------------------------
  // The day, wave by wave
  // ------------------------------------------------------------------

  /** One wave's record; `start` is the wave's own. Routing cost and vehicle moves are not modelled. */
  datatype Record = Record(index: nat, start: int, dispatched: seq<Id>, postponed: seq<Id>,
                           mustGo: seq<Id>, forced: seq<Id>, delay: int)

  /** The loop's variables. */
  datatype Progress = Progress(records: seq<Record>, carried: seq<Id>, gone: set<Id>, firstSeen: map<Id, int>)

  function Everything(ids: seq<Id>, c: Classification, wave: Epoch): seq<Id> {
    ids
  }

  function Waited(ids: seq<Id>, firstSeen: map<Id, int>, now: int): int {
    if ids == [] then 0
    else Max(now - (if ids[0] in firstSeen then firstSeen[ids[0]] else now), 0) + Waited(ids[1..], firstSeen, now)
  }

  function Noted(firstSeen: map<Id, int>, ids: seq<Id>, now: int): map<Id, int> {
    firstSeen + map id | id in ids :: now
  }

  /** The requests that appear at this wave. */
  function Arriving(day: Day, waves: seq<Epoch>, k: nat, s: Progress): seq<Id>
    requires k < |waves|
  {
    Drop(KnownBy(day, Horizon(waves, k)), s.gone + Elements(s.carried))
  }

  /** A wave looks at what has arrived by its start; the last one sweeps to the end of the day. */
  function Horizon(waves: seq<Epoch>, k: nat): int
    requires k < |waves|
  {
    if k + 1 == |waves| then waves[k].end else waves[k].start
  }

  /** The last wave dispatches everything open, whatever the policy. */
  function PolicyAt(policy: Policy, waves: seq<Epoch>, k: nat): Policy {
    if k + 1 == |waves| then Everything else policy
  }

  function RecordOf(p: Problem, open: seq<Id>, wave: Epoch, d: Dispatch, firstSeen: map<Id, int>): Record
    requires WellFormed(p)
  {
    Record(wave.index, wave.start, d.dispatched, d.postponed, Split(p, open, wave.end).mustGo, d.forced,
           Waited(d.dispatched, firstSeen, wave.start))
  }

  /** One turn of the replayer's loop. */
  function Step(p: Problem, day: Day, policy: Policy, waves: seq<Epoch>, k: nat, s: Progress): Result<Progress>
    requires WellFormed(p) && k < |waves|
  {
    var arrived := Arriving(day, waves, k, s);
    var firstSeen := Noted(s.firstSeen, arrived, waves[k].start);
    var open := s.carried + arrived;
    if open == [] then Success(s.(firstSeen := firstSeen))
    else
      var decision := Decide(p, open, waves[k], PolicyAt(policy, waves, k));
      if decision.Failure? then Failure(decision.reason)
      else
        var d := decision.value;
        Success(Progress(s.records + [RecordOf(p, open, waves[k], d, firstSeen)], d.postponed,
                         s.gone + Elements(d.dispatched), firstSeen))
  }

  const START := Progress([], [], {}, map[])

  /** The state after the first `k` waves. */
  function After(p: Problem, day: Day, policy: Policy, waves: seq<Epoch>, k: nat): Result<Progress>
    requires WellFormed(p) && k <= |waves|
    decreases k
  {
    if k == 0 then Success(START)
    else
      var before := After(p, day, policy, waves, k - 1);
      if before.Failure? then before
      else Step(p, day, policy, waves, k - 1, before.value)
  }

  /** One turn of the loop, as the source runs it. */
  method PlayWave(p: Problem, day: Day, policy: Policy, waves: seq<Epoch>, k: nat, s: Progress)
    returns (r: Result<Progress>)
    requires WellFormed(p) && k < |waves|
    ensures r == Step(p, day, policy, waves, k, s)
  {
    var wave, last := waves[k], k + 1 == |waves|;
    var visible := KnownBy(day, if last then wave.end else wave.start);
    var arrived := Drop(visible, s.gone + Elements(s.carried));
    var firstSeen := Noted(s.firstSeen, arrived, wave.start);
    var open := s.carried + arrived;
    if open == [] {
      return Success(s.(firstSeen := firstSeen));
    }
    var split := Classify(p, open, wave.end);
    if split.Failure? {
      return Failure(split.reason);
    }
    var decision := Decide(p, open, wave, if last then Everything else policy);
    if decision.Failure? {
      return Failure(decision.reason);
    }
    var d := decision.value;
    var waited := Waited(d.dispatched, firstSeen, wave.start);
    var record := Record(wave.index, wave.start, d.dispatched, d.postponed, split.value.mustGo, d.forced, waited);
    return Success(Progress(s.records + [record], d.postponed, s.gone + Elements(d.dispatched), firstSeen));
  }

  /** The records of a whole day under one policy, over the waves of the first vehicle's shift. */
  ghost predicate IsRun(p: Problem, day: Day, policy: Policy, waves: seq<Epoch>, r: Result<seq<Record>>)
    requires WellFormed(p)
  {
    var final := After(p, day, policy, waves, |waves|);
    r.Success? == final.Success? && (r.Success? ==> r.value == final.value.records)
  }

  /** `replay`. */
  method Replay(p: Problem, day: Day, policy: Policy, epochLength: int)
    returns (r: Result<seq<Record>>, ghost waves: seq<Epoch>)
    requires WellFormed(p) && |p.vehicles| > 0
    ensures epochLength <= 0 ==> r.Failure?
    ensures epochLength > 0 ==> Waves(p.vehicles[0].shift, epochLength, waves) && IsRun(p, day, policy, waves, r)
  {
    var planned := Epochs(p.vehicles[0].shift, epochLength);
    if planned.Failure? {
      waves := [];
      return Failure(planned.reason), waves;
    }
    waves := planned.value;
    var state := START;
    for k := 0 to |planned.value|
      invariant After(p, day, policy, waves, k) == Success(state)
    {
      var next := PlayWave(p, day, policy, planned.value, k, state);
      if next.Failure? {
        FailureStays(p, day, policy, waves, k + 1);
        return Failure(next.reason), waves;
      }
      state := next.value;
    }
    return Success(state.records), waves;
  }

  lemma {:induction false} FailureStays(p: Problem, day: Day, policy: Policy, waves: seq<Epoch>, k: nat)
    requires WellFormed(p) && k <= |waves| && After(p, day, policy, waves, k).Failure?
    ensures After(p, day, policy, waves, |waves|).Failure?
    decreases |waves| - k
  {
    if k < |waves| {
      FailureStays(p, day, policy, waves, k + 1);
    }
  }

  // ------------------------------------------------------------------
  // What every wave keeps
  // ------------------------------------------------------------------

  function AllDispatched(records: seq<Record>): seq<Id> {
    if records == [] then []
    else AllDispatched(records[..|records| - 1]) + records[|records| - 1].dispatched
  }

  /** `Run.delay`. */
  function Delay(records: seq<Record>): int {
    if records == [] then 0
    else Delay(records[..|records| - 1]) + records[|records| - 1].delay
  }

  function Postponements(records: seq<Record>): nat {
    if records == [] then 0
    else Postponements(records[..|records| - 1]) + |records[|records| - 1].postponed|
  }

  /** What the carried orders have waited so far, seen from `now`. */
  function Owed(ids: seq<Id>, firstSeen: map<Id, int>, now: int): int {
    if ids == [] then 0
    else now - (if ids[0] in firstSeen then firstSeen[ids[0]] else now) + Owed(ids[1..], firstSeen, now)
  }

  /** The next wave's start, or the nominal one after the last. */
  function NextStart(horizon: TimeWindow, length: int, k: nat): int {
    horizon.start + k * length
  }

  /** When the state after `k` waves has looked at arrivals up to. */
  ghost predicate SeenSoFar(day: Day, waves: seq<Epoch>, k: nat, id: Id)
    requires k <= |waves|
  {
    k > 0 && Arrived(day, id, Horizon(waves, k - 1))
  }

  ghost predicate Books(day: Day, waves: seq<Epoch>, k: nat, s: Progress)
    requires k <= |waves|
  {
    && NoRepeats(s.carried) && NoRepeats(AllDispatched(s.records))
    && s.gone == Elements(AllDispatched(s.records))
    && (forall id :: id in s.carried ==> id !in s.gone)
    && (forall id :: id in s.carried || id in s.gone <==> SeenSoFar(day, waves, k, id))
  }

  ghost predicate Clocked(horizon: TimeWindow, length: int, k: nat, s: Progress) {
    && (forall id :: id in s.carried ==> id in s.firstSeen && s.firstSeen[id] <= NextStart(horizon, length, k))
    && Delay(s.records) + Owed(s.carried, s.firstSeen, NextStart(horizon, length, k))
       == length * Postponements(s.records)
  }

  lemma {:induction false} JoinDistinct(a: seq<Id>, b: seq<Id>)
    requires NoRepeats(a) && NoRepeats(b) && forall id :: id in a ==> id !in b
    ensures NoRepeats(a + b)
    ensures forall id :: id in a + b <==> id in a || id in b
  {
    forall i, j | 0 <= i < j < |a + b|
      ensures (a + b)[i] != (a + b)[j]
    {
      if i < |a| <= j {
        assert (a + b)[i] in a && (a + b)[j] in b;
      }
    }
  }

  /** What is open at a wave: carried and newly visible orders, each once, none gone. */
  ghost predicate OpenAt(day: Day, waves: seq<Epoch>, k: nat, s: Progress, open: seq<Id>)
    requires k < |waves|
  {
    && NoRepeats(open)
    && (forall id :: id in open ==> id !in s.gone)
    && (forall id :: id in open || id in s.gone <==> SeenSoFar(day, waves, k + 1, id))
  }

  lemma {:induction false} SeenLater(day: Day, horizon: TimeWindow, length: int, waves: seq<Epoch>, k: nat, id: Id)
    requires Waves(horizon, length, waves) && k < |waves| && SeenSoFar(day, waves, k, id)
    ensures SeenSoFar(day, waves, k + 1, id)
  {
    WavesTile(horizon, length, waves, k - 1);
    WavesTile(horizon, length, waves, k);
    ListedLater(day.arrivals, id, Horizon(waves, k - 1), Horizon(waves, k));
  }

  lemma {:induction false} OpenMeans(day: Day, horizon: TimeWindow, length: int, waves: seq<Epoch>, k: nat, s: Progress)
    requires Waves(horizon, length, waves) && DistinctArrivals(day) && k < |waves| && Books(day, waves, k, s)
    ensures var arrived := Arriving(day, waves, k, s);
            && OpenAt(day, waves, k, s, s.carried + arrived)
            && (forall id :: id in arrived ==> id !in s.carried && id !in s.gone)
  {
    var now := Horizon(waves, k);
    var known, out := KnownBy(day, now), s.gone + Elements(s.carried);
    KnownByMeans(day, now);
    KeepDropMembers(known, out);
    KeepDropDistinct(known, out);
    var arrived := Arriving(day, waves, k, s);
    JoinDistinct(s.carried, arrived);
    forall id
      ensures id in s.carried + arrived || id in s.gone <==> SeenSoFar(day, waves, k + 1, id)
    {
      assert SeenSoFar(day, waves, k + 1, id) <==> id in known;
      if SeenSoFar(day, waves, k, id) {
        SeenLater(day, horizon, length, waves, k, id);
      }
    }
  }

  lemma {:induction false} ListedLater(s: seq<(Id, int)>, id: Id, early: int, late: int)
    requires early <= late && Listed(s, id, early)
    ensures Listed(s, id, late)
  {
    var k :| 0 <= k < |s| && s[k].0 == id && s[k].1 <= early;
  }

  /** What a wave with open work does to the state. */
  lemma {:induction false} StepMeans(p: Problem, day: Day, policy: Policy, waves: seq<Epoch>, k: nat, s: Progress,
                                     next: Progress) returns (d: Dispatch)
    requires WellFormed(p) && k < |waves| && Step(p, day, policy, waves, k, s) == Success(next)
    requires s.carried + Arriving(day, waves, k, s) != []
    ensures var arrived := Arriving(day, waves, k, s);
            var open := s.carried + arrived;
            && Decide(p, open, waves[k], PolicyAt(policy, waves, k)) == Success(d)
            && next.carried == d.postponed && next.gone == s.gone + Elements(d.dispatched)
            && next.firstSeen == Noted(s.firstSeen, arrived, waves[k].start)
            && next.records == s.records + [RecordOf(p, open, waves[k], d, next.firstSeen)]
            && AllDispatched(next.records) == AllDispatched(s.records) + d.dispatched
            && Delay(next.records) == Delay(s.records) + Waited(d.dispatched, next.firstSeen, waves[k].start)
            && Postponements(next.records) == Postponements(s.records) + |d.postponed|
  {
    var open := s.carried + Arriving(day, waves, k, s);
    d := Decide(p, open, waves[k], PolicyAt(policy, waves, k)).value;
    assert next.records[..|next.records| - 1] == s.records;
  }

  /** A wave with nothing open changes nothing. */
  lemma {:induction false} IdleStep(p: Problem, day: Day, policy: Policy, waves: seq<Epoch>, k: nat, s: Progress,
                                    next: Progress)
    requires WellFormed(p) && k < |waves| && Step(p, day, policy, waves, k, s) == Success(next)
    requires s.carried + Arriving(day, waves, k, s) == []
    ensures next == s && s.carried == []
  {
    assert Arriving(day, waves, k, s) == [];
  }

  lemma {:induction false} BooksStep(day: Day, waves: seq<Epoch>, k: nat, s: Progress, open: seq<Id>,
                                     going: seq<Id>, waiting: seq<Id>, next: Progress)
    requires k < |waves| && Books(day, waves, k, s) && OpenAt(day, waves, k, s, open)
    requires Partitions(open, going, waiting)
    requires next.carried == waiting && next.gone == s.gone + Elements(going)
    requires AllDispatched(next.records) == AllDispatched(s.records) + going
    ensures Books(day, waves, k + 1, next)
  {
    forall id | id in AllDispatched(s.records)
      ensures id !in going
    {
      assert id in s.gone;
    }
    JoinDistinct(AllDispatched(s.records), going);
    assert Elements(AllDispatched(next.records)) == Elements(AllDispatched(s.records)) + Elements(going);
  }

  /** The last wave's policy leaves nothing behind. */
  lemma {:induction false} EverythingGoes(p: Problem, open: seq<Id>, wave: Epoch)
    requires WellFormed(p) && NoRepeats(open) && Decide(p, open, wave, Everything).Success?
    ensures Decide(p, open, wave, Everything).value.postponed == []
  {
    var d := Decide(p, open, wave, Everything).value;
    DecideMeans(p, open, wave, Everything);
    if d.postponed != [] {
      HasMember(d.postponed);
    }
  }

  lemma {:induction false} BooksKept(p: Problem, day: Day, policy: Policy, horizon: TimeWindow, length: int,
                                     waves: seq<Epoch>, k: nat, s: Progress, next: Progress)
    requires WellFormed(p) && Waves(horizon, length, waves) && DistinctArrivals(day)
    requires k < |waves| && Books(day, waves, k, s)
    requires Step(p, day, policy, waves, k, s) == Success(next)
    ensures Books(day, waves, k + 1, next) && (k + 1 == |waves| ==> next.carried == [])
  {
    var open := s.carried + Arriving(day, waves, k, s);
    OpenMeans(day, horizon, length, waves, k, s);
    if open != [] {
      var d := StepMeans(p, day, policy, waves, k, s, next);
      DecideMeans(p, open, waves[k], PolicyAt(policy, waves, k));
      BooksStep(day, waves, k, s, open, d.dispatched, d.postponed, next);
      if k + 1 == |waves| {
        EverythingGoes(p, open, waves[k]);
      }
    }
  }

  /** A state after a wave comes from one before it by that wave's step. */
  lemma {:induction false} AfterStep(p: Problem, day: Day, policy: Policy, waves: seq<Epoch>, k: nat)
    returns (s: Progress, next: Progress)
    requires WellFormed(p) && k < |waves| && After(p, day, policy, waves, k + 1).Success?
    ensures After(p, day, policy, waves, k) == Success(s) && After(p, day, policy, waves, k + 1) == Success(next)
    ensures Step(p, day, policy, waves, k, s) == Success(next)
  {
    s := After(p, day, policy, waves, k).value;
    next := After(p, day, policy, waves, k + 1).value;
  }

  ghost predicate BooksOk(day: Day, waves: seq<Epoch>, k: nat, r: Result<Progress>)
    requires k <= |waves|
  {
    r.Success? ==> Books(day, waves, k, r.value) && (k == |waves| > 0 ==> r.value.carried == [])
  }

  /** Every wave keeps the books: what has arrived is gone once or is carried. */
  lemma {:induction false} BooksAlways(p: Problem, day: Day, policy: Policy, horizon: TimeWindow, length: int,
                                       waves: seq<Epoch>, k: nat)
    requires WellFormed(p) && Waves(horizon, length, waves) && DistinctArrivals(day) && k <= |waves|
    ensures BooksOk(day, waves, k, After(p, day, policy, waves, k))
    decreases k
  {
    hide Step;
    if k > 0 {
      BooksAlways(p, day, policy, horizon, length, waves, k - 1);
      if After(p, day, policy, waves, k).Success? {
        var s, next := AfterStep(p, day, policy, waves, k - 1);
        BooksKept(p, day, policy, horizon, length, waves, k - 1, s, next);
      }
    }
  }

  /** A day dispatches each order that arrives by its end exactly once, and nothing else,
      for every policy. */
  lemma {:induction false} DispatchedExactlyOnce(p: Problem, day: Day, policy: Policy, horizon: TimeWindow,
                                                 length: int, waves: seq<Epoch>, records: seq<Record>)
    requires WellFormed(p) && Waves(horizon, length, waves) && |waves| > 0 && DistinctArrivals(day)
    requires IsRun(p, day, policy, waves, Success(records))
    ensures NoRepeats(AllDispatched(records))
    ensures forall id :: id in AllDispatched(records) <==> Arrived(day, id, horizon.end)
  {
    BooksAlways(p, day, policy, horizon, length, waves, |waves|);
    WavesTile(horizon, length, waves, |waves| - 1);
    var final := After(p, day, policy, waves, |waves|).value;
    forall id
      ensures id in AllDispatched(records) <==> Arrived(day, id, horizon.end)
    {
      assert id in final.gone <==> SeenSoFar(day, waves, |waves|, id);
    }
  }

  // ------------------------------------------------------------------
  // Delay
  // ------------------------------------------------------------------

  lemma {:induction false} OwedAppends(a: seq<Id>, b: seq<Id>, firstSeen: map<Id, int>, now: int)
    ensures Owed(a + b, firstSeen, now) == Owed(a, firstSeen, now) + Owed(b, firstSeen, now)
  {
    if a == [] {
      assert a + b == b;
    } else {
      OwedAppends(a[1..], b, firstSeen, now);
      assert (a + b)[1..] == a[1..] + b;
    }
  }

  lemma {:induction false} OwedSplits(ids: seq<Id>, s: set<Id>, firstSeen: map<Id, int>, now: int)
    ensures Owed(ids, firstSeen, now) == Owed(Keep(ids, s), firstSeen, now) + Owed(Drop(ids, s), firstSeen, now)
  {
    if ids != [] {
      OwedSplits(ids[1..], s, firstSeen, now);
    }
  }

  /** Orders first seen now owe nothing; noting them changes nobody else's debt. */
  lemma {:induction false} OwedNoted(ids: seq<Id>, firstSeen: map<Id, int>, arrived: seq<Id>, now: int)
    requires forall id :: id in ids ==> id in firstSeen
    requires forall id :: id in ids ==> id !in arrived
    ensures Owed(ids, Noted(firstSeen, arrived, now), now) == Owed(ids, firstSeen, now)
  {
    if ids != [] {
      OwedNoted(ids[1..], firstSeen, arrived, now);
    }
  }

  lemma {:induction false} OwedFresh(ids: seq<Id>, firstSeen: map<Id, int>, arrived: seq<Id>, now: int)
    requires forall id :: id in ids ==> id in arrived
    ensures Owed(ids, Noted(firstSeen, arrived, now), now) == 0
  {
    if ids != [] {
      OwedFresh(ids[1..], firstSeen, arrived, now);
    }
  }

  lemma {:induction false} OwedLater(ids: seq<Id>, firstSeen: map<Id, int>, now: int, length: int)
    requires forall id :: id in ids ==> id in firstSeen
    ensures Owed(ids, firstSeen, now + length) == Owed(ids, firstSeen, now) + length * |ids|
  {
    if ids != [] {
      OwedLater(ids[1..], firstSeen, now, length);
      assert length * |ids| == length * |ids[1..]| + length;
    }
  }

  lemma {:induction false} WaitedIsOwed(ids: seq<Id>, firstSeen: map<Id, int>, now: int)
    requires forall id :: id in ids ==> id in firstSeen && firstSeen[id] <= now
    ensures Waited(ids, firstSeen, now) == Owed(ids, firstSeen, now)
  {
    if ids != [] {
      WaitedIsOwed(ids[1..], firstSeen, now);
    }
  }

  /** The dispatched orders' delay and the held orders' debt add up to the open orders' debt. */
  lemma {:induction false} DecisionSplitsDebt(p: Problem, open: seq<Id>, wave: Epoch, policy: Policy,
                                              firstSeen: map<Id, int>)
    requires WellFormed(p) && NoRepeats(open) && Decide(p, open, wave, policy).Success?
    requires forall id :: id in open ==> id in firstSeen && firstSeen[id] <= wave.start
    ensures var d := Decide(p, open, wave, policy).value;
            Waited(d.dispatched, firstSeen, wave.start) + Owed(d.postponed, firstSeen, wave.start)
            == Owed(open, firstSeen, wave.start)
  {
    var d := Decide(p, open, wave, policy).value;
    DecideMeans(p, open, wave, policy);
    var split := Split(p, open, wave.end);
    var going := Elements(policy(open, split, wave));
    var all := going + Elements(Drop(split.mustGo, going));
    OwedSplits(open, all, firstSeen, wave.start);
    KeepDropMembers(open, all);
    SameDrop(open, all, Elements(d.dispatched));
    WaitedIsOwed(d.dispatched, firstSeen, wave.start);
  }

  lemma {:induction false} SameDrop(ids: seq<Id>, s: set<Id>, t: set<Id>)
    requires forall id :: id in ids ==> (id in s <==> id in t)
    ensures Drop(ids, s) == Drop(ids, t)
  {
    if ids != [] {
      SameDrop(ids[1..], s, t);
    }
  }

  /** The open orders' debt at a wave: what the carried ones already owed. */
  lemma {:induction false} OpenDebt(s: Progress, arrived: seq<Id>, now: int)
    requires forall id :: id in s.carried ==> id in s.firstSeen && s.firstSeen[id] <= now && id !in arrived
    ensures var firstSeen := Noted(s.firstSeen, arrived, now);
            && Owed(s.carried + arrived, firstSeen, now) == Owed(s.carried, s.firstSeen, now)
            && (forall id :: id in s.carried + arrived ==> id in firstSeen && firstSeen[id] <= now)
  {
    var firstSeen := Noted(s.firstSeen, arrived, now);
    OwedAppends(s.carried, arrived, firstSeen, now);
    OwedNoted(s.carried, s.firstSeen, arrived, now);
    OwedFresh(arrived, s.firstSeen, arrived, now);
  }

  /** One more wave of waiting for each order held: the debt grows as the count of postponements does. */
  lemma {:induction false} ClockedStep(length: int, now: int, s: Progress, d: Dispatch, next: Progress)
    requires Delay(s.records) + Owed(s.carried, s.firstSeen, now) == length * Postponements(s.records)
    requires Waited(d.dispatched, next.firstSeen, now) + Owed(d.postponed, next.firstSeen, now)
          == Owed(s.carried, s.firstSeen, now)
    requires Delay(next.records) == Delay(s.records) + Waited(d.dispatched, next.firstSeen, now)
    requires Postponements(next.records) == Postponements(s.records) + |d.postponed|
    requires forall id :: id in d.postponed ==> id in next.firstSeen
    ensures Delay(next.records) + Owed(d.postponed, next.firstSeen, now + length)
         == length * Postponements(next.records)
  {
    OwedLater(d.postponed, next.firstSeen, now, length);
    assert length * (Postponements(s.records) + |d.postponed|)
        == length * Postponements(s.records) + length * |d.postponed|;
  }

  lemma {:induction false} NextStartSteps(horizon: TimeWindow, length: int, waves: seq<Epoch>, k: nat)
    requires Waves(horizon, length, waves) && k < |waves|
    ensures NextStart(horizon, length, k) == waves[k].start
    ensures NextStart(horizon, length, k + 1) == waves[k].start + length > waves[k].start
  {
    assert (k + 1) * length == k * length + length;
  }

  lemma {:induction false} NoDebt(firstSeen: map<Id, int>, now: int, length: int)
    ensures Owed([], firstSeen, now) == Owed([], firstSeen, now + length) == 0
  {
  }

  lemma {:induction false} ClockedKept(p: Problem, day: Day, policy: Policy, horizon: TimeWindow, length: int,
                                       waves: seq<Epoch>, k: nat, s: Progress, next: Progress)
    requires WellFormed(p) && Waves(horizon, length, waves) && DistinctArrivals(day)
    requires k < |waves| && Books(day, waves, k, s) && Clocked(horizon, length, k, s)
    requires Step(p, day, policy, waves, k, s) == Success(next)
    ensures Clocked(horizon, length, k + 1, next)
  {
    hide Step, Decide, Split, Arriving, Noted, Waited, Owed, RecordOf, Books, Waves;
    var wave, arrived, choice := waves[k], Arriving(day, waves, k, s), PolicyAt(policy, waves, k);
    var open := s.carried + arrived;
    NextStartSteps(horizon, length, waves, k);
    OpenMeans(day, horizon, length, waves, k, s);
    OpenDebt(s, arrived, wave.start);
    if open != [] {
      var d := StepMeans(p, day, policy, waves, k, s, next);
      DecisionSplitsDebt(p, open, wave, choice, next.firstSeen);
      DecideMeans(p, open, wave, choice);
      ClockedStep(length, wave.start, s, d, next);
    } else {
      IdleStep(p, day, policy, waves, k, s, next);
      NoDebt(s.firstSeen, wave.start, length);
    }
  }

  ghost predicate ClockedOk(horizon: TimeWindow, length: int, k: nat, r: Result<Progress>) {
    r.Success? ==> Clocked(horizon, length, k, r.value)
  }

  lemma {:induction false} ClockedAlways(p: Problem, day: Day, policy: Policy, horizon: TimeWindow, length: int,
                                         waves: seq<Epoch>, k: nat)
    requires WellFormed(p) && Waves(horizon, length, waves) && DistinctArrivals(day) && k <= |waves|
    ensures ClockedOk(horizon, length, k, After(p, day, policy, waves, k))
    decreases k
  {
    hide Step;
    if k > 0 {
      BooksAlways(p, day, policy, horizon, length, waves, k - 1);
      ClockedAlways(p, day, policy, horizon, length, waves, k - 1);
      if After(p, day, policy, waves, k).Success? {
        var s, next := AfterStep(p, day, policy, waves, k - 1);
        ClockedKept(p, day, policy, horizon, length, waves, k - 1, s, next);
      }
    }
  }

  /** A day's delay is one epoch length for every postponement of every order. */
  lemma {:induction false} DelayCountsPostponements(p: Problem, day: Day, policy: Policy, horizon: TimeWindow,
                                                    length: int, waves: seq<Epoch>, records: seq<Record>)
    requires WellFormed(p) && Waves(horizon, length, waves) && |waves| > 0 && DistinctArrivals(day)
    requires IsRun(p, day, policy, waves, Success(records))
    ensures Delay(records) == length * Postponements(records)
  {
    BooksAlways(p, day, policy, horizon, length, waves, |waves|);
    ClockedAlways(p, day, policy, horizon, length, waves, |waves|);
  }

  // ------------------------------------------------------------------
  // Postponement is safe
  // ------------------------------------------------------------------

  /** Some vehicle leaving no earlier than `start` still reaches the order inside a hard window
      (or it has none). */
  ghost predicate StillReachable(p: Problem, id: Id, start: int)
    requires WellFormed(p)
  {
    var o := OrderOf(p.orders, id);
    o.Some? && exists v :: v in p.vehicles && Reaches(p, o.value, v, start)
  }

  /** AC-3.1 in one record: must-go work went, the work held was not must-go, and what was
      forced was must-go. */
  ghost predicate Honoured(p: Problem, waves: seq<Epoch>, r: Record)
    requires WellFormed(p)
  {
    && r.index < |waves| && r.start == waves[r.index].start
    && (forall id :: id in r.mustGo ==> MustGo(p, id, waves[r.index].end) && id in r.dispatched)
    && (forall id :: id in r.postponed ==> !MustGo(p, id, waves[r.index].end))
    && (forall id :: id in r.forced ==> id in r.mustGo)
  }

  ghost predicate HeldSafely(p: Problem, earlier: Record, later: Record)
    requires WellFormed(p)
  {
    forall id :: id in earlier.postponed && id in later.dispatched ==> StillReachable(p, id, later.start)
  }

  ghost predicate AllHonoured(p: Problem, waves: seq<Epoch>, records: seq<Record>)
    requires WellFormed(p)
  {
    && (forall r :: r in records ==> Honoured(p, waves, r))
    && (forall i, j :: 0 <= i < j < |records| ==> HeldSafely(p, records[i], records[j]))
  }

  ghost predicate Reserved(p: Problem, s: Progress, nextStart: int)
    requires WellFormed(p)
  {
    && (forall id :: id in s.carried ==> StillReachable(p, id, nextStart))
    && (forall r, id :: r in s.records && id in r.postponed ==> id in s.carried || id in s.gone)
  }

  lemma {:induction false} NotMustGo(p: Problem, id: Id, start: int)
    requires WellFormed(p) && OrderOf(p.orders, id).Some? && !MustGo(p, id, start)
    ensures StillReachable(p, id, start)
  {
  }

  /** What one wave's decision leaves behind it. */
  lemma {:induction false} DecisionHonoured(p: Problem, waves: seq<Epoch>, k: nat, open: seq<Id>, policy: Policy,
                                            firstSeen: map<Id, int>)
    requires WellFormed(p) && NoRepeats(open) && k < |waves| && waves[k].index == k
    requires Decide(p, open, waves[k], policy).Success?
    ensures var d := Decide(p, open, waves[k], policy).value;
            && Honoured(p, waves, RecordOf(p, open, waves[k], d, firstSeen))
            && (forall id :: id in d.postponed ==> StillReachable(p, id, waves[k].end))
  {
    var d := Decide(p, open, waves[k], policy).value;
    DecideMeans(p, open, waves[k], policy);
    SplitMembers(p, open, waves[k].end);
    assert AllKnown(p, open);
    forall id | id in d.postponed
      ensures StillReachable(p, id, waves[k].end)
    {
      NotMustGo(p, id, waves[k].end);
    }
  }

  lemma {:induction false} HonouredAppends(p: Problem, waves: seq<Epoch>, s: Progress, start: int, open: seq<Id>,
                                           r: Record)
    requires WellFormed(p) && AllHonoured(p, waves, s.records) && Reserved(p, s, start)
    requires Honoured(p, waves, r) && r.start == start
    requires forall id :: id in r.dispatched ==> id in open
    requires forall id :: id in open ==> id !in s.gone
    ensures AllHonoured(p, waves, s.records + [r])
  {
    var all := s.records + [r];
    forall i, j | 0 <= i < j < |all|
      ensures HeldSafely(p, all[i], all[j])
    {
      if j == |s.records| {
        assert all[i] in s.records;
      }
    }
  }

  lemma {:induction false} ReservedStep(p: Problem, s: Progress, next: Progress, start: int, end: int, open: seq<Id>,
                                        r: Record)
    requires WellFormed(p) && Reserved(p, s, start)
    requires forall id :: id in s.carried ==> id in open
    requires forall id :: id in open ==> id in r.dispatched || id in r.postponed
    requires forall id :: id in r.postponed ==> StillReachable(p, id, end)
    requires next.records == s.records + [r] && next.carried == r.postponed
    requires next.gone == s.gone + Elements(r.dispatched)
    ensures Reserved(p, next, end)
  {
  }

  ghost predicate ReservedOk(p: Problem, waves: seq<Epoch>, k: nat, s: Progress)
    requires WellFormed(p) && k <= |waves|
  {
    AllHonoured(p, waves, s.records) && (k < |waves| ==> Reserved(p, s, waves[k].start))
  }

  lemma {:induction false} ReservedKept(p: Problem, day: Day, policy: Policy, horizon: TimeWindow, length: int,
                                        waves: seq<Epoch>, k: nat, s: Progress, next: Progress)
    requires WellFormed(p) && Waves(horizon, length, waves) && DistinctArrivals(day)
    requires k < |waves| && Books(day, waves, k, s) && ReservedOk(p, waves, k, s)
    requires Step(p, day, policy, waves, k, s) == Success(next)
    ensures ReservedOk(p, waves, k + 1, next)
  {
    hide Step, Decide, Split, Arriving, Noted, StillReachable, Honoured, AllHonoured, Reserved, MustGo;
    var open, choice := s.carried + Arriving(day, waves, k, s), PolicyAt(policy, waves, k);
    OpenMeans(day, horizon, length, waves, k, s);
    WavesTile(horizon, length, waves, k);
    if open != [] {
      var d := StepMeans(p, day, policy, waves, k, s, next);
      var r := RecordOf(p, open, waves[k], d, next.firstSeen);
      DecideMeans(p, open, waves[k], choice);
      DecisionHonoured(p, waves, k, open, choice, next.firstSeen);
      HonouredAppends(p, waves, s, waves[k].start, open, r);
      ReservedStep(p, s, next, waves[k].start, waves[k].end, open, r);
    } else {
      IdleStep(p, day, policy, waves, k, s, next);
      ReservedIdle(p, s, waves[k].start, waves[k].end);
    }
  }

  lemma {:induction false} ReservedIdle(p: Problem, s: Progress, start: int, end: int)
    requires WellFormed(p) && Reserved(p, s, start) && s.carried == []
    ensures Reserved(p, s, end)
  {
  }

  ghost predicate HonouredSoFar(p: Problem, waves: seq<Epoch>, k: nat, r: Result<Progress>)
    requires WellFormed(p) && k <= |waves|
  {
    r.Success? ==> ReservedOk(p, waves, k, r.value)
  }

  lemma {:induction false} HonouredAlways(p: Problem, day: Day, policy: Policy, horizon: TimeWindow, length: int,
                                          waves: seq<Epoch>, k: nat)
    requires WellFormed(p) && Waves(horizon, length, waves) && DistinctArrivals(day) && k <= |waves|
    ensures HonouredSoFar(p, waves, k, After(p, day, policy, waves, k))
    decreases k
  {
    hide Step;
    if k > 0 {
      BooksAlways(p, day, policy, horizon, length, waves, k - 1);
      HonouredAlways(p, day, policy, horizon, length, waves, k - 1);
      if After(p, day, policy, waves, k).Success? {
        var s, next := AfterStep(p, day, policy, waves, k - 1);
        ReservedKept(p, day, policy, horizon, length, waves, k - 1, s, next);
      }
    }
  }

  /** Over any day and any policy: no must-go order is ever held, and an order held at one
      wave and dispatched at a later one can still be reached by some vehicle leaving then. */
  lemma {:induction false} PostponementIsSafe(p: Problem, day: Day, policy: Policy, horizon: TimeWindow, length: int,
                                              waves: seq<Epoch>, records: seq<Record>)
    requires WellFormed(p) && Waves(horizon, length, waves) && DistinctArrivals(day)
    requires IsRun(p, day, policy, waves, Success(records))
    ensures AllHonoured(p, waves, records)
  {
    HonouredAlways(p, day, policy, horizon, length, waves, |waves|);
  }

  // ------------------------------------------------------------------
  // When a replay finishes
  // ------------------------------------------------------------------

  /** A policy that only ever names open orders. */
  ghost predicate Honest(policy: Policy) {
    forall open: seq<Id>, c: Classification, wave: Epoch, id: Id :: id in policy(open, c, wave) ==> id in open
  }

  ghost predicate OrdersExist(p: Problem, day: Day) {
    forall k :: 0 <= k < |day.arrivals| ==> OrderOf(p.orders, day.arrivals[k].0).Some?
  }

  lemma {:induction false} HonestStep(p: Problem, day: Day, policy: Policy, horizon: TimeWindow, length: int,
                                      waves: seq<Epoch>, k: nat, s: Progress)
    requires WellFormed(p) && Waves(horizon, length, waves) && DistinctArrivals(day) && OrdersExist(p, day)
    requires k < |waves| && Books(day, waves, k, s) && Honest(policy)
    ensures Step(p, day, policy, waves, k, s).Success?
  {
    var open, choice := s.carried + Arriving(day, waves, k, s), PolicyAt(policy, waves, k);
    OpenMeans(day, horizon, length, waves, k, s);
    forall id | id in open
      ensures OrderOf(p.orders, id).Some?
    {
      assert SeenSoFar(day, waves, k + 1, id);
    }
    assert AllKnown(p, open);
    assert Honest(choice);
  }

  lemma {:induction false} HonestSoFar(p: Problem, day: Day, policy: Policy, horizon: TimeWindow, length: int,
                                       waves: seq<Epoch>, k: nat)
    requires WellFormed(p) && Waves(horizon, length, waves) && DistinctArrivals(day) && OrdersExist(p, day)
    requires k <= |waves| && Honest(policy)
    ensures After(p, day, policy, waves, k).Success?
    decreases k
  {
    hide Step;
    if k > 0 {
      HonestSoFar(p, day, policy, horizon, length, waves, k - 1);
      BooksAlways(p, day, policy, horizon, length, waves, k - 1);
      HonestStep(p, day, policy, horizon, length, waves, k - 1, After(p, day, policy, waves, k - 1).value);
    }
  }

  /** A replay over known orders finishes whenever the policy names only open orders. */
  lemma {:induction false} HonestSucceeds(p: Problem, day: Day, policy: Policy, horizon: TimeWindow, length: int,
                                          waves: seq<Epoch>, r: Result<seq<Record>>)
    requires WellFormed(p) && Waves(horizon, length, waves) && DistinctArrivals(day) && OrdersExist(p, day)
    requires Honest(policy) && IsRun(p, day, policy, waves, r)
    ensures r.Success?
  {
    HonestSoFar(p, day, policy, horizon, length, waves, |waves|);
  }
}
