/** Irreducible lock conflicts (vrp/locks.py): which of the operator's locks, together,
    leave some order without a vehicle or the fleet without a van. */
module Locks {
  import opened Common
  import opened Model
  import opened Diagnose

  /** `_deployable`: is any vehicle left to send out at all? */
  predicate Deployable(p: Problem) {
    Forbidden(p.locks) == {} || exists v :: v in p.vehicles && v.id !in Forbidden(p.locks)
  }

  ghost predicate Feasible(p: Problem)
    requires Sound(p)
  {
    Deployable(p) && forall o :: o in p.orders ==> Verdict(p, o).None?
  }

  /** No lock keeps the vehicle in the yard. */
  ghost predicate Sent(locks: seq<Lock>, v: Vehicle) {
    forall l :: l in locks ==> l.kind != ForbidDeploy(v.id)
  }

  lemma {:induction false} NoneForbidden(locks: seq<Lock>)
    ensures Forbidden(locks) == {} <==> forall l :: l in locks ==> !l.kind.ForbidDeploy?
  {
    forall l | l in locks && l.kind.ForbidDeploy?
      ensures l.kind.vehicle in Forbidden(locks)
    {
    }
  }

  /** `is_feasible_under_locks`: no finding, and a vehicle left to send out when any is kept in. */
  method IsFeasibleUnderLocks(p: Problem) returns (feasible: bool)
    requires Sound(p) && DistinctOrders(p.orders)
    ensures feasible == Feasible(p)
    ensures feasible <==>
              (&& (forall o :: o in p.orders ==> Verdict(p, o).None?)
               && ((exists v :: v in p.vehicles && Sent(p.locks, v)) || forall l :: l in p.locks ==> !l.kind.ForbidDeploy?))
  {
    assert forall v :: v in p.vehicles ==> (Sent(p.locks, v) <==> v.id !in Forbidden(p.locks));
    assert (forall l :: l in p.locks ==> !l.kind.ForbidDeploy?) <==> Forbidden(p.locks) == {} by {
      NoneForbidden(p.locks);
    }
    if !Deployable(p) {
      return false;
    }
    var findings := Preflight(p);
    feasible := |findings| == 0;
    assert feasible ==> findings == map[];
    if !feasible {
      var id :| id in findings;
      var o :| o in p.orders && o.id == id;
      assert Verdict(p, o).Some?;
    }
  }

  ghost predicate FeasibleUnder(p: Problem, locks: seq<Lock>)
    requires Sound(p)
  {
    Feasible(WithLocks(p, locks))
  }

  /** The checks read no speed profile, so losing them changes no answer. */
  lemma {:induction false} FeasibleAsItIs(p: Problem)
    requires Sound(p)
    ensures FeasibleUnder(p, p.locks) == Feasible(p)
  {
    hide Servable, Verdict;
    var q := WithLocks(p, p.locks);
    forall o | o in p.orders
      ensures Verdict(p, o).None? <==> Verdict(q, o).None?
    {
      VerdictMeans(p, o);
      VerdictMeans(q, o);
      SameServable(p, o);
    }
  }

  lemma {:induction false} FewerLocksDeploy(p: Problem, few: seq<Lock>, many: seq<Lock>)
    requires forall l :: l in few ==> l in many
    requires Deployable(WithLocks(p, many))
    ensures Deployable(WithLocks(p, few))
  {
    assert Forbidden(few) <= Forbidden(many);
  }

  /** Dropping locks never makes an instance infeasible. */
  lemma {:induction false} FewerLocksFeasible(p: Problem, few: seq<Lock>, many: seq<Lock>)
    requires Sound(p)
    requires forall l :: l in few ==> l in many
    requires FeasibleUnder(p, many)
    ensures FeasibleUnder(p, few)
  {
    hide Servable, Verdict, Deployable;
    FewerLocksDeploy(p, few, many);
    forall o | o in p.orders
      ensures Verdict(WithLocks(p, few), o).None?
    {
      VerdictMeans(WithLocks(p, many), o);
      FewerLocksServe(p, o, few, many);
      VerdictMeans(WithLocks(p, few), o);
    }
  }

  /** The locks that are not this object. */
  function Except(locks: seq<Lock>, self: nat): seq<Lock> {
    if locks == [] then []
    else if locks[0].self == self then Except(locks[1..], self)
    else [locks[0]] + Except(locks[1..], self)
  }

  lemma {:induction false} ExceptMembers(locks: seq<Lock>, self: nat)
    ensures forall l :: l in Except(locks, self) <==> l in locks && l.self != self
  {
    if locks != [] {
      ExceptMembers(locks[1..], self);
      assert locks == [locks[0]] + locks[1..];
    }
  }

  /** Broken as it stands, whole again without any one of its locks. */
  ghost predicate Irreducible(p: Problem, locks: seq<Lock>)
    requires Sound(p)
  {
    && !FeasibleUnder(p, locks)
    && forall l :: l in locks ==> FeasibleUnder(p, Except(locks, l.self))
  }

  /** What the filter has settled: every candidate among the locks already tried is needed. */
  ghost predicate Filtered(p: Problem, tried: seq<Lock>, candidates: seq<Lock>)
    requires Sound(p)
  {
    && !FeasibleUnder(p, candidates)
    && (forall l :: l in candidates ==> l in p.locks)
    && forall l :: l in tried && l in candidates ==> FeasibleUnder(p, Except(candidates, l.self))
  }

  lemma {:induction false} FilterStep(p: Problem, tried: seq<Lock>, lock: Lock, candidates: seq<Lock>)
    requires Sound(p) && Filtered(p, tried, candidates)
    ensures var without := Except(candidates, lock.self);
            Filtered(p, tried + [lock], if FeasibleUnder(p, without) then candidates else without)
  {
    hide FeasibleUnder;
    var without := Except(candidates, lock.self);
    ExceptMembers(candidates, lock.self);
    if !FeasibleUnder(p, without) {
      forall l | l in tried + [lock] && l in without
        ensures FeasibleUnder(p, Except(without, l.self))
      {
        ExceptMembers(without, l.self);
        ExceptMembers(candidates, l.self);
        FewerLocksFeasible(p, Except(without, l.self), Except(candidates, l.self));
      }
    }
  }

  /** The deletion filter on its own, from every lock. */
  method DeletionFilter(p: Problem) returns (candidates: seq<Lock>)
    requires Sound(p) && DistinctOrders(p.orders) && !Feasible(p)
    ensures Irreducible(p, candidates)
    ensures forall l :: l in candidates ==> l in p.locks
  {
    hide FeasibleUnder, Feasible, DistinctOrders;
    candidates := p.locks;
    assert !FeasibleUnder(p, candidates) by {
      FeasibleAsItIs(p);
    }
    for k := 0 to |p.locks|
      invariant Filtered(p, p.locks[..k], candidates)
    {
      var lock := p.locks[k];
      FilterStep(p, p.locks[..k], lock, candidates);
      assert p.locks[..k + 1] == p.locks[..k] + [lock];
      var without := Except(candidates, lock.self);
      var ok := FeasibleWith(p, without);
      if !ok {
        candidates := without;
      }
    }
    assert p.locks[..|p.locks|] == p.locks;
  }

  method FeasibleWith(p: Problem, locks: seq<Lock>) returns (feasible: bool)
    requires Sound(p) && DistinctOrders(p.orders)
    ensures feasible == FeasibleUnder(p, locks)
  {
    feasible := IsFeasibleUnderLocks(WithLocks(p, locks));
  }

  /** `minimal_conflict`: nothing unless the locks are the cause; otherwise an irreducible set of them. */
  method MinimalConflict(p: Problem) returns (conflict: seq<Lock>)
    requires Sound(p) && DistinctOrders(p.orders)
    ensures conflict != [] <==> !Feasible(p) && FeasibleUnder(p, [])
    ensures conflict != [] ==> Irreducible(p, conflict)
    ensures forall l :: l in conflict ==> l in p.locks
  {
    hide FeasibleUnder, Feasible, DistinctOrders;
    var ok := IsFeasibleUnderLocks(p);
    if ok {
      return [];
    }
    var innocent := FeasibleWith(p, []);
    if !innocent {
      return [];
    }
    conflict := DeletionFilter(p);
  }

  /** Leaving any lock out of an irreducible set, with or without others, restores feasibility. */
  lemma {:induction false} NoProperPartConflicts(p: Problem, conflict: seq<Lock>, part: seq<Lock>, lock: Lock)
    requires Sound(p) && Irreducible(p, conflict)
    requires lock in conflict
    requires forall l :: l in part ==> l in conflict && l.self != lock.self
    ensures FeasibleUnder(p, part)
  {
    hide FeasibleUnder;
    ExceptMembers(conflict, lock.self);
    FewerLocksFeasible(p, part, Except(conflict, lock.self));
  }

  /** The early exit changes no answer: when the instance is broken without any lock, every
      irreducible set is empty, so the filter would have discarded every lock itself. */
  lemma {:induction false} EarlyExitChangesNothing(p: Problem, candidates: seq<Lock>)
    requires Sound(p) && !FeasibleUnder(p, []) && Irreducible(p, candidates)
    ensures candidates == []
  {
    hide FeasibleUnder;
    if candidates != [] {
      var l := candidates[0];
      FewerLocksFeasible(p, [], Except(candidates, l.self));
    }
  }
}
