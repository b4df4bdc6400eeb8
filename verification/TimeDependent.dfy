/** Travel that depends on when a vehicle leaves (vrp/timedependent.py).

    Speed, not travel time, is piecewise constant. `TravelBy` is the fast bucket
    walk of the source; `Seconds` is the specification, a drive simulated second
    by second. */
module TimeDependent {
  import opened Common

  const PPT := 1000

  datatype SpeedProfile = SpeedProfile(bucketSeconds: int, multipliers: seq<int>)

  predicate Coherent(p: SpeedProfile) {
    && p.bucketSeconds > 0
    && |p.multipliers| > 0
    && forall i :: 0 <= i < |p.multipliers| ==> p.multipliers[i] > 0
  }

  /** A profile the constructor accepts: zero or negative speeds are refused. */
  type Profile = p: SpeedProfile | Coherent(p) witness SpeedProfile(1, [PPT])

  function Span(p: Profile): (span: int)
    ensures span > 0
  {
    assert p.bucketSeconds * |p.multipliers| > 0 by {
      MulMonotone(1, |p.multipliers|, p.bucketSeconds);
    }
    p.bucketSeconds * |p.multipliers|
  }

  function BucketOf(p: Profile, instant: int): (b: int)
    ensures 0 <= b < |p.multipliers|
  {
    BucketInRange(p, instant);
    (instant % Span(p)) / p.bucketSeconds
  }

  lemma {:induction false} BucketInRange(p: Profile, instant: int)
    ensures 0 <= (instant % Span(p)) / p.bucketSeconds < |p.multipliers|
  {
    var rest, size, n := instant % Span(p), p.bucketSeconds, |p.multipliers|;
    if rest / size >= n {
      MulMonotone(n, rest / size, size);
      assert false;
    }
  }

  /** The multiplier in force at `instant`; the profile repeats every `Span`. */
  function MultiplierAt(p: Profile, instant: int): (m: int)
    ensures m > 0
  {
    p.multipliers[BucketOf(p, instant)]
  }

  // ------------------------------------------------------------------
  // Specification: driving one second at a time
  // ------------------------------------------------------------------

  /** Milli-free-flow-seconds covered in `seconds` seconds from `depart`. */
  ghost function Covered(p: Profile, depart: int, seconds: nat): nat
    decreases seconds
  {
    if seconds == 0 then 0
    else MultiplierAt(p, depart) + Covered(p, depart + 1, seconds - 1)
  }

  /** Seconds until `need` milli-free-flow-seconds are covered. */
  ghost function Seconds(p: Profile, depart: int, need: int): nat
    decreases Max(need, 0)
  {
    if need <= 0 then 0
    else 1 + Seconds(p, depart + 1, need - MultiplierAt(p, depart))
  }

  /** What the source's `travel` returns for a non-negative free-flow duration. */
  ghost function Travel(p: Profile, freeFlow: nat, depart: int): nat {
    Seconds(p, depart, freeFlow * PPT)
  }

  /** `Seconds` is the least count of seconds whose multipliers sum to `need`. */
  lemma {:induction false} SecondsIsLeast(p: Profile, depart: int, need: int, s: nat)
    ensures Covered(p, depart, Seconds(p, depart, need)) >= need
    ensures Covered(p, depart, s) >= need <==> s >= Seconds(p, depart, need)
    decreases Max(need, 0)
  {
    if need > 0 {
      var rest := need - MultiplierAt(p, depart);
      SecondsIsLeast(p, depart + 1, rest, if s == 0 then 0 else s - 1);
    }
  }

  lemma {:induction false} CoveredSplits(p: Profile, depart: int, a: nat, b: nat)
    ensures Covered(p, depart, a + b) == Covered(p, depart, a) + Covered(p, depart + a, b)
    decreases a
  {
    if a > 0 {
      CoveredSplits(p, depart + 1, a - 1, b);
      assert depart + 1 + (a - 1) == depart + a;
    }
  }

  // ------------------------------------------------------------------
  // The bucket walk
  // ------------------------------------------------------------------

  /** Within a bucket of `size` in a day of `n` buckets, the bucket's number does not change. */
  lemma {:induction false} BucketSteady(clock: int, size: int, n: int, k: int)
    requires size > 0 && n > 0 && size * n > 0 && 0 <= k < size - clock % size
    ensures ((clock + k) % (size * n)) / size == (clock % (size * n)) / size
  {
    var span := size * n;
    var day, rest := clock / span, clock % span;
    var q, r := rest / size, rest % size;
    assert day * span == day * n * size;
    DivModUnique(clock, size, day * n + q, r);
    DivModUnique(rest + k, size, q, r + k);
    if q >= n {
      MulMonotone(n, q, size);
      assert false;
    }
    MulMonotone(q + 1, n, size);
    DivModUnique(clock + k, span, day, rest + k);
  }

  /** Up to the next bucket boundary the multiplier does not change. */
  lemma {:induction false} SameBucket(p: Profile, clock: int, k: int)
    requires 0 <= k < p.bucketSeconds - clock % p.bucketSeconds
    ensures MultiplierAt(p, clock + k) == MultiplierAt(p, clock)
  {
    assert Span(p) > 0;
    BucketSteady(clock, p.bucketSeconds, |p.multipliers|, k);
  }

  lemma {:induction false} CoveredInBucket(p: Profile, clock: int, from: nat, s: nat)
    requires from + s <= p.bucketSeconds - clock % p.bucketSeconds
    ensures Covered(p, clock + from, s) == s * MultiplierAt(p, clock)
    decreases s
  {
    if s > 0 {
      SameBucket(p, clock, from);
      CoveredInBucket(p, clock, from + 1, s - 1);
      var m := MultiplierAt(p, clock);
      assert s * m == m + (s - 1) * m;
    }
  }

  /** Skipping whole seconds that do not finish the arc shortens the rest by exactly them. */
  lemma {:induction false} SecondsAfter(p: Profile, depart: int, need: int, s: nat)
    requires s == 0 || Covered(p, depart, s - 1) < need
    ensures Seconds(p, depart, need) == s + Seconds(p, depart + s, need - Covered(p, depart, s))
    decreases s
  {
    if s > 0 {
      var m := MultiplierAt(p, depart);
      assert need > 0;
      SecondsAfter(p, depart + 1, need - m, s - 1);
      assert depart + 1 + (s - 1) == depart + s;
    }
  }

  /** The source's `travel`: walk bucket boundaries, charging whole buckets at once. */
  method TravelBy(freeFlow: int, depart: int, p: Profile) returns (r: Result<nat>)
    ensures freeFlow < 0 <==> r.Failure?
    ensures freeFlow >= 0 ==> r == Success(Travel(p, freeFlow, depart))
  {
    if freeFlow < 0 {
      return Failure("a free-flow duration cannot be negative");
    }
    if freeFlow == 0 {
      return Success(0);
    }
    var remaining, clock, elapsed := freeFlow * PPT, depart, 0;
    while remaining > 0
      invariant elapsed >= 0
      invariant Travel(p, freeFlow, depart) == elapsed + Seconds(p, clock, remaining)
    {
      var multiplier := MultiplierAt(p, clock);
      var toBoundary := p.bucketSeconds - clock % p.bucketSeconds;
      var needed := CeilDiv(remaining, multiplier);
      if needed <= toBoundary {
        WalkEnds(p, clock, remaining);
        return Success(elapsed + needed);
      }
      WalkStep(p, clock, remaining);
      remaining := remaining - toBoundary * multiplier;
      elapsed := elapsed + toBoundary;
      clock := clock + toBoundary;
    }
    return Success(elapsed);
  }

  lemma {:induction false} WalkEnds(p: Profile, clock: int, need: int)
    requires need > 0
    requires CeilDiv(need, MultiplierAt(p, clock)) <= p.bucketSeconds - clock % p.bucketSeconds
    ensures Seconds(p, clock, need) == CeilDiv(need, MultiplierAt(p, clock))
  {
    var m := MultiplierAt(p, clock);
    var s := CeilDiv(need, m);
    if s <= 0 {
      MulMonotone(s, 0, m);
      assert false;
    }
    CoveredInBucket(p, clock, 0, s);
    CoveredInBucket(p, clock, 0, s - 1);
    SecondsAfter(p, clock, need, s);
  }

  lemma {:induction false} WalkStep(p: Profile, clock: int, need: int)
    requires need > 0
    requires CeilDiv(need, MultiplierAt(p, clock)) > p.bucketSeconds - clock % p.bucketSeconds
    ensures var s := p.bucketSeconds - clock % p.bucketSeconds;
            Seconds(p, clock, need) == s + Seconds(p, clock + s, need - s * MultiplierAt(p, clock))
  {
    var m := MultiplierAt(p, clock);
    var s := p.bucketSeconds - clock % p.bucketSeconds;
    CoveredInBucket(p, clock, 0, s);
    CoveredInBucket(p, clock, 0, s - 1);
    MulMonotone(s, CeilDiv(need, m) - 1, m);
    assert (s - 1) * m < need;
    SecondsAfter(p, clock, need, s);
  }

  // ------------------------------------------------------------------
  // What the numbers of a profile mean
  // ------------------------------------------------------------------

  /** The instant lies `s` seconds into bucket `b` of some day; its speed is that bucket's. */
  lemma {:induction false} MultiplierInForce(p: Profile, day: int, b: nat, s: nat)
    requires b < |p.multipliers| && s < p.bucketSeconds
    ensures var instant := (day * |p.multipliers| + b) * p.bucketSeconds + s;
            MultiplierAt(p, instant) == p.multipliers[b] && instant % p.bucketSeconds == s
  {
    var n, size := |p.multipliers|, p.bucketSeconds;
    var instant := (day * n + b) * size + s;
    DivModUnique(instant, size, day * n + b, s);
    MulMonotone(b + 1, n, size);
    assert (b + 1) * size == b * size + size;
    assert instant == day * (size * n) + (b * size + s);
    DivModUnique(instant, size * n, day, b * size + s);
    DivModUnique(b * size + s, size, b, s);
    assert Span(p) == size * n;
  }

  lemma {:induction false} WithinBucketAt(p: Profile, clock: int, freeFlow: nat, m: int)
    requires MultiplierAt(p, clock) == m && CeilDiv(freeFlow * 1000, m) <= p.bucketSeconds - clock % p.bucketSeconds
    ensures Travel(p, freeFlow, clock) == CeilDiv(freeFlow * 1000, m)
  {
    if freeFlow > 0 {
      WalkEnds(p, clock, freeFlow * 1000);
    }
  }

  /** A drive that ends before the bucket does takes its free flow at that bucket's speed, in parts
      per thousand, rounded up. */
  lemma {:induction false} WithinBucket(p: Profile, freeFlow: nat, day: int, b: nat, s: nat)
    requires b < |p.multipliers| && s + CeilDiv(freeFlow * 1000, p.multipliers[b]) <= p.bucketSeconds
    requires s < p.bucketSeconds
    ensures Travel(p, freeFlow, (day * |p.multipliers| + b) * p.bucketSeconds + s)
         == CeilDiv(freeFlow * 1000, p.multipliers[b])
  {
    hide Travel, MultiplierAt, CeilDiv;
    MultiplierInForce(p, day, b, s);
    WithinBucketAt(p, (day * |p.multipliers| + b) * p.bucketSeconds + s, freeFlow, p.multipliers[b]);
  }

  /** A drive that does not end before the bucket does is what is left of the bucket, and then what
      is left of the arc from the start of the next. */
  lemma {:induction false} AcrossBuckets(p: Profile, need: int, day: int, b: nat, s: nat)
    requires b < |p.multipliers| && s < p.bucketSeconds
    requires need > 0 && s + CeilDiv(need, p.multipliers[b]) > p.bucketSeconds
    ensures var left := p.bucketSeconds - s;
            Seconds(p, (day * |p.multipliers| + b) * p.bucketSeconds + s, need)
            == left + Seconds(p, (day * |p.multipliers| + b + 1) * p.bucketSeconds, need - left * p.multipliers[b])
  {
    var clock := (day * |p.multipliers| + b) * p.bucketSeconds + s;
    MultiplierInForce(p, day, b, s);
    WalkStep(p, clock, need);
    assert clock + (p.bucketSeconds - s) == (day * |p.multipliers| + b + 1) * p.bucketSeconds;
  }

  lemma {:induction false} CoveredUniformly(p: Profile, m: int, depart: int, s: nat)
    requires forall i :: 0 <= i < |p.multipliers| ==> p.multipliers[i] == m
    ensures Covered(p, depart, s) == s * m
    decreases s
  {
    if s > 0 {
      CoveredUniformly(p, m, depart + 1, s - 1);
      assert s * m == m + (s - 1) * m;
    }
  }

  /** At one speed all day, every drive takes its free flow at that speed, rounded up; at a thousand
      parts per thousand, its free flow. */
  lemma {:induction false} UniformSpeed(p: Profile, m: int, freeFlow: nat, depart: int)
    requires forall i :: 0 <= i < |p.multipliers| ==> p.multipliers[i] == m
    ensures m > 0 && Travel(p, freeFlow, depart) == CeilDiv(freeFlow * 1000, m)
    ensures m == 1000 ==> Travel(p, freeFlow, depart) == freeFlow
  {
    assert m == p.multipliers[0] > 0;
    var s := Travel(p, freeFlow, depart);
    SecondsIsLeast(p, depart, freeFlow * 1000, s);
    CoveredUniformly(p, m, depart, s);
    CeilDivLeast(freeFlow * 1000, m, s);
    var q := CeilDiv(freeFlow * 1000, m);
    if q < 0 {
      MulMonotone(q, -1, m);
    } else {
      CoveredUniformly(p, m, depart, q);
      SecondsIsLeast(p, depart, freeFlow * 1000, q);
    }
  }

  // ------------------------------------------------------------------
  // No passing
  // ------------------------------------------------------------------

  /** Leaving later never arrives earlier. */
  lemma {:induction false} NoPassing(p: Profile, freeFlow: nat, early: int, late: int)
    requires early <= late
    ensures early + Travel(p, freeFlow, early) <= late + Travel(p, freeFlow, late)
  {
    var need, gap := freeFlow * PPT, late - early;
    var s := Travel(p, freeFlow, late);
    SecondsIsLeast(p, late, need, s);
    CoveredSplits(p, early, gap, s);
    SecondsIsLeast(p, early, need, gap + s);
  }

  /** A longer arc left at the same moment is never finished sooner. */
  lemma {:induction false} LongerArcTakesLonger(p: Profile, short: nat, long: nat, depart: int)
    requires short <= long
    ensures Travel(p, short, depart) <= Travel(p, long, depart)
  {
    SecondsIsLeast(p, depart, long * PPT, 0);
    SecondsIsLeast(p, depart, short * PPT, Travel(p, long, depart));
  }

  lemma {:induction false} MultiplierRepeats(p: Profile, instant: int, days: int)
    ensures MultiplierAt(p, instant + days * Span(p)) == MultiplierAt(p, instant)
  {
    var span := Span(p);
    assert instant + days * span == (instant / span + days) * span + instant % span;
    DivModUnique(instant + days * span, span, instant / span + days, instant % span);
  }

  /** The profile describes a day: shifting a departure by whole spans changes nothing. */
  lemma {:induction false} TravelRepeats(p: Profile, depart: int, need: int, days: int)
    ensures Seconds(p, depart + days * Span(p), need) == Seconds(p, depart, need)
    decreases Max(need, 0)
  {
    if need > 0 {
      MultiplierRepeats(p, depart, days);
      TravelRepeats(p, depart + 1, need - MultiplierAt(p, depart), days);
      assert depart + days * Span(p) + 1 == depart + 1 + days * Span(p);
    }
  }

  // ------------------------------------------------------------------
  // The lower bound and the move filter
  // ------------------------------------------------------------------

  function Fastest(ms: seq<int>): (m: int)
    requires |ms| > 0
    ensures m in ms
    ensures forall i :: 0 <= i < |ms| ==> ms[i] <= m
  {
    if |ms| == 1 then ms[0]
    else
      var rest := Fastest(ms[1..]);
      assert forall i :: 1 <= i < |ms| ==> ms[i] == ms[1..][i - 1];
      if rest < ms[0] then ms[0] else rest
  }

  function FastestPossible(freeFlow: int, p: Profile): int {
    if freeFlow <= 0 then 0 else CeilDiv(freeFlow * PPT, Fastest(p.multipliers))
  }

  lemma {:induction false} CoveredAtMost(p: Profile, depart: int, s: nat)
    ensures Covered(p, depart, s) <= s * Fastest(p.multipliers)
    decreases s
  {
    if s > 0 {
      CoveredAtMost(p, depart + 1, s - 1);
      var top := Fastest(p.multipliers);
      assert MultiplierAt(p, depart) <= top;
      assert s * top == (s - 1) * top + top;
    }
  }

  /** No departure beats the bound, so pruning on it discards nothing feasible. */
  lemma {:induction false} BoundIsAdmissible(p: Profile, freeFlow: nat, depart: int)
    ensures 0 <= FastestPossible(freeFlow, p) <= Travel(p, freeFlow, depart)
  {
    var need, s, top := freeFlow * PPT, Travel(p, freeFlow, depart), Fastest(p.multipliers);
    SecondsIsLeast(p, depart, need, s);
    CoveredAtMost(p, depart, s);
    CeilDivLeast(need, top, s);
    if CeilDiv(need, top) < 0 {
      MulMonotone(CeilDiv(need, top), 0, top);
    }
  }

  /** The bound is what the arc takes at the profile's best speed all day. */
  lemma {:induction false} BoundIsBestDay(p: Profile, best: Profile, k: nat, freeFlow: nat, depart: int)
    requires k < |p.multipliers| && forall i :: 0 <= i < |p.multipliers| ==> p.multipliers[i] <= p.multipliers[k]
    requires forall i :: 0 <= i < |best.multipliers| ==> best.multipliers[i] == p.multipliers[k]
    ensures FastestPossible(freeFlow, p) == Travel(best, freeFlow, depart)
  {
    UniformSpeed(best, p.multipliers[k], freeFlow, depart);
    assert Fastest(p.multipliers) == p.multipliers[k];
  }

  datatype Move = Move(freeFlow: nat, depart: int, deadline: int)

  datatype FilterReport = FilterReport(considered: nat, pruned: nat, passedThenRejected: nat)

  /** A move is feasible when the vehicle arrives by its deadline. */
  ghost predicate Feasible(move: Move, p: Profile) {
    move.depart + Travel(p, move.freeFlow, move.depart) <= move.deadline
  }

  ghost function Infeasible(moves: seq<Move>, p: Profile): nat {
    if moves == [] then 0
    else Infeasible(moves[..|moves| - 1], p) + (if Feasible(moves[|moves| - 1], p) then 0 else 1)
  }

  predicate Prunes(move: Move, p: Profile) {
    move.depart + FastestPossible(move.freeFlow, p) > move.deadline
  }

  function PrunedIn(moves: seq<Move>, p: Profile): nat {
    if moves == [] then 0
    else PrunedIn(moves[..|moves| - 1], p) + (if Prunes(moves[|moves| - 1], p) then 1 else 0)
  }

  /** Every infeasible move is counted once, by the bound or by the exact leg; feasible ones never. */
  method FilterMoves(moves: seq<Move>, p: Profile) returns (report: FilterReport)
    ensures report.considered == |moves|
    ensures report.pruned == PrunedIn(moves, p)
    ensures report.pruned + report.passedThenRejected == Infeasible(moves, p)
  {
    var considered, pruned, missed := 0, 0, 0;
    for k := 0 to |moves|
      invariant considered == k
      invariant pruned == PrunedIn(moves[..k], p)
      invariant pruned + missed == Infeasible(moves[..k], p)
      invariant missed >= 0
    {
      assert moves[..k + 1][..k] == moves[..k];
      var move := moves[k];
      considered := considered + 1;
      BoundIsAdmissible(p, move.freeFlow, move.depart);
      if move.depart + FastestPossible(move.freeFlow, p) > move.deadline {
        pruned := pruned + 1;
        continue;
      }
      var leg := TravelBy(move.freeFlow, move.depart, p);
      if move.depart + leg.value > move.deadline {
        missed := missed + 1;
      }
    }
    assert moves[..|moves|] == moves;
    report := FilterReport(considered, pruned, missed);
  }
}
