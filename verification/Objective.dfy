/** The lexicographic objective (vrp/objective.py): precedence levels, the scales that
    make one number stand for all of them, and the tier values a plan scores. */
module Objective {
  import opened Common
  import opened Model

  datatype Tier = HARD | UNSERVED_P0 | UNSERVED | FLEET | OPERATING | SOFT | QUALITY

  datatype Mode = MIN_VEHICLES | MIN_COST | MIN_DURATION | MAX_SERVICE | PRIZE_COLLECTING

  const TIERS: seq<Tier> := [HARD, UNSERVED_P0, UNSERVED, FLEET, OPERATING, SOFT, QUALITY]

  type TierValues = map<Tier, int>

  function At(values: TierValues, t: Tier): int {
    if t in values then values[t] else 0
  }

  /** Precedence, highest first; tiers sharing a level are traded against each other. */
  function Levels(mode: Mode): seq<seq<Tier>> {
    var middle :=
      match mode
      case MIN_VEHICLES => [[UNSERVED], [FLEET], [OPERATING]]
      case PRIZE_COLLECTING => [[UNSERVED, FLEET, OPERATING]]
      case _ => [[UNSERVED], [FLEET, OPERATING]];
    [[HARD], [UNSERVED_P0]] + middle + [[SOFT], [QUALITY]]
  }

  // ------------------------------------------------------------------
  // Comparing level by level
  // ------------------------------------------------------------------

  /** What a level holds: its tiers' values in one currency. */
  function LevelSum(values: TierValues, level: seq<Tier>): int {
    if level == [] then 0 else At(values, level[0]) + LevelSum(values, level[1..])
  }

  function Sign(n: int): int {
    if n < 0 then -1 else if n > 0 then 1 else 0
  }

  /** The first level that differs decides. */
  function CompareOver(levels: seq<seq<Tier>>, left: TierValues, right: TierValues): int {
    if levels == [] then 0
    else
      var difference := LevelSum(left, levels[0]) - LevelSum(right, levels[0]);
      if difference != 0 then Sign(difference) else CompareOver(levels[1..], left, right)
  }

  /** `compare`. */
  method Compare(left: TierValues, right: TierValues, mode: Mode) returns (order: int)
    ensures order == CompareOver(Levels(mode), left, right)
  {
    var levels := Levels(mode);
    for k := 0 to |levels|
      invariant CompareOver(levels, left, right) == CompareOver(levels[k..], left, right)
    {
      var difference := 0;
      for j := 0 to |levels[k]|
        invariant difference + LevelSum(left, levels[k][j..]) - LevelSum(right, levels[k][j..])
               == LevelSum(left, levels[k]) - LevelSum(right, levels[k])
      {
        difference := difference + At(left, levels[k][j]) - At(right, levels[k][j]);
      }
      if difference != 0 {
        return if difference < 0 then -1 else 1;
      }
    }
    return 0;
  }

  // ------------------------------------------------------------------
  // What each mode puts first
  // ------------------------------------------------------------------

  ghost predicate SameAt(left: TierValues, right: TierValues, tiers: set<Tier>) {
    forall t :: t in tiers ==> At(left, t) == At(right, t)
  }

  lemma {:induction false} LevelDecidesAt(level: seq<Tier>, rest: seq<seq<Tier>>, left: TierValues, right: TierValues)
    ensures CompareOver([level] + rest, left, right)
         == if LevelSum(left, level) != LevelSum(right, level) then Sign(LevelSum(left, level) - LevelSum(right, level))
            else CompareOver(rest, left, right)
  {
    assert ([level] + rest)[1..] == rest;
  }

  lemma {:induction false} SumsOfTiers(values: TierValues, a: Tier, b: Tier, c: Tier)
    ensures LevelSum(values, [a]) == At(values, a)
    ensures LevelSum(values, [a, b]) == At(values, a) + At(values, b)
    ensures LevelSum(values, [a, b, c]) == At(values, a) + At(values, b) + At(values, c)
  {
    assert [a][1..] == [] && [b][1..] == [] && [c][1..] == [];
    assert [a, b][1..] == [b] && [b, c][1..] == [c] && [a, b, c][1..] == [b, c];
    assert LevelSum(values, [c]) == At(values, c);
    assert LevelSum(values, [b]) == At(values, b);
    assert LevelSum(values, [b, c]) == At(values, b) + At(values, c);
  }

  /** A broken promise decides first, and then an urgent order left, in every mode. */
  lemma {:induction false} PromisesComeFirst(mode: Mode, left: TierValues, right: TierValues)
    ensures var order := CompareOver(Levels(mode), left, right);
            && (At(left, HARD) < At(right, HARD) ==> order == -1)
            && (At(left, HARD) > At(right, HARD) ==> order == 1)
            && (At(left, HARD) == At(right, HARD) && At(left, UNSERVED_P0) < At(right, UNSERVED_P0) ==> order == -1)
            && (At(left, HARD) == At(right, HARD) && At(left, UNSERVED_P0) > At(right, UNSERVED_P0) ==> order == 1)
  {
    var levels := Levels(mode);
    SumsOfTiers(left, HARD, HARD, HARD);
    SumsOfTiers(right, HARD, HARD, HARD);
    SumsOfTiers(left, UNSERVED_P0, HARD, HARD);
    SumsOfTiers(right, UNSERVED_P0, HARD, HARD);
    LevelDecidesAt([HARD], levels[1..], left, right);
    LevelDecidesAt([UNSERVED_P0], levels[1..][1..], left, right);
    assert levels == [[HARD]] + levels[1..] && levels[1..] == [[UNSERVED_P0]] + levels[1..][1..];
  }

  /** Lateness and then imbalance come last, in every mode. */
  lemma {:induction false} QualityComesLast(left: TierValues, right: TierValues)
    ensures CompareOver([[SOFT], [QUALITY]], left, right)
         == if At(left, SOFT) != At(right, SOFT) then Sign(At(left, SOFT) - At(right, SOFT))
            else Sign(At(left, QUALITY) - At(right, QUALITY))
  {
    SumsOfTiers(left, SOFT, SOFT, SOFT);
    SumsOfTiers(right, SOFT, SOFT, SOFT);
    SumsOfTiers(left, QUALITY, SOFT, SOFT);
    SumsOfTiers(right, QUALITY, SOFT, SOFT);
    var none: seq<seq<Tier>> := [];
    LevelDecidesAt([QUALITY], none, left, right);
    LevelDecidesAt([SOFT], [[QUALITY]], left, right);
    assert [[QUALITY]] + none == [[QUALITY]] && [[SOFT]] + [[QUALITY]] == [[SOFT], [QUALITY]];
  }

  /** With every promise kept alike, what decides next, mode by mode: orders left, vehicles and
      costs, each on its own or together. */
  lemma {:induction false} ModesPrefer(mode: Mode, left: TierValues, right: TierValues)
    requires SameAt(left, right, {HARD, UNSERVED_P0})
    ensures var order := CompareOver(Levels(mode), left, right);
            var unserved := At(left, UNSERVED) - At(right, UNSERVED);
            var fleet, operating := At(left, FLEET) - At(right, FLEET), At(left, OPERATING) - At(right, OPERATING);
            var last := if At(left, SOFT) != At(right, SOFT) then Sign(At(left, SOFT) - At(right, SOFT))
                        else Sign(At(left, QUALITY) - At(right, QUALITY));
            && (mode == MIN_VEHICLES ==>
                  order == if unserved != 0 then Sign(unserved) else if fleet != 0 then Sign(fleet)
                           else if operating != 0 then Sign(operating) else last)
            && (mode in {MIN_COST, MIN_DURATION, MAX_SERVICE} ==>
                  order == if unserved != 0 then Sign(unserved)
                           else if fleet + operating != 0 then Sign(fleet + operating) else last)
            && (mode == PRIZE_COLLECTING ==>
                  order == if unserved + fleet + operating != 0 then Sign(unserved + fleet + operating) else last)
  {
    hide Levels;
    var tail: seq<seq<Tier>> := [[SOFT], [QUALITY]];
    QualityComesLast(left, right);
    SumsOfTiers(left, UNSERVED, FLEET, OPERATING);
    SumsOfTiers(right, UNSERVED, FLEET, OPERATING);
    SumsOfTiers(left, FLEET, OPERATING, OPERATING);
    SumsOfTiers(right, FLEET, OPERATING, OPERATING);
    SumsOfTiers(left, OPERATING, FLEET, FLEET);
    SumsOfTiers(right, OPERATING, FLEET, FLEET);
    PastPromises(mode, left, right);
    var middle := [[FLEET, OPERATING]] + tail;
    var split := [[FLEET]] + ([[OPERATING]] + tail);
    LevelDecidesAt([OPERATING], tail, left, right);
    LevelDecidesAt([FLEET], [[OPERATING]] + tail, left, right);
    LevelDecidesAt([UNSERVED], split, left, right);
    LevelDecidesAt([FLEET, OPERATING], tail, left, right);
    LevelDecidesAt([UNSERVED], middle, left, right);
    LevelDecidesAt([UNSERVED, FLEET, OPERATING], tail, left, right);
  }

  /** What is left to compare when the promises are alike. */
  lemma {:induction false} PastPromises(mode: Mode, left: TierValues, right: TierValues)
    requires SameAt(left, right, {HARD, UNSERVED_P0})
    ensures var tail: seq<seq<Tier>> := [[SOFT], [QUALITY]];
            CompareOver(Levels(mode), left, right) == CompareOver(
              match mode
              case MIN_VEHICLES => [[UNSERVED]] + ([[FLEET]] + ([[OPERATING]] + tail))
              case PRIZE_COLLECTING => [[UNSERVED, FLEET, OPERATING]] + tail
              case _ => [[UNSERVED]] + ([[FLEET, OPERATING]] + tail),
              left, right)
  {
    var levels := Levels(mode);
    var tail: seq<seq<Tier>> := [[SOFT], [QUALITY]];
    SumsOfTiers(left, HARD, HARD, HARD);
    SumsOfTiers(right, HARD, HARD, HARD);
    SumsOfTiers(left, UNSERVED_P0, HARD, HARD);
    SumsOfTiers(right, UNSERVED_P0, HARD, HARD);
    LevelDecidesAt([HARD], levels[1..], left, right);
    LevelDecidesAt([UNSERVED_P0], levels[1..][1..], left, right);
    assert levels == [[HARD]] + levels[1..] && levels[1..] == [[UNSERVED_P0]] + levels[1..][1..];
    assert levels[1..][1..] ==
      match mode
      case MIN_VEHICLES => [[UNSERVED]] + ([[FLEET]] + ([[OPERATING]] + tail))
      case PRIZE_COLLECTING => [[UNSERVED, FLEET, OPERATING]] + tail
      case _ => [[UNSERVED]] + ([[FLEET, OPERATING]] + tail);
  }

  // ------------------------------------------------------------------
  // Scaling
  // ------------------------------------------------------------------

  /** The largest total the levels can reach within their bounds. */
  function Reach(levels: seq<seq<Tier>>, bounds: TierValues): int {
    if levels == [] then 0
    else
      var beneath := Reach(levels[1..], bounds);
      beneath + LevelSum(bounds, levels[0]) * (beneath + 1)
  }

  /** One multiplier a level: one more than everything beneath it can reach. */
  function ScalesOf(levels: seq<seq<Tier>>, bounds: TierValues): TierValues {
    if levels == [] then map[]
    else SetAll(ScalesOf(levels[1..], bounds), levels[0], Reach(levels[1..], bounds) + 1)
  }

  /** Tiers sharing a level share a scale. */
  function SetAll(scales: TierValues, level: seq<Tier>, scale: int): TierValues
    decreases level
  {
    if level == [] then scales else SetAll(scales[level[0] := scale], level[1..], scale)
  }

  lemma {:induction false} SetAllMeans(scales: TierValues, level: seq<Tier>, scale: int, t: Tier)
    ensures var all := SetAll(scales, level, scale);
            if t in level then t in all && all[t] == scale
            else (t in all <==> t in scales) && (t in all ==> all[t] == scales[t])
    decreases level
  {
    if level != [] {
      SetAllMeans(scales[level[0] := scale], level[1..], scale, t);
      assert level == [level[0]] + level[1..];
    }
  }

  method ScaleLevel(lower: TierValues, level: seq<Tier>, bounds: TierValues, scale: int)
    returns (scales: TierValues, sum: int)
    ensures scales == SetAll(lower, level, scale)
    ensures sum == LevelSum(bounds, level) * scale
  {
    scales, sum := lower, 0;
    for j := 0 to |level|
      invariant SetAll(scales, level[j..], scale) == SetAll(lower, level, scale)
      invariant sum + LevelSum(bounds, level[j..]) * scale == LevelSum(bounds, level) * scale
    {
      assert level[j..][1..] == level[j + 1..];
      Distribute(At(bounds, level[j]), LevelSum(bounds, level[j + 1..]), scale);
      scales := scales[level[j] := scale];
      sum := sum + At(bounds, level[j]) * scale;
    }
  }

  /** `tier_scales`, from the bottom up. */
  method TierScales(mode: Mode, bounds: TierValues) returns (scales: TierValues)
    ensures scales == ScalesOf(Levels(mode), bounds)
  {
    var levels := Levels(mode);
    scales := map[];
    var beneath, k := 0, |levels|;
    while k > 0
      invariant 0 <= k <= |levels|
      invariant beneath == Reach(levels[k..], bounds)
      invariant scales == ScalesOf(levels[k..], bounds)
    {
      var rest := levels[k..];
      k := k - 1;
      assert levels[k..] == [levels[k]] + rest;
      var sum;
      scales, sum := ScaleLevel(scales, levels[k], bounds, beneath + 1);
      beneath := beneath + sum;
    }
    assert levels[0..] == levels;
  }

  lemma {:induction false} Distribute(a: int, b: int, c: int)
    ensures (a + b) * c == a * c + b * c
  {
  }

  function TotalOver(tiers: seq<Tier>, values: TierValues, scales: TierValues): int {
    if tiers == [] then 0
    else (if tiers[0] in scales then At(values, tiers[0]) * scales[tiers[0]] else 0)
         + TotalOver(tiers[1..], values, scales)
  }

  /** `total`: the single scaled number. */
  function Total(values: TierValues, scales: TierValues): int {
    TotalOver(TIERS, values, scales)
  }

  /** What a tier adds to the total: nothing without a value or a scale. */
  function Part(values: TierValues, scales: TierValues, t: Tier): int {
    if t in values && t in scales then values[t] * scales[t] else 0
  }

  /** The total is the seven tiers' parts. */
  lemma {:induction false} TotalInTiers(values: TierValues, scales: TierValues)
    ensures Total(values, scales)
         == Part(values, scales, HARD) + Part(values, scales, UNSERVED_P0) + Part(values, scales, UNSERVED)
            + Part(values, scales, FLEET) + Part(values, scales, OPERATING) + Part(values, scales, SOFT)
            + Part(values, scales, QUALITY)
  {
    OneTier(values, scales, HARD, [UNSERVED_P0, UNSERVED, FLEET, OPERATING, SOFT, QUALITY]);
    OneTier(values, scales, UNSERVED_P0, [UNSERVED, FLEET, OPERATING, SOFT, QUALITY]);
    OneTier(values, scales, UNSERVED, [FLEET, OPERATING, SOFT, QUALITY]);
    OneTier(values, scales, FLEET, [OPERATING, SOFT, QUALITY]);
    OneTier(values, scales, OPERATING, [SOFT, QUALITY]);
    OneTier(values, scales, SOFT, [QUALITY]);
    OneTier(values, scales, QUALITY, []);
  }

  lemma {:induction false} OneTier(values: TierValues, scales: TierValues, t: Tier, rest: seq<Tier>)
    ensures TotalOver([t] + rest, values, scales) == Part(values, scales, t) + TotalOver(rest, values, scales)
    ensures TotalOver([], values, scales) == 0
  {
    assert ([t] + rest)[1..] == rest;
  }

  /** The same number, level by level. */
  function ByLevel(levels: seq<seq<Tier>>, values: TierValues, bounds: TierValues): int {
    if levels == [] then 0
    else LevelSum(values, levels[0]) * (Reach(levels[1..], bounds) + 1) + ByLevel(levels[1..], values, bounds)
  }

  /** Every value is non-negative and at most its tier's bound. */
  ghost predicate Within(values: TierValues, bounds: TierValues) {
    forall t :: 0 <= At(values, t) <= At(bounds, t)
  }

  lemma {:induction false} LevelWithin(values: TierValues, bounds: TierValues, level: seq<Tier>)
    requires Within(values, bounds)
    ensures 0 <= LevelSum(values, level) <= LevelSum(bounds, level)
  {
    if level != [] {
      LevelWithin(values, bounds, level[1..]);
    }
  }

  lemma {:induction false} ReachIsPositive(levels: seq<seq<Tier>>, bounds: TierValues)
    requires Within(map[], bounds)
    ensures 0 <= Reach(levels, bounds)
  {
    if levels != [] {
      ReachIsPositive(levels[1..], bounds);
      LevelWithin(map[], bounds, levels[0]);
      MulMonotone(0, LevelSum(bounds, levels[0]), Reach(levels[1..], bounds) + 1);
    }
  }

  /** Whatever the levels hold, their total stays between nothing and what their caps come to. */
  lemma {:induction false} TotalWithin(levels: seq<seq<Tier>>, values: TierValues, caps: TierValues, bounds: TierValues)
    requires Within(values, caps) && Within(map[], bounds)
    ensures 0 <= ByLevel(levels, values, bounds) <= ByLevel(levels, caps, bounds)
  {
    if levels != [] {
      TotalWithin(levels[1..], values, caps, bounds);
      LevelWithin(values, caps, levels[0]);
      ReachIsPositive(levels[1..], bounds);
      var scale := Reach(levels[1..], bounds) + 1;
      MulMonotone(LevelSum(values, levels[0]), LevelSum(caps, levels[0]), scale);
      MulMonotone(0, LevelSum(values, levels[0]), scale);
    }
  }

  /** Everything beneath each level, at its caps, stays below that level's scale. */
  ghost predicate Covers(levels: seq<seq<Tier>>, caps: TierValues, bounds: TierValues) {
    levels != [] ==>
      Covers(levels[1..], caps, bounds) && ByLevel(levels[1..], caps, bounds) <= Reach(levels[1..], bounds)
  }

  /** Bounds cover themselves. */
  lemma {:induction false} BoundsCover(levels: seq<seq<Tier>>, bounds: TierValues)
    ensures Covers(levels, bounds, bounds) && ByLevel(levels, bounds, bounds) == Reach(levels, bounds)
  {
    if levels != [] {
      BoundsCover(levels[1..], bounds);
    }
  }

  /** A level that wins by one outweighs everything beneath it. */
  lemma {:induction false} OneOutweighs(level: int, scale: int, low: int, high: int)
    requires 0 <= low < scale && 0 <= high < scale
    ensures level >= 1 ==> level * scale + low - high > 0
    ensures level <= -1 ==> level * scale + low - high < 0
  {
    if level >= 1 {
      MulMonotone(1, level, scale);
    }
    if level <= -1 {
      MulMonotone(level, -1, scale);
    }
  }

  lemma {:induction false} LevelDecides(l: int, r: int, scale: int, low: int, high: int)
    requires 0 <= low < scale && 0 <= high < scale
    ensures Sign(l * scale + low - (r * scale + high)) == if l != r then Sign(l - r) else Sign(low - high)
  {
    OneOutweighs(l - r, scale, low, high);
    Distribute(l - r, r, scale);
  }

  /** For any arrangement of levels, scaled totals order values as the levels do. */
  lemma {:induction false} LevelsOrderTotals(levels: seq<seq<Tier>>, caps: TierValues, bounds: TierValues,
                                             left: TierValues, right: TierValues)
    requires Within(left, caps) && Within(right, caps) && Within(map[], bounds) && Covers(levels, caps, bounds)
    ensures Sign(ByLevel(levels, left, bounds) - ByLevel(levels, right, bounds)) == CompareOver(levels, left, right)
  {
    hide Within, LevelSum, Reach;
    if levels != [] {
      var rest := levels[1..];
      LevelsOrderTotals(rest, caps, bounds, left, right);
      TotalWithin(rest, left, caps, bounds);
      TotalWithin(rest, right, caps, bounds);
      LevelDecides(LevelSum(left, levels[0]), LevelSum(right, levels[0]), Reach(rest, bounds) + 1,
                   ByLevel(rest, left, bounds), ByLevel(rest, right, bounds));
    }
  }

  function Flatten(levels: seq<seq<Tier>>): seq<Tier> {
    if levels == [] then [] else levels[0] + Flatten(levels[1..])
  }

  lemma {:induction false} TotalAppends(a: seq<Tier>, b: seq<Tier>, values: TierValues, scales: TierValues)
    ensures TotalOver(a + b, values, scales) == TotalOver(a, values, scales) + TotalOver(b, values, scales)
  {
    if a == [] {
      assert a + b == b;
    } else {
      TotalAppends(a[1..], b, values, scales);
      assert (a + b)[1..] == a[1..] + b;
    }
  }

  lemma {:induction false} TotalOfLevel(level: seq<Tier>, values: TierValues, scales: TierValues, scale: int)
    requires forall t :: t in level ==> t in scales && scales[t] == scale
    ensures TotalOver(level, values, scales) == LevelSum(values, level) * scale
  {
    if level != [] {
      TotalOfLevel(level[1..], values, scales, scale);
      Distribute(At(values, level[0]), LevelSum(values, level[1..]), scale);
    }
  }

  lemma {:induction false} TotalAgrees(tiers: seq<Tier>, values: TierValues, some: TierValues, other: TierValues)
    requires forall t :: t in tiers ==> (t in some <==> t in other)
    requires forall t :: t in tiers && t in some ==> some[t] == other[t]
    ensures TotalOver(tiers, values, some) == TotalOver(tiers, values, other)
  {
    if tiers != [] {
      TotalAgrees(tiers[1..], values, some, other);
    }
  }

  lemma {:induction false} Apart(a: seq<Tier>, b: seq<Tier>)
    requires NoRepeats(a + b)
    ensures NoRepeats(b) && forall t :: t in b ==> t !in a
  {
    forall i, j | 0 <= i < j < |b|
      ensures b[i] != b[j]
    {
      assert (a + b)[|a| + i] != (a + b)[|a| + j];
    }
    forall t | t in b
      ensures t !in a
    {
      var j :| 0 <= j < |b| && b[j] == t;
      assert (a + b)[|a| + j] == t;
      assert forall i :: 0 <= i < |a| ==> (a + b)[i] == a[i];
    }
  }

  /** When no tier sits in two levels, the scaled total is the sum of the scaled levels. */
  lemma {:induction false} TotalOfLevels(levels: seq<seq<Tier>>, bounds: TierValues, values: TierValues)
    requires NoRepeats(Flatten(levels))
    ensures TotalOver(Flatten(levels), values, ScalesOf(levels, bounds)) == ByLevel(levels, values, bounds)
  {
    if levels != [] {
      var level, rest := levels[0], levels[1..];
      var below, tiers, scales := ScalesOf(rest, bounds), Flatten(rest), ScalesOf(levels, bounds);
      Apart(level, tiers);
      TotalOfLevels(rest, bounds, values);
      TotalAppends(level, tiers, values, scales);
      forall t {
        SetAllMeans(below, level, Reach(rest, bounds) + 1, t);
      }
      TotalOfLevel(level, values, scales, Reach(rest, bounds) + 1);
      TotalAgrees(tiers, values, scales, below);
    }
  }

  function Rank(t: Tier): nat {
    match t
    case HARD => 0
    case UNSERVED_P0 => 1
    case UNSERVED => 2
    case FLEET => 3
    case OPERATING => 4
    case SOFT => 5
    case QUALITY => 6
  }

  lemma {:induction false} FlattenStep(level: seq<Tier>, rest: seq<seq<Tier>>)
    ensures Flatten([level] + rest) == level + Flatten(rest)
  {
    assert ([level] + rest)[1..] == rest;
  }

  lemma {:induction false} LevelsHoldEveryTier(mode: Mode)
    ensures Flatten(Levels(mode)) == TIERS && NoRepeats(TIERS)
  {
    assert forall i :: 0 <= i < |TIERS| ==> Rank(TIERS[i]) == i;
    var tail: seq<seq<Tier>> := [[SOFT], [QUALITY]];
    FlattenStep([QUALITY], []);
    FlattenStep([SOFT], [[QUALITY]]);
    assert tail == [[SOFT]] + [[QUALITY]];
    var middle: seq<seq<Tier>>;
    match mode {
      case MIN_VEHICLES =>
        FlattenStep([OPERATING], tail);
        FlattenStep([FLEET], [[OPERATING]] + tail);
        FlattenStep([UNSERVED], [[FLEET]] + ([[OPERATING]] + tail));
        middle := [[UNSERVED]] + ([[FLEET]] + ([[OPERATING]] + tail));
      case PRIZE_COLLECTING =>
        FlattenStep([UNSERVED, FLEET, OPERATING], tail);
        middle := [[UNSERVED, FLEET, OPERATING]] + tail;
      case _ =>
        FlattenStep([FLEET, OPERATING], tail);
        FlattenStep([UNSERVED], [[FLEET, OPERATING]] + tail);
        middle := [[UNSERVED]] + ([[FLEET, OPERATING]] + tail);
    }
    FlattenStep([UNSERVED_P0], middle);
    FlattenStep([HARD], [[UNSERVED_P0]] + middle);
    assert Levels(mode) == [[HARD]] + ([[UNSERVED_P0]] + middle);
  }

  /** Under every mode and for all values within the bounds, the scaled totals order two
      plans exactly as the level-by-level comparison does. */
  lemma {:induction false} TotalsOrderAsCompare(mode: Mode, bounds: TierValues, left: TierValues, right: TierValues)
    requires Within(left, bounds) && Within(right, bounds)
    ensures OrderAgrees(mode, bounds, left, right)
  {
    hide Levels, ScalesOf, CompareOver, ByLevel, TotalOver;
    BoundsCover(Levels(mode), bounds);
    CoveredTotalsOrder(mode, bounds, bounds, left, right);
  }

  ghost predicate OrderAgrees(mode: Mode, bounds: TierValues, left: TierValues, right: TierValues) {
    var scales := ScalesOf(Levels(mode), bounds);
    Sign(Total(left, scales) - Total(right, scales)) == CompareOver(Levels(mode), left, right)
  }

  lemma {:induction false} CoveredTotalsOrder(mode: Mode, caps: TierValues, bounds: TierValues, left: TierValues,
                                              right: TierValues)
    requires Within(left, caps) && Within(right, caps) && Within(map[], bounds) && Covers(Levels(mode), caps, bounds)
    ensures OrderAgrees(mode, bounds, left, right)
  {
    hide Levels, ScalesOf, CompareOver, ByLevel, TotalOver, Within;
    LevelsHoldEveryTier(mode);
    TotalOfLevels(Levels(mode), bounds, left);
    TotalOfLevels(Levels(mode), bounds, right);
    LevelsOrderTotals(Levels(mode), caps, bounds, left, right);
  }

  // ------------------------------------------------------------------
  // Exactly how far the scales can be trusted
  // ------------------------------------------------------------------

  ghost predicate KeysIn(values: TierValues, tiers: seq<Tier>) {
    forall t :: t in values ==> t in tiers
  }

  lemma {:induction false} NothingInLevel(values: TierValues, level: seq<Tier>)
    requires forall t :: t in level ==> t !in values
    ensures LevelSum(values, level) == 0
  {
    if level != [] {
      NothingInLevel(values, level[1..]);
    }
  }

  lemma {:induction false} NothingInLevels(values: TierValues, levels: seq<seq<Tier>>, bounds: TierValues)
    requires forall t :: t in Flatten(levels) ==> t !in values
    ensures ByLevel(levels, values, bounds) == 0 && CompareOver(levels, values, map[]) == 0
  {
    if levels != [] {
      NothingInLevel(values, levels[0]);
      NothingInLevel(map[], levels[0]);
      NothingInLevels(values, levels[1..], bounds);
    }
  }

  lemma {:induction false} SameInLevel(values: TierValues, caps: TierValues, level: seq<Tier>)
    requires forall t :: t in level ==> At(values, t) == At(caps, t)
    ensures LevelSum(values, level) == LevelSum(caps, level)
  {
    if level != [] {
      SameInLevel(values, caps, level[1..]);
    }
  }

  lemma {:induction false} SameInLevels(values: TierValues, caps: TierValues, levels: seq<seq<Tier>>, bounds: TierValues)
    requires forall t :: t in Flatten(levels) ==> At(values, t) == At(caps, t)
    ensures ByLevel(levels, values, bounds) == ByLevel(levels, caps, bounds)
  {
    if levels != [] {
      SameInLevel(values, caps, levels[0]);
      SameInLevels(values, caps, levels[1..], bounds);
    }
  }

  lemma {:induction false} OneInLevel(level: seq<Tier>, t: Tier)
    requires t in level && NoRepeats(level)
    ensures LevelSum(map[t := 1], level) == 1
  {
    assert level == [level[0]] + level[1..];
    Apart([level[0]], level[1..]);
    if t == level[0] {
      NothingInLevel(map[t := 1], level[1..]);
    } else {
      OneInLevel(level[1..], t);
    }
  }

  /** Every level has a tier that can hold at least one. */
  ghost predicate EveryLevelCounts(levels: seq<seq<Tier>>, caps: TierValues) {
    forall level :: level in levels ==> exists t :: t in level && At(caps, t) >= 1
  }

  lemma {:induction false} FrontApart(a: seq<Tier>, b: seq<Tier>)
    requires NoRepeats(a + b)
    ensures NoRepeats(a)
  {
    assert forall i :: 0 <= i < |a| ==> (a + b)[i] == a[i];
  }

  lemma {:induction false} OutgrownHere(level: seq<Tier>, rest: seq<seq<Tier>>, caps: TierValues, bounds: TierValues, t: Tier)
    returns (left: TierValues, right: TierValues)
    requires Within(map[], caps) && Within(map[], bounds) && NoRepeats(level + Flatten(rest))
    requires t in level && At(caps, t) >= 1 && ByLevel(rest, caps, bounds) > Reach(rest, bounds)
    ensures Within(left, caps) && Within(right, caps) && KeysIn(left, Flatten(rest)) && KeysIn(right, level)
    ensures LevelSum(left, level) == 0 && LevelSum(right, level) == 1
    ensures ByLevel(rest, left, bounds) > Reach(rest, bounds) && ByLevel(rest, right, bounds) == 0
  {
    hide Reach;
    Apart(level, Flatten(rest));
    FrontApart(level, Flatten(rest));
    left, right := map u | u in Flatten(rest) :: At(caps, u), map[t := 1];
    NothingInLevel(left, level);
    SameInLevels(left, caps, rest, bounds);
    OneInLevel(level, t);
    NothingInLevels(right, rest, bounds);
  }

  lemma {:induction false} NothingAbove(left: TierValues, right: TierValues, levels: seq<seq<Tier>>, bounds: TierValues)
    requires levels != [] && NoRepeats(Flatten(levels))
    requires KeysIn(left, Flatten(levels[1..])) && KeysIn(right, Flatten(levels[1..]))
    ensures ByLevel(levels, left, bounds) == ByLevel(levels[1..], left, bounds)
    ensures ByLevel(levels, right, bounds) == ByLevel(levels[1..], right, bounds)
    ensures CompareOver(levels, left, right) == CompareOver(levels[1..], left, right)
  {
    hide Reach;
    Apart(levels[0], Flatten(levels[1..]));
    NothingInLevel(left, levels[0]);
    NothingInLevel(right, levels[0]);
  }

  /** Where something beneath a level can outgrow its scale, two plans within the caps are
      ordered wrongly: one unit of the level against everything beneath it. */
  lemma {:induction false} UncoveredMisorders(levels: seq<seq<Tier>>, caps: TierValues, bounds: TierValues)
    returns (left: TierValues, right: TierValues)
    requires Within(map[], caps) && Within(map[], bounds) && NoRepeats(Flatten(levels))
    requires EveryLevelCounts(levels, caps) && !Covers(levels, caps, bounds)
    ensures Within(left, caps) && Within(right, caps) && KeysIn(left, Flatten(levels)) && KeysIn(right, Flatten(levels))
    ensures Sign(ByLevel(levels, left, bounds) - ByLevel(levels, right, bounds)) != CompareOver(levels, left, right)
  {
    hide Reach, Within, LevelSum;
    var level, rest := levels[0], levels[1..];
    Apart(level, Flatten(rest));
    assert level in levels && forall l :: l in rest ==> l in levels;
    if !Covers(rest, caps, bounds) {
      left, right := UncoveredMisorders(rest, caps, bounds);
      NothingAbove(left, right, levels, bounds);
    } else {
      var t :| t in level && At(caps, t) >= 1;
      left, right := OutgrownHere(level, rest, caps, bounds, t);
    }
  }

  /** The scales can be trusted exactly when, at every level, what lies beneath it cannot
      outgrow that level's scale: then and only then do totals order every two plans within
      the caps as the levels do. */
  lemma {:induction false} ScalesAreTrustedExactly(mode: Mode, caps: TierValues, bounds: TierValues)
    requires Within(map[], caps) && Within(map[], bounds) && EveryLevelCounts(Levels(mode), caps)
    ensures Covers(Levels(mode), caps, bounds) <==>
      forall left, right :: Within(left, caps) && Within(right, caps) ==> OrderAgrees(mode, bounds, left, right)
  {
    hide Levels, CompareOver, ByLevel, TotalOver, Within, EveryLevelCounts, Covers;
    LevelsHoldEveryTier(mode);
    if Covers(Levels(mode), caps, bounds) {
      forall left, right | Within(left, caps) && Within(right, caps)
        ensures OrderAgrees(mode, bounds, left, right)
      {
        CoveredTotalsOrder(mode, caps, bounds, left, right);
      }
    } else {
      var left, right := UncoveredMisorders(Levels(mode), caps, bounds);
      TotalOfLevels(Levels(mode), bounds, left);
      TotalOfLevels(Levels(mode), bounds, right);
      assert !OrderAgrees(mode, bounds, left, right);
    }
  }
}
