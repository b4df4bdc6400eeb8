/** Charging and consumption (vrp/battery.py). Power is piecewise constant over
    state-of-charge bands, and every division rounds against the plan. */
module Battery {
  import opened Common

  const FULL := 1000
  const SECONDS_PER_HOUR := 3600
  const METRES_PER_KM := 1000

  datatype Band = Band(ceiling: int, power: int)

  predicate Coherent(bands: seq<Band>) {
    && |bands| > 0
    && (forall i, j :: 0 <= i < j < |bands| ==> bands[i].ceiling < bands[j].ceiling)
    && bands[|bands| - 1].ceiling == FULL
    && (forall i :: 0 <= i < |bands| ==> bands[i].power > 0)
  }

  /** A curve the constructor accepts: ascending, reaching full, never dead. */
  type Curve = bands: seq<Band> | Coherent(bands) witness [Band(FULL, 1)]

  /** The first band whose ceiling lies above `soc`, or the count of bands. */
  function BandFrom(c: Curve, soc: int, k: nat): (b: nat)
    requires k <= |c|
    requires forall i :: 0 <= i < k ==> c[i].ceiling <= soc
    ensures b <= |c|
    ensures forall i :: 0 <= i < b ==> c[i].ceiling <= soc
    ensures b < |c| ==> soc < c[b].ceiling
    decreases |c| - k
  {
    if k == |c| || soc < c[k].ceiling then k else BandFrom(c, soc, k + 1)
  }

  function PowerAt(c: Curve, soc: int): (power: int)
    ensures power > 0
  {
    var b := BandFrom(c, soc, 0);
    if b < |c| then c[b].power else c[|c| - 1].power
  }

  function NextCeiling(c: Curve, soc: int): int {
    var b := BandFrom(c, soc, 0);
    if b < |c| then c[b].ceiling else FULL
  }

  /** Below full there is always a ceiling above, at most full, and no ceiling in between. */
  lemma {:induction false} CeilingAbove(c: Curve, soc: int)
    requires soc < FULL
    ensures soc < NextCeiling(c, soc) <= FULL
    ensures forall i :: 0 <= i < |c| && soc < c[i].ceiling ==> NextCeiling(c, soc) <= c[i].ceiling
  {
    var b := BandFrom(c, soc, 0);
    if b < |c| - 1 {
      assert c[b].ceiling < c[|c| - 1].ceiling;
    }
  }

  /** The rate does not change before the next ceiling. */
  lemma {:induction false} SameBand(c: Curve, soc: int, later: int)
    requires soc <= later < NextCeiling(c, soc) && soc < FULL
    ensures PowerAt(c, later) == PowerAt(c, soc) && NextCeiling(c, later) == NextCeiling(c, soc)
  {
    CeilingAbove(c, soc);
    var b, b' := BandFrom(c, soc, 0), BandFrom(c, later, 0);
    if b != b' {
      assert false;
    }
  }

  // ------------------------------------------------------------------
  // One slice of a charge
  // ------------------------------------------------------------------

  /** Seconds to add `amount` parts per thousand at `power`, both divisions rounding up. */
  function SliceSeconds(batteryWh: int, amount: int, power: int): int
    requires power > 0
  {
    CeilDiv(CeilDiv(batteryWh * amount, FULL) * SECONDS_PER_HOUR, power)
  }

  lemma {:induction false} CeilDivAdds(a: int, b: int, d: int)
    requires d > 0
    ensures CeilDiv(a + b, d) <= CeilDiv(a, d) + CeilDiv(b, d)
  {
    assert (CeilDiv(a, d) + CeilDiv(b, d)) * d == CeilDiv(a, d) * d + CeilDiv(b, d) * d;
    CeilDivLeast(a + b, d, CeilDiv(a, d) + CeilDiv(b, d));
  }

  lemma {:induction false} CeilDivGrows(a: int, b: int, d: int)
    requires d > 0 && a <= b
    ensures CeilDiv(a, d) <= CeilDiv(b, d)
  {
    CeilDivLeast(a, d, CeilDiv(b, d));
  }

  lemma {:induction false} SliceGrows(batteryWh: int, x: int, y: int, power: int)
    requires batteryWh > 0 && power > 0 && 0 <= x <= y
    ensures 0 <= SliceSeconds(batteryWh, x, power) <= SliceSeconds(batteryWh, y, power)
  {
    MulMonotone(x, y, batteryWh);
    MulMonotone(0, x, batteryWh);
    assert batteryWh * x == x * batteryWh && batteryWh * y == y * batteryWh;
    CeilDivGrows(0, batteryWh * x, FULL);
    CeilDivGrows(batteryWh * x, batteryWh * y, FULL);
    var low, high := CeilDiv(batteryWh * x, FULL), CeilDiv(batteryWh * y, FULL);
    CeilDivGrows(0, low * SECONDS_PER_HOUR, power);
    CeilDivGrows(low * SECONDS_PER_HOUR, high * SECONDS_PER_HOUR, power);
  }

  lemma {:induction false} SliceAdds(batteryWh: int, x: int, y: int, power: int)
    requires batteryWh > 0 && power > 0 && 0 <= x && 0 <= y
    ensures SliceSeconds(batteryWh, x + y, power)
         <= SliceSeconds(batteryWh, x, power) + SliceSeconds(batteryWh, y, power)
  {
    assert batteryWh * (x + y) == batteryWh * x + batteryWh * y;
    CeilDivAdds(batteryWh * x, batteryWh * y, FULL);
    var a, b := CeilDiv(batteryWh * x, FULL), CeilDiv(batteryWh * y, FULL);
    CeilDivGrows(CeilDiv(batteryWh * (x + y), FULL) * SECONDS_PER_HOUR, (a + b) * SECONDS_PER_HOUR, power);
    assert (a + b) * SECONDS_PER_HOUR == a * SECONDS_PER_HOUR + b * SECONDS_PER_HOUR;
    CeilDivAdds(a * SECONDS_PER_HOUR, b * SECONDS_PER_HOUR, power);
  }

  // ------------------------------------------------------------------
  // The band walk
  // ------------------------------------------------------------------

  /** Where one turn of the walk leaves the battery. */
  function Advance(c: Curve, soc: int, target: int): int {
    Min(target, NextCeiling(c, soc))
  }

  function WalkTo(c: Curve, soc: int, target: int, turns: nat): int
    decreases turns
  {
    if turns == 0 then soc
    else if soc >= target then soc
    else WalkTo(c, Advance(c, soc, target), target, turns - 1)
  }

  /** The walk reaches its target exactly when the target is not above full, or
      the battery is there already; past full it stands still for ever. */
  lemma {:induction false} WalkReachesTarget(c: Curve, soc: int, target: int)
    ensures (exists turns: nat :: WalkTo(c, soc, target, turns) >= target)
       <==> (target <= FULL || target <= soc)
  {
    if target <= soc {
      assert WalkTo(c, soc, target, 0) >= target;
    } else if target <= FULL {
      var turns := TurnsNeeded(c, soc, target);
      assert WalkTo(c, soc, target, turns) >= target;
    } else {
      forall turns: nat
        ensures WalkTo(c, soc, target, turns) < target
      {
        WalkStuck(c, soc, target, turns);
      }
    }
  }

  lemma {:induction false} TurnsNeeded(c: Curve, soc: int, target: int) returns (turns: nat)
    requires target <= FULL
    ensures WalkTo(c, soc, target, turns) >= target
    decreases Max(target - soc, 0)
  {
    if soc >= target {
      turns := 0;
    } else {
      CeilingAbove(c, soc);
      var rest := TurnsNeeded(c, Advance(c, soc, target), target);
      turns := rest + 1;
    }
  }

  lemma {:induction false} WalkStuck(c: Curve, soc: int, target: int, turns: nat)
    requires FULL < target && soc < target
    ensures WalkTo(c, soc, target, turns) < target
    decreases turns
  {
    if turns > 0 {
      if soc < FULL {
        CeilingAbove(c, soc);
      }
      var b := BandFrom(c, soc, 0);
      assert b < |c| ==> c[b].ceiling <= c[|c| - 1].ceiling;
      WalkStuck(c, Advance(c, soc, target), target, turns - 1);
    }
  }

  function ChargeTime(batteryWh: int, c: Curve, soc: int, target: int): (seconds: nat)
    requires batteryWh > 0 && target <= FULL
    ensures seconds == 0 <==> target <= soc
    decreases Max(target - soc, 0)
  {
    if soc >= target then 0
    else
      CeilingAbove(c, soc);
      var ceiling := Advance(c, soc, target);
      SlicePositive(batteryWh, ceiling - soc, PowerAt(c, soc));
      SliceSeconds(batteryWh, ceiling - soc, PowerAt(c, soc)) + ChargeTime(batteryWh, c, ceiling, target)
  }

  lemma {:induction false} SlicePositive(batteryWh: int, amount: int, power: int)
    requires batteryWh > 0 && amount > 0 && power > 0
    ensures SliceSeconds(batteryWh, amount, power) > 0
  {
    MulMonotone(1, amount, batteryWh);
    assert batteryWh * amount == amount * batteryWh;
    var wh := CeilDiv(batteryWh * amount, FULL);
    assert wh > 0;
    if SliceSeconds(batteryWh, amount, power) <= 0 {
      MulMonotone(SliceSeconds(batteryWh, amount, power), 0, power);
      assert false;
    }
  }

  /** The source's `charge_seconds`. The requirement is exactly the termination
      condition of `WalkReachesTarget`. */
  method ChargeSeconds(batteryWh: int, c: Curve, fromPpt: int, toPpt: int) returns (r: Result<nat>)
    requires toPpt <= FULL || toPpt <= fromPpt
    ensures r.Failure? <==> toPpt < fromPpt || batteryWh <= 0
    ensures r.Success? && toPpt <= FULL ==> r.value == ChargeTime(batteryWh, c, Max(fromPpt, 0), toPpt)
    ensures r.Success? && toPpt > FULL ==> r.value == 0
  {
    if toPpt < fromPpt {
      return Failure("the target is below the arrival charge");
    }
    if batteryWh <= 0 {
      return Failure("a battery must have positive capacity");
    }
    var seconds: int, soc := 0, Max(fromPpt, 0);
    while soc < toPpt
      invariant seconds >= 0
      invariant toPpt > FULL ==> soc >= toPpt && seconds == 0
      invariant toPpt <= FULL ==>
        ChargeTime(batteryWh, c, Max(fromPpt, 0), toPpt) == seconds + ChargeTime(batteryWh, c, soc, toPpt)
      decreases toPpt - soc
    {
      CeilingAbove(c, soc);
      var power := PowerAt(c, soc);
      var ceiling := Min(toPpt, NextCeiling(c, soc));
      SlicePositive(batteryWh, ceiling - soc, power);
      var sliceWh := CeilDiv(batteryWh * (ceiling - soc), FULL);
      seconds := seconds + CeilDiv(sliceWh * SECONDS_PER_HOUR, power);
      soc := ceiling;
    }
    return Success(seconds);
  }

  /** A higher target never takes less time. */
  lemma {:induction false} ChargeGrows(batteryWh: int, c: Curve, soc: int, low: int, high: int)
    requires batteryWh > 0 && low <= high <= FULL
    ensures ChargeTime(batteryWh, c, soc, low) <= ChargeTime(batteryWh, c, soc, high)
    decreases Max(high - soc, 0)
  {
    if soc < low {
      CeilingAbove(c, soc);
      var a, b := Advance(c, soc, low), Advance(c, soc, high);
      SliceGrows(batteryWh, a - soc, b - soc, PowerAt(c, soc));
      if a == b {
        ChargeGrows(batteryWh, c, b, low, high);
      }
    }
  }

  ghost predicate IsCeiling(c: Curve, soc: int) {
    exists i :: 0 <= i < |c| && c[i].ceiling == soc
  }

  /** Charging in two stages never saves time, and costs none when the split is a band ceiling. */
  lemma {:induction false} SplitCharge(batteryWh: int, c: Curve, soc: int, mid: int, target: int)
    requires batteryWh > 0 && soc <= mid <= target <= FULL
    ensures ChargeTime(batteryWh, c, soc, target)
         <= ChargeTime(batteryWh, c, soc, mid) + ChargeTime(batteryWh, c, mid, target)
    ensures IsCeiling(c, mid) ==>
      ChargeTime(batteryWh, c, soc, target)
        == ChargeTime(batteryWh, c, soc, mid) + ChargeTime(batteryWh, c, mid, target)
    decreases target - soc
  {
    if soc < mid < target {
      CeilingAbove(c, soc);
      var ceiling := NextCeiling(c, soc);
      if ceiling <= mid {
        SplitCharge(batteryWh, c, ceiling, mid, target);
      } else {
        SplitSlice(batteryWh, c, soc, mid, target);
      }
    }
  }

  /** A split inside the first slice of the walk. */
  lemma {:induction false} SplitSlice(batteryWh: int, c: Curve, soc: int, mid: int, target: int)
    requires batteryWh > 0 && soc < mid < target <= FULL && mid < NextCeiling(c, soc)
    ensures ChargeTime(batteryWh, c, soc, target)
         <= ChargeTime(batteryWh, c, soc, mid) + ChargeTime(batteryWh, c, mid, target)
    ensures !IsCeiling(c, mid)
  {
    CeilingAbove(c, soc);
    CeilingAbove(c, mid);
    SameBand(c, soc, mid);
    var power, stop := PowerAt(c, soc), Advance(c, soc, target);
    assert Advance(c, mid, target) == stop && Advance(c, soc, mid) == mid;
    assert (mid - soc) + (stop - mid) == stop - soc;
    SliceAdds(batteryWh, mid - soc, stop - mid, power);
    var rest := ChargeTime(batteryWh, c, stop, target);
    assert ChargeTime(batteryWh, c, soc, target) == SliceSeconds(batteryWh, stop - soc, power) + rest;
    assert ChargeTime(batteryWh, c, mid, target) == SliceSeconds(batteryWh, stop - mid, power) + rest;
    assert ChargeTime(batteryWh, c, soc, mid) == SliceSeconds(batteryWh, mid - soc, power);
  }

  /** Inside one band a charge takes its energy, rounded up to whole watt-hours, at that band's power,
      rounded up to whole seconds. */
  lemma {:induction false} WithinBand(batteryWh: int, c: Curve, i: nat, soc: int, target: int)
    requires batteryWh > 0 && i < |c| && (i == 0 || c[i - 1].ceiling <= soc) && soc < target <= c[i].ceiling
    ensures target <= 1000
    ensures ChargeTime(batteryWh, c, soc, target)
         == CeilDiv(CeilDiv(batteryWh * (target - soc), 1000) * 3600, c[i].power)
  {
    assert c[i].ceiling <= c[|c| - 1].ceiling;
    var b := BandFrom(c, soc, 0);
    var floor := if i == 0 then 0 else c[i - 1].ceiling;
    assert b < |c| && c[b].ceiling > soc && (i == 0 || floor <= soc);
    assert Advance(c, soc, target) == target;
  }

  /** A charge past a band's ceiling is the charge to the ceiling and the charge from it. */
  lemma {:induction false} AcrossBands(batteryWh: int, c: Curve, i: nat, soc: int, target: int)
    requires batteryWh > 0 && i < |c| && soc <= c[i].ceiling <= target <= 1000
    ensures ChargeTime(batteryWh, c, soc, target)
         == ChargeTime(batteryWh, c, soc, c[i].ceiling) + ChargeTime(batteryWh, c, c[i].ceiling, target)
  {
    SplitCharge(batteryWh, c, soc, c[i].ceiling, target);
  }

  function StrongestPower(c: seq<Band>): (power: int)
    requires |c| > 0
    ensures forall i :: 0 <= i < |c| ==> c[i].power <= power
    ensures exists i :: 0 <= i < |c| && c[i].power == power
  {
    if |c| == 1 then c[0].power
    else
      var rest := StrongestPower(c[1..]);
      assert forall i :: 1 <= i < |c| ==> c[i] == c[1..][i - 1];
      Max(c[0].power, rest)
  }

  /** `seconds` at the rate `power` deliver at least `amount` parts per thousand. */
  ghost predicate Delivers(seconds: int, power: int, batteryWh: int, amount: int) {
    batteryWh * amount * SECONDS_PER_HOUR <= seconds * power * FULL
  }

  lemma {:induction false} SliceDelivers(batteryWh: int, amount: int, power: int, top: int)
    requires batteryWh > 0 && amount > 0 && 0 < power <= top
    ensures Delivers(SliceSeconds(batteryWh, amount, power), top, batteryWh, amount)
  {
    SlicePositive(batteryWh, amount, power);
    var wh, slice := CeilDiv(batteryWh * amount, FULL), SliceSeconds(batteryWh, amount, power);
    MulMonotone(power, top, slice);
    assert wh * SECONDS_PER_HOUR <= slice * power == power * slice;
    assert top * slice == slice * top;
  }

  lemma {:induction false} DeliveriesAdd(s: int, t: int, both: int, power: int, batteryWh: int, x: int, y: int, total: int)
    requires Delivers(s, power, batteryWh, x) && Delivers(t, power, batteryWh, y)
    requires both == s + t && total == x + y
    ensures Delivers(both, power, batteryWh, total)
  {
    assert batteryWh * total == batteryWh * x + batteryWh * y;
    assert both * power == s * power + t * power;
  }

  /** No charge beats its energy over the strongest rate the curve offers. */
  lemma {:induction false} ChargeIsNeverTooFast(batteryWh: int, c: Curve, soc: int, target: int)
    requires batteryWh > 0 && soc <= target <= FULL
    ensures Delivers(ChargeTime(batteryWh, c, soc, target), StrongestPower(c), batteryWh, target - soc)
    decreases target - soc
  {
    hide SliceSeconds;
    if soc == target {
      assert Delivers(0, StrongestPower(c), batteryWh, 0);
    } else {
      hide Delivers;
      CeilingAbove(c, soc);
      var ceiling, power, top := Advance(c, soc, target), PowerAt(c, soc), StrongestPower(c);
      ChargeIsNeverTooFast(batteryWh, c, ceiling, target);
      SliceDelivers(batteryWh, ceiling - soc, power, top);
      var slice, rest := SliceSeconds(batteryWh, ceiling - soc, power), ChargeTime(batteryWh, c, ceiling, target);
      DeliveriesAdd(slice, rest, ChargeTime(batteryWh, c, soc, target), top,
                    batteryWh, ceiling - soc, target - ceiling, target - soc);
    }
  }

  // ------------------------------------------------------------------
  // Consumption
  // ------------------------------------------------------------------

  /** The source's `consumed_ppt` on a positive battery. */
  function ConsumedPpt(batteryWh: int, whPerKm: nat, metres: int): (drop: nat)
    requires batteryWh > 0
    ensures metres > 0 ==> whPerKm * metres * FULL <= drop * batteryWh * METRES_PER_KM
  {
    if metres <= 0 then 0
    else
      var used := CeilDiv(whPerKm * metres, METRES_PER_KM);
      var drop := CeilDiv(used * FULL, batteryWh);
      assert used >= 0 && drop >= 0 by {
        CeilDivGrows(0, whPerKm * metres, METRES_PER_KM);
        CeilDivGrows(0, used * FULL, batteryWh);
      }
      drop
  }

  /** The drop is the least whole one whose energy covers some whole number of watt-hours that
      covers the distance. */
  lemma {:induction false} ConsumedIsLeast(batteryWh: int, whPerKm: nat, metres: nat, used: int, drop: int)
    returns (least: int)
    requires batteryWh > 0
    ensures least * 1000 >= whPerKm * metres
    ensures ConsumedPpt(batteryWh, whPerKm, metres) * batteryWh >= least * 1000
    ensures used * 1000 >= whPerKm * metres && drop * batteryWh >= used * 1000 ==>
      ConsumedPpt(batteryWh, whPerKm, metres) <= drop
  {
    least := CeilDiv(whPerKm * metres, METRES_PER_KM);
    if used * METRES_PER_KM >= whPerKm * metres && drop * batteryWh >= used * FULL {
      CeilDivLeast(whPerKm * metres, METRES_PER_KM, used);
      CeilDivLeast(least * FULL, batteryWh, drop);
      if metres == 0 {
        assert used >= 0;
        MulMonotone(0, used, FULL);
        CeilDivGrows(0, used * FULL, batteryWh);
        CeilDivLeast(used * FULL, batteryWh, drop);
      }
    }
  }
}
