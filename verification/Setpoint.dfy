// Setpoint alignment of coordinator.py: rounding to the unit's step, and moving the unit's
// limits inward to a setpoint it takes.

module Setpoint {
  import opened ComfortTypes
  import opened Peak

  // Python's round(): to the nearest integer, halves to even.
  function RoundHalfEven(x: real): int {
    var f := x.Floor;
    var d := x - f as real;
    if d < 0.5 then f
    else if d > 0.5 then f + 1
    else if f % 2 == 0 then f
    else f + 1
  }

  const SIX_PLACES := 1000000.0

  function RoundSix(x: real): real {
    RoundHalfEven(x * SIX_PLACES) as real / SIX_PLACES
  }

  function Ceil(x: real): int {
    -((-x).Floor)
  }

  function Multiple(n: int, step: real): real {
    n as real * step
  }

  // The step count chosen for a limit, after the correction against what would be sent.
  function InnerCount(limit: real, step: real, upward: bool): int
    requires step > 0.0
  {
    var k := RoundSix(limit / step);
    var n := if upward then Ceil(k) else k.Floor;
    if upward && Multiple(n, step) < limit then n + 1
    else if !upward && Multiple(n, step) > limit then n - 1
    else n
  }

  function StepInside(limit: real, step: real, upward: bool): real {
    if step <= 0.0 then limit else RoundSix(Multiple(InnerCount(limit, step, upward), step))
  }

  function RoundToStep(value: real, step: real): real {
    if step <= 0.0 then value else Multiple(RoundHalfEven(value / step), step)
  }

  // ----- rounding -----

  lemma {:induction false} RoundNear(x: real)
    ensures RoundHalfEven(x) as real - 0.5 <= x <= RoundHalfEven(x) as real + 0.5
  {
  }

  // Halfway between two integers the even one is taken.
  lemma {:induction false} HalvesToEven(n: int)
    ensures RoundHalfEven(n as real + 0.5) == if n % 2 == 0 then n else n + 1
  {
  }

  // Without a usable step a setpoint and a limit are sent as they are.
  lemma {:induction false} NoStepNoRounding(value: real, step: real, upward: bool)
    requires step <= 0.0
    ensures RoundToStep(value, step) == value && StepInside(value, step, upward) == value
  {
  }

  lemma {:induction false} RoundMonotone(x: real, y: real)
    requires x <= y
    ensures RoundHalfEven(x) <= RoundHalfEven(y)
  {
    if x.Floor == y.Floor {
    } else {
      assert x.Floor < y.Floor;
    }
  }

  // Anything closer than a half to an integer rounds to it.
  lemma {:induction false} RoundsTo(x: real, n: int)
    requires n as real - 0.5 < x < n as real + 0.5
    ensures RoundHalfEven(x) == n
  {
  }

  lemma {:induction false} SixNear(x: real)
    ensures RoundSix(x) - 0.0000005 <= x <= RoundSix(x) + 0.0000005
  {
    RoundNear(x * SIX_PLACES);
  }

  // Rounding to six places never crosses an integer.
  lemma {:induction false} SixKeepsSide(x: real, m: int)
    ensures x <= m as real ==> RoundSix(x) <= m as real
    ensures x >= m as real ==> RoundSix(x) >= m as real
  {
    var y := m as real * SIX_PLACES;
    assert y == (m * 1000000) as real;
    RoundsTo(y, m * 1000000);
    if x <= m as real { RoundMonotone(x * SIX_PLACES, y); }
    if x >= m as real { RoundMonotone(y, x * SIX_PLACES); }
  }

  // ----- the aligned limit -----

  lemma {:induction false} QuotientOrder(n: int, step: real, limit: real)
    requires step > 0.0
    ensures Multiple(n, step) >= limit <==> n as real >= limit / step
    ensures Multiple(n, step) <= limit <==> n as real <= limit / step
  {
    var q := limit / step;
    assert q * step == limit;
    assert Multiple(n, step) - limit == (n as real - q) * step;
    SignOfProduct(n as real - q, step);
  }

  lemma {:induction false} SignOfProduct(a: real, b: real)
    requires b > 0.0
    ensures a * b >= 0.0 <==> a >= 0.0
    ensures a * b <= 0.0 <==> a <= 0.0
  {
  }

  // Despite the six-place rounding of the quotient, the count is exactly the least multiple
  // at or above a minimum, or the greatest at or below a maximum.
  lemma {:induction false} InnerCountIsExact(limit: real, step: real, upward: bool, m: int)
    requires step > 0.0
    ensures var n := InnerCount(limit, step, upward);
            && (upward ==> Multiple(n, step) >= limit && (Multiple(m, step) >= limit ==> n <= m))
            && (!upward ==> Multiple(n, step) <= limit && (Multiple(m, step) <= limit ==> n >= m))
  {
    var q := limit / step;
    var k := RoundSix(q);
    SixNear(q);
    var c := if upward then Ceil(k) else k.Floor;
    QuotientOrder(c, step, limit);
    QuotientOrder(c + 1, step, limit);
    QuotientOrder(c - 1, step, limit);
    QuotientOrder(m, step, limit);
    SixKeepsSide(q, m);
  }

  lemma {:induction false} NearMultipleRoundsBack(v: real, n: int, step: real)
    requires step > 0.000001 && -0.0000005 <= v - Multiple(n, step) <= 0.0000005
    ensures RoundToStep(v, step) == Multiple(n, step)
  {
    var q, c := v / step, n as real;
    assert q * step == v;
    assert (q - c) * step == q * step - c * step;
    WithinHalf(q - c, step, v - Multiple(n, step));
    RoundsTo(q, n);
  }

  // The published limit has six decimal places and is that multiple to within half of the last.
  lemma {:induction false} PublishedHasSixPlaces(limit: real, step: real, upward: bool) returns (n: int)
    requires step > 0.0
    ensures StepInside(limit, step, upward) == n as real / 1000000.0
    ensures Abs(StepInside(limit, step, upward) - Multiple(InnerCount(limit, step, upward), step)) <= 0.0000005
  {
    n := RoundHalfEven(Multiple(InnerCount(limit, step, upward), step) * SIX_PLACES);
    SixNear(Multiple(InnerCount(limit, step, upward), step));
  }

  // Sent through the step rounding, the published limit is that same multiple again.
  lemma {:induction false} AlignedLimitIsSent(limit: real, step: real, upward: bool)
    requires step > 0.000001
    ensures RoundToStep(StepInside(limit, step, upward), step) == Multiple(InnerCount(limit, step, upward), step)
  {
    var n := InnerCount(limit, step, upward);
    SixNear(Multiple(n, step));
    NearMultipleRoundsBack(StepInside(limit, step, upward), n, step);
  }

  lemma {:induction false} WithinHalf(d: real, step: real, e: real)
    requires step > 0.000001 && d * step == e && -0.0000005 <= e <= 0.0000005
    ensures -0.5 < d < 0.5
  {
    assert 0.5 * step > 0.0000005;
    assert (0.5 - d) * step == 0.5 * step - e;
    assert (0.5 + d) * step == 0.5 * step + e;
    StrictSign(0.5 - d, step);
    StrictSign(0.5 + d, step);
  }

  lemma {:induction false} StrictSign(a: real, b: real)
    requires b > 0.0 && a * b > 0.0
    ensures a > 0.0
  {
  }

  lemma {:induction false} SentMonotone(a: real, b: real, step: real)
    requires step > 0.0 && a <= b
    ensures RoundToStep(a, step) <= RoundToStep(b, step)
  {
    var p, q := a / step, b / step;
    assert p * step == a && q * step == b;
    assert (q - p) * step == b - a;
    SignOfProduct(q - p, step);
    RoundMonotone(p, q);
    var m, n := RoundHalfEven(p), RoundHalfEven(q);
    assert Multiple(n, step) - Multiple(m, step) == (n - m) as real * step;
    SignOfProduct((n - m) as real, step);
  }

  // The setpoint of a peak's floor, and of its ceiling, with the unit's own limit aligned.
  function FloorSetpoint(low: real, offset: real, minTemp: real, step: real): real {
    RoundToStep(RelaxedLow(low, offset, Some(StepInside(minTemp, step, true))), step)
  }

  function CeilingSetpoint(high: real, offset: real, maxTemp: real, step: real): real {
    RoundToStep(RelaxedHigh(high, offset, Some(StepInside(maxTemp, step, false))), step)
  }

  // Relaxing never turns a floor the unit accepts into one it refuses, nor the other way:
  // the peak's floor is an allowed setpoint exactly when the normal floor is. In particular
  // it is whenever the normal floor lies inside the aligned limit.
  lemma {:induction false} RelaxedFloorAllowed(low: real, offset: real, minTemp: real, step: real)
    requires step > 0.000001 && offset >= 0.0
    ensures FloorSetpoint(low, offset, minTemp, step) >= minTemp <==> RoundToStep(low, step) >= minTemp
    ensures low >= StepInside(minTemp, step, true) ==> FloorSetpoint(low, offset, minTemp, step) >= minTemp
  {
    var aligned := StepInside(minTemp, step, true);
    InnerCountIsExact(minTemp, step, true, 0);
    AlignedLimitIsSent(minTemp, step, true);
    var relaxed := RelaxedLow(low, offset, Some(aligned));
    if low >= aligned {
      SentMonotone(aligned, relaxed, step);
      SentMonotone(aligned, low, step);
    } else {
      assert relaxed == low;
    }
  }

  lemma {:induction false} RelaxedCeilingAllowed(high: real, offset: real, maxTemp: real, step: real)
    requires step > 0.000001 && offset >= 0.0
    ensures CeilingSetpoint(high, offset, maxTemp, step) <= maxTemp <==> RoundToStep(high, step) <= maxTemp
    ensures high <= StepInside(maxTemp, step, false) ==> CeilingSetpoint(high, offset, maxTemp, step) <= maxTemp
  {
    var aligned := StepInside(maxTemp, step, false);
    InnerCountIsExact(maxTemp, step, false, 0);
    AlignedLimitIsSent(maxTemp, step, false);
    var relaxed := RelaxedHigh(high, offset, Some(aligned));
    if high <= aligned {
      SentMonotone(relaxed, aligned, step);
      SentMonotone(high, aligned, step);
    } else {
      assert relaxed == high;
    }
  }
}
