// The ramped band of schedule.py: the scan over ramp windows, and the piecewise-linear
// curve on the 24-hour cycle that it is proved to follow.

module Ramp {
  import opened ComfortTypes
  import opened Schedule

  function PrevIndex(ts: seq<Transition>, i: nat): (p: nat)
    requires i < |ts|
    ensures p < |ts|
  {
    if i == 0 then |ts| - 1 else i - 1
  }

  function NextIndex(ts: seq<Transition>, i: nat): (n: nat)
    requires i < |ts|
    ensures n < |ts|
  {
    if i == |ts| - 1 then 0 else i + 1
  }

  // Seconds from one time of day round the clock to another; a full day between equals.
  function Gap(from: TimeOfDay, to: TimeOfDay): int {
    var g := (to - from) % DAY;
    if g == 0 then DAY else g
  }

  // Half of transition i's ramp in seconds, clamped so that neighbouring ramps never overlap.
  function HalfRamp(ts: seq<Transition>, rampMinutes: real, i: nat): real
    requires i < |ts|
  {
    Min(rampMinutes * 60.0 / 2.0,
        Min(Gap(ts[PrevIndex(ts, i)].at, ts[i].at) as real / 2.0, Gap(ts[i].at, ts[NextIndex(ts, i)].at) as real / 2.0))
  }

  function Blend(from: Band, to: Band, progress: real): Band {
    Band(from.low + (to.low - from.low) * progress, from.high + (to.high - from.high) * progress)
  }

  // Yesterday's, today's or tomorrow's instance of transition i, in seconds from midnight.
  function InstanceAt(ts: seq<Transition>, i: nat, day: int): int
    requires i < |ts|
  {
    ts[i].at + day * DAY
  }

  // now lies in the ramp window of that instance.
  predicate InWindow(ts: seq<Transition>, rampMinutes: real, i: nat, day: int, now: real)
    requires i < |ts|
  {
    HalfRamp(ts, rampMinutes, i) > 0.0 && Abs(InstanceAt(ts, i, day) as real - now) <= HalfRamp(ts, rampMinutes, i)
  }

  // Progress through a window of half-width half, dist before its transition.
  function Progress(half: real, dist: real): real
    requires half > 0.0
  {
    Max(0.0, Min(1.0, (half - dist) / (2.0 * half)))
  }

  function WindowBand(ts: seq<Transition>, rampMinutes: real, i: nat, day: int, now: real): Band
    requires i < |ts| && HalfRamp(ts, rampMinutes, i) > 0.0
  {
    Blend(ts[PrevIndex(ts, i)].band, ts[i].band,
          Progress(HalfRamp(ts, rampMinutes, i), InstanceAt(ts, i, day) as real - now))
  }

  // ----- the curve -----

  // When the transition in force took effect, and when the one after it will.
  function Since(ts: seq<Transition>, now: real): int
    requires ts != []
  {
    var p := ActiveIndex(ts, now);
    if BisectRight(ts, now) > 0 then ts[p].at else ts[p].at - DAY
  }

  function UpcomingIndex(ts: seq<Transition>, now: real): (q: nat)
    requires ts != []
    ensures q < |ts|
  {
    NextIndex(ts, ActiveIndex(ts, now))
  }

  function Until(ts: seq<Transition>, now: real): int
    requires ts != []
  {
    var q := UpcomingIndex(ts, now);
    if BisectRight(ts, now) < |ts| then ts[q].at else ts[q].at + DAY
  }

  // The second half of the ramp just behind, the first half of the ramp just ahead, and the
  // stepped band in between.
  function Curve(ts: seq<Transition>, rampMinutes: real, now: real): Band
    requires ts != []
  {
    var p, q := ActiveIndex(ts, now), UpcomingIndex(ts, now);
    var behind, ahead := now - Since(ts, now) as real, Until(ts, now) as real - now;
    var hp, hq := HalfRamp(ts, rampMinutes, p), HalfRamp(ts, rampMinutes, q);
    if hp > 0.0 && behind <= hp then Blend(ts[PrevIndex(ts, p)].band, ts[p].band, Progress(hp, -behind))
    else if hq > 0.0 && ahead <= hq then Blend(ts[p].band, ts[q].band, Progress(hq, ahead))
    else ts[p].band
  }

  // The band of a schedule at now: ramped when a ramp is set and there is something to
  // ramp between, stepped otherwise.
  function ResolveBand(ts: seq<Transition>, rampMinutes: real, now: real): Band
    requires ts != []
  {
    if rampMinutes > 0.0 && |ts| >= 2 then Curve(ts, rampMinutes, now) else Stepped(ts, now)
  }

  // ----- gaps and instances -----

  lemma {:induction false} GapIs(from: TimeOfDay, to: TimeOfDay)
    ensures Gap(from, to) == if to > from then to - from else to + DAY - from
  {
  }

  lemma {:induction false} HalfRampBounds(ts: seq<Transition>, rampMinutes: real, i: nat)
    requires i < |ts| && rampMinutes > 0.0
    ensures 0.0 < HalfRamp(ts, rampMinutes, i)
    ensures 2.0 * HalfRamp(ts, rampMinutes, i) <= Gap(ts[PrevIndex(ts, i)].at, ts[i].at) as real
    ensures 2.0 * HalfRamp(ts, rampMinutes, i) <= Gap(ts[i].at, ts[NextIndex(ts, i)].at) as real
  {
  }

  // The instances on either side of now are one gap apart.
  lemma {:induction false} AroundNow(ts: seq<Transition>, now: real)
    requires |ts| >= 2 && Normalized(ts) && IsClock(now)
    ensures var p, q := ActiveIndex(ts, now), UpcomingIndex(ts, now);
            && Since(ts, now) as real <= now < Until(ts, now) as real
            && PrevIndex(ts, q) == p
            && Until(ts, now) - Since(ts, now) == Gap(ts[p].at, ts[q].at)
            && q < |ts| && p != q
  {
  }

  // The instance is the one just behind now, the one just ahead, or at least one of its own
  // gaps further away than those.
  ghost predicate Placed(ts: seq<Transition>, now: real, i: nat, t: int)
    requires i < |ts|
  {
    || (t == Since(ts, now) && i == ActiveIndex(ts, now))
    || (t == Until(ts, now) && i == UpcomingIndex(ts, now))
    || t + Gap(ts[i].at, ts[NextIndex(ts, i)].at) <= Since(ts, now)
    || t - Gap(ts[PrevIndex(ts, i)].at, ts[i].at) >= Until(ts, now)
  }

  lemma {:induction false} TodaysPlace(ts: seq<Transition>, now: real, i: nat)
    requires |ts| >= 2 && Normalized(ts) && IsClock(now) && i < |ts|
    ensures Placed(ts, now, i, ts[i].at)
  {
    BisectSplits(ts, now);
    GapIs(ts[i].at, ts[NextIndex(ts, i)].at);
    GapIs(ts[PrevIndex(ts, i)].at, ts[i].at);
  }

  lemma {:induction false} OtherDaysPlace(ts: seq<Transition>, now: real, i: nat)
    requires |ts| >= 2 && Normalized(ts) && IsClock(now) && i < |ts|
    ensures Placed(ts, now, i, ts[i].at - DAY) && Placed(ts, now, i, ts[i].at + DAY)
  {
    BisectSplits(ts, now);
    GapIs(ts[i].at, ts[NextIndex(ts, i)].at);
    GapIs(ts[PrevIndex(ts, i)].at, ts[i].at);
    assert ts[0].at < ts[|ts| - 1].at;
  }

  lemma {:induction false} InstancePlace(ts: seq<Transition>, now: real, i: nat, day: int)
    requires |ts| >= 2 && Normalized(ts) && IsClock(now) && i < |ts| && -1 <= day <= 1
    ensures Placed(ts, now, i, InstanceAt(ts, i, day))
  {
    TodaysPlace(ts, now, i);
    OtherDaysPlace(ts, now, i);
  }

  // ----- the windows agree -----

  lemma {:induction false} BlendEnds(from: Band, to: Band)
    ensures Blend(from, to, 0.0) == from && Blend(from, to, 1.0) == to
  {
  }

  lemma {:induction false} ProgressIs(half: real, dist: real)
    requires half > 0.0 && -half <= dist <= half
    ensures Progress(half, dist) == (half - dist) / (2.0 * half)
    ensures dist == half ==> Progress(half, dist) == 0.0
    ensures dist == -half ==> Progress(half, dist) == 1.0
    ensures 0.0 <= Progress(half, dist) <= 1.0
  {
    var q := (half - dist) / (2.0 * half);
    assert q * (2.0 * half) == half - dist;
    QuotientInUnit(q, 2.0 * half, half - dist);
  }

  lemma {:induction false} QuotientInUnit(q: real, d: real, x: real)
    requires d > 0.0 && q * d == x && 0.0 <= x <= d
    ensures 0.0 <= q <= 1.0
    ensures x == 0.0 ==> q == 0.0
    ensures x == d ==> q == 1.0
  {
    assert (1.0 - q) * d == d - x;
  }

  // Two ramps meet only at their endpoints, where both give the same band: whichever window
  // holds now, its band is the curve's.
  lemma {:induction false} WindowsFollowCurve(ts: seq<Transition>, rampMinutes: real, i: nat, day: int, now: real)
    requires |ts| >= 2 && Normalized(ts) && IsClock(now) && rampMinutes > 0.0
    requires i < |ts| && -1 <= day <= 1 && InWindow(ts, rampMinutes, i, day, now)
    ensures WindowBand(ts, rampMinutes, i, day, now) == Curve(ts, rampMinutes, now)
  {
    InstancePlace(ts, now, i, day);
    AroundNow(ts, now);
    HalfRampBounds(ts, rampMinutes, i);
    var p, q := ActiveIndex(ts, now), UpcomingIndex(ts, now);
    HalfRampBounds(ts, rampMinutes, p);
    HalfRampBounds(ts, rampMinutes, q);
    var dist := InstanceAt(ts, i, day) as real - now;
    ProgressIs(HalfRamp(ts, rampMinutes, i), dist);
    if i == q && InstanceAt(ts, i, day) == Until(ts, now) {
      var behind := now - Since(ts, now) as real;
      if behind <= HalfRamp(ts, rampMinutes, p) {
        MeetAtMidpoint(ts, rampMinutes, now);
      }
    }
  }

  // Where the ramp behind and the ramp ahead touch, both end and both are at the band in force.
  lemma {:induction false} MeetAtMidpoint(ts: seq<Transition>, rampMinutes: real, now: real)
    requires |ts| >= 2 && Normalized(ts) && IsClock(now) && rampMinutes > 0.0
    requires now - Since(ts, now) as real <= HalfRamp(ts, rampMinutes, ActiveIndex(ts, now))
    requires Until(ts, now) as real - now <= HalfRamp(ts, rampMinutes, UpcomingIndex(ts, now))
    ensures Curve(ts, rampMinutes, now) == ts[ActiveIndex(ts, now)].band
    ensures Until(ts, now) as real - now == HalfRamp(ts, rampMinutes, UpcomingIndex(ts, now))
    ensures now - Since(ts, now) as real == HalfRamp(ts, rampMinutes, ActiveIndex(ts, now))
  {
    AroundNow(ts, now);
    var p, q := ActiveIndex(ts, now), UpcomingIndex(ts, now);
    HalfRampBounds(ts, rampMinutes, p);
    HalfRampBounds(ts, rampMinutes, q);
    var h := HalfRamp(ts, rampMinutes, p);
    assert now - Since(ts, now) as real == h;
    ProgressIs(h, -h);
    BlendEnds(ts[PrevIndex(ts, p)].band, ts[p].band);
  }

  // Two windows hold the same moment only at an endpoint of each.
  lemma {:induction false} WindowsMeetAtEndpoints(ts: seq<Transition>, rampMinutes: real, now: real,
        i: nat, day: int, j: nat, day': int)
    requires |ts| >= 2 && Normalized(ts) && IsClock(now) && rampMinutes > 0.0
    requires i < |ts| && -1 <= day <= 1 && InWindow(ts, rampMinutes, i, day, now)
    requires j < |ts| && -1 <= day' <= 1 && InWindow(ts, rampMinutes, j, day', now)
    requires i != j || day != day'
    ensures Abs(InstanceAt(ts, i, day) as real - now) == HalfRamp(ts, rampMinutes, i)
    ensures Abs(InstanceAt(ts, j, day') as real - now) == HalfRamp(ts, rampMinutes, j)
    ensures WindowBand(ts, rampMinutes, i, day, now) == WindowBand(ts, rampMinutes, j, day', now)
         == Stepped(ts, now)
  {
    WindowPlace(ts, rampMinutes, i, day, now);
    WindowPlace(ts, rampMinutes, j, day', now);
    DistinctInstances(ts, i, day, j, day');
    MeetAtMidpoint(ts, rampMinutes, now);
    WindowsFollowCurve(ts, rampMinutes, i, day, now);
    WindowsFollowCurve(ts, rampMinutes, j, day', now);
  }

  // A window that holds now is the one behind it or the one ahead of it.
  lemma {:induction false} WindowPlace(ts: seq<Transition>, rampMinutes: real, i: nat, day: int, now: real)
    requires |ts| >= 2 && Normalized(ts) && IsClock(now) && rampMinutes > 0.0
    requires i < |ts| && -1 <= day <= 1 && InWindow(ts, rampMinutes, i, day, now)
    ensures var t := InstanceAt(ts, i, day);
            || (t == Since(ts, now) && i == ActiveIndex(ts, now))
            || (t == Until(ts, now) && i == UpcomingIndex(ts, now))
  {
    InstancePlace(ts, now, i, day);
    AroundNow(ts, now);
    HalfRampBounds(ts, rampMinutes, i);
  }

  lemma {:induction false} DistinctInstances(ts: seq<Transition>, i: nat, day: int, j: nat, day': int)
    requires Normalized(ts) && i < |ts| && j < |ts| && (i != j || day != day')
    ensures InstanceAt(ts, i, day) != InstanceAt(ts, j, day')
  {
  }

  // ----- what follows for the schedule -----

  // now lies in no ramp at all.
  ghost predicate Outside(ts: seq<Transition>, rampMinutes: real, now: real) {
    forall i :: 0 <= i < |ts| ==> NotIn(ts, rampMinutes, i, now)
  }

  // No instance of transition i has a window that holds now.
  ghost predicate NotIn(ts: seq<Transition>, rampMinutes: real, i: nat, now: real)
    requires i < |ts|
  {
    forall day :: -1 <= day <= 1 ==> !InWindow(ts, rampMinutes, i, day, now)
  }

  // An instance of day 0 or of the day before or after is the one behind, and one the one ahead.
  lemma {:induction false} NearbyInstances(ts: seq<Transition>, now: real) returns (dp: int, dq: int)
    requires |ts| >= 2 && Normalized(ts) && IsClock(now)
    ensures -1 <= dp <= 1 && InstanceAt(ts, ActiveIndex(ts, now), dp) == Since(ts, now)
    ensures -1 <= dq <= 1 && InstanceAt(ts, UpcomingIndex(ts, now), dq) == Until(ts, now)
  {
    dp := if BisectRight(ts, now) > 0 then 0 else -1;
    dq := if BisectRight(ts, now) < |ts| then 0 else 1;
  }

  // Outside every ramp the curve is the stepped band.
  lemma {:induction false} OutsideIsStepped(ts: seq<Transition>, rampMinutes: real, now: real)
    requires |ts| >= 2 && Normalized(ts) && IsClock(now) && rampMinutes > 0.0
    requires Outside(ts, rampMinutes, now)
    ensures Curve(ts, rampMinutes, now) == Stepped(ts, now)
  {
    AroundNow(ts, now);
    var dp, dq := NearbyInstances(ts, now);
    assert NotIn(ts, rampMinutes, ActiveIndex(ts, now), now) && NotIn(ts, rampMinutes, UpcomingIndex(ts, now), now);
    assert !InWindow(ts, rampMinutes, ActiveIndex(ts, now), dp, now);
    assert !InWindow(ts, rampMinutes, UpcomingIndex(ts, now), dq, now);
  }

  // The half-ramps of every transition, clamped against the neighbours.
  method HalfRamps(ts: seq<Transition>, rampMinutes: real) returns (halfRamps: seq<real>)
    ensures |halfRamps| == |ts| && forall k :: 0 <= k < |ts| ==> halfRamps[k] == HalfRamp(ts, rampMinutes, k)
  {
    halfRamps := [];
    for i := 0 to |ts|
      invariant |halfRamps| == i && forall k :: 0 <= k < i ==> halfRamps[k] == HalfRamp(ts, rampMinutes, k)
    {
      var gapPrev := Gap(ts[PrevIndex(ts, i)].at, ts[i].at);
      var gapNext := Gap(ts[i].at, ts[NextIndex(ts, i)].at);
      halfRamps := halfRamps + [Min(rampMinutes * 60.0 / 2.0, Min(gapPrev as real / 2.0, gapNext as real / 2.0))];
    }
  }

  // One instance of transition i.
  method CheckInstance(ts: seq<Transition>, rampMinutes: real, i: nat, day: int, half: real, now: real)
    returns (r: Option<Band>)
    requires |ts| >= 2 && Normalized(ts) && IsClock(now) && rampMinutes > 0.0
    requires i < |ts| && half == HalfRamp(ts, rampMinutes, i) && -1 <= day <= 1
    ensures r.Some? <==> InWindow(ts, rampMinutes, i, day, now)
    ensures r.Some? ==> r.value == Curve(ts, rampMinutes, now)
  {
    var dist := InstanceAt(ts, i, day) as real - now;
    if half <= 0.0 || Abs(dist) > half {
      return None;
    }
    WindowsFollowCurve(ts, rampMinutes, i, day, now);
    return Some(Blend(ts[PrevIndex(ts, i)].band, ts[i].band, Progress(half, dist)));
  }

  // Transition i at its three offsets.
  method ScanInstances(ts: seq<Transition>, rampMinutes: real, i: nat, half: real, now: real) returns (r: Option<Band>)
    requires |ts| >= 2 && Normalized(ts) && IsClock(now) && rampMinutes > 0.0
    requires i < |ts| && half == HalfRamp(ts, rampMinutes, i)
    ensures r.None? <==> NotIn(ts, rampMinutes, i, now)
    ensures r.Some? ==> r.value == Curve(ts, rampMinutes, now)
  {
    for day := -1 to 2
      invariant forall d :: -1 <= d < day ==> !InWindow(ts, rampMinutes, i, d, now)
    {
      r := CheckInstance(ts, rampMinutes, i, day, half, now);
      if r.Some? {
        return;
      }
    }
    return None;
  }

  // The source's scan: every transition at three offsets, the first window that holds now.
  method RampInterpolate(ts: seq<Transition>, now: TimeOfDay, rampMinutes: real) returns (r: Option<Band>)
    requires |ts| >= 2 && Normalized(ts) && rampMinutes > 0.0
    ensures r.Some? ==> r.value == Curve(ts, rampMinutes, now as real)
    ensures r.None? <==> Outside(ts, rampMinutes, now as real)
  {
    var halfRamps := HalfRamps(ts, rampMinutes);
    var clock := now as real;
    for i := 0 to |ts|
      invariant forall k :: 0 <= k < i ==> NotIn(ts, rampMinutes, k, clock)
    {
      var found := ScanInstances(ts, rampMinutes, i, halfRamps[i], clock);
      if found.Some? {
        return found;
      }
    }
    return None;
  }

  // The resolver as the source runs it gives the curve, whatever the order of the scan.
  method Resolve(ts: seq<Transition>, now: TimeOfDay, rampMinutes: real) returns (r: Result<Band, ScheduleError>)
    requires Normalized(ts)
    ensures r == if ts == [] then Err(Empty) else Ok(ResolveBand(ts, rampMinutes, now as real))
  {
    if ts == [] {
      return Err(Empty);
    }
    if rampMinutes > 0.0 && |ts| >= 2 {
      var smoothed := RampInterpolate(ts, now, rampMinutes);
      if smoothed.Some? {
        return Ok(smoothed.value);
      }
      OutsideIsStepped(ts, rampMinutes, now as real);
    }
    return Ok(Stepped(ts, now as real));
  }

  function Wrap(x: real): real {
    if x < 0.0 then x + DAY as real else if x >= DAY as real then x - DAY as real else x
  }

  // The moment d seconds from transition i, and the instance it is measured from.
  lemma {:induction false} NearTransition(ts: seq<Transition>, i: nat, d: real) returns (day: int)
    requires i < |ts| && -DAY as real / 2.0 <= d <= DAY as real / 2.0
    ensures -1 <= day <= 1 && IsClock(Wrap(ts[i].at as real + d))
    ensures InstanceAt(ts, i, day) as real - Wrap(ts[i].at as real + d) == -d
  {
    var x := ts[i].at as real + d;
    day := if x < 0.0 then 1 else if x >= DAY as real then -1 else 0;
  }

  // Along the ramp of transition i, across midnight or not, the band runs linearly from the
  // previous band to this one: at its start it is exactly the previous band, at its end
  // exactly this one, so it joins the stepped band at both edges.
  lemma {:induction false} RampProfile(ts: seq<Transition>, rampMinutes: real, i: nat, d: real)
    requires |ts| >= 2 && Normalized(ts) && rampMinutes > 0.0 && i < |ts|
    requires -HalfRamp(ts, rampMinutes, i) <= d <= HalfRamp(ts, rampMinutes, i)
    ensures var h, before, after := HalfRamp(ts, rampMinutes, i), ts[PrevIndex(ts, i)].band, ts[i].band;
            var c := ResolveBand(ts, rampMinutes, Wrap(ts[i].at as real + d));
            && h > 0.0
            && c == Blend(before, after, Progress(h, -d))
            && Progress(h, -d) == (h + d) / (2.0 * h)
            && (d == -h ==> c == before)
            && (d == h ==> c == after)
  {
    var h := HalfRamp(ts, rampMinutes, i);
    HalfRampBounds(ts, rampMinutes, i);
    GapAtMostDay(ts[PrevIndex(ts, i)].at, ts[i].at);
    var day := NearTransition(ts, i, d);
    WindowsFollowCurve(ts, rampMinutes, i, day, Wrap(ts[i].at as real + d));
    ProgressIs(h, -d);
    BlendEnds(ts[PrevIndex(ts, i)].band, ts[i].band);
  }

  lemma {:induction false} SteppedBefore(ts: seq<Transition>, i: nat, h: real)
    requires |ts| >= 2 && Normalized(ts) && i < |ts|
    requires 0.0 < h && 2.0 * h <= Gap(ts[PrevIndex(ts, i)].at, ts[i].at) as real
    ensures Stepped(ts, Wrap(ts[i].at as real - h)) == ts[PrevIndex(ts, i)].band
  {
    GapIs(ts[PrevIndex(ts, i)].at, ts[i].at);
    BisectIs(ts, Wrap(ts[i].at as real - h), if ts[i].at as real - h < 0.0 then |ts| else i);
  }

  lemma {:induction false} SteppedAfter(ts: seq<Transition>, i: nat, h: real)
    requires |ts| >= 2 && Normalized(ts) && i < |ts|
    requires 0.0 < h && 2.0 * h <= Gap(ts[i].at, ts[NextIndex(ts, i)].at) as real
    ensures Stepped(ts, Wrap(ts[i].at as real + h)) == ts[i].band
  {
    GapIs(ts[i].at, ts[NextIndex(ts, i)].at);
    BisectIs(ts, Wrap(ts[i].at as real + h), if ts[i].at as real + h >= DAY as real then 0 else i + 1);
  }

  // The share of the transition's own band, d seconds from it, in a ramp of half-length h.
  function Share(h: real, d: real): real
    requires h > 0.0
  {
    (h + d) / (2.0 * h)
  }

  lemma {:induction false} BlendIs(from: Band, to: Band, share: real)
    ensures Blend(from, to, share).low == from.low + (to.low - from.low) * share
    ensures Blend(from, to, share).high == from.high + (to.high - from.high) * share
  {
  }

  // How far the ramp of transition i reaches, spelled out: half the set ramp, or half of the
  // gap to its nearer neighbour where that is less.
  ghost predicate Reaches(ts: seq<Transition>, rampMinutes: real, i: nat, h: real)
    requires i < |ts|
  {
    var p, n := if i == 0 then |ts| - 1 else i - 1, if i == |ts| - 1 then 0 else i + 1;
    2.0 * h == Min(60.0 * rampMinutes, Min(Gap(ts[p].at, ts[i].at) as real, Gap(ts[i].at, ts[n].at) as real))
  }

  lemma {:induction false} ReachIs(ts: seq<Transition>, rampMinutes: real, i: nat, h: real)
    requires i < |ts| && rampMinutes > 0.0 && Reaches(ts, rampMinutes, i, h)
    ensures h == HalfRamp(ts, rampMinutes, i) > 0.0
  {
  }

  // The law of a ramp: from h before its transition to h after it, midnight or not, both edges
  // run linearly from the previous band to its own.
  lemma {:induction false} RampLaw(ts: seq<Transition>, rampMinutes: real, i: nat, h: real, d: real)
    requires |ts| >= 2 && Normalized(ts) && rampMinutes > 0.0 && i < |ts|
    requires Reaches(ts, rampMinutes, i, h) && -h <= d <= h
    ensures h > 0.0
    ensures ResolveBand(ts, rampMinutes, Wrap(ts[i].at as real + d))
         == Blend(ts[if i == 0 then |ts| - 1 else i - 1].band, ts[i].band, Share(h, d))
  {
    ReachIs(ts, rampMinutes, i, h);
    RampProfile(ts, rampMinutes, i, d);
  }

  lemma {:induction false} InForceAfter(ts: seq<Transition>, i: nat, d: real)
    requires |ts| >= 2 && Normalized(ts) && i < |ts|
    requires 0.0 <= d < Gap(ts[i].at, ts[NextIndex(ts, i)].at) as real
    ensures var now := Wrap(ts[i].at as real + d);
            && IsClock(now) && ActiveIndex(ts, now) == i && now - Since(ts, now) as real == d
  {
    GapIs(ts[i].at, ts[NextIndex(ts, i)].at);
    BisectIs(ts, Wrap(ts[i].at as real + d), if ts[i].at as real + d >= DAY as real then 0 else i + 1);
  }

  lemma {:induction false} CurveBetweenRamps(ts: seq<Transition>, rampMinutes: real, now: real)
    requires |ts| >= 2 && Normalized(ts) && IsClock(now) && rampMinutes > 0.0
    requires now - Since(ts, now) as real >= HalfRamp(ts, rampMinutes, ActiveIndex(ts, now))
    requires Until(ts, now) as real - now >= HalfRamp(ts, rampMinutes, UpcomingIndex(ts, now))
    ensures Curve(ts, rampMinutes, now) == ts[ActiveIndex(ts, now)].band
  {
    AroundNow(ts, now);
    var p, q := ActiveIndex(ts, now), UpcomingIndex(ts, now);
    var hp, hq := HalfRamp(ts, rampMinutes, p), HalfRamp(ts, rampMinutes, q);
    HalfRampBounds(ts, rampMinutes, p);
    HalfRampBounds(ts, rampMinutes, q);
    ProgressIs(hp, -hp);
    ProgressIs(hq, hq);
    BlendEnds(ts[PrevIndex(ts, p)].band, ts[p].band);
    BlendEnds(ts[p].band, ts[q].band);
  }

  // ... and from the end of one ramp to the start of the next the band stands still.
  lemma {:induction false} PlateauLaw(ts: seq<Transition>, rampMinutes: real, i: nat, h: real, next: real, d: real)
    requires |ts| >= 2 && Normalized(ts) && rampMinutes > 0.0 && i < |ts|
    requires Reaches(ts, rampMinutes, i, h) && Reaches(ts, rampMinutes, NextIndex(ts, i), next)
    requires h <= d <= Gap(ts[i].at, ts[NextIndex(ts, i)].at) as real - next
    ensures ResolveBand(ts, rampMinutes, Wrap(ts[i].at as real + d)) == ts[i].band
  {
    ReachIs(ts, rampMinutes, i, h);
    ReachIs(ts, rampMinutes, NextIndex(ts, i), next);
    InForceAfter(ts, i, d);
    AroundNow(ts, Wrap(ts[i].at as real + d));
    CurveBetweenRamps(ts, rampMinutes, Wrap(ts[i].at as real + d));
  }

  lemma {:induction false} RampEdge(ts: seq<Transition>, rampMinutes: real, i: nat, d: real)
    requires |ts| >= 2 && Normalized(ts) && rampMinutes > 0.0 && i < |ts|
    requires d == HalfRamp(ts, rampMinutes, i) || d == -HalfRamp(ts, rampMinutes, i)
    ensures ResolveBand(ts, rampMinutes, Wrap(ts[i].at as real + d))
         == if d < 0.0 then ts[PrevIndex(ts, i)].band else ts[i].band
  {
    HalfRampBounds(ts, rampMinutes, i);
    RampProfile(ts, rampMinutes, i, d);
  }

  // ... and those are the stepped bands at the two edges: the ramped band leaves the stepped
  // one at the start of every ramp and is back on it at the end.
  lemma {:induction false} RampJoinsStepped(ts: seq<Transition>, rampMinutes: real, i: nat, d: real)
    requires |ts| >= 2 && Normalized(ts) && rampMinutes > 0.0 && i < |ts|
    requires d == HalfRamp(ts, rampMinutes, i) || d == -HalfRamp(ts, rampMinutes, i)
    ensures var edge := Wrap(ts[i].at as real + d);
            ResolveBand(ts, rampMinutes, edge) == Stepped(ts, edge)
  {
    RampEdge(ts, rampMinutes, i, d);
    HalfRampBounds(ts, rampMinutes, i);
    if d < 0.0 {
      SteppedBefore(ts, i, -d);
    } else {
      SteppedAfter(ts, i, d);
    }
  }

  lemma {:induction false} GapAtMostDay(from: TimeOfDay, to: TimeOfDay)
    ensures 0 < Gap(from, to) <= DAY
  {
  }

  lemma {:induction false} BlendProper(from: Band, to: Band, progress: real)
    requires Proper(from) && Proper(to) && 0.0 <= progress <= 1.0
    ensures Proper(Blend(from, to, progress))
  {
    var a, b := from.high - from.low, to.high - to.low;
    WidthOfBlend(from, to, a, b, progress);
    WidthPositive(a, b, progress);
  }

  lemma {:induction false} WidthOfBlend(from: Band, to: Band, a: real, b: real, p: real)
    requires a == from.high - from.low && b == to.high - to.low
    ensures Blend(from, to, p).high - Blend(from, to, p).low == a * (1.0 - p) + b * p
  {
    var x, y := to.high - from.high, to.low - from.low;
    assert x * p - y * p == (x - y) * p;
    assert (b - a) * p == b * p - a * p;
    assert x - y == b - a;
  }

  // A mixture of two positive widths is positive.
  lemma {:induction false} WidthPositive(a: real, b: real, p: real)
    requires a > 0.0 && b > 0.0 && 0.0 <= p <= 1.0
    ensures a * (1.0 - p) + b * p > 0.0
  {
    if p == 0.0 {
      assert a * (1.0 - p) == a && b * p == 0.0;
    } else {
      NonNegative(a, 1.0 - p);
      Positive(b, p);
    }
  }

  lemma {:induction false} Positive(a: real, p: real)
    requires a > 0.0 && p > 0.0
    ensures a * p > 0.0
  {
  }

  lemma {:induction false} NonNegative(a: real, p: real)
    requires a > 0.0 && p >= 0.0
    ensures a * p >= 0.0
  {
  }

  // Ramped or not, low stays below high at every moment of the day.
  lemma {:induction false} ResolvedBandIsProper(ts: seq<Transition>, rampMinutes: real, now: real)
    requires ts != [] && Normalized(ts) && IsClock(now)
    ensures Proper(ResolveBand(ts, rampMinutes, now))
  {
    if rampMinutes > 0.0 && |ts| >= 2 {
      AroundNow(ts, now);
      var p, q := ActiveIndex(ts, now), UpcomingIndex(ts, now);
      var behind, ahead := now - Since(ts, now) as real, Until(ts, now) as real - now;
      HalfRampBounds(ts, rampMinutes, p);
      HalfRampBounds(ts, rampMinutes, q);
      if behind <= HalfRamp(ts, rampMinutes, p) {
        ProgressIs(HalfRamp(ts, rampMinutes, p), -behind);
        BlendProper(ts[PrevIndex(ts, p)].band, ts[p].band, Progress(HalfRamp(ts, rampMinutes, p), -behind));
      } else if ahead <= HalfRamp(ts, rampMinutes, q) {
        ProgressIs(HalfRamp(ts, rampMinutes, q), ahead);
        BlendProper(ts[p].band, ts[q].band, Progress(HalfRamp(ts, rampMinutes, q), ahead));
      }
    }
  }
}
