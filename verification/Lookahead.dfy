// The band in force at a refresh, and the per-minute bands the planner looks ahead over:
// schedule.upcoming_bands, peak.shape_steps and the coordinator code between them.

module Lookahead {
  import opened ComfortTypes
  import opened Schedule
  import opened Ramp
  import opened Peak
  import H = Hysteresis
  import Mpc

  // What a zone's band is made of. A corrupt or missing schedule is no schedule.
  datatype BandSource = BandSource(schedule: Option<seq<Transition>>, manual: Band, rampMinutes: nat,
                                   peak: Settings, utcOffset: int)

  ghost predicate Sound(z: BandSource) {
    && Proper(z.manual) && OffsetsSensible(z.peak)
    && (z.schedule.Some? ==> z.schedule.value != [] && Normalized(z.schedule.value))
  }

  function LocalTime(z: BandSource, now: int): TimeOfDay {
    (now + z.utcOffset) % DAY
  }

  function ScheduledBand(z: BandSource, now: int): Band
    requires z.schedule.Some? ==> z.schedule.value != []
  {
    match z.schedule
    case None => z.manual
    case Some(ts) => ResolveBand(ts, z.rampMinutes as real, LocalTime(z, now) as real)
  }

  // The band before peak shaping.
  function UnshapedBand(z: BandSource, override: bool, now: int): Band
    requires z.schedule.Some? ==> z.schedule.value != []
  {
    if override then z.manual else ScheduledBand(z, now)
  }

  // The coordinator's defensive clamp.
  function Clamp(b: Band): Band {
    if b.low >= b.high then Band(b.high - 0.5, b.high) else b
  }

  function ShapingAt(z: BandSource, signal: Option<Signal>, override: bool, direction: Option<Action>,
        now: int): Shaping
    requires z.schedule.Some? ==> z.schedule.value != []
  {
    Peak.Resolve(z.peak, signal, override, UnshapedBand(z, override, now), direction, now)
  }

  // The band a refresh at now controls to.
  function EffectiveBand(z: BandSource, signal: Option<Signal>, override: bool, direction: Option<Action>,
        now: int): Band
    requires z.schedule.Some? ==> z.schedule.value != []
  {
    Clamp(ShapingAt(z, signal, override, direction, now).band)
  }

  // ----- the per-minute bands -----

  // Minute i after a time of day: whole minutes only, seconds dropped.
  function StepTime(start: TimeOfDay, i: nat): TimeOfDay {
    60 * ((start / 60 + i) % 1440)
  }

  // The band of every minute of the horizon, resolved one step at a time.
  method UpcomingBands(ts: seq<Transition>, start: TimeOfDay, horizon: nat, rampMinutes: nat)
    returns (r: Result<seq<Band>, ScheduleError>)
    requires Normalized(ts)
    ensures r == if ts == [] then Err(Empty) else Ok(UpcomingSteps(ts, start, horizon, rampMinutes))
  {
    if ts == [] {
      return Err(Empty);
    }
    var out: seq<Band> := [];
    for i := 0 to horizon
      invariant out == UpcomingSteps(ts, start, i, rampMinutes)
    {
      var resolved := Ramp.Resolve(ts, StepTime(start, i), rampMinutes as real);
      out := out + [resolved.value];
    }
    return Ok(out);
  }

  function UpcomingSteps(ts: seq<Transition>, start: TimeOfDay, horizon: nat, rampMinutes: nat): (out: seq<Band>)
    requires ts != []
    ensures |out| == horizon
    ensures forall i :: 0 <= i < horizon ==> out[i] == ResolveBand(ts, rampMinutes as real, StepTime(start, i) as real)
  {
    if horizon == 0 then []
    else UpcomingSteps(ts, start, horizon - 1, rampMinutes)
         + [ResolveBand(ts, rampMinutes as real, StepTime(start, horizon - 1) as real)]
  }

  // What peak shaping does to one step.
  datatype Shape = Relaxing | Stepping(direction: Option<Action>)

  function ShapeBand(s: Settings, shape: Shape, b: Band): Band {
    match shape
    case Relaxing => Relax(b, s)
    case Stepping(direction) => PreconditionBand(b, direction, s)
  }

  function ShapedStep(s: Settings, shape: Shape, b: Band, at: int, from: Option<int>): Band {
    if from.None? || at >= from.value then ShapeBand(s, shape, b) else b
  }

  // Every step at or after the given moment is shaped, the others pass through.
  method ShapeSteps(bands: seq<Band>, now: int, s: Settings, shape: Shape, from: Option<int>) returns (out: seq<Band>)
    ensures out == ShapedSteps(bands, now, s, shape, from)
  {
    out := [];
    for i := 0 to |bands|
      invariant out == ShapedSteps(bands[..i], now, s, shape, from)
    {
      assert bands[..i + 1][..i] == bands[..i];
      out := out + [ShapedStep(s, shape, bands[i], now + 60 * i, from)];
    }
    assert bands[..|bands|] == bands;
  }

  function ShapedSteps(bands: seq<Band>, now: int, s: Settings, shape: Shape, from: Option<int>): (out: seq<Band>)
    ensures |out| == |bands|
    ensures forall i :: 0 <= i < |bands| ==> out[i] == ShapedStep(s, shape, bands[i], now + 60 * i, from)
  {
    if bands == [] then []
    else ShapedSteps(bands[..|bands| - 1], now, s, shape, from)
         + [ShapedStep(s, shape, Last(bands), now + 60 * (|bands| - 1), from)]
  }

  // The list handed to the planner: the schedule's steps (none under an override or without
  // a schedule), shaped as this refresh shapes its own band.
  function PlannedBands(z: BandSource, signal: Option<Signal>, override: bool, direction: Option<Action>, now: int,
        horizon: nat): Option<seq<Band>>
    requires z.schedule.Some? ==> z.schedule.value != []
  {
    var steps :=
      if override || z.schedule.None? then None
      else Some(UpcomingSteps(z.schedule.value, LocalTime(z, now), horizon, z.rampMinutes));
    var shaping := ShapingAt(z, signal, override, direction, now);
    var bands := if steps.Some? then steps.value else seq(horizon, _ => UnshapedBand(z, override, now));
    if shaping.relaxing then Some(ShapedSteps(bands, now, z.peak, Relaxing, None))
    else if shaping.precondition.Some? && shaping.leadStart.Some? then
      Some(ShapedSteps(bands, now, z.peak, Stepping(shaping.precondition), shaping.leadStart))
    else steps
  }

  // ----- the lookahead agrees with later refreshes -----

  lemma {:induction false} StepIsLater(z: BandSource, now: int, i: nat, later: int)
    requires LocalTime(z, now) % 60 == 0 && later == now + 60 * i
    ensures StepTime(LocalTime(z, now), i) == LocalTime(z, later)
  {
    var t := LocalTime(z, now);
    var d := (now + z.utcOffset) / DAY;
    assert now + z.utcOffset == DAY * d + t;
    var m := t / 60;
    assert t == 60 * m;
    var c := (m + i) / 1440;
    assert m + i == 1440 * c + (m + i) % 1440;
    assert later + z.utcOffset == DAY * (d + c) + 60 * ((m + i) % 1440);
    ModIs(later + z.utcOffset, d + c, 60 * ((m + i) % 1440));
  }

  lemma {:induction false} ModIs(x: int, q: int, r: int)
    requires x == DAY * q + r && 0 <= r < DAY
    ensures x % DAY == r
  {
  }

  lemma {:induction false} UnshapedIsProper(z: BandSource, override: bool, now: int)
    requires Sound(z)
    ensures Proper(UnshapedBand(z, override, now))
  {
    if !override && z.schedule.Some? {
      ResolvedBandIsProper(z.schedule.value, z.rampMinutes as real, LocalTime(z, now) as real);
    }
  }

  // The clamp never fires on a sound zone.
  lemma {:induction false} EffectiveIsShaped(z: BandSource, signal: Option<Signal>, override: bool,
        direction: Option<Action>, now: int)
    requires Sound(z)
    ensures EffectiveBand(z, signal, override, direction, now) == ShapingAt(z, signal, override, direction, now).band
    ensures Proper(EffectiveBand(z, signal, override, direction, now))
  {
    UnshapedIsProper(z, override, now);
    ShapingIsProper(z.peak, signal, override, UnshapedBand(z, override, now), direction, now);
  }

  // The band the planner scores minute i against, and the inputs it is given.
  function StepBand(z: BandSource, signal: Option<Signal>, direction: Option<Action>, now: int,
        horizon: nat, i: nat): Band
    requires z.schedule.Some? ==> z.schedule.value != []
    requires i < horizon
  {
    var eff := EffectiveBand(z, signal, false, direction, now);
    var inputs := H.Inputs(None, eff.low, eff.high, 0.0, 0.0, Unknown);
    var bands := PlannedBands(z, signal, false, direction, now, horizon);
    Mpc.StepBands(inputs, bands, horizon)[i]
  }

  lemma {:induction false} UnshapedStep(z: BandSource, now: int, horizon: nat, i: nat, later: int)
    requires Sound(z) && LocalTime(z, now) % 60 == 0 && i < horizon && later == now + 60 * i
    ensures z.schedule.Some? ==>
      UpcomingSteps(z.schedule.value, LocalTime(z, now), horizon, z.rampMinutes)[i] == UnshapedBand(z, false, later)
    ensures z.schedule.None? ==> UnshapedBand(z, false, later) == UnshapedBand(z, false, now)
  {
    StepIsLater(z, now, i, later);
  }

  // No peak is on, and the announced start, if any, is still ahead at minute i.
  predicate BeforeStart(signal: Option<Signal>, at: int) {
    signal.Some? && signal.value.available ==>
      !signal.value.active && (signal.value.nextEvent.Some? ==> at < signal.value.nextEvent.value)
  }

  // A pre-conditioning step is planned: the peak entity announces a start, the zone has a
  // lead time and a direction.
  predicate StepPlanned(z: BandSource, signal: Option<Signal>, direction: Option<Action>) {
    && z.peak.configured && z.peak.enabled && signal.Some? && signal.value.available && !signal.value.active
    && signal.value.nextEvent.Some? && z.peak.leadMinutes > 0 && direction.Some?
  }

  function LeadStart(z: BandSource, signal: Option<Signal>): int
    requires signal.Some? && signal.value.nextEvent.Some?
  {
    signal.value.nextEvent.value - 60 * z.peak.leadMinutes
  }

  lemma {:induction false} ShapingWhenPlanned(z: BandSource, signal: Option<Signal>, direction: Option<Action>, at: int)
    requires z.schedule.Some? ==> z.schedule.value != []
    requires StepPlanned(z, signal, direction) && at < signal.value.nextEvent.value
    ensures var r := ShapingAt(z, signal, false, direction, at);
            && !r.relaxing && r.precondition == direction && r.leadStart == Some(LeadStart(z, signal))
            && r.band == ShapedStep(z.peak, Stepping(direction), UnshapedBand(z, false, at), at, r.leadStart)
  {
  }

  lemma {:induction false} ShapingWhenNotPlanned(z: BandSource, signal: Option<Signal>, direction: Option<Action>,
        at: int)
    requires z.schedule.Some? ==> z.schedule.value != []
    requires !StepPlanned(z, signal, direction) && BeforeStart(signal, at)
    ensures var r := ShapingAt(z, signal, false, direction, at);
            !r.relaxing && r.precondition.None? && r.band == UnshapedBand(z, false, at)
  {
  }

  // The band every look at the moment `at` is expected to give.
  function ExpectedBand(z: BandSource, signal: Option<Signal>, direction: Option<Action>, at: int): Band
    requires z.schedule.Some? ==> z.schedule.value != []
  {
    if StepPlanned(z, signal, direction) then
      ShapedStep(z.peak, Stepping(direction), UnshapedBand(z, false, at), at, Some(LeadStart(z, signal)))
    else UnshapedBand(z, false, at)
  }

  lemma {:induction false} EffectiveIsExpected(z: BandSource, signal: Option<Signal>, direction: Option<Action>,
        at: int)
    requires Sound(z) && BeforeStart(signal, at)
    ensures EffectiveBand(z, signal, false, direction, at) == ExpectedBand(z, signal, direction, at)
  {
    EffectiveIsShaped(z, signal, false, direction, at);
    if StepPlanned(z, signal, direction) {
      ShapingWhenPlanned(z, signal, direction, at);
    } else {
      ShapingWhenNotPlanned(z, signal, direction, at);
    }
  }

  lemma {:induction false} StepIsExpected(z: BandSource, signal: Option<Signal>, direction: Option<Action>, now: int,
        horizon: nat, i: nat, later: int)
    requires Sound(z) && LocalTime(z, now) % 60 == 0 && i < horizon && later == now + 60 * i
    requires BeforeStart(signal, later)
    ensures StepBand(z, signal, direction, now, horizon, i) == ExpectedBand(z, signal, direction, later)
  {
    UnshapedStep(z, now, horizon, i, later);
    if StepPlanned(z, signal, direction) {
      ShapingWhenPlanned(z, signal, direction, now);
    } else {
      ShapingWhenNotPlanned(z, signal, direction, now);
      EffectiveIsShaped(z, signal, false, direction, now);
    }
  }

  // On a whole-minute clock, without an override and with the signal and the direction
  // unchanged, minute i of the planner's lookahead is exactly the band a refresh i minutes
  // later will control to, for every minute before the announced start.
  lemma {:induction false} LookaheadAgrees(z: BandSource, signal: Option<Signal>, direction: Option<Action>, now: int,
        horizon: nat, i: nat, later: int)
    requires Sound(z) && LocalTime(z, now) % 60 == 0 && i < horizon && later == now + 60 * i
    requires BeforeStart(signal, later)
    ensures StepBand(z, signal, direction, now, horizon, i) == EffectiveBand(z, signal, false, direction, later)
  {
    StepIsExpected(z, signal, direction, now, horizon, i, later);
    EffectiveIsExpected(z, signal, direction, later);
  }

  // The band a refresh controls to, without peak saving: the manual one under an override or
  // without a schedule, else the schedule's at the local time of day.
  lemma {:induction false} BandIs(z: BandSource, signal: Option<Signal>, override: bool, direction: Option<Action>,
        now: int)
    requires Sound(z) && (!z.peak.enabled || !z.peak.configured || override)
    ensures EffectiveBand(z, signal, override, direction, now) ==
              if override || z.schedule.None? then z.manual
              else ResolveBand(z.schedule.value, z.rampMinutes as real, ((now + z.utcOffset) % DAY) as real)
  {
    EffectiveIsShaped(z, signal, override, direction, now);
  }

  // Under an override there is no lookahead, and a peak changes nothing.
  lemma {:induction false} OverrideHasNoLookahead(z: BandSource, signal: Option<Signal>, direction: Option<Action>,
        now: int, horizon: nat)
    requires Sound(z)
    ensures PlannedBands(z, signal, true, direction, now, horizon) == None
    ensures EffectiveBand(z, signal, true, direction, now) == z.manual
  {
    EffectiveIsShaped(z, signal, true, direction, now);
  }

  // During a peak every minute of the lookahead is relaxed, scheduled or not.
  lemma {:induction false} PeakRelaxesEveryStep(z: BandSource, signal: Option<Signal>, direction: Option<Action>,
        now: int, horizon: nat, i: nat)
    requires Sound(z) && z.peak.configured && z.peak.enabled && i < horizon
    requires signal.Some? && signal.value.available && signal.value.active
    ensures var bands := PlannedBands(z, signal, false, direction, now, horizon);
            && bands.Some? && |bands.value| == horizon
            && bands.value[i] == Relax(if z.schedule.None? then z.manual
                                       else ResolveBand(z.schedule.value, z.rampMinutes as real,
                                                        StepTime(LocalTime(z, now), i) as real), z.peak)
  {
  }

  // The seconds of the clock are dropped: all refreshes of a minute look ahead over the same bands.
  lemma {:induction false} SecondsAreDropped(ts: seq<Transition>, start: TimeOfDay, horizon: nat, rampMinutes: nat)
    requires ts != []
    ensures UpcomingSteps(ts, start, horizon, rampMinutes)
         == UpcomingSteps(ts, start - start % 60, horizon, rampMinutes)
  {
    assert (start - start % 60) / 60 == start / 60;
    forall i | 0 <= i < horizon
      ensures UpcomingSteps(ts, start, horizon, rampMinutes)[i]
           == UpcomingSteps(ts, start - start % 60, horizon, rampMinutes)[i]
    {
      assert StepTime(start, i) == StepTime(start - start % 60, i);
    }
  }
}
