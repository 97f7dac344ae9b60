// The slopes and the anticipating decider of predictor.py.

module Predictor {
  import opened ComfortTypes
  import opened SampleBuffer
  import opened SlopeFit
  import opened Hysteresis

  const IDLE_SETTLE_S := 30 * 60
  const CARRY_OVER_MIN_SPAN_S := 10 * 60
  const PASSIVE_FORECAST_MOVEMENT_MIN_C := 0.1

  // Where a slope came from.
  datatype Source = Wls | NoFit | Rejected | Previous | Cached

  datatype Slopes = Slopes(idle: Option<real>, heat: Option<real>, cool: Option<real>,
                           idleSource: Source, heatSource: Source, coolSource: Source,
                           idleMeasuredAt: Option<int>)
  {
    function ForAction(a: Action): Option<real> {
      match a
      case Heat => heat
      case Cool => cool
      case _ => idle
    }

    predicate CarriedOver(a: Action) {
      match a
      case Heat => heatSource == Previous
      case Cool => coolSource == Previous
      case _ => false
    }
  }

  // 1 for heating, -1 for cooling: the way a cycle moves the room.
  function Direction(a: Action): real
    requires IsActive(a)
  {
    if a == Heat then 1.0 else -1.0
  }

  function SegmentSlope(seg: seq<Sample>, now: int, e: real -> real): (Option<real>, Source) {
    var m := FittedSlope(seg, now, e);
    if m.None? then (None, NoFit) else (m, Wls)
  }

  // Heating cannot cool the room, nor cooling warm it: such a fit is discarded.
  function RejectWrongSign(fit: (Option<real>, Source), wantPositive: bool): (Option<real>, Source) {
    if fit.0.None? then (None, fit.1)
    else if wantPositive && fit.0.value <= 0.0 then (None, Rejected)
    else if !wantPositive && fit.0.value >= 0.0 then (None, Rejected)
    else fit
  }

  function RecoverySlope(seg: seq<Sample>, a: Action, now: int, e: real -> real): (Option<real>, Source) {
    RejectWrongSign(SegmentSlope(seg, now, e), a == Heat)
  }

  // The samples of the latest run of the action.
  function LatestRunSamples(b: seq<Sample>, a: Action, acrossGaps: bool): seq<Sample> {
    match LatestRun(b, a, |b|, acrossGaps)
    case None => []
    case Some(r) => b[r.start..r.end]
  }

  // The part of an idle run after its stretch has settled.
  function Settled(run: seq<Sample>, since: int): seq<Sample> {
    Recent(run, since + IDLE_SETTLE_S)
  }

  function SettledIdleRun(b: seq<Sample>): seq<Sample> {
    var stretch := LatestRunSamples(b, Idle, true);
    if stretch == [] then [] else Settled(LatestRunSamples(b, Idle, false), stretch[0].t)
  }

  function EstimateSlopes(b: seq<Sample>, now: int, e: real -> real): Slopes {
    var idleRun := SettledIdleRun(b);
    var (idle, idleSource) := SegmentSlope(idleRun, now, e);
    var (heat, heatSource) := RecoverySlope(LatestRunSamples(b, Heat, false), Heat, now, e);
    var (cool, coolSource) := RecoverySlope(LatestRunSamples(b, Cool, false), Cool, now, e);
    Slopes(idle, heat, cool, idleSource, heatSource, coolSource,
           if idle.Some? && idleRun != [] then Some(Last(idleRun).t) else None)
  }

  // ----- the previous cycle's slope -----

  // Too few samples for a fit, or still running and not yet watched for ten minutes.
  predicate TooYoung(b: seq<Sample>, r: Run)
    requires r.start < r.end <= |b|
  {
    || r.end - r.start < SLOPE_MIN_SAMPLES
    || (r.end == |b| && b[r.end - 1].t - b[r.start].t < CARRY_OVER_MIN_SPAN_S)
  }

  // The run a new cycle of the action borrows from, if it borrows at all.
  function Lender(b: seq<Sample>, a: Action, now: int): (lender: Option<Run>)
    ensures lender.Some? ==> lender.value.start < lender.value.end <= |b|
  {
    match LatestRun(b, a, |b|, false)
    case None => None
    case Some(r) =>
      if !TooYoung(b, r) then None
      else if r.start == 0 || b[r.start - 1].action == a then None
      else if r.end == |b| && now - Last(b).t > SAMPLE_MAX_GAP_S then None
      else
        match LatestRun(b, a, r.start, false)
        case None => None
        case Some(p) => if p.end - p.start < SLOPE_MIN_SAMPLES then None else Some(p)
  }

  function PreviousCycleSlope(b: seq<Sample>, a: Action, now: int, e: real -> real): Option<real> {
    match Lender(b, a, now)
    case None => None
    case Some(p) => RecoverySlope(b[p.start..p.end], a, now, e).0
  }

  function CarryOverRecoverySlopes(s: Slopes, b: seq<Sample>, now: int, e: real -> real): Slopes {
    var heat := PreviousCycleSlope(b, Heat, now, e);
    var cool := PreviousCycleSlope(b, Cool, now, e);
    var s1 := if heat.Some? then s.(heat := heat, heatSource := Previous) else s;
    if cool.Some? then s1.(cool := cool, coolSource := Previous) else s1
  }

  // ----- the decider -----

  function Project(temp: real, slope: real, minutes: real): real {
    temp + slope * minutes
  }

  function Decide(s: Slopes, i: Inputs, lookahead: nat, passiveTolerance: real, hyst: Decision): Decision {
    if i.room.None? then UNKNOWN_DECISION
    else
      var room := i.room.value;
      var minutes := lookahead as real;
      if i.current == Heat && s.heat.Some? then
        if s.heat.value > SLOPE_EPSILON_PER_MINUTE && Project(room, s.heat.value, minutes) >= i.low then IDLE_DECISION
        else hyst
      else if i.current == Cool && s.cool.Some? then
        if s.cool.value < -SLOPE_EPSILON_PER_MINUTE && Project(room, s.cool.value, minutes) <= i.high then IDLE_DECISION
        else hyst
      else if (i.current == Idle || i.current == Unknown) && s.idle.Some? then
        Drifting(s.idle.value, room, Project(room, s.idle.value, minutes), i, passiveTolerance, hyst)
      else hyst
  }

  // Anticipatory startup, then passive drift acceptance.
  function Drifting(slope: real, room: real, projected: real, i: Inputs,
        passiveTolerance: real, hyst: Decision): Decision {
    if slope < -SLOPE_EPSILON_PER_MINUTE && projected < i.low - i.deadbandBelow then HeatDecision(i.low)
    else if slope > SLOPE_EPSILON_PER_MINUTE && projected > i.high + i.deadbandAbove then CoolDecision(i.high)
    else if hyst.action == Heat && slope > SLOPE_EPSILON_PER_MINUTE && projected >= i.low
            && projected - room >= PASSIVE_FORECAST_MOVEMENT_MIN_C
            && room >= i.low - passiveTolerance then IDLE_DECISION
    else if hyst.action == Cool && slope < -SLOPE_EPSILON_PER_MINUTE && projected <= i.high
            && room - projected >= PASSIVE_FORECAST_MOVEMENT_MIN_C
            && room <= i.high + passiveTolerance then IDLE_DECISION
    else hyst
  }
}
