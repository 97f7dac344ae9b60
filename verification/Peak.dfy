// Peak-period shaping of peak.py: relaxing the band during a peak, stepping it ahead of one.

module Peak {
  import opened ComfortTypes

  const PRECONDITION_GAP_C := 0.5
  const RECENT_ACTIVE_S := 24 * 3600

  // What the peak entity says. nextEvent is always in the future of the refresh that read it.
  datatype Signal = Signal(available: bool, active: bool, nextEvent: Option<int>)

  datatype State = Off | NoSignal | Waiting | Preconditioning | Active | Overridden

  datatype Shaping = Shaping(state: State, band: Band, relaxing: bool, precondition: Option<Action>,
                             leadStart: Option<int>, nextStart: Option<int>, ends: Option<int>)

  // The zone's peak settings, with the climate entity's limits when it publishes them.
  datatype Settings = Settings(configured: bool, enabled: bool, heatOffset: real, coolOffset: real, leadMinutes: int,
                               minTemp: Option<real>, maxTemp: Option<real>)

  function RelaxedLow(low: real, offset: real, minTemp: Option<real>): real {
    var relaxed := low - offset;
    Min(low, if minTemp.Some? then Max(relaxed, minTemp.value) else relaxed)
  }

  function RelaxedHigh(high: real, offset: real, maxTemp: Option<real>): real {
    var relaxed := high + offset;
    Max(high, if maxTemp.Some? then Min(relaxed, maxTemp.value) else relaxed)
  }

  function Relax(b: Band, s: Settings): Band {
    Band(RelaxedLow(b.low, s.heatOffset, s.minTemp), RelaxedHigh(b.high, s.coolOffset, s.maxTemp))
  }

  function PreconditionBand(b: Band, direction: Option<Action>, s: Settings): Band {
    if direction == Some(Heat) then
      Band(Max(b.low, Min(b.low + s.heatOffset, b.high - PRECONDITION_GAP_C)), b.high)
    else if direction == Some(Cool) then
      Band(b.low, Min(b.high, Max(b.high - s.coolOffset, b.low + PRECONDITION_GAP_C)))
    else b
  }

  function PreconditionDirection(last: Option<Action>, previous: Option<Action>, lastActiveAt: Option<int>,
                                 now: int, idleSlope: Option<real>): Option<Action> {
    var recent :=
      if last.Some? && IsActive(last.value) then last
      else if previous.Some? && IsActive(previous.value) then previous
      else None;
    if recent.None? || lastActiveAt.None? || now - lastActiveAt.value > RECENT_ACTIVE_S then None
    else if idleSlope.Some? && recent.value == Heat && idleSlope.value > SLOPE_EPSILON_PER_MINUTE then None
    else if idleSlope.Some? && recent.value == Cool && idleSlope.value < -SLOPE_EPSILON_PER_MINUTE then None
    else recent
  }

  function Unshaped(state: State, b: Band): Shaping {
    Shaping(state, b, false, None, None, None, None)
  }

  function Resolve(s: Settings, signal: Option<Signal>, override: bool, b: Band,
        direction: Option<Action>, now: int): Shaping {
    if !s.configured || !s.enabled then Unshaped(Off, b)
    else if signal.None? || !signal.value.available then Unshaped(NoSignal, b)
    else if signal.value.active then
      if override then Unshaped(Overridden, b).(ends := signal.value.nextEvent)
      else Shaping(Active, Relax(b, s), true, None, None, None, signal.value.nextEvent)
    else
      var start := signal.value.nextEvent;
      if start.None? || s.leadMinutes <= 0 then Unshaped(Waiting, b).(nextStart := start)
      else
        var leadStart := start.value - 60 * s.leadMinutes;
        var inWindow := leadStart <= now < start.value;
        if override then Unshaped(if inWindow then Overridden else Waiting, b).(nextStart := start)
        else if direction.None? then Unshaped(Waiting, b).(nextStart := start)
        else Shaping(if inWindow then Preconditioning else Waiting,
                     if inWindow then PreconditionBand(b, direction, s) else b,
                     false, direction, Some(leadStart), start, None)
  }

  ghost predicate OffsetsSensible(s: Settings) {
    s.heatOffset >= 0.0 && s.coolOffset >= 0.0
  }

  // A peak only ever widens the band, by at most the offsets, and never past the unit's
  // limits unless the band was already there.
  lemma {:induction false} RelaxWidens(b: Band, s: Settings)
    requires OffsetsSensible(s)
    ensures Covers(Relax(b, s), b)
    ensures b.low - s.heatOffset <= Relax(b, s).low && Relax(b, s).high <= b.high + s.coolOffset
    ensures s.minTemp.Some? && b.low >= s.minTemp.value ==> Relax(b, s).low >= s.minTemp.value
    ensures s.maxTemp.Some? && b.high <= s.maxTemp.value ==> Relax(b, s).high <= s.maxTemp.value
  {
  }

  // Pre-conditioning narrows the band from the near side only: inside the normal band, the
  // far edge where it was, by no more than the peak will borrow, still a proper band and
  // never narrower than half a degree unless it already was.
  lemma {:induction false} PreconditionNarrows(b: Band, direction: Option<Action>, s: Settings)
    requires OffsetsSensible(s) && Proper(b)
    ensures var c := PreconditionBand(b, direction, s);
            && Covers(b, c) && Proper(c)
            && (direction != Some(Heat) ==> c.low == b.low)
            && (direction != Some(Cool) ==> c.high == b.high)
            && c.low - b.low <= s.heatOffset && b.high - c.high <= s.coolOffset
            && c.high - c.low >= Min(b.high - b.low, PRECONDITION_GAP_C)
  {
  }

  // Pre-conditioning ahead of a peak banks on the side the peak then borrows from: the
  // relaxed band of the peak covers the pre-conditioned one.
  lemma {:induction false} PeakCoversPreconditioning(b: Band, direction: Option<Action>, s: Settings)
    requires OffsetsSensible(s) && Proper(b)
    ensures Covers(Relax(b, s), PreconditionBand(b, direction, s))
  {
  }

  // Whatever the signal says the shaped band stays proper, and it differs from the normal
  // one only during a peak or its lead time, never under an override.
  lemma {:induction false} ShapingIsProper(s: Settings, signal: Option<Signal>, override: bool, b: Band,
        direction: Option<Action>, now: int)
    requires OffsetsSensible(s) && Proper(b)
    ensures var r := Resolve(s, signal, override, b, direction, now);
            && Proper(r.band)
            && (r.relaxing <==> r.state == Active)
            && (r.band != b ==> !override && (r.state == Active || r.state == Preconditioning))
            && (r.state == Preconditioning ==>
                  signal.value.nextEvent.Some? &&
                  signal.value.nextEvent.value - 60 * s.leadMinutes <= now < signal.value.nextEvent.value)
  {
  }

  // A relaxed edge moves by the whole offset, or to the unit's limit where that comes first;
  // an edge already past the limit stays where it is.
  lemma {:induction false} RelaxExactly(b: Band, s: Settings)
    requires OffsetsSensible(s)
    ensures s.minTemp.None? || s.minTemp.value <= b.low - s.heatOffset ==> Relax(b, s).low == b.low - s.heatOffset
    ensures s.minTemp.Some? && b.low - s.heatOffset <= s.minTemp.value <= b.low ==> Relax(b, s).low == s.minTemp.value
    ensures s.minTemp.Some? && b.low <= s.minTemp.value ==> Relax(b, s).low == b.low
    ensures s.maxTemp.None? || s.maxTemp.value >= b.high + s.coolOffset ==> Relax(b, s).high == b.high + s.coolOffset
    ensures s.maxTemp.Some? && b.high <= s.maxTemp.value <= b.high + s.coolOffset ==>
              Relax(b, s).high == s.maxTemp.value
    ensures s.maxTemp.Some? && s.maxTemp.value <= b.high ==> Relax(b, s).high == b.high
  {
  }

  // A pre-conditioned edge moves by the whole offset where that leaves half a degree of band,
  // otherwise until it does, and not at all in a band that is narrower.
  lemma {:induction false} PreconditionExactly(b: Band, s: Settings)
    requires OffsetsSensible(s) && Proper(b)
    ensures var c, width := PreconditionBand(b, Some(Heat), s), b.high - b.low;
            && c.high == b.high
            && (width >= s.heatOffset + 0.5 ==> c.low == b.low + s.heatOffset)
            && (0.5 <= width <= s.heatOffset + 0.5 ==> c.low == b.high - 0.5)
            && (width <= 0.5 ==> c.low == b.low)
    ensures var c, width := PreconditionBand(b, Some(Cool), s), b.high - b.low;
            && c.low == b.low
            && (width >= s.coolOffset + 0.5 ==> c.high == b.high - s.coolOffset)
            && (0.5 <= width <= s.coolOffset + 0.5 ==> c.high == b.low + 0.5)
            && (width <= 0.5 ==> c.high == b.high)
    ensures PreconditionBand(b, None, s) == b
  {
  }

  // When a band is shaped: relaxed exactly while a peak is on, pre-conditioned exactly in the
  // lead time before an announced one with a direction to go, with saving switched on, a peak
  // entity that answers, and no override.
  lemma {:induction false} ShapedWhen(s: Settings, signal: Option<Signal>, override: bool, b: Band,
        direction: Option<Action>, now: int)
    ensures var r := Resolve(s, signal, override, b, direction, now);
            var answers := s.configured && s.enabled && signal.Some? && signal.value.available && !override;
            var start := if signal.Some? then signal.value.nextEvent else None;
            var leads := answers && !signal.value.active && start.Some? && s.leadMinutes > 0 && direction.Some?;
            && (r.relaxing <==> answers && signal.value.active)
            && (r.relaxing ==> r.band == Relax(b, s))
            && (r.state == Preconditioning <==> leads && start.value - 60 * s.leadMinutes <= now < start.value)
            && (r.state == Preconditioning ==> r.band == PreconditionBand(b, direction, s))
            && (!r.relaxing && r.state != Preconditioning ==> r.band == b)
            && r.precondition == (if leads then direction else None)
            && r.leadStart == (if leads then Some(start.value - 60 * s.leadMinutes) else None)
  {
  }

  // Under an override the state says so exactly where the band would have been shaped but for
  // it, and the two times of the announcement are reported whatever the state.
  lemma {:induction false} OverriddenWhen(s: Settings, signal: Option<Signal>, override: bool, b: Band,
        direction: Option<Action>, now: int)
    ensures var r := Resolve(s, signal, override, b, direction, now);
            var on := s.configured && s.enabled;
            var answers := on && signal.Some? && signal.value.available;
            var next := if answers then signal.value.nextEvent else None;
            var peak := answers && signal.value.active;
            var near := !peak && next.Some? && s.leadMinutes > 0 && next.value - 60 * s.leadMinutes <= now < next.value;
            && (r.state == Overridden <==> override && (peak || near))
            && (r.state == Off <==> !on)
            && (r.state == NoSignal <==> on && !answers)
            && r.ends == (if peak then next else None)
            && r.nextStart == (if peak then None else next)
  {
  }
}
