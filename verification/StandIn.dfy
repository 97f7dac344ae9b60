// The room-sensor stand-in of the coordinator: the grace period, the order of the
// stand-ins, and the latch that decides when the sample buffer is flushed.

module StandIn {
  import opened ComfortTypes

  const FALLBACK_GRACE_S := 300

  datatype RoomSource = Primary | FallbackSensor | ClimateReading | NoSource

  // What each source reads; None when it is dark, absent or not allowed.
  datatype Readings = Readings(primary: Option<real>, fallback: Option<real>, climate: Option<real>)

  // darkSince: first refresh that saw the room sensor dark. engaged: the last stand-in that
  // drove control in this outage. actionAtEngage and flushed belong to that episode.
  datatype Outage = Outage(darkSince: Option<int>, engaged: Option<RoomSource>,
                           actionAtEngage: Option<Action>, flushed: bool)

  predicate IsStandIn(s: RoomSource) {
    s == FallbackSensor || s == ClimateReading
  }

  function DarkSince(o: Outage, r: Readings, now: int): Option<int> {
    if r.primary.Some? then None else if o.darkSince.None? then Some(now) else o.darkSince
  }

  // The reading that drives a refresh: the room sensor while it reports, nothing inside the
  // grace period, then the fallback sensor, then the climate entity's own reading.
  function Resolve(o: Outage, r: Readings, now: int): (Option<real>, RoomSource) {
    if r.primary.Some? then (r.primary, Primary)
    else if now - DarkSince(o, r, now).value < FALLBACK_GRACE_S then (None, NoSource)
    else if r.fallback.Some? then (r.fallback, FallbackSensor)
    else if r.climate.Some? then (r.climate, ClimateReading)
    else (None, NoSource)
  }

  // The latch when a stand-in first drives control in an outage.
  function Engage(o: Outage, source: RoomSource, last: Option<Action>): Outage {
    if IsStandIn(source) && o.engaged.None? then o.(actionAtEngage := last, flushed := false) else o
  }

  // The buffer is flushed once the action is no longer the one in force at engagement.
  predicate FlushDue(o: Outage, source: RoomSource, last: Option<Action>) {
    (IsStandIn(source) || o.engaged.Some?) && !o.flushed && last != o.actionAtEngage
  }

  // What the edge log remembers of the outage.
  function Edge(o: Outage, source: RoomSource): Outage {
    if source == Primary then
      if o.engaged.None? then o else o.(engaged := None, actionAtEngage := None, flushed := false)
    else if IsStandIn(source) then o.(engaged := Some(source))
    else o
  }

  // The order of the sources: the room sensor whenever it reports; dark, nothing for the first
  // five minutes; then the fallback sensor; only without it the climate reading; else nothing.
  lemma {:induction false} SourceOrder(o: Outage, r: Readings, now: int)
    ensures r.primary.Some? ==> Resolve(o, r, now) == (r.primary, Primary)
    ensures r.primary.None? && o.darkSince.None? ==> Resolve(o, r, now) == (None, NoSource)
    ensures r.primary.None? && o.darkSince.Some? && now - o.darkSince.value < 300 ==>
              Resolve(o, r, now) == (None, NoSource)
    ensures r.primary.None? && o.darkSince.Some? && now - o.darkSince.value >= 300 ==>
              Resolve(o, r, now) == (if r.fallback.Some? then (r.fallback, FallbackSensor)
                                     else if r.climate.Some? then (r.climate, ClimateReading) else (None, NoSource))
  {
  }
}
