// The zone coordinator: the state it updates in place over refreshes, applies and climate
// events, and the transition functions those methods are proved to follow.

module Coordinator {
  import opened ComfortTypes
  import opened SampleBuffer
  import opened CommitGates
  import ED = EditDetector
  import opened StandIn
  import IC = IdleCache
  import H = Hysteresis
  import P = Predictor
  import Setpoint

  // Everything a refresh/apply pair reads and writes, apart from the idle-slope cache.
  datatype ZoneState = ZoneState(commitment: Commitment, detector: ED.Detector, outage: Outage, samples: seq<Sample>)

  // What became of the climate calls of one apply: the mode call raised, or it returned with
  // the entity reading unavailable before and after (dropped), or it was delivered.
  datatype Calls = ModeRaised
    | ModeReturned(unavailableBefore: bool, unavailableAfter: bool, setpointRaised: bool, live: ED.Entity)

  function OutcomeOf(calls: Calls): Outcome {
    match calls
    case ModeRaised => Raised
    case ModeReturned(before, after, _, _) => if before && after then Dropped else Delivered
  }

  // One call of _maybe_apply_action.
  datatype ApplyInput = ApplyInput(now: int, decision: H.Decision, enabled: bool, room: Option<real>, record: bool,
                                   minCycle: int, crossMode: int, step: real, calls: Calls)

  function ModeName(m: H.Mode): string {
    match m
    case HeatMode => "heat"
    case CoolMode => "cool"
    case FanOnly => "fan_only"
  }

  // What a delivered apply asked for: the mode, and the rounded setpoint if it was taken.
  function CommandOf(a: ApplyInput): ED.Reading
    requires a.decision.mode.Some? && a.calls.ModeReturned?
  {
    ED.Reading(ModeName(a.decision.mode.value),
               if a.decision.target.Some? && !a.calls.setpointRaised
               then Some(Setpoint.RoundToStep(a.decision.target.value, a.step)) else None)
  }

  // Nothing is sampled without a reading.
  function Sampled(b: seq<Sample>, room: Option<real>, action: Action, now: int): seq<Sample> {
    if room.None? then b else Append(b, SampleBuffer.Reading(now, room.value, action))
  }

  function OrUnknown(a: Option<Action>): Action {
    if a.Some? then a.value else Unknown
  }

  function MaybeApply(s: ZoneState, a: ApplyInput): ZoneState {
    var room := if a.record then a.room else None;
    var c := s.commitment;
    if !a.enabled then
      var shadow := s.(detector := s.detector.(commanded := None));
      if a.decision.mode.None? then shadow
      else shadow.(samples := Sampled(s.samples, room, a.decision.action, a.now))
    else if a.decision.mode.None? then s
    else if Gate(c, a.decision.action, a.now, a.minCycle, a.crossMode) != Proceed then
      s.(samples := Sampled(s.samples, room, OrUnknown(c.last), a.now))
    else
      match OutcomeOf(a.calls)
      case Raised => s.(detector := s.detector.(lastCommandAt := Some(a.now)))
      case Dropped => s
      case Delivered =>
        ZoneState(Commit(c, a.decision.action, a.now),
                  ED.Delivered(s.detector, a.calls.live, CommandOf(a), a.now),
                  s.outage,
                  Sampled(s.samples, room, a.decision.action, a.now))
  }

  // The room-reading part of a refresh: resolve the reading, latch the stand-in, flush once
  // its action differs, remember the edge.
  function BeginRefresh(s: ZoneState, r: Readings, now: int): (ZoneState, Option<real>, RoomSource) {
    var (room, source) := Resolve(s.outage, r, now);
    var engaged := Engage(s.outage.(darkSince := DarkSince(s.outage, r, now)), source, s.commitment.last);
    var flush := FlushDue(engaged, source, s.commitment.last);
    (s.(samples := if flush then [] else s.samples,
        outage := Edge(if flush then engaged.(flushed := true) else engaged, source)),
     room, source)
  }

  // The buffer is emptied by this refresh on the stand-in's account.
  predicate RefreshFlushes(s: ZoneState, r: Readings, now: int) {
    var (room, source) := Resolve(s.outage, r, now);
    FlushDue(Engage(s.outage.(darkSince := DarkSince(s.outage, r, now)),
             source, s.commitment.last), source, s.commitment.last)
  }

  // A climate event: the detector moves on, and a hand edit empties the buffer.
  function OnClimate(s: ZoneState, r: ED.Report): ZoneState {
    s.(detector := ED.Observe(s.detector, r), samples := if ED.Flushes(s.detector, r) then [] else s.samples)
  }

  // A restart: the stored commitment and buffer come back, everything else is forgotten.
  function Hydrated(stored: Commitment, buffer: seq<Sample>): ZoneState {
    ZoneState(stored, ED.Detector(None, None, None), Outage(None, None, None, false), buffer)
  }

  class ZoneCoordinator {
    // the stored zone
    var lastAction: Option<Action>
    var lastActionAt: Option<int>
    var previousAction: Option<Action>
    var lastActiveAt: Option<int>
    var persistedIdleSlope: Option<real>
    var persistedIdleSlopeAt: Option<int>
    // the coordinator's own fields
    var samplesCache: seq<Sample>
    var lastCommandState: Option<ED.Reading>
    var commandedState: Option<ED.Reading>
    var lastCommandAt: Option<int>
    var primaryUnavailableSince: Option<int>
    var standinLastEngaged: Option<RoomSource>
    var standinActionAtEngage: Option<Action>
    var standinFlushed: bool
    var lastIdleSlopePersistAt: Option<int>

    // A zone restored from the store: commitment, buffer and idle slope survive a restart.
    constructor Hydrate(stored: Commitment, buffer: seq<Sample>, idle: IC.Cache)
      ensures View() == Hydrated(stored, buffer)
      ensures Cached() == idle.(writtenAt := None)
    {
      lastAction, lastActionAt := stored.last, stored.lastAt;
      previousAction, lastActiveAt := stored.previous, stored.lastActiveAt;
      persistedIdleSlope, persistedIdleSlopeAt := idle.slope, idle.at;
      samplesCache := buffer;
      lastCommandState, commandedState, lastCommandAt := None, None, None;
      primaryUnavailableSince, standinLastEngaged, standinActionAtEngage, standinFlushed := None, None, None, false;
      lastIdleSlopePersistAt := None;
    }

    ghost function View(): ZoneState
      reads this
    {
      ZoneState(Commitment(lastAction, lastActionAt, previousAction, lastActiveAt),
                ED.Detector(lastCommandState, commandedState, lastCommandAt),
                Outage(primaryUnavailableSince, standinLastEngaged, standinActionAtEngage, standinFlushed),
                samplesCache)
    }

    ghost function Cached(): IC.Cache
      reads this
    {
      IC.Cache(persistedIdleSlope, persistedIdleSlopeAt, lastIdleSlopePersistAt)
    }

    method ResolveRoomReading(r: Readings, now: int) returns (room: Option<real>, source: RoomSource)
      modifies this`primaryUnavailableSince
      ensures (room, source) == Resolve(old(View()).outage, r, now)
      ensures View() == old(View()).(outage := old(View()).outage.(darkSince := DarkSince(old(View()).outage, r, now)))
      ensures Cached() == old(Cached())
    {
      if r.primary.Some? {
        primaryUnavailableSince := None;
        return r.primary, Primary;
      }
      if primaryUnavailableSince.None? {
        primaryUnavailableSince := Some(now);
      }
      if now - primaryUnavailableSince.value < FALLBACK_GRACE_S {
        return None, NoSource;
      }
      if r.fallback.Some? {
        return r.fallback, FallbackSensor;
      }
      if r.climate.Some? {
        return r.climate, ClimateReading;
      }
      return None, NoSource;
    }

    // _log_room_source_edge, as far as it keeps state the control path reads.
    method LogRoomSourceEdge(source: RoomSource)
      modifies this`standinLastEngaged, this`standinActionAtEngage, this`standinFlushed
      ensures View() == old(View()).(outage := Edge(old(View()).outage, source))
      ensures Cached() == old(Cached())
    {
      if source == Primary {
        if standinLastEngaged.Some? {
          standinLastEngaged := None;
          standinActionAtEngage := None;
          standinFlushed := false;
        }
      } else if IsStandIn(source) {
        standinLastEngaged := Some(source);
      }
    }

    // The head of _async_update_data, up to the edge log.
    method ReadRoom(r: Readings, now: int) returns (room: Option<real>, source: RoomSource)
      modifies this
      ensures (View(), room, source) == BeginRefresh(old(View()), r, now)
      ensures Cached() == old(Cached())
    {
      room, source := ResolveRoomReading(r, now);
      var engaging := IsStandIn(source) && standinLastEngaged.None?;
      if engaging {
        standinActionAtEngage := lastAction;
        standinFlushed := false;
      }
      if (engaging || standinLastEngaged.Some?) && !standinFlushed && lastAction != standinActionAtEngage {
        samplesCache := [];
        standinFlushed := true;
      }
      LogRoomSourceEdge(source);
    }

    method AppendSample(room: Option<real>, action: Action, now: int)
      modifies this`samplesCache
      ensures View() == old(View()).(samples := Sampled(old(View()).samples, room, action, now))
      ensures Cached() == old(Cached())
    {
      if room.Some? {
        samplesCache := Append(samplesCache, SampleBuffer.Reading(now, room.value, action));
      }
    }

    // The snapshot of the unit's own report after a delivered command, and the record of
    // what was delivered.
    method RecordCommand(live: ED.Entity, command: ED.Reading)
      modifies this`lastCommandState, this`commandedState
      ensures View() == old(View()).(detector := old(View()).detector.(
                          baseline := ED.Snapshot(old(View()).detector.baseline, live, command),
                          commanded := Some(command)))
      ensures Cached() == old(Cached())
    {
      if live.Reporting? {
        var setpoint := live.setpoint;
        if setpoint.None? && lastCommandState.Some? {
          setpoint := lastCommandState.value.temp;
        }
        lastCommandState := Some(ED.Reading(live.mode, setpoint));
      } else if lastCommandState.None? {
        lastCommandState := Some(command);
      }
      commandedState := Some(command);
    }

    method RecordCommitment(action: Action, now: int)
      modifies this`lastAction, this`lastActionAt, this`previousAction, this`lastActiveAt
      ensures View() == old(View()).(commitment := Commit(old(View()).commitment, action, now))
      ensures Cached() == old(Cached())
    {
      previousAction := if lastAction != Some(action) then lastAction else previousAction;
      lastAction, lastActionAt := Some(action), Some(now);
      if IsActive(action) {
        lastActiveAt := Some(now);
      }
    }

    // Past the delivery check: the commitment, then the command record, then the sample.
    method CommitDelivered(a: ApplyInput)
      requires a.decision.mode.Some? && a.calls.ModeReturned?
      modifies this
      ensures View() == ZoneState(Commit(old(View()).commitment, a.decision.action, a.now),
                                  ED.Delivered(old(View()).detector, a.calls.live, CommandOf(a), a.now),
                                  old(View()).outage,
                                  Sampled(old(View()).samples, if a.record then a.room else None,
                                          a.decision.action, a.now))
      ensures Cached() == old(Cached())
    {
      lastCommandAt := Some(a.now);
      RecordCommitment(a.decision.action, a.now);
      RecordCommand(a.calls.live, CommandOf(a));
      AppendSample(if a.record then a.room else None, a.decision.action, a.now);
    }

    // Past the gates: stamp the echo window, call the climate, and record only what landed.
    method IssueCommand(a: ApplyInput)
      requires a.enabled && a.decision.mode.Some?
      requires Gate(View().commitment, a.decision.action, a.now, a.minCycle, a.crossMode) == Proceed
      modifies this
      ensures View() == MaybeApply(old(View()), a)
      ensures Cached() == old(Cached())
    {
      var previousCommandAt := lastCommandAt;
      lastCommandAt := Some(a.now);
      if a.calls.ModeRaised? {
        return;
      }
      if a.calls.unavailableBefore && a.calls.unavailableAfter {
        lastCommandAt := previousCommandAt;
        return;
      }
      CommitDelivered(a);
    }

    // The two dwell gates, as the source writes them.
    method Suppressed(a: ApplyInput) returns (held: bool)
      ensures held <==> Gate(View().commitment, a.decision.action, a.now, a.minCycle, a.crossMode) != Proceed
    {
      var action := a.decision.action;
      var elapsed := if lastActionAt.Some? then Some(a.now - lastActionAt.value) else None;
      if lastAction == Some(action) && elapsed.Some? && elapsed.value < a.minCycle * 60 {
        return true;
      }
      var prior := if lastAction.Some? && IsActive(lastAction.value) then lastAction else previousAction;
      var flip := prior.Some? && IsActive(prior.value) && IsActive(action) && prior.value != action;
      return flip && elapsed.Some? && elapsed.value < a.crossMode * 60;
    }

    method MaybeApplyAction(a: ApplyInput)
      modifies this
      ensures View() == MaybeApply(old(View()), a)
      ensures Cached() == old(Cached())
    {
      var room := if a.record then a.room else None;
      if !a.enabled {
        commandedState := None;
        if a.decision.mode.Some? {
          AppendSample(room, a.decision.action, a.now);
        }
      } else if a.decision.mode.Some? {
        var held := Suppressed(a);
        if held {
          AppendSample(room, OrUnknown(lastAction), a.now);
        } else {
          IssueCommand(a);
        }
      }
    }

    // The reading an event is judged as, nothing when it is not compared.
    method JudgedReading(r: ED.Report) returns (observed: Option<ED.Reading>)
      ensures observed == ED.Observed(lastCommandState, r)
    {
      if r.before.Missing? || r.entity.Missing? || r.entity.Unavailable? {
        return None;
      }
      var carried := lastCommandState;
      if r.entity.ModeUnknown? && carried.None? {
        return None;
      }
      var mode := if r.entity.Reporting? then r.entity.mode else carried.value.mode;
      var setpoint := if r.entity.setpoint.None? && carried.Some? then carried.value.temp else r.entity.setpoint;
      return Some(ED.Reading(mode, setpoint));
    }

    method OnClimateStateChange(r: ED.Report)
      modifies this
      ensures View() == OnClimate(old(View()), r)
      ensures Cached() == if ED.Flushes(old(View()).detector, r) then IC.EMPTY else old(Cached())
    {
      var observed := JudgedReading(r);
      if observed.None? {
        return;
      }
      var isEcho := lastCommandAt.Some? && 0 <= r.now - lastCommandAt.value < ED.CLIMATE_ECHO_WINDOW_S;
      if isEcho || lastCommandState.None?
         || ED.Expected(ED.Detector(lastCommandState, commandedState, lastCommandAt), observed.value) {
        lastCommandState := observed;
        return;
      }
      samplesCache := [];
      lastCommandState := observed;
      commandedState := None;
      lastIdleSlopePersistAt := None;
      persistedIdleSlope, persistedIdleSlopeAt := None, None;
    }

    method MaybePersistIdleSlope(s: P.Slopes, now: int)
      modifies this`persistedIdleSlope, this`persistedIdleSlopeAt, this`lastIdleSlopePersistAt
      ensures Cached() == IC.Persist(old(Cached()), s, now) && View() == old(View())
    {
      if s.idle.None? || s.idleMeasuredAt.None? || persistedIdleSlopeAt == s.idleMeasuredAt {
        return;
      }
      if lastIdleSlopePersistAt.Some? && now - lastIdleSlopePersistAt.value < IC.SAMPLE_PERSIST_INTERVAL_S {
        return;
      }
      persistedIdleSlope, persistedIdleSlopeAt := s.idle, s.idleMeasuredAt;
      lastIdleSlopePersistAt := Some(now);
    }

    method ResolveIdleSlope(s: P.Slopes, now: int, learning: bool, persistOk: bool) returns (effective: P.Slopes)
      modifies this`persistedIdleSlope, this`persistedIdleSlopeAt, this`lastIdleSlopePersistAt
      ensures (Cached(), effective) == IC.ResolveIdle(old(Cached()), s, now, learning, persistOk)
      ensures View() == old(View())
    {
      if s.idle.Some? {
        if learning && persistOk {
          MaybePersistIdleSlope(s, now);
        }
        return s;
      }
      if persistedIdleSlope.None? || persistedIdleSlopeAt.None? {
        return s;
      }
      if now - persistedIdleSlopeAt.value > IC.PERSISTED_MAX_AGE_S {
        lastIdleSlopePersistAt, persistedIdleSlope, persistedIdleSlopeAt := None, None, None;
        return s;
      }
      return s.(idle := persistedIdleSlope, idleSource := P.Cached, idleMeasuredAt := persistedIdleSlopeAt);
    }
  }
}
