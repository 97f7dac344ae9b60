// One whole refresh of a zone (_async_update_data) and the apply it spawns, and what the
// decisions it reaches guarantee over every run.

module Refresh {
  import opened ComfortTypes
  import SB = SampleBuffer
  import opened StandIn
  import opened Coordinator
  import opened Lookahead
  import opened LearnedSlopes
  import opened DecisionStack
  import opened OutageRuns
  import CommitGates
  import Peak
  import IC = IdleCache
  import H = Hysteresis
  import P = Predictor
  import Mpc

  const FALLBACK_DEADBAND_EXTRA := 0.5

  // The stored settings of a zone.
  datatype Zone = Zone(bands: BandSource, learning: bool, mpcEnabled: bool, enabled: bool, lookahead: nat,
                       passiveTolerance: real, horizon: nat, deadbandBelow: real, deadbandAbove: real,
                       minCycle: int, crossMode: int)

  // What one refresh finds outside, and how its climate calls will go.
  datatype World = World(now: int, readings: Readings, signal: Option<Peak.Signal>, override: bool,
                         step: real, calls: Calls)

  // The planner looks at least a minute ahead, and a schedule that exists is not empty.
  ghost predicate Configured(z: Zone) {
    z.horizon > 0 && Sound(z.bands)
  }

  // The live slopes of the buffer, the idle cache after the refresh, and the slopes to plan with.
  function Learned(b: seq<SB.Sample>, c: IC.Cache, learning: bool, standIn: bool,
        now: int, e: real -> real): (P.Slopes, IC.Cache, P.Slopes) {
    var live := P.EstimateSlopes(b, now, e);
    var (cache, withIdle) := IC.ResolveIdle(c, live, now, learning, !standIn);
    (live, cache, P.CarryOverRecoverySlopes(withIdle, b, now, e))
  }

  function DirectionOf(c: CommitGates.Commitment, effective: P.Slopes, now: int): Option<Action> {
    Peak.PreconditionDirection(c.last, c.previous, c.lastActiveAt, now, effective.idle)
  }

  function InputsOf(z: Zone, c: CommitGates.Commitment, room: Option<real>, standIn: bool, band: Band): H.Inputs {
    var extra := if standIn then FALLBACK_DEADBAND_EXTRA else 0.0;
    H.Inputs(room, band.low, band.high, z.deadbandBelow + extra, z.deadbandAbove + extra, OrUnknown(c.last))
  }

  function LayersOf(z: Zone, standIn: bool, relaxing: bool): Layers {
    Layers(z.learning, z.mpcEnabled, standIn, relaxing, z.lookahead, z.passiveTolerance, z.horizon)
  }

  // Everything the three layers are given.
  datatype Situation = Situation(layers: Layers, live: P.Slopes, effective: P.Slopes,
                                 inputs: H.Inputs, bands: Option<seq<Band>>)

  function Situate(s: ZoneState, c: IC.Cache, z: Zone, w: World, e: real -> real): (r: Situation)
    requires z.bands.schedule.Some? ==> z.bands.schedule.value != []
  {
    var (s1, room, source) := BeginRefresh(s, w.readings, w.now);
    var standIn := IsStandIn(source);
    var (live, _, effective) := Learned(s1.samples, c, z.learning, standIn, w.now, e);
    var direction := DirectionOf(s1.commitment, effective, w.now);
    var shaping := ShapingAt(z.bands, w.signal, w.override, direction, w.now);
    Situation(LayersOf(z, standIn, shaping.relaxing), live, effective,
              InputsOf(z, s1.commitment, room, standIn, Clamp(shaping.band)),
              PlannedBands(z.bands, w.signal, w.override, direction, w.now, z.horizon))
  }

  lemma {:induction false} PlannedBandsCover(z: Zone, signal: Option<Peak.Signal>, override: bool,
        direction: Option<Action>, now: int)
    requires Configured(z)
    ensures Mpc.CoversHorizon(PlannedBands(z.bands, signal, override, direction, now, z.horizon), z.horizon)
  {
  }

  lemma {:induction false} SituationIsSound(s: ZoneState, c: IC.Cache, z: Zone, w: World, e: real -> real)
    requires Configured(z)
    ensures var t := Situate(s, c, z, w, e);
            && Mpc.CoversHorizon(t.bands, t.layers.horizon)
            && t.inputs.low < t.inputs.high
            && RightSigned(t.effective)
            && t.inputs.room == Resolve(s.outage, w.readings, w.now).0
  {
    var (s1, room, source) := BeginRefresh(s, w.readings, w.now);
    var (live, cache, effective) := Learned(s1.samples, c, z.learning, IsStandIn(source), w.now, e);
    PlannedBandsCover(z, w.signal, w.override, DirectionOf(s1.commitment, effective, w.now), w.now);
    LearnedAreRightSigned(s1.samples, c, z.learning, IsStandIn(source), w.now, e);
  }

  // Whatever the buffer and the idle cache hold, the slopes the planner gets are right-signed.
  lemma {:induction false} LearnedAreRightSigned(b: seq<SB.Sample>, c: IC.Cache, learning: bool, standIn: bool,
        now: int, e: real -> real)
    ensures RightSigned(Learned(b, c, learning, standIn, now, e).2)
  {
    SlopesAreRightSigned(b, now, e);
    var live := P.EstimateSlopes(b, now, e);
    IC.SubstitutesOnlyIdle(c, live, now, learning, !standIn);
    CarryOverKeepsSigns(IC.ResolveIdle(c, live, now, learning, !standIn).1, b, now, e);
  }

  function DecisionOf(t: Situation): H.Decision
    requires Mpc.CoversHorizon(t.bands, t.layers.horizon)
  {
    FinalDecision(t.layers, t.live, t.effective, t.inputs, t.bands)
  }

  function Decided(s: ZoneState, c: IC.Cache, z: Zone, w: World, e: real -> real): H.Decision
    requires Configured(z)
  {
    SituationIsSound(s, c, z, w, e);
    DecisionOf(Situate(s, c, z, w, e))
  }

  function CacheAfter(s: ZoneState, c: IC.Cache, z: Zone, w: World, e: real -> real): IC.Cache {
    var (s1, _, source) := BeginRefresh(s, w.readings, w.now);
    Learned(s1.samples, c, z.learning, IsStandIn(source), w.now, e).1
  }

  // The refresh and its apply, seen as a cycle.
  function CycleOf(s: ZoneState, c: IC.Cache, z: Zone, w: World, e: real -> real): Cycle
    requires Configured(z)
  {
    Cycle(w.now, w.readings, Decided(s, c, z, w, e), z.enabled, z.minCycle, z.crossMode, w.step, w.calls)
  }

  // One reading of the buffer: the live slopes, the idle cache brought up to date, and the
  // slopes the planner gets.
  method Learn(coordinator: ZoneCoordinator, learning: bool, standIn: bool, now: int, e: real -> real)
    returns (live: P.Slopes, effective: P.Slopes)
    modifies coordinator
    ensures (live, coordinator.Cached(), effective)
         == Learned(old(coordinator.View()).samples, old(coordinator.Cached()), learning, standIn, now, e)
    ensures coordinator.View() == old(coordinator.View())
  {
    var samples := coordinator.samplesCache;
    live := P.EstimateSlopes(samples, now, e);
    effective := coordinator.ResolveIdleSlope(live, now, learning, !standIn);
    effective := P.CarryOverRecoverySlopes(effective, samples, now, e);
  }

  // The refresh on the coordinator's own fields, up to the decision.
  method Update(coordinator: ZoneCoordinator, z: Zone, w: World, e: real -> real)
    returns (decision: H.Decision, room: Option<real>, source: RoomSource)
    requires Configured(z)
    modifies coordinator
    ensures decision == Decided(old(coordinator.View()), old(coordinator.Cached()), z, w, e)
    ensures (coordinator.View(), room, source) == BeginRefresh(old(coordinator.View()), w.readings, w.now)
    ensures coordinator.Cached() == CacheAfter(old(coordinator.View()), old(coordinator.Cached()), z, w, e)
  {
    SituationIsSound(coordinator.View(), coordinator.Cached(), z, w, e);
    room, source := coordinator.ReadRoom(w.readings, w.now);
    var standIn := IsStandIn(source);
    var live, effective := Learn(coordinator, z.learning, standIn, w.now, e);
    var direction := Peak.PreconditionDirection(coordinator.lastAction,
          coordinator.previousAction, coordinator.lastActiveAt,
                                                w.now, effective.idle);
    var shaping := ShapingAt(z.bands, w.signal, w.override, direction, w.now);
    var band := Clamp(shaping.band);
    var extra := if standIn then FALLBACK_DEADBAND_EXTRA else 0.0;
    var inputs := H.Inputs(room, band.low, band.high, z.deadbandBelow + extra,
                           z.deadbandAbove + extra, OrUnknown(coordinator.lastAction));
    var bands := PlannedBands(z.bands, w.signal, w.override, direction, w.now, z.horizon);
    decision := FinalDecision(LayersOf(z, standIn, shaping.relaxing), live, effective, inputs, bands);
  }

  // ... and the apply it spawns.
  method RefreshAndApply(coordinator: ZoneCoordinator, z: Zone, w: World, e: real -> real)
    requires Configured(z)
    modifies coordinator
    ensures coordinator.View()
         == RunCycle(old(coordinator.View()), CycleOf(old(coordinator.View()), old(coordinator.Cached()), z, w, e))
    ensures coordinator.Cached() == CacheAfter(old(coordinator.View()), old(coordinator.Cached()), z, w, e)
  {
    var decision, room, source := Update(coordinator, z, w, e);
    coordinator.MaybeApplyAction(ApplyInput(w.now, decision, z.enabled, room, !IsStandIn(source),
                                            z.minCycle, z.crossMode, w.step, w.calls));
  }

  // ----- what a refresh goes by -----

  // The slopes planned with: idle as measured or, missing, as remembered for a day; heat and
  // cool as the previous cycle's where one is lent, as the running one's own elsewhere.
  lemma {:induction false} PlannedSlopesAre(b: seq<SB.Sample>, c: IC.Cache, learning: bool, standIn: bool, now: int,
        e: real -> real, a: Action)
    requires IsActive(a)
    ensures var live := P.EstimateSlopes(b, now, e);
            var (found, _, effective) := Learned(b, c, learning, standIn, now, e);
            && found == live
            && (effective.idle == if live.idle.Some? then live.idle
                                  else if c.slope.Some? && c.at.Some? && now - c.at.value <= 86400 then c.slope
                                  else None)
            && (effective.ForAction(a) == if P.PreviousCycleSlope(b, a, now, e).Some?
                                          then P.PreviousCycleSlope(b, a, now, e) else live.ForAction(a))
  {
    var live := P.EstimateSlopes(b, now, e);
    IC.IdleResolvedExactly(c, live, now, learning, !standIn);
    IC.SubstitutesOnlyIdle(c, live, now, learning, !standIn);
    CarryOverExactly(IC.ResolveIdle(c, live, now, learning, !standIn).1, b, a, now, e);
  }

  // Only a learning zone on its own room sensor writes the idle slope it measured.
  lemma {:induction false} LearnsOnlyFromItsSensor(b: seq<SB.Sample>, c: IC.Cache, learning: bool, standIn: bool,
        now: int, e: real -> real)
    requires P.EstimateSlopes(b, now, e).idle.Some?
    ensures Learned(b, c, learning, standIn, now, e).1
         == if learning && !standIn then IC.Persist(c, P.EstimateSlopes(b, now, e), now) else c
  {
  }

  // The edges and deadbands of a refresh: the band in force then, half a degree of deadband
  // more on a stand-in reading, and the action the zone last committed.
  lemma {:induction false} InputsAre(s: ZoneState, c: IC.Cache, z: Zone, w: World, e: real -> real)
    requires Configured(z)
    ensures var t := Situate(s, c, z, w, e);
            var (s1, room, source) := BeginRefresh(s, w.readings, w.now);
            var direction := DirectionOf(s.commitment, t.effective, w.now);
            var band := EffectiveBand(z.bands, w.signal, w.override, direction, w.now);
            var extra := if source == Primary || source == NoSource then 0.0 else 0.5;
            && t.inputs.room == room && Band(t.inputs.low, t.inputs.high) == band
            && t.inputs.deadbandBelow == z.deadbandBelow + extra
            && t.inputs.deadbandAbove == z.deadbandAbove + extra
            && t.inputs.current == (if s.commitment.last.Some? then s.commitment.last.value else Unknown)
            && t.bands == PlannedBands(z.bands, w.signal, w.override, direction, w.now, z.horizon)
            && (t.live, t.effective) == (P.EstimateSlopes(s1.samples, w.now, e),
                                         Learned(s1.samples, c, z.learning, extra > 0.0, w.now, e).2)
  {
  }

  // A stand-in starts a heat cycle only half a degree further out than the room sensor would.
  lemma {:induction false} StandInStartsLater(s: ZoneState, c: IC.Cache, z: Zone, w: World, e: real -> real)
    requires Configured(z) && z.deadbandBelow >= 0.0 && z.deadbandAbove >= 0.0
    requires IsStandIn(BeginRefresh(s, w.readings, w.now).2)
    requires s.commitment.last.None? || !IsActive(s.commitment.last.value)
    ensures var t := Situate(s, c, z, w, e);
            && t.inputs.room.Some?
            && (Decided(s, c, z, w, e).action == Heat <==> t.inputs.room.value < t.inputs.low - z.deadbandBelow - 0.5)
            && (Decided(s, c, z, w, e).action == Cool <==> t.inputs.room.value > t.inputs.high + z.deadbandAbove + 0.5)
  {
    var t := Situate(s, c, z, w, e);
    SituationIsSound(s, c, z, w, e);
    InputsAre(s, c, z, w, e);
    WhoDecides(t.layers, t.live, t.effective, t.inputs, t.bands);
    H.DecidesExactly(t.inputs);
  }
}
