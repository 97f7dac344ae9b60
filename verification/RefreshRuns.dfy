// Runs of whole refreshes, applies, climate reports and restarts: what holds of them with no
// assumption about the decisions, because the refresh itself makes them.

module RefreshRuns {
  import opened ComfortTypes
  import opened SampleBuffer
  import opened StandIn
  import opened Coordinator
  import opened DecisionStack
  import opened OutageRuns
  import opened Refresh
  import CommitGates
  import IC = IdleCache
  import H = Hysteresis
  import ED = EditDetector
  import LearnedSlopes
  import Mpc
  import MpcFacts
  import MpcFlips
  import P = Predictor
  import Peak

  // ----- one refresh -----

  // Without a reading a refresh commands nothing; with one its decision is whole.
  lemma {:induction false} RefreshIsSensible(s: ZoneState, c: IC.Cache, z: Zone, w: World, e: real -> real)
    requires Configured(z)
    ensures Sensible(s, CycleOf(s, c, z, w, e)) && H.WellFormed(Decided(s, c, z, w, e))
  {
    SituationIsSound(s, c, z, w, e);
    var t := Situate(s, c, z, w, e);
    if t.inputs.room.None? {
      NoReadingNoCommand(t.layers, t.live, t.effective, t.inputs, t.bands);
    } else {
      ReadingAlwaysDecides(t.layers, t.live, t.effective, t.inputs, t.bands);
    }
  }

  // The band is constant over the horizon and no learned slope crosses it in a minute.
  ghost predicate Calm(t: Situation) {
    MpcFacts.Steady(t.inputs, t.bands, t.layers.horizon) && MpcFacts.StepsFitBand(t.effective, t.inputs)
  }

  // Whatever was learned, a refresh does not continue a cycle whose room has reached the far edge.
  lemma {:induction false} RefreshReleases(s: ZoneState, c: IC.Cache, z: Zone, w: World, e: real -> real)
    requires Configured(z) && Calm(Situate(s, c, z, w, e))
    ensures H.Releases(Situate(s, c, z, w, e).inputs, Decided(s, c, z, w, e))
  {
    SituationIsSound(s, c, z, w, e);
    var t := Situate(s, c, z, w, e);
    StackReleases(t.layers, t.live, t.effective, t.inputs, t.bands);
  }

  // At the far edge the delivered apply ends the running cycle, unless the planner is in
  // charge, the opposite cycle outscores idling and idling falls short, all inside the
  // cross-mode dwell: then, and only then, the cycle runs on.
  lemma {:induction false} FarEdgeOutcome(s: ZoneState, c: IC.Cache, z: Zone, w: World, e: real -> real)
    requires Configured(z) && Calm(Situate(s, c, z, w, e)) && H.AtFarEdge(Situate(s, c, z, w, e).inputs)
    requires z.enabled && OutcomeOf(w.calls) == CommitGates.Delivered
    ensures var t := Situate(s, c, z, w, e);
            RunCycle(s, CycleOf(s, c, z, w, e)).commitment.last == Some(t.inputs.current) <==>
              (PlannerInCharge(t.layers, t.effective)
               && MpcFlips.Reverses(t.effective, t.inputs, t.layers.horizon, t.bands)
               && CommitGates.Dwelling(s.commitment, w.now, z.crossMode))
  {
    var t := Situate(s, c, z, w, e);
    SituationIsSound(s, c, z, w, e);
    RefreshReleases(s, c, z, w, e);
    ReadingAlwaysDecides(t.layers, t.live, t.effective, t.inputs, t.bands);
    StackReversesIff(t.layers, t.live, t.effective, t.inputs, t.bands);
    CycleCommitment(s, CycleOf(s, c, z, w, e));
    GateAtFarEdge(s.commitment, t.inputs, Decided(s, c, z, w, e), w.now, z);
  }

  // A decision that releases is let through, except the opposite cycle inside its dwell.
  lemma {:induction false} GateAtFarEdge(c: CommitGates.Commitment, i: H.Inputs, d: H.Decision, now: int, z: Zone)
    requires IsActive(i.current) && c.last == Some(i.current) && i.room.Some?
    requires d.action != i.current && d.action != Unknown && H.WellFormed(d)
    ensures CommitGates.Gate(c, d.action, now, z.minCycle, z.crossMode) != CommitGates.Proceed <==>
              (!H.ThroughIdle(i, d) && CommitGates.Dwelling(c, now, z.crossMode))
  {
  }

  // A cycle planned on a borrowed slope is not ended by a refresh short of the edge it is
  // driven to, while the planner is in charge and plans.
  lemma {:induction false} BorrowedCycleRunsOn(s: ZoneState, c: IC.Cache, z: Zone, w: World, e: real -> real)
    requires Configured(z)
    requires var t := Situate(s, c, z, w, e);
             && t.inputs.room.Some? && PlannerInCharge(t.layers, t.effective)
             && !Mpc.Defers(t.effective, t.inputs, t.bands) && Mpc.Holds(t.effective, t.inputs, t.bands)
    ensures Decided(s, c, z, w, e).action != Idle
  {
    var t := Situate(s, c, z, w, e);
    SituationIsSound(s, c, z, w, e);
    var (s1, _, source) := BeginRefresh(s, w.readings, w.now);
    CarriedOverIsKnown(s1.samples, c, z.learning, IsStandIn(source), w.now, e, t.inputs.current);
    MpcFacts.BorrowingCycleIsHeld(t.effective, t.inputs, z.horizon, Predicted(t.layers, t.live, t.inputs), t.bands);
  }

  // A slope marked as carried over is there.
  lemma {:induction false} CarriedOverIsKnown(b: seq<Sample>, c: IC.Cache, learning: bool, standIn: bool, now: int,
        e: real -> real, a: Action)
    requires Learned(b, c, learning, standIn, now, e).2.CarriedOver(a)
    ensures Learned(b, c, learning, standIn, now, e).2.ForAction(a).Some?
  {
    var live := P.EstimateSlopes(b, now, e);
    LearnedSlopes.EstimatedAreOwn(b, now, e);
    IC.SubstitutesOnlyIdle(c, live, now, learning, !standIn);
    LearnedSlopes.CarriedIsPrevious(IC.ResolveIdle(c, live, now, learning, !standIn).1, b, a, now, e);
  }

  // ----- runs -----

  // A refresh with its apply, under settings that may change between refreshes; a report of
  // the climate entity; or a restart, with the buffer as last saved after so many events.
  datatype Event = Tick(z: Zone, w: World) | Report(report: ED.Report) | Restart(saved: nat)

  ghost predicate AllConfigured(evs: seq<Event>) {
    forall k :: 0 <= k < |evs| ==>
      (evs[k].Tick? ==> Configured(evs[k].z)) && (evs[k].Restart? ==> evs[k].saved <= k)
  }

  function Play(s: ZoneState, c: IC.Cache, evs: seq<Event>, e: real -> real): (ZoneState, IC.Cache)
    requires AllConfigured(evs)
    decreases |evs|
  {
    if evs == [] then (s, c)
    else
      var (s1, c1) := Play(s, c, evs[..|evs| - 1], e);
      match Last(evs)
      case Tick(z, w) => (RunCycle(s1, CycleOf(s1, c1, z, w, e)), CacheAfter(s1, c1, z, w, e))
      case Report(r) => (OnClimate(s1, r), if ED.Flushes(s1.detector, r) then IC.EMPTY else c1)
      case Restart(n) => (Hydrated(s1.commitment, Play(s, c, evs[..n], e).0.samples), c1.(writtenAt := None))
  }

  // A hand edit forgets all that was learned: the samples, the remembered idle slope and the
  // command, so that the next refresh plans with no slope. No other report touches any of it,
  // and neither kind touches the commitment or the outage.
  lemma {:induction false} EditForgetsWhatWasLearned(s: ZoneState, c: IC.Cache, evs: seq<Event>, r: ED.Report,
        e: real -> real)
    requires AllConfigured(evs) && AllConfigured(evs + [Report(r)])
    ensures var (was, kept) := Play(s, c, evs, e);
            var (now, cache) := Play(s, c, evs + [Report(r)], e);
            && now.commitment == was.commitment && now.outage == was.outage
            && now.detector.lastCommandAt == was.detector.lastCommandAt
            && (ED.Flushes(was.detector, r) ==>
                  now.samples == [] && cache.slope.None? && cache.at.None? && now.detector.commanded.None?)
            && (!ED.Flushes(was.detector, r) ==>
                  now.samples == was.samples && cache == kept && now.detector.commanded == was.detector.commanded)
  {
    assert (evs + [Report(r)])[..|evs|] == evs;
  }

  lemma {:induction false} NothingLearnedPlansWithoutSlope(c: IC.Cache, learning: bool, standIn: bool, now: int,
        e: real -> real)
    requires c.slope.None? && c.at.None?
    ensures var t := Learned([], c, learning, standIn, now, e).2;
            t.idle.None? && t.heat.None? && t.cool.None?
  {
    LearnedSlopes.NoSampleNoSlope([], Idle, now, e);
    LearnedSlopes.NoSampleNoSlope([], Heat, now, e);
    LearnedSlopes.NoSampleNoSlope([], Cool, now, e);
    PlannedSlopesAre([], c, learning, standIn, now, e, Heat);
    PlannedSlopesAre([], c, learning, standIn, now, e, Cool);
  }

  // The applies of the run that reach the gates.
  function Tried(s: ZoneState, c: IC.Cache, evs: seq<Event>, e: real -> real): seq<CommitGates.Apply>
    requires AllConfigured(evs)
  {
    if evs == [] then []
    else
      var rest := evs[..|evs| - 1];
      var (s1, c1) := Play(s, c, rest, e);
      Tried(s, c, rest, e) + if Last(evs).Tick? then Attempts([CycleOf(s1, c1, Last(evs).z, Last(evs).w, e)]) else []
  }

  // The clock never goes back over the refreshes.
  ghost predicate Forward(evs: seq<Event>) {
    forall i, j :: 0 <= i < j < |evs| && evs[i].Tick? && evs[j].Tick? ==> evs[i].w.now <= evs[j].w.now
  }

  lemma {:induction false} TriedOfOne(x: Cycle)
    ensures Attempts([x]) == if x.enabled && x.decision.mode.Some? then [AttemptOf(x)] else []
  {
  }

  lemma {:induction false} AfterOneMore(s: ZoneState, xs: seq<CommitGates.Apply>, x: Cycle)
    requires s.commitment == CommitGates.After(xs)
    ensures RunCycle(s, x).commitment == CommitGates.After(xs + Attempts([x]))
  {
    TriedOfOne(x);
    CycleCommitment(s, x);
    if x.enabled && x.decision.mode.Some? {
      assert (xs + Attempts([x]))[..|xs|] == xs;
    } else {
      assert xs + Attempts([x]) == xs;
    }
  }

  lemma {:induction false} CommitmentOfLast(s: ZoneState, c: IC.Cache, evs: seq<Event>, e: real -> real)
    requires AllConfigured(evs) && evs != []
    requires Play(s, c, evs[..|evs| - 1], e).0.commitment == CommitGates.After(Tried(s, c, evs[..|evs| - 1], e))
    ensures Play(s, c, evs, e).0.commitment == CommitGates.After(Tried(s, c, evs, e))
  {
    var rest := evs[..|evs| - 1];
    var (s1, c1) := Play(s, c, rest, e);
    match Last(evs)
    case Tick(z, w) => AfterOneMore(s1, Tried(s, c, rest, e), CycleOf(s1, c1, z, w, e));
    case _ =>
      assert Tried(s, c, evs, e) == Tried(s, c, rest, e);
  }

  lemma {:induction false} CommitmentOfRun(s: ZoneState, c: IC.Cache, evs: seq<Event>, e: real -> real)
    requires AllConfigured(evs) && s.commitment == CommitGates.FRESH
    ensures Play(s, c, evs, e).0.commitment == CommitGates.After(Tried(s, c, evs, e))
  {
    if evs != [] {
      CommitmentOfRun(s, c, evs[..|evs| - 1], e);
      CommitmentOfLast(s, c, evs, e);
    }
  }

  // No apply of the run is later than this.
  ghost predicate Until(xs: seq<CommitGates.Apply>, now: int) {
    forall i :: 0 <= i < |xs| ==> xs[i].now <= now
  }

  lemma {:induction false} TriedAreTimely(s: ZoneState, c: IC.Cache, evs: seq<Event>, now: int, e: real -> real)
    requires AllConfigured(evs) && forall k :: 0 <= k < |evs| && evs[k].Tick? ==> evs[k].w.now <= now
    ensures Until(Tried(s, c, evs, e), now)
  {
    if evs != [] {
      var rest := evs[..|evs| - 1];
      TriedAreTimely(s, c, rest, now, e);
      var (s1, c1) := Play(s, c, rest, e);
      if Last(evs).Tick? {
        TriedOfOne(CycleOf(s1, c1, Last(evs).z, Last(evs).w, e));
      }
    }
  }

  lemma {:induction false} OneMoreIsOrderly(xs: seq<CommitGates.Apply>, x: Cycle)
    requires CommitGates.Clocked(xs) && CommitGates.Decided(xs) && Until(xs, x.now) && H.WellFormed(x.decision)
    ensures CommitGates.Clocked(xs + Attempts([x])) && CommitGates.Decided(xs + Attempts([x]))
  {
    TriedOfOne(x);
  }

  lemma {:induction false} TriedAreOrderly(s: ZoneState, c: IC.Cache, evs: seq<Event>, e: real -> real)
    requires AllConfigured(evs) && Forward(evs)
    ensures CommitGates.Clocked(Tried(s, c, evs, e)) && CommitGates.Decided(Tried(s, c, evs, e))
  {
    if evs != [] {
      var rest := evs[..|evs| - 1];
      TriedAreOrderly(s, c, rest, e);
      if Last(evs).Tick? {
        var (s1, c1) := Play(s, c, rest, e);
        RefreshIsSensible(s1, c1, Last(evs).z, Last(evs).w, e);
        TriedAreTimely(s, c, rest, Last(evs).w.now, e);
        OneMoreIsOrderly(Tried(s, c, rest, e), CycleOf(s1, c1, Last(evs).z, Last(evs).w, e));
      }
    }
  }

  // Over every run of refreshes, applies, climate reports and restarts of a new zone, with
  // calls raised, dropped or delivered in any mix, the stored fields track the commits and
  // both dwells are kept.
  lemma {:induction false} RunsKeepTheDwells(s: ZoneState, c: IC.Cache, evs: seq<Event>, e: real -> real)
    requires AllConfigured(evs) && Forward(evs) && s.commitment == CommitGates.FRESH
    ensures var log := CommitGates.Log(Tried(s, c, evs, e));
            && CommitGates.Tracks(Play(s, c, evs, e).0.commitment, log)
            && CommitGates.SameModeSpaced(log) && CommitGates.CrossModeSpaced(log)
  {
    CommitmentOfRun(s, c, evs, e);
    TriedAreOrderly(s, c, evs, e);
    CommitGates.FieldsTrackTheLog(Tried(s, c, evs, e));
    CommitGates.DwellsAreKept(Tried(s, c, evs, e));
  }

  // The room is drifting the cycle's own way by itself.
  predicate DriftsItsWay(cycle: Action, idle: Option<real>) {
    idle.Some? &&
    if cycle == Heat then idle.value > 0.05 / 60.0
    else idle.value < -0.05 / 60.0
  }

  lemma {:induction false} DirectionFromFields(c: CommitGates.Commitment, log: seq<CommitGates.Apply>,
        idle: Option<real>, now: int)
    requires CommitGates.Tracks(c, log)
    ensures var cycle := CommitGates.LatestActive(log);
            Peak.PreconditionDirection(c.last, c.previous, c.lastActiveAt, now, idle) ==
              if cycle.None? || now - cycle.value.now > 86400
                 || DriftsItsWay(cycle.value.action, idle) then None
              else Some(cycle.value.action)
  {
  }

  // Over every run, pre-conditioning follows the latest heat or cool that was committed, while
  // that is at most a day old and the room does not drift its way anyhow.
  lemma {:induction false} DirectionIsTheLatestCycle(s: ZoneState, c: IC.Cache, evs: seq<Event>, effective: P.Slopes,
        now: int, e: real -> real)
    requires AllConfigured(evs) && Forward(evs) && s.commitment == CommitGates.FRESH
    ensures var cycle := CommitGates.LatestActive(CommitGates.Log(Tried(s, c, evs, e)));
            DirectionOf(Play(s, c, evs, e).0.commitment, effective, now) ==
              if cycle.None? || now - cycle.value.now > 86400
                 || DriftsItsWay(cycle.value.action, effective.idle) then None
              else Some(cycle.value.action)
  {
    RunsKeepTheDwells(s, c, evs, e);
    DirectionFromFields(Play(s, c, evs, e).0.commitment, CommitGates.Log(Tried(s, c, evs, e)), effective.idle, now);
  }

  // ----- the buffer over a run -----

  ghost predicate Past(b: seq<Sample>, now: int) {
    b != [] ==> Last(b).t <= now
  }

  lemma {:induction false} SampledIsHealthy(b: seq<Sample>, room: Option<real>, action: Action, now: int)
    requires Healthy(b) && Past(b, now)
    ensures Healthy(Sampled(b, room, action, now)) && Past(Sampled(b, room, action, now), now)
  {
    if room.Some? {
      AppendKeepsHealthy(b, Reading(now, room.value, action));
    }
  }

  lemma {:induction false} AppliedSamplesAre(s: ZoneState, a: ApplyInput)
    ensures var room := if a.record then a.room else None;
            || MaybeApply(s, a).samples == s.samples
            || MaybeApply(s, a).samples == Sampled(s.samples, room, a.decision.action, a.now)
            || MaybeApply(s, a).samples == Sampled(s.samples, room, OrUnknown(s.commitment.last), a.now)
  {
  }

  lemma {:induction false} CycleKeepsHealthy(s: ZoneState, x: Cycle)
    requires Healthy(s.samples) && Past(s.samples, x.now)
    ensures Healthy(RunCycle(s, x).samples) && Past(RunCycle(s, x).samples, x.now)
  {
    var (s1, room, source) := BeginRefresh(s, x.readings, x.now);
    var a := ApplyOf(x, room, source);
    AppliedSamplesAre(s1, a);
    assert Healthy(s1.samples) && Past(s1.samples, x.now);
    SampledIsHealthy(s1.samples, if a.record then a.room else None, a.decision.action, a.now);
    SampledIsHealthy(s1.samples, if a.record then a.room else None, OrUnknown(s1.commitment.last), a.now);
  }

  // Over every run the buffer stays sorted, spans at most ninety minutes, holds at most two
  // hundred samples and keeps same-action neighbours a minute apart, flushes and restarts
  // included.
  lemma {:induction false} RunsKeepTheBuffer(s: ZoneState, c: IC.Cache, evs: seq<Event>, now: int, e: real -> real)
    requires AllConfigured(evs) && Forward(evs) && s.samples == []
    requires forall k :: 0 <= k < |evs| && evs[k].Tick? ==> evs[k].w.now <= now
    ensures Healthy(Play(s, c, evs, e).0.samples) && Past(Play(s, c, evs, e).0.samples, now)
    decreases |evs|
  {
    if evs != [] {
      var rest, last := evs[..|evs| - 1], Last(evs);
      if last.Tick? {
        var (s1, c1) := Play(s, c, rest, e);
        RunsKeepTheBuffer(s, c, rest, last.w.now, e);
        CycleKeepsHealthy(s1, CycleOf(s1, c1, last.z, last.w, e));
      } else {
        RunsKeepTheBuffer(s, c, if last.Restart? then evs[..last.saved] else rest, now, e);
      }
    }
  }

  // Every sample of every run is a reading the room sensor itself gave, at that time.
  lemma {:induction false} RunSamplesAreThePrimarys(s: ZoneState, c: IC.Cache, evs: seq<Event>, y: Sample,
        e: real -> real) returns (k: nat)
    requires AllConfigured(evs) && s.samples == [] && y in Play(s, c, evs, e).0.samples
    ensures k < |evs| && evs[k].Tick? && evs[k].w.readings.primary == Some(y.temp) && evs[k].w.now == y.t
    decreases |evs|
  {
    var rest := evs[..|evs| - 1];
    var (s1, c1) := Play(s, c, rest, e);
    if Last(evs).Restart? {
      k := RunSamplesAreThePrimarys(s, c, evs[..Last(evs).saved], y, e);
    } else if y in s1.samples {
      k := RunSamplesAreThePrimarys(s, c, rest, y, e);
    } else {
      CycleSamples(s1, CycleOf(s1, c1, Last(evs).z, Last(evs).w, e), y);
      k := |evs| - 1;
    }
  }

  // ----- a borrowing cycle over a run -----

  // The room has reached the edge a cycle of this action is driven to.
  predicate Arrived(t: Situation, a: Action)
    requires t.inputs.room.Some?
  {
    var edge := Mpc.BailBand(t.inputs, t.bands);
    (a == Heat && t.inputs.room.value >= edge.high) || (a == Cool && t.inputs.room.value <= edge.low)
  }

  // Everything that can end a cycle at this refresh: the planner is not in charge or defers,
  // it reverses, the room has arrived, or there is no earlier cycle's slope to borrow.
  ghost predicate MayEnd(s: ZoneState, c: IC.Cache, z: Zone, w: World, a: Action, e: real -> real)
    requires Configured(z)
  {
    SituationIsSound(s, c, z, w, e);
    var t := Situate(s, c, z, w, e);
    && t.inputs.room.Some?
    && (|| !PlannerInCharge(t.layers, t.effective)
        || Mpc.Defers(t.effective, t.inputs, t.bands)
        || MpcFlips.Reverses(t.effective, t.inputs, t.layers.horizon, t.bands)
        || Arrived(t, a)
        || P.PreviousCycleSlope(BeginRefresh(s, w.readings, w.now).0.samples, a, w.now, e).None?)
  }

  lemma {:induction false} BorrowingDecision(s: ZoneState, c: IC.Cache, z: Zone, w: World, a: Action, e: real -> real)
    requires Configured(z) && IsActive(a) && s.commitment.last == Some(a) && !MayEnd(s, c, z, w, a, e)
    requires Situate(s, c, z, w, e).inputs.room.Some?
    ensures Decided(s, c, z, w, e).action == a
  {
    var t := Situate(s, c, z, w, e);
    var (s1, _, source) := BeginRefresh(s, w.readings, w.now);
    SituationIsSound(s, c, z, w, e);
    var live := P.EstimateSlopes(s1.samples, w.now, e);
    LearnedSlopes.BorrowingIsMarked(IC.ResolveIdle(c, live, w.now, z.learning, !IsStandIn(source)).1,
                                    s1.samples, a, w.now, e);
    BorrowedCycleRunsOn(s, c, z, w, e);
    StackReversesIff(t.layers, t.live, t.effective, t.inputs, t.bands);
  }

  // Held, re-committed, raised or dropped, the cycle is still the one in force.
  lemma {:induction false} BorrowingTick(s: ZoneState, c: IC.Cache, z: Zone, w: World, a: Action, e: real -> real)
    requires Configured(z) && IsActive(a) && s.commitment.last == Some(a) && !MayEnd(s, c, z, w, a, e)
    ensures RunCycle(s, CycleOf(s, c, z, w, e)).commitment.last == Some(a)
  {
    SituationIsSound(s, c, z, w, e);
    if Situate(s, c, z, w, e).inputs.room.Some? {
      BorrowingDecision(s, c, z, w, a, e);
    } else {
      RefreshIsSensible(s, c, z, w, e);
    }
    CycleCommitment(s, CycleOf(s, c, z, w, e));
  }

  // Event k is a refresh at which the cycle in force may end.
  ghost predicate MayEndAt(s: ZoneState, c: IC.Cache, evs: seq<Event>, k: nat, a: Action, e: real -> real)
    requires AllConfigured(evs) && k < |evs|
  {
    var (s1, c1) := Play(s, c, evs[..k], e);
    && s1.commitment.last == Some(a) && evs[k].Tick? && Configured(evs[k].z)
    && MayEnd(s1, c1, evs[k].z, evs[k].w, a, e)
  }

  // Only a refresh at which it may end takes the cycle out of force.
  lemma {:induction false} BorrowingEvent(s: ZoneState, c: IC.Cache, evs: seq<Event>, a: Action, e: real -> real)
    requires AllConfigured(evs) && evs != [] && IsActive(a)
    requires Play(s, c, evs[..|evs| - 1], e).0.commitment.last == Some(a)
    requires Play(s, c, evs, e).0.commitment.last != Some(a)
    ensures MayEndAt(s, c, evs, |evs| - 1, a, e)
  {
    var last := Last(evs);
    var (s1, c1) := Play(s, c, evs[..|evs| - 1], e);
    if last.Tick? && !MayEnd(s1, c1, last.z, last.w, a, e) {
      BorrowingTick(s1, c1, last.z, last.w, a, e);
    }
  }

  // Over every run a heat or cool cycle stays in force until a refresh at which it may end: as
  // long as it borrows the previous cycle's slope, only its far edge, a deferral or a reversal
  // can take it out of force.
  lemma {:induction false} BorrowingCycleStaysInForce(s: ZoneState, c: IC.Cache, evs: seq<Event>, a: Action,
        e: real -> real) returns (k: nat)
    requires AllConfigured(evs) && IsActive(a) && s.commitment.last == Some(a)
    requires Play(s, c, evs, e).0.commitment.last != Some(a)
    ensures k < |evs| && MayEndAt(s, c, evs, k, a, e)
  {
    var rest := evs[..|evs| - 1];
    if Play(s, c, rest, e).0.commitment.last != Some(a) {
      k := BorrowingCycleStaysInForce(s, c, rest, a, e);
      assert rest[..k] == evs[..k];
    } else {
      k := |evs| - 1;
      BorrowingEvent(s, c, evs, a, e);
    }
  }

  // ----- outages -----

  ghost predicate AllTicks(evs: seq<Event>) {
    forall k :: 0 <= k < |evs| ==> evs[k].Tick?
  }

  // The cycles of a run of refreshes with no climate report between them.
  function CyclesOf(s: ZoneState, c: IC.Cache, evs: seq<Event>, e: real -> real): seq<Cycle>
    requires AllConfigured(evs) && AllTicks(evs)
  {
    if evs == [] then []
    else
      var rest := evs[..|evs| - 1];
      var (s1, c1) := Play(s, c, rest, e);
      CyclesOf(s, c, rest, e) + [CycleOf(s1, c1, Last(evs).z, Last(evs).w, e)]
  }

  lemma {:induction false} CyclesAreDark(s: ZoneState, c: IC.Cache, evs: seq<Event>, e: real -> real)
    requires AllConfigured(evs) && AllTicks(evs)
    requires forall k :: 0 <= k < |evs| ==> evs[k].w.readings.primary.None?
    ensures Dark(CyclesOf(s, c, evs, e))
  {
    if evs != [] {
      CyclesAreDark(s, c, evs[..|evs| - 1], e);
    }
  }

  lemma {:induction false} OneMoreCycle(s: ZoneState, xs: seq<Cycle>, x: Cycle)
    requires AllSensible(s, xs) && Sensible(After(s, xs), x)
    ensures AllSensible(s, xs + [x]) && After(s, xs + [x]) == RunCycle(After(s, xs), x)
  {
    var ys := xs + [x];
    assert ys[..|xs|] == xs;
    forall k | 0 <= k < |ys|
      ensures Sensible(After(s, ys[..k]), ys[k])
    {
      if k < |xs| { assert ys[..k] == xs[..k]; }
    }
  }

  lemma {:induction false} CyclesReplay(s: ZoneState, c: IC.Cache, evs: seq<Event>, e: real -> real)
    requires AllConfigured(evs) && AllTicks(evs)
    ensures After(s, CyclesOf(s, c, evs, e)) == Play(s, c, evs, e).0
    ensures AllSensible(s, CyclesOf(s, c, evs, e))
  {
    if evs != [] {
      var rest := evs[..|evs| - 1];
      CyclesReplay(s, c, rest, e);
      var (s1, c1) := Play(s, c, rest, e);
      RefreshIsSensible(s1, c1, Last(evs).z, Last(evs).w, e);
      OneMoreCycle(s, CyclesOf(s, c, rest, e), CycleOf(s1, c1, Last(evs).z, Last(evs).w, e));
    }
  }

  // A whole outage and its hand-back, with the decisions the refreshes themselves reach: the
  // buffer is emptied exactly once if a stand-in changed the action, and otherwise untouched.
  lemma {:induction false} OutagesFlushOnce(s: ZoneState, c: IC.Cache, evs: seq<Event>, back: Event, e: real -> real)
    requires AllConfigured(evs) && AllTicks(evs)
    requires forall k :: 0 <= k < |evs| ==> evs[k].w.readings.primary.None?
    requires s.outage.engaged.None? && back.Tick? && Configured(back.z) && back.w.readings.primary.Some?
    ensures var xs := CyclesOf(s, c, evs, e);
            var t := Play(s, c, evs, e).0;
            var changed := ActionChanged(s, xs);
            && BeginRefresh(t, back.w.readings, back.w.now).0.samples == (if changed then [] else s.samples)
            && Flushes(s, xs) + (if RefreshFlushes(t, back.w.readings, back.w.now) then 1 else 0)
               == (if changed then 1 else 0)
  {
    CyclesReplay(s, c, evs, e);
    CyclesAreDark(s, c, evs, e);
    var t, c1 := Play(s, c, evs, e).0, Play(s, c, evs, e).1;
    OutageAndHandBack(s, CyclesOf(s, c, evs, e), CycleOf(t, c1, back.z, back.w, e));
  }

  // ----- a restart in the middle of an outage -----

  lemma {:induction false} CyclesCount(s: ZoneState, c: IC.Cache, evs: seq<Event>, e: real -> real)
    requires AllConfigured(evs) && AllTicks(evs)
    ensures |CyclesOf(s, c, evs, e)| == |evs|
  {
    if evs != [] {
      CyclesCount(s, c, evs[..|evs| - 1], e);
    }
  }

  lemma {:induction false} CyclesButLast(s: ZoneState, c: IC.Cache, evs: seq<Event>, e: real -> real)
    requires AllConfigured(evs) && AllTicks(evs) && evs != []
    ensures |CyclesOf(s, c, evs, e)| == |evs|
    ensures CyclesOf(s, c, evs, e)[..|evs| - 1] == CyclesOf(s, c, evs[..|evs| - 1], e)
  {
    CyclesCount(s, c, evs, e);
    CyclesCount(s, c, evs[..|evs| - 1], e);
  }

  // An action that has changed by some point of the outage counts as changed from then on.
  lemma {:induction false} ChangeStays(s: ZoneState, c: IC.Cache, evs: seq<Event>, n: nat, e: real -> real)
    requires AllConfigured(evs) && AllTicks(evs) && n <= |evs|
    requires ActionChanged(s, CyclesOf(s, c, evs[..n], e))
    ensures ActionChanged(s, CyclesOf(s, c, evs, e))
  {
    if n == |evs| {
      assert evs[..n] == evs;
    } else {
      var rest := evs[..|evs| - 1];
      assert rest[..n] == evs[..n];
      ChangeStays(s, c, rest, n, e);
      CyclesButLast(s, c, evs, e);
      ChangeStaysOneMore(s, CyclesOf(s, c, evs, e));
    }
  }

  // The buffer saved before the action ever changed is the buffer the outage began with.
  lemma {:induction false} SavedUnchanged(s: ZoneState, c: IC.Cache, evs: seq<Event>, n: nat, e: real -> real)
    requires AllConfigured(evs) && AllTicks(evs) && n <= |evs| && s.outage.engaged.None?
    requires forall k :: 0 <= k < |evs| ==> evs[k].w.readings.primary.None?
    ensures !ActionChanged(s, CyclesOf(s, c, evs, e)) ==> Play(s, c, evs[..n], e).0.samples == s.samples
  {
    CyclesReplay(s, c, evs[..n], e);
    CyclesAreDark(s, c, evs[..n], e);
    OutageInvariant(s, CyclesOf(s, c, evs[..n], e));
    if ActionChanged(s, CyclesOf(s, c, evs[..n], e)) {
      ChangeStays(s, c, evs, n, e);
    }
  }

  // What the hand-back finds of an outage with a restart in it.
  function AfterRestart(s: ZoneState, c: IC.Cache, evs: seq<Event>, saved: nat, e: real -> real): (ZoneState, IC.Cache)
    requires AllConfigured(evs) && saved <= |evs|
  {
    Play(s, c, evs + [Restart(saved)], e)
  }

  lemma {:induction false} RestartState(s: ZoneState, c: IC.Cache, evs: seq<Event>, saved: nat, e: real -> real)
    requires AllConfigured(evs) && saved <= |evs|
    ensures AfterRestart(s, c, evs, saved, e).0
         == Hydrated(Play(s, c, evs, e).0.commitment, Play(s, c, evs[..saved], e).0.samples)
  {
    var all := evs + [Restart(saved)];
    assert all[..|all| - 1] == evs && all[..saved] == evs[..saved];
  }

  // A restart forgets the stand-in's latch. The buffer at the hand-back is then right, emptied
  // if a stand-in changed the action in the outage and untouched if not, exactly when the
  // action changed after the restart, or had not changed before it, or was already flushed in
  // what was saved: otherwise the flush that was due never comes.
  lemma {:induction false} RestartInOutage(s: ZoneState, c: IC.Cache, evs: seq<Event>, saved: nat, more: seq<Event>,
        back: Event, e: real -> real)
    requires AllConfigured(evs) && AllTicks(evs) && saved <= |evs| && AllConfigured(more) && AllTicks(more)
    requires forall k :: 0 <= k < |evs| ==> evs[k].w.readings.primary.None?
    requires forall k :: 0 <= k < |more| ==> more[k].w.readings.primary.None?
    requires s.outage.engaged.None? && back.Tick? && Configured(back.z) && back.w.readings.primary.Some?
    ensures var (u, cu) := AfterRestart(s, c, evs, saved, e);
            var before := ActionChanged(s, CyclesOf(s, c, evs, e));
            var after := ActionChanged(u, CyclesOf(u, cu, more, e));
            var found := BeginRefresh(Play(u, cu, more, e).0, back.w.readings, back.w.now).0.samples;
            && found == (if after then [] else Play(s, c, evs[..saved], e).0.samples)
            && (found == (if before || after then [] else s.samples) <==>
                  (after || !before || Play(s, c, evs[..saved], e).0.samples == []))
  {
    var (u, cu) := AfterRestart(s, c, evs, saved, e);
    RestartState(s, c, evs, saved, e);
    SavedUnchanged(s, c, evs, saved, e);
    OutagesFlushOnce(u, cu, more, back, e);
  }
}
