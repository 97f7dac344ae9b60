// Runs of refresh/apply cycles: what they keep, through sensor outages and hand-backs.
//
// A cycle is one refresh and the apply it spawns, run one after the other. The decision of a
// cycle is arbitrary, except that without a reading it is always unknown (DecisionStack).

module OutageRuns {
  import opened ComfortTypes
  import opened SampleBuffer
  import CommitGates
  import opened StandIn
  import opened Coordinator
  import H = Hysteresis

  datatype Cycle = Cycle(now: int, readings: Readings, decision: H.Decision, enabled: bool,
                         minCycle: int, crossMode: int, step: real, calls: Calls)

  // Samples are recorded only while no stand-in drives control.
  function ApplyOf(x: Cycle, room: Option<real>, source: RoomSource): ApplyInput {
    ApplyInput(x.now, x.decision, x.enabled, room, !IsStandIn(source), x.minCycle, x.crossMode, x.step, x.calls)
  }

  function Refreshed(s: ZoneState, x: Cycle): ZoneState {
    BeginRefresh(s, x.readings, x.now).0
  }

  function RunCycle(s: ZoneState, x: Cycle): ZoneState {
    var (s1, room, source) := BeginRefresh(s, x.readings, x.now);
    MaybeApply(s1, ApplyOf(x, room, source))
  }

  function After(s: ZoneState, xs: seq<Cycle>): ZoneState {
    if xs == [] then s else RunCycle(After(s, xs[..|xs| - 1]), Last(xs))
  }

  // Without a reading the decision commands nothing.
  predicate Sensible(s: ZoneState, x: Cycle) {
    Resolve(s.outage, x.readings, x.now).0.None? ==> x.decision == H.UNKNOWN_DECISION
  }

  ghost predicate AllSensible(s: ZoneState, xs: seq<Cycle>) {
    forall k :: 0 <= k < |xs| ==> Sensible(After(s, xs[..k]), xs[k])
  }

  lemma {:induction false} SensiblePrefix(s: ZoneState, xs: seq<Cycle>)
    requires xs != [] && AllSensible(s, xs)
    ensures AllSensible(s, xs[..|xs| - 1]) && Sensible(After(s, xs[..|xs| - 1]), Last(xs))
  {
    var rest := xs[..|xs| - 1];
    forall k | 0 <= k < |rest|
      ensures Sensible(After(s, rest[..k]), rest[k])
    {
      assert rest[..k] == xs[..k];
    }
  }

  // ----- where samples come from -----

  // One cycle adds at most one sample: the room sensor's own reading, taken then.
  lemma {:induction false} CycleSamples(s: ZoneState, x: Cycle, y: Sample)
    requires y in RunCycle(s, x).samples
    ensures y in s.samples || (x.readings.primary == Some(y.temp) && y.t == x.now)
  {
    var (s1, room, source) := BeginRefresh(s, x.readings, x.now);
    var a := ApplyOf(x, room, source);
    if y !in s1.samples {
      AppliedSamples(s1, a, y);
    }
  }

  lemma {:induction false} AppliedSamples(s: ZoneState, a: ApplyInput, y: Sample)
    requires y in MaybeApply(s, a).samples && y !in s.samples
    ensures a.record && a.room == Some(y.temp) && y.t == a.now
  {
    if a.record && a.room.Some? {
      AppendMember(s.samples, Reading(a.now, a.room.value, a.decision.action), y);
      AppendMember(s.samples, Reading(a.now, a.room.value, OrUnknown(s.commitment.last)), y);
    }
  }

  lemma {:induction false} AppendMember(b: seq<Sample>, r: Reading, y: Sample)
    ensures y in Append(b, r) && y !in b ==> y == Sample(r.now, r.temp, r.action)
  {
    if y in Append(b, r) && y !in b {
      RecentSubset(b, r.now - SAMPLE_WINDOW_S, y);
      assert y in Grown(b, r);
    }
  }

  lemma {:induction false} RecentSubset(b: seq<Sample>, cutoff: int, y: Sample)
    ensures y in Recent(b, cutoff) ==> y in b
  {
    if b != [] {
      RecentSubset(b[1..], cutoff, y);
    }
  }

  // No sample ever comes from a stand-in: over any run from an empty buffer, each is a
  // reading the room sensor itself gave in the cycle that took it.
  lemma {:induction false} SamplesAreThePrimarys(s: ZoneState, xs: seq<Cycle>, y: Sample) returns (k: nat)
    requires s.samples == [] && y in After(s, xs).samples
    ensures k < |xs| && xs[k].readings.primary == Some(y.temp) && xs[k].now == y.t
  {
    var rest := xs[..|xs| - 1];
    CycleSamples(After(s, rest), Last(xs), y);
    if y in After(s, rest).samples {
      k := SamplesAreThePrimarys(s, rest, y);
    } else {
      k := |xs| - 1;
    }
  }

  // ----- what samples say -----

  // Of an enabled zone, a new sample is labelled with the action in force once its cycle is done.
  lemma {:induction false} CycleLabel(s: ZoneState, x: Cycle, y: Sample)
    requires x.enabled && y in RunCycle(s, x).samples && y !in Refreshed(s, x).samples
    ensures y.action == OrUnknown(RunCycle(s, x).commitment.last)
  {
    var (s1, room, source) := BeginRefresh(s, x.readings, x.now);
    AppliedLabel(s1, ApplyOf(x, room, source), y);
  }

  lemma {:induction false} AppliedLabel(s: ZoneState, a: ApplyInput, y: Sample)
    requires a.enabled && y in MaybeApply(s, a).samples && y !in s.samples
    ensures y.action == OrUnknown(MaybeApply(s, a).commitment.last)
  {
    if a.record && a.room.Some? {
      AppendMember(s.samples, Reading(a.now, a.room.value, a.decision.action), y);
      AppendMember(s.samples, Reading(a.now, a.room.value, OrUnknown(s.commitment.last)), y);
    }
  }

  lemma {:induction false} NewLabel(s: ZoneState, x: Cycle, y: Sample)
    requires x.enabled && y in RunCycle(s, x).samples && y !in s.samples
    ensures x.now == y.t && y.action == OrUnknown(RunCycle(s, x).commitment.last)
  {
    CycleSamples(s, x, y);
    CycleLabel(s, x, y);
  }

  // Over every run of an enabled zone, whatever was held back, raised or dropped, each sample
  // carries the action that was in force after the cycle that took it.
  lemma {:induction false} LabelsAreTheActionInForce(s: ZoneState, xs: seq<Cycle>, y: Sample) returns (k: nat)
    requires s.samples == [] && (forall i :: 0 <= i < |xs| ==> xs[i].enabled) && y in After(s, xs).samples
    ensures k < |xs| && xs[k].now == y.t && y.action == OrUnknown(After(s, xs[..k + 1]).commitment.last)
  {
    var rest := xs[..|xs| - 1];
    if y in After(s, rest).samples {
      k := LabelsAreTheActionInForce(s, rest, y);
      assert rest[..k + 1] == xs[..k + 1];
    } else {
      k := |xs| - 1;
      NewLabel(After(s, rest), Last(xs), y);
      assert xs[..k + 1] == xs;
    }
  }

  // ----- one outage -----

  ghost predicate Dark(xs: seq<Cycle>) {
    forall k :: 0 <= k < |xs| ==> xs[k].readings.primary.None?
  }

  // Some cycle of the outage so far has left an action in force other than the one before it.
  ghost predicate ActionChanged(s: ZoneState, xs: seq<Cycle>) {
    || After(s, xs).commitment.last != s.commitment.last
    || (xs != [] && ActionChanged(s, xs[..|xs| - 1]))
  }

  lemma {:induction false} ChangeStaysOneMore(s: ZoneState, xs: seq<Cycle>)
    requires xs != [] && ActionChanged(s, xs[..|xs| - 1])
    ensures ActionChanged(s, xs)
  {
  }

  // How often the buffer was emptied on the stand-in's account.
  function Flushes(s: ZoneState, xs: seq<Cycle>): nat {
    if xs == [] then 0
    else
      var rest := xs[..|xs| - 1];
      Flushes(s, rest) + if RefreshFlushes(After(s, rest), Last(xs).readings, Last(xs).now) then 1 else 0
  }

  // The state n cycles into an outage that began in s.
  ghost predicate MidOutage(s: ZoneState, t: ZoneState, changed: bool, flushes: nat) {
    && (t.outage.engaged.None? ==> t.commitment.last == s.commitment.last && !changed)
    && (t.outage.engaged.Some? ==> t.outage.actionAtEngage == s.commitment.last)
    && (if t.outage.engaged.Some? && t.outage.flushed
        then changed && t.samples == [] && flushes == 1
        else (changed <==> t.commitment.last != s.commitment.last) && t.samples == s.samples && flushes == 0)
  }

  lemma {:induction false} DarkStep(s: ZoneState, t: ZoneState, x: Cycle, changed: bool, flushes: nat)
    requires x.readings.primary.None? && Sensible(t, x) && MidOutage(s, t, changed, flushes)
    ensures var t' := RunCycle(t, x);
            MidOutage(s, t', changed || t'.commitment.last != s.commitment.last,
                      flushes + if RefreshFlushes(t, x.readings, x.now) then 1 else 0)
  {
  }

  lemma {:induction false} OutageInvariant(s: ZoneState, xs: seq<Cycle>)
    requires s.outage.engaged.None? && Dark(xs) && AllSensible(s, xs)
    ensures MidOutage(s, After(s, xs), ActionChanged(s, xs), Flushes(s, xs))
  {
    if xs != [] {
      var rest := xs[..|xs| - 1];
      SensiblePrefix(s, xs);
      OutageInvariant(s, rest);
      DarkStep(s, After(s, rest), Last(xs), ActionChanged(s, rest), Flushes(s, rest));
    }
  }

  // A whole outage and the refresh that hands back to the room sensor. If a stand-in left
  // another action in force than the one the outage began with, the buffer is emptied,
  // exactly once, before anything can be appended again; if none did, it is untouched.
  lemma {:induction false} OutageAndHandBack(s: ZoneState, xs: seq<Cycle>, back: Cycle)
    requires s.outage.engaged.None? && Dark(xs) && AllSensible(s, xs)
    requires back.readings.primary.Some?
    ensures var t := After(s, xs);
            var flushes := Flushes(s, xs) + if RefreshFlushes(t, back.readings, back.now) then 1 else 0;
            && Refreshed(t, back).samples == (if ActionChanged(s, xs) then [] else s.samples)
            && flushes == (if ActionChanged(s, xs) then 1 else 0)
            && Refreshed(t, back).outage.darkSince.None? && Refreshed(t, back).outage.engaged.None?
  {
    OutageInvariant(s, xs);
  }

  // ----- the commitment over a run of cycles -----

  // A cycle's apply, as the gates see it.
  function AttemptOf(x: Cycle): CommitGates.Apply {
    CommitGates.Apply(x.now, x.decision.action, x.minCycle, x.crossMode, OutcomeOf(x.calls))
  }

  // The cycles whose decision reaches the gates.
  function Attempts(xs: seq<Cycle>): seq<CommitGates.Apply> {
    if xs == [] then []
    else
      var rest, x := xs[..|xs| - 1], Last(xs);
      if x.enabled && x.decision.mode.Some?
      then Attempts(rest) + [AttemptOf(x)]
      else Attempts(rest)
  }

  lemma {:induction false} CycleCommitment(s: ZoneState, x: Cycle)
    ensures RunCycle(s, x).commitment ==
              if x.enabled && x.decision.mode.Some?
              then CommitGates.Step(s.commitment, AttemptOf(x)) else s.commitment
  {
  }

  // Refreshes, outages and hand-backs leave the commitment to the gates alone, so what is
  // proved of runs of applies holds of runs of cycles.
  lemma {:induction false} CommitmentFollowsGates(s: ZoneState, xs: seq<Cycle>)
    requires s.commitment == CommitGates.FRESH
    ensures After(s, xs).commitment == CommitGates.After(Attempts(xs))
  {
    if xs != [] {
      CommitmentFollowsGates(s, xs[..|xs| - 1]);
      CycleCommitment(After(s, xs[..|xs| - 1]), Last(xs));
    }
  }

  lemma {:induction false} AttemptsAreClocked(xs: seq<Cycle>)
    requires forall i, j :: 0 <= i < j < |xs| ==> xs[i].now <= xs[j].now
    ensures CommitGates.Clocked(Attempts(xs)) &&
            (Attempts(xs) != [] ==> xs != [] && Last(Attempts(xs)).now <= Last(xs).now)
  {
    if xs != [] {
      AttemptsAreClocked(xs[..|xs| - 1]);
    }
  }

  lemma {:induction false} AttemptsAreDecided(xs: seq<Cycle>)
    requires forall i :: 0 <= i < |xs| ==> H.WellFormed(xs[i].decision)
    ensures CommitGates.Decided(Attempts(xs))
  {
    if xs != [] {
      AttemptsAreDecided(xs[..|xs| - 1]);
    }
  }

  // Over every run of cycles of a fresh zone the stored fields track what was committed and
  // both dwells are kept.
  lemma {:induction false} CyclesKeepTheDwells(s: ZoneState, xs: seq<Cycle>)
    requires s.commitment == CommitGates.FRESH
    requires forall i, j :: 0 <= i < j < |xs| ==> xs[i].now <= xs[j].now
    requires forall i :: 0 <= i < |xs| ==> H.WellFormed(xs[i].decision)
    ensures var log := CommitGates.Log(Attempts(xs));
            && CommitGates.Tracks(After(s, xs).commitment, log)
            && CommitGates.SameModeSpaced(log) && CommitGates.CrossModeSpaced(log)
  {
    CommitmentFollowsGates(s, xs);
    AttemptsAreClocked(xs);
    AttemptsAreDecided(xs);
    CommitGates.FieldsTrackTheLog(Attempts(xs));
    CommitGates.DwellsAreKept(Attempts(xs));
  }
}
