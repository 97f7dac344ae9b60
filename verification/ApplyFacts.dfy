// What one apply leaves behind, part by part: the sample, the command record, the echo stamp.

module ApplyFacts {
  import opened ComfortTypes
  import opened SampleBuffer
  import opened CommitGates
  import opened Coordinator
  import ED = EditDetector
  import H = Hysteresis
  import Setpoint

  // The command was let through to an enabled zone's unit.
  predicate Called(s: ZoneState, a: ApplyInput) {
    && a.enabled && a.decision.mode.Some?
    && Gate(s.commitment, a.decision.action, a.now, a.minCycle, a.crossMode) == Proceed
  }

  predicate Landed(s: ZoneState, a: ApplyInput) {
    Called(s, a) && a.calls.ModeReturned? && !(a.calls.unavailableBefore && a.calls.unavailableAfter)
  }

  // A sample is taken of every decision on the room sensor's own reading but one whose call
  // raised or was dropped: labelled with the decision in shadow mode and once it has landed,
  // with the action still in force when it was held back.
  lemma {:induction false} SampleTaken(s: ZoneState, a: ApplyInput)
    ensures var t := MaybeApply(s, a);
            if !a.record || a.room.None? || a.decision.mode.None? || (Called(s, a) && !Landed(s, a))
            then t.samples == s.samples
            else t.samples == Append(s.samples, Reading(a.now, a.room.value,
                                if !a.enabled || Called(s, a) then a.decision.action
                                else if s.commitment.last.Some? then s.commitment.last.value else Unknown))
  {
  }

  // The commitment moves only with a command that landed, and an outage never.
  lemma {:induction false} CommitsOnlyLanded(s: ZoneState, a: ApplyInput)
    ensures MaybeApply(s, a).commitment
         == if Landed(s, a) then Commit(s.commitment, a.decision.action, a.now) else s.commitment
    ensures MaybeApply(s, a).outage == s.outage
  {
  }

  // What the detector is told: the command that landed; in shadow mode, that nothing is asked.
  // The echo window opens with every call but a dropped one.
  lemma {:induction false} CommandRecorded(s: ZoneState, a: ApplyInput)
    ensures var d, e := s.detector, MaybeApply(s, a).detector;
            && e.commanded == (if !a.enabled then None else if Landed(s, a) then Some(CommandOf(a)) else d.commanded)
            && e.lastCommandAt == (if Called(s, a) && (a.calls.ModeRaised? || Landed(s, a)) then Some(a.now)
                                   else d.lastCommandAt)
            && (!Landed(s, a) ==> e.baseline == d.baseline)
            && (Landed(s, a) ==> e.baseline.Some? && ED.ShownAt(d, a.calls.live, CommandOf(a), e.baseline.value))
  {
  }

  // The command of a decision: its mode by name, and its target rounded to the unit's step,
  // unless there is none or the setpoint call raised.
  lemma {:induction false} CommandIs(a: ApplyInput)
    requires a.calls.ModeReturned? && H.WellFormed(a.decision) && a.decision.action != Unknown
    ensures CommandOf(a).mode == if a.decision.action == Heat then "heat"
                                 else if a.decision.action == Cool then "cool" else "fan_only"
    ensures CommandOf(a).temp == if a.decision.action == Idle || a.calls.setpointRaised then None
                                 else Some(Setpoint.RoundToStep(a.decision.target.value, a.step))
  {
  }
}
