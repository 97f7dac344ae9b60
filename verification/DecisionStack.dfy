// The three layers together, as _async_update_data runs them, and what they keep jointly.

module DecisionStack {
  import opened ComfortTypes
  import opened Hysteresis
  import P = Predictor
  import opened LearnedSlopes
  import opened Mpc
  import opened MpcFacts
  import opened MpcFlips
  import H = Hysteresis

  // The zone's switches and tunables, and what this refresh found.
  datatype Layers = Layers(learning: bool, mpcEnabled: bool, standIn: bool, relaxing: bool,
                           lookahead: nat, passiveTolerance: real, horizon: nat)

  function Predicted(l: Layers, live: P.Slopes, i: Inputs): Decision {
    P.Decide(live, i, l.lookahead, l.passiveTolerance, H.Decide(i))
  }

  function Planned(l: Layers, live: P.Slopes, effective: P.Slopes, i: Inputs, bands: Option<seq<Band>>): Decision
    requires CoversHorizon(bands, l.horizon)
  {
    Plan(effective, i, l.horizon, Predicted(l, live, i), bands)
  }

  // The reactive layers run on the live slopes, the planner on the effective ones; a
  // stand-in reading and a peak both fall back to plain hysteresis.
  function FinalDecision(l: Layers, live: P.Slopes, effective: P.Slopes, i: Inputs, bands: Option<seq<Band>>): Decision
    requires CoversHorizon(bands, l.horizon)
  {
    if l.standIn || l.relaxing then H.Decide(i)
    else if l.learning && l.mpcEnabled && IsReady(effective) then Planned(l, live, effective, i, bands)
    else if l.learning then Predicted(l, live, i)
    else H.Decide(i)
  }

  lemma {:induction false} HysteresisReleases(i: Inputs)
    requires i.low < i.high
    ensures Releases(i, H.Decide(i)) && ThroughIdle(i, H.Decide(i)) && WellFormed(H.Decide(i))
  {
  }

  lemma {:induction false} PredictorReleases(l: Layers, live: P.Slopes, i: Inputs)
    requires i.low < i.high
    ensures Releases(i, Predicted(l, live, i)) && ThroughIdle(i, Predicted(l, live, i))
    ensures WellFormed(Predicted(l, live, i))
  {
  }

  lemma {:induction false} PlannerReleases(l: Layers, live: P.Slopes, effective: P.Slopes, i: Inputs,
        bands: Option<seq<Band>>)
    requires Steady(i, bands, l.horizon) && RightSigned(effective) && StepsFitBand(effective, i)
    ensures Releases(i, Planned(l, live, effective, i, bands))
  {
    PredictorReleases(l, live, i);
    if i.room.Some? && !Defers(effective, i, bands) {
      PlanNeverDrivesAway(effective, i, l.horizon, Predicted(l, live, i), bands);
    }
  }

  // However the switches stand, no layer continues a cool cycle once the room is down to
  // the low edge, or a heat cycle once it is up to the high edge.
  lemma {:induction false} StackReleases(l: Layers, live: P.Slopes, effective: P.Slopes, i: Inputs,
        bands: Option<seq<Band>>)
    requires Steady(i, bands, l.horizon) && RightSigned(effective) && StepsFitBand(effective, i)
    ensures Releases(i, H.Decide(i))
    ensures Releases(i, Predicted(l, live, i))
    ensures Releases(i, Planned(l, live, effective, i, bands))
    ensures Releases(i, FinalDecision(l, live, effective, i, bands))
  {
    HysteresisReleases(i);
    PredictorReleases(l, live, i);
    PlannerReleases(l, live, effective, i, bands);
  }

  // Without a room reading every layer answers unknown, which commands nothing.
  lemma {:induction false} NoReadingNoCommand(l: Layers, live: P.Slopes, effective: P.Slopes, i: Inputs,
        bands: Option<seq<Band>>)
    requires CoversHorizon(bands, l.horizon) && i.room.None?
    ensures FinalDecision(l, live, effective, i, bands) == UNKNOWN_DECISION
  {
  }

  // With a reading the stack always commands one of the three actions, all fields agreeing.
  lemma {:induction false} ReadingAlwaysDecides(l: Layers, live: P.Slopes, effective: P.Slopes, i: Inputs,
        bands: Option<seq<Band>>)
    requires CoversHorizon(bands, l.horizon) && i.room.Some? && i.low < i.high
    ensures var d := FinalDecision(l, live, effective, i, bands);
            WellFormed(d) && d.action != Unknown
  {
  }

  // The planner's word is final.
  predicate PlannerInCharge(l: Layers, effective: P.Slopes) {
    !l.standIn && !l.relaxing && l.learning && l.mpcEnabled && IsReady(effective)
  }

  // Whose decision it is: hysteresis on a stand-in reading, during a peak, or with learning
  // off; MPC's with both switches on and the slopes it needs; the predictor's otherwise.
  lemma {:induction false} WhoDecides(l: Layers, live: P.Slopes, effective: P.Slopes, i: Inputs,
        bands: Option<seq<Band>>)
    requires CoversHorizon(bands, l.horizon)
    ensures var d := FinalDecision(l, live, effective, i, bands);
            var hysteresis := H.Decide(i);
            var predictor := P.Decide(live, i, l.lookahead, l.passiveTolerance, hysteresis);
            var ready := effective.idle.Some? && (effective.heat.Some? || effective.cool.Some?);
            && (l.standIn || l.relaxing || !l.learning ==> d == hysteresis)
            && (!l.standIn && !l.relaxing && l.learning && !(l.mpcEnabled && ready) ==> d == predictor)
            && (!l.standIn && !l.relaxing && l.learning && l.mpcEnabled && ready ==>
                  d == Plan(effective, i, l.horizon, predictor, bands))
  {
  }

  // The zone goes from one cycle straight to the opposite one exactly when the planner is in
  // charge and reverses: the reactive layers always pass through idle.
  lemma {:induction false} StackReversesIff(l: Layers, live: P.Slopes, effective: P.Slopes, i: Inputs,
        bands: Option<seq<Band>>)
    requires CoversHorizon(bands, l.horizon) && i.low < i.high
    ensures !ThroughIdle(i, FinalDecision(l, live, effective, i, bands)) <==>
              (PlannerInCharge(l, effective) && Reverses(effective, i, l.horizon, bands))
  {
    HysteresisReleases(i);
    PredictorReleases(l, live, i);
    PlanReversesIff(effective, i, l.horizon, Predicted(l, live, i), bands);
  }

  // An input that shows it: a heat cycle, a room a degree above its band and holding, and the
  // shortest horizon the zone's setting allows.
  lemma {:induction false} PlannerCanReverseDirectly()
    ensures var s := P.Slopes(Some(0.0), Some(0.1), Some(-0.5), P.Wls, P.Wls, P.Wls, None);
            var i := Inputs(Some(22.0), 20.0, 21.0, 0.3, 0.5, Heat);
            && Plan(s, i, 10, IDLE_DECISION, None).action == Cool
            && !ThroughIdle(i, Plan(s, i, 10, IDLE_DECISION, None))
            && ThroughIdle(i, H.Decide(i))
  {
    var s := P.Slopes(Some(0.0), Some(0.1), Some(-0.5), P.Wls, P.Wls, P.Wls, None);
    WarmRoomFlipsToCool(s, Inputs(Some(22.0), 20.0, 21.0, 0.3, 0.5, Heat), 10, IDLE_DECISION, None);
  }
}
