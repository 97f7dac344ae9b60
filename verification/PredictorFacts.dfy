// What the anticipating decider means: hysteresis applied to the room a few minutes on.

module PredictorFacts {
  import opened ComfortTypes
  import opened LearnedSlopes
  import opened Predictor
  import H = Hysteresis

  // What hysteresis would decide in the projected room.
  function Ahead(i: H.Inputs, projected: real): H.Decision {
    H.Decide(i.(room := Some(projected)))
  }

  predicate Steep(slope: real) {
    Abs(slope) > 0.05 / 60.0
  }

  // The room is forecast back inside the band itself, by a real movement, and has strayed no
  // further than the passive tolerance.
  predicate Acceptable(i: H.Inputs, room: real, projected: real, passiveTolerance: real) {
    || (i.low <= projected <= i.high + i.deadbandAbove
        && projected - room >= 0.1
        && room >= i.low - passiveTolerance)
    || (i.low - i.deadbandBelow <= projected <= i.high
        && room - projected >= 0.1
        && room <= i.high + passiveTolerance)
  }

  // A call hysteresis makes on the present room and would not make on the projected one.
  predicate Rescued(i: H.Inputs, projected: real) {
    !IsActive(i.current) && IsActive(H.Decide(i).action) && Ahead(i, projected).action == Idle
  }

  lemma {:induction false} Displacement(temp: real, slope: real, minutes: real)
    requires minutes >= 0.0
    ensures slope >= 0.0 ==> Project(temp, slope, minutes) >= temp
    ensures slope <= 0.0 ==> Project(temp, slope, minutes) <= temp
  {
    Product(slope, minutes);
  }

  lemma {:induction false} Product(slope: real, minutes: real)
    requires minutes >= 0.0
    ensures slope >= 0.0 ==> slope * minutes >= 0.0
    ensures slope <= 0.0 ==> slope * minutes <= 0.0
  {
  }

  // The decision the predictor comes to, given where the room is heading.
  function Anticipated(i: H.Inputs, slope: real, projected: real, passiveTolerance: real): H.Decision
    requires i.room.Some?
  {
    if !Steep(slope) then H.Decide(i)
    else if Rescued(i, projected) && !Acceptable(i, i.room.value, projected, passiveTolerance) then H.Decide(i)
    else Ahead(i, projected)
  }

  lemma {:induction false} DriftIsAnticipated(i: H.Inputs, slope: real, projected: real, passiveTolerance: real)
    requires i.room.Some? && i.low < i.high && i.deadbandBelow >= 0.0 && i.deadbandAbove >= 0.0
    requires !IsActive(i.current)
    requires (slope >= 0.0 ==> projected >= i.room.value) && (slope <= 0.0 ==> projected <= i.room.value)
    ensures Drifting(slope, i.room.value, projected, i, passiveTolerance, H.Decide(i))
         == Anticipated(i, slope, projected, passiveTolerance)
  {
  }

  // A cycle driven its own way is released exactly when hysteresis would release it there.
  lemma {:induction false} CycleIsAnticipated(i: H.Inputs, slope: real, projected: real, passiveTolerance: real)
    requires i.room.Some? && i.low < i.high && IsActive(i.current)
    requires if i.current == Heat then slope > 0.0 && projected >= i.room.value
             else slope < 0.0 && projected <= i.room.value
    ensures Anticipated(i, slope, projected, passiveTolerance) ==
              if Steep(slope) && (if i.current == Heat then projected >= i.low else projected <= i.high)
              then H.IDLE_DECISION else H.Decide(i)
  {
  }

  // The predictor is hysteresis on the projected room, except that a flat slope is not
  // trusted and a call is suppressed only when the recovery is acceptable.
  lemma {:induction false} PredictorIsHysteresisAhead(s: Slopes, i: H.Inputs, lookahead: nat, passiveTolerance: real,
        slope: real)
    requires i.room.Some? && i.low < i.high && i.deadbandBelow >= 0.0 && i.deadbandAbove >= 0.0
    requires RightSigned(s) && s.ForAction(i.current) == Some(slope)
    ensures Decide(s, i, lookahead, passiveTolerance, H.Decide(i))
         == Anticipated(i, slope, Project(i.room.value, slope, lookahead as real), passiveTolerance)
  {
    Displacement(i.room.value, slope, lookahead as real);
    var projected := Project(i.room.value, slope, lookahead as real);
    if IsActive(i.current) {
      CycleIsAnticipated(i, slope, projected, passiveTolerance);
    } else {
      DriftIsAnticipated(i, slope, projected, passiveTolerance);
    }
  }

  // Without a reading, or without a slope for what the zone is doing, it is hysteresis.
  lemma {:induction false} WithoutSlopeIsHysteresis(s: Slopes, i: H.Inputs, lookahead: nat, passiveTolerance: real)
    requires i.room.None? || s.ForAction(i.current).None?
    ensures Decide(s, i, lookahead, passiveTolerance, H.Decide(i)) == H.Decide(i)
  {
  }
}
