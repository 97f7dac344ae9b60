// The asymmetric-deadband decider of hysteresis.py, the bottom layer of the stack.

module Hysteresis {
  import opened ComfortTypes

  // HVAC modes the coordinator commands.
  datatype Mode = HeatMode | CoolMode | FanOnly

  // mode None: the climate entity is not to be written.
  datatype Decision = Decision(action: Action, mode: Option<Mode>, target: Option<real>)

  datatype Inputs = Inputs(room: Option<real>, low: real, high: real,
                           deadbandBelow: real, deadbandAbove: real, current: Action)

  const UNKNOWN_DECISION := Decision(Unknown, None, None)
  const IDLE_DECISION := Decision(Idle, Some(FanOnly), None)

  function HeatDecision(target: real): Decision {
    Decision(Heat, Some(HeatMode), Some(target))
  }

  function CoolDecision(target: real): Decision {
    Decision(Cool, Some(CoolMode), Some(target))
  }

  function Decide(i: Inputs): Decision {
    if i.room.None? then UNKNOWN_DECISION
    else
      var room := i.room.value;
      match i.current
      case Heat => if room >= i.low then IDLE_DECISION else HeatDecision(i.low)
      case Cool => if room <= i.high then IDLE_DECISION else CoolDecision(i.high)
      case _ =>
        if room < i.low - i.deadbandBelow then HeatDecision(i.low)
        else if room > i.high + i.deadbandAbove then CoolDecision(i.high)
        else IDLE_DECISION
  }

  // The deadband delays a start and never a release: exactly when each action is chosen.
  lemma {:induction false} DecidesExactly(i: Inputs)
    requires i.room.Some? && i.low < i.high && i.deadbandBelow >= 0.0 && i.deadbandAbove >= 0.0
    ensures var room := i.room.value;
            && (Decide(i).action == Heat <==>
                  i.current != Cool && room < i.low - (if i.current == Heat then 0.0 else i.deadbandBelow))
            && (Decide(i).action == Cool <==>
                  i.current != Heat && room > i.high + (if i.current == Cool then 0.0 else i.deadbandAbove))
            && (Decide(i).target == if Decide(i).action == Heat then Some(i.low)
                                    else if Decide(i).action == Cool then Some(i.high) else None)
            && Decide(i).action != Unknown
  {
  }

  // ----- what any layer of the stack is held to -----

  // The room has reached the edge a running cycle drives it towards.
  predicate AtFarEdge(i: Inputs) {
    && i.room.Some?
    && ((i.current == Cool && i.room.value <= i.low) || (i.current == Heat && i.room.value >= i.high))
  }

  // A cycle whose room is at the far edge is not continued.
  predicate Releases(i: Inputs, d: Decision) {
    AtFarEdge(i) ==> d.action != i.current
  }

  // A heat or cool cycle is followed by itself or by idle, never by its opposite.
  predicate ThroughIdle(i: Inputs, d: Decision) {
    i.room.Some? && IsActive(i.current) ==> d.action == i.current || d == IDLE_DECISION
  }

  // The three fields of a decision always agree.
  predicate WellFormed(d: Decision) {
    match d.action
    case Heat => d.mode == Some(HeatMode) && d.target.Some?
    case Cool => d.mode == Some(CoolMode) && d.target.Some?
    case Idle => d == IDLE_DECISION
    case Unknown => d == UNKNOWN_DECISION
  }
}
