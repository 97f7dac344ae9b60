// Exactly when the planner goes from one cycle straight to the opposite one.
//
// Hysteresis and the predictor follow a cycle only by itself or by idle. The planner ranks
// the opposite cycle along with the others, and nothing stops it from winning.

module MpcFlips {
  import opened ComfortTypes
  import opened Hysteresis
  import opened Predictor
  import opened LearnedSlopes
  import opened Mpc
  import opened MpcFacts

  function IdleScore(s: Slopes, i: Inputs, horizon: nat, bands: Option<seq<Band>>): Score
    requires CoversHorizon(bands, horizon)
  {
    Simulate(Candidate(Idle, None), s, i, horizon, bands)
  }

  function HeatScore(s: Slopes, i: Inputs, horizon: nat, bands: Option<seq<Band>>): Score
    requires CoversHorizon(bands, horizon)
  {
    Simulate(Candidate(Heat, Some(i.high)), s, i, horizon, bands)
  }

  function CoolScore(s: Slopes, i: Inputs, horizon: nat, bands: Option<seq<Band>>): Score
    requires CoversHorizon(bands, horizon)
  {
    Simulate(Candidate(Cool, Some(i.low)), s, i, horizon, bands)
  }

  // Idling is short of the horizon by more than a minute, so the idle preference is off.
  predicate IdleFallsShort(s: Slopes, i: Inputs, horizon: nat, bands: Option<seq<Band>>)
    requires CoversHorizon(bands, horizon)
  {
    IdleScore(s, i, horizon, bands).time < horizon as real - SIMULATION_STEP_MINUTES
  }

  predicate CoolWins(s: Slopes, i: Inputs, horizon: nat, bands: Option<seq<Band>>)
    requires CoversHorizon(bands, horizon)
  {
    && s.cool.Some?
    && Better(CoolScore(s, i, horizon, bands), IdleScore(s, i, horizon, bands))
    && (s.heat.Some? ==> Better(CoolScore(s, i, horizon, bands), HeatScore(s, i, horizon, bands)))
    && IdleFallsShort(s, i, horizon, bands)
  }

  // Heat is listed before cool, so it also wins their ties.
  predicate HeatWins(s: Slopes, i: Inputs, horizon: nat, bands: Option<seq<Band>>)
    requires CoversHorizon(bands, horizon)
  {
    && s.heat.Some?
    && Better(HeatScore(s, i, horizon, bands), IdleScore(s, i, horizon, bands))
    && (s.cool.Some? ==> !Better(CoolScore(s, i, horizon, bands), HeatScore(s, i, horizon, bands)))
    && IdleFallsShort(s, i, horizon, bands)
  }

  // The planner plans, and the cycle opposite to the running one wins.
  predicate Reverses(s: Slopes, i: Inputs, horizon: nat, bands: Option<seq<Band>>)
    requires CoversHorizon(bands, horizon)
  {
    && i.room.Some? && !Defers(s, i, bands)
    && ((i.current == Heat && CoolWins(s, i, horizon, bands)) || (i.current == Cool && HeatWins(s, i, horizon, bands)))
  }

  lemma {:induction false} RankingWinner(s: Slopes, i: Inputs, horizon: nat, bands: Option<seq<Band>>)
    requires i.room.Some? && CoversHorizon(bands, horizon) && s.idle.Some?
    ensures var ss := Scores(EnumerateActions(i), s, i, horizon, bands);
            var idle := IdleScore(s, i, horizon, bands);
            var heat, cool := HeatScore(s, i, horizon, bands), CoolScore(s, i, horizon, bands);
            var top := FirstBest(ss).candidate.kind;
            && ScoreFor(ss, Idle) == Some(idle)
            && (top == Cool <==> s.cool.Some? && Better(cool, idle) && (s.heat.Some? ==> Better(cool, heat)))
            && (top == Heat <==> s.heat.Some? && Better(heat, idle) && (s.cool.Some? ==> !Better(cool, heat)))
  {
    ScoresListed(s, i, horizon, bands);
    var ss := Scores(EnumerateActions(i), s, i, horizon, bands);
    var k := FirstBestSpec(ss);
    assert forall j :: 0 <= j < |ss| ==> !Better(ss[j], ss[k]);
    assert k > 0 ==> Better(ss[k], ss[0]);
    assert k > 1 ==> Better(ss[k], ss[1]);
  }

  // For every room and every lookahead: the cycle opposite to the running one is planned
  // exactly when it wins the ranking and idling falls short.
  lemma {:induction false} PlansOppositeIff(s: Slopes, i: Inputs, horizon: nat, predictor: Decision,
        bands: Option<seq<Band>>)
    requires i.room.Some? && CoversHorizon(bands, horizon) && !Defers(s, i, bands)
    ensures var d := Plan(s, i, horizon, predictor, bands);
            && (i.current == Heat ==> (d.action == Cool <==> CoolWins(s, i, horizon, bands)))
            && (i.current == Cool ==> (d.action == Heat <==> HeatWins(s, i, horizon, bands)))
  {
    RankingWinner(s, i, horizon, bands);
    PlanFollowsChoice(s, i, horizon, predictor, bands);
    ScoreForKind(Scores(EnumerateActions(i), s, i, horizon, bands), i.current);
  }

  // Handed a decision that goes through idle, the planner breaks that rule exactly when it
  // reverses.
  lemma {:induction false} PlanReversesIff(s: Slopes, i: Inputs, horizon: nat, predictor: Decision,
        bands: Option<seq<Band>>)
    requires CoversHorizon(bands, horizon) && ThroughIdle(i, predictor)
    ensures !ThroughIdle(i, Plan(s, i, horizon, predictor, bands)) <==> Reverses(s, i, horizon, bands)
  {
    if i.room.Some? && !Defers(s, i, bands) {
      PlansOppositeIff(s, i, horizon, predictor, bands);
      PlanFollowsChoice(s, i, horizon, predictor, bands);
    }
  }

  // ----- past the far edge of a steady band -----

  // Over less than two minutes idling never falls short.
  lemma {:induction false} IdleAllButFillsMoment(s: Slopes, i: Inputs, horizon: nat, bands: Option<seq<Band>>)
    requires i.room.Some? && CoversHorizon(bands, horizon) && s.idle.Some?
    ensures horizon < 2 ==> !IdleFallsShort(s, i, horizon, bands)
  {
    TimeBounds(i.room.value, s.idle.value, StepBands(i, bands, horizon), horizon);
  }

  // From a steady band's far edge on, the running cycle itself never wins, so only idling
  // stands against the opposite one.
  lemma {:induction false} FlipsToCoolIff(s: Slopes, i: Inputs, horizon: nat, predictor: Decision,
        bands: Option<seq<Band>>)
    requires i.current == Heat && i.room.Some? && i.room.value >= i.high && !Defers(s, i, bands)
    requires Steady(i, bands, horizon) && RightSigned(s) && StepsFitBand(s, i)
    ensures Plan(s, i, horizon, predictor, bands).action == Cool <==>
              (Better(CoolScore(s, i, horizon, bands), IdleScore(s, i, horizon, bands))
               && IdleFallsShort(s, i, horizon, bands))
  {
    PlansOppositeIff(s, i, horizon, predictor, bands);
    assert BailBand(i, bands) == Band(i.low, i.high);
    IdleAllButFillsMoment(s, i, horizon, bands);
    if s.heat.Some? && horizon > 0 {
      TowardsOutranks(s, i, horizon, bands);
    }
  }

  lemma {:induction false} FlipsToHeatIff(s: Slopes, i: Inputs, horizon: nat, predictor: Decision,
        bands: Option<seq<Band>>)
    requires i.current == Cool && i.room.Some? && i.room.value <= i.low && !Defers(s, i, bands)
    requires Steady(i, bands, horizon) && RightSigned(s) && StepsFitBand(s, i)
    ensures Plan(s, i, horizon, predictor, bands).action == Heat <==>
              (Better(HeatScore(s, i, horizon, bands), IdleScore(s, i, horizon, bands))
               && IdleFallsShort(s, i, horizon, bands))
  {
    PlansOppositeIff(s, i, horizon, predictor, bands);
    assert BailBand(i, bands) == Band(i.low, i.high);
    IdleAllButFillsMoment(s, i, horizon, bands);
    if s.cool.Some? && horizon > 0 {
      TowardsOutranks(s, i, horizon, bands);
    }
  }

  // Strictly below a constant band and not rising: nothing is ever scored.
  lemma {:induction false} StuckTime(room: real, slope: real, bands: seq<Band>, b: Band, n: nat)
    requires Constant(bands, b, n) && room < b.low && slope <= 0.0
    ensures TimeInBand(room, slope, bands, n) == 0.0 && Trajectory(room, slope, n) <= room
  {
    if n > 0 {
      StuckTime(room, slope, bands, b, n - 1);
      TrajectoryStep(room, slope, n - 1);
    }
  }

  lemma {:induction false} StillTime(room: real, bands: seq<Band>, b: Band, n: nat)
    requires Constant(bands, b, n) && Within(room, b)
    ensures TimeInBand(room, 0.0, bands, n) == n as real
  {
    if n > 0 {
      StillTime(room, bands, b, n - 1);
    }
  }

  // Below or at the lower edge, with idling that does not help: heating outranks idling and
  // idling falls short, except for a room resting exactly on the edge.
  lemma {:induction false} RisingBeatsDrifting(room: real, up: real, idle: real, bands: seq<Band>, b: Band, n: nat)
    requires Constant(bands, b, n) && Proper(b) && n >= 2
    requires room <= b.low && idle <= 0.0 < up <= b.high - b.low
    ensures var tu, ti := TimeInBand(room, up, bands, n), TimeInBand(room, idle, bands, n);
            var mid := Midpoint(b);
            (ti < n as real - 1.0
             && (tu > ti || (tu == ti && Abs(Trajectory(room, up, n) - mid) < Abs(Trajectory(room, idle, n) - mid))))
            <==> (room < b.low || idle < 0.0)
  {
    if room < b.low {
      StuckTime(room, idle, bands, b, n);
      RisingTime(room, up, bands, b, n);
    } else if idle < 0.0 {
      SinkingTime(room, idle, bands, b, n);
      RisingTime(room, up, bands, b, n);
    } else {
      StillTime(room, bands, b, n);
    }
  }

  lemma {:induction false} SinkingBeatsDrifting(room: real, down: real, idle: real, bands: seq<Band>, b: Band, n: nat)
    requires Constant(bands, b, n) && Proper(b) && n >= 2
    requires room >= b.high && down < 0.0 <= idle && -down <= b.high - b.low
    ensures var td, ti := TimeInBand(room, down, bands, n), TimeInBand(room, idle, bands, n);
            var mid := Midpoint(b);
            (ti < n as real - 1.0
             && (td > ti || (td == ti && Abs(Trajectory(room, down, n) - mid) < Abs(Trajectory(room, idle, n) - mid))))
            <==> (room > b.high || idle > 0.0)
  {
    MirrorTime(room, down, bands, n);
    MirrorTime(room, idle, bands, n);
    RisingBeatsDrifting(-room, -down, -idle, MirroredAll(bands), Mirrored(b), n);
  }

  // A heat cycle whose room is at or past the high edge, in a room that does not cool by
  // itself, is turned straight into a cool cycle: over two minutes or more always, but for a room
  // resting on the edge.
  lemma {:induction false} WarmRoomFlipsToCool(s: Slopes, i: Inputs, horizon: nat, predictor: Decision,
        bands: Option<seq<Band>>)
    requires i.current == Heat && i.room.Some? && i.room.value >= i.high && !Defers(s, i, bands)
    requires Steady(i, bands, horizon) && RightSigned(s) && StepsFitBand(s, i) && s.idle.value >= 0.0
    ensures Plan(s, i, horizon, predictor, bands).action == Cool <==>
              (horizon >= 2 && (i.room.value > i.high || s.idle.value > 0.0))
  {
    var b := Band(i.low, i.high);
    assert BailBand(i, bands) == b && EndBand(i, bands) == b;
    IdleAllButFillsMoment(s, i, horizon, bands);
    if horizon >= 2 {
      SinkingBeatsDrifting(i.room.value, s.cool.value, s.idle.value, StepBands(i, bands, horizon), b, horizon);
    }
    FlipsToCoolIff(s, i, horizon, predictor, bands);
  }

  lemma {:induction false} CoolRoomFlipsToHeat(s: Slopes, i: Inputs, horizon: nat, predictor: Decision,
        bands: Option<seq<Band>>)
    requires i.current == Cool && i.room.Some? && i.room.value <= i.low && !Defers(s, i, bands)
    requires Steady(i, bands, horizon) && RightSigned(s) && StepsFitBand(s, i) && s.idle.value <= 0.0
    ensures Plan(s, i, horizon, predictor, bands).action == Heat <==>
              (horizon >= 2 && (i.room.value < i.low || s.idle.value < 0.0))
  {
    var b := Band(i.low, i.high);
    assert BailBand(i, bands) == b && EndBand(i, bands) == b;
    IdleAllButFillsMoment(s, i, horizon, bands);
    if horizon >= 2 {
      RisingBeatsDrifting(i.room.value, s.heat.value, s.idle.value, StepBands(i, bands, horizon), b, horizon);
    }
    FlipsToHeatIff(s, i, horizon, predictor, bands);
  }
}
