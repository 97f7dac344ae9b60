// Exactly when the planner would cool a room at or below its band, or heat one at or above.
//
// PlanNeverDrivesAway assumes that no recovery slope crosses the whole band within one
// simulated minute. Without that the claim is false; this module gives the exact condition.

module MpcLimits {
  import opened ComfortTypes
  import opened Hysteresis
  import opened Predictor
  import opened LearnedSlopes
  import opened Mpc
  import opened MpcFacts

  // A candidate with this slope jumps the band in one minute and ends the horizon further
  // above its middle than cooling ends below it.
  predicate Overshoots(slope: real, cool: real, width: real, n: nat) {
    slope > width && n as real * (slope + cool) > width
  }

  // The key the ranking compares, as a pair.
  predicate Outranks(time: real, distance: real, time': real, distance': real) {
    time > time' || (time == time' && distance < distance')
  }

  predicate CoolingOutranks(room: real, cool: real, other: real, bands: seq<Band>, b: Band, n: nat)
    requires n <= |bands|
  {
    Outranks(TimeInBand(room, cool, bands, n), Abs(Trajectory(room, cool, n) - Midpoint(b)),
             TimeInBand(room, other, bands, n), Abs(Trajectory(room, other, n) - Midpoint(b)))
  }

  lemma {:induction false} FirstPointCounts(room: real, slope: real, bands: seq<Band>, b: Band, n: nat)
    requires Constant(bands, b, n) && n > 0 && Within(room, b)
    ensures TimeInBand(room, slope, bands, n) >= 0.5
  {
    TimeBounds(room, slope, bands, n);
    assert Trajectory(room, slope, 0) == room;
    var to := Trajectory(room, slope, 1);
    assert TimeInBand(room, slope, bands, 1) == TimeInBand(room, slope, bands, 0) + StepShare(bands[0], room, to);
  }

  // While nothing has been scored after the first point, every later point is outside.
  lemma {:induction false} UnscoredEndsOutside(room: real, slope: real, bands: seq<Band>, b: Band, n: nat)
    requires Constant(bands, b, n) && n > 0 && room <= b.low && Proper(b)
    requires TimeInBand(room, slope, bands, n) <= if room == b.low then 0.5 else 0.0
    ensures slope != 0.0 ==> !Within(Trajectory(room, slope, n), b)
  {
    TimeBounds(room, slope, bands, n - 1);
    assert Trajectory(room, slope, 0) == room;
    if room == b.low && n > 1 {
      FirstPointCounts(room, slope, bands, b, n - 1);
    }
    if n == 1 { TrajectoryStep(room, slope, 0); }
  }

  lemma {:induction false} EndsCompare(room: real, slope: real, cool: real, n: nat)
    ensures Trajectory(room, slope, n) + Trajectory(room, cool, n) == 2.0 * room + n as real * (slope + cool)
    ensures slope >= cool ==> Trajectory(room, slope, n) >= Trajectory(room, cool, n)
    ensures slope < cool && n > 0 ==> Trajectory(room, slope, n) < Trajectory(room, cool, n)
  {
    var k := n as real;
    assert k * slope + k * cool == k * (slope + cool);
    assert n > 0 ==> k >= 1.0;
    Monotone(k, slope, cool);
    assert Trajectory(room, slope, n) == room + k * slope && Trajectory(room, cool, n) == room + k * cool;
  }

  lemma {:induction false} Monotone(k: real, a: real, b: real)
    requires k >= 0.0
    ensures a >= b ==> k * a >= k * b
    ensures a < b && k > 0.0 ==> k * a < k * b
  {
    assert k * a - k * b == k * (a - b);
    assert k * b - k * a == k * (b - a);
  }

  // Only a candidate that sinks faster, or that overshoots, can rank below cooling when the
  // room is at or below the band.
  lemma {:induction false} CoolingOutranksOnly(room: real, cool: real, other: real, bands: seq<Band>, b: Band, n: nat)
    requires Constant(bands, b, n) && Proper(b) && n > 0
    requires room <= b.low && cool < 0.0
    requires CoolingOutranks(room, cool, other, bands, b, n)
    ensures other < cool || Overshoots(other, cool, b.high - b.low, n)
  {
    SinkingTime(room, cool, bands, b, n);
    TimeBounds(room, other, bands, n);
    if room == b.low { FirstPointCounts(room, other, bands, b, n); }
    EndsCompare(room, other, cool, n);
    if other >= cool && other != 0.0 {
      UnscoredEndsOutside(room, other, bands, b, n);
      if 0.0 < other <= b.high - b.low {
        RisingBeatsSinking(room, other, cool, bands, b, n);
      }
    }
  }

  // At the band's lower edge both kinds of candidate do rank below it.
  lemma {:induction false} CoolingOutranksAtEdge(cool: real, other: real, bands: seq<Band>, b: Band, n: nat)
    requires Constant(bands, b, n) && Proper(b) && n > 0 && cool < 0.0
    requires other < cool || Overshoots(other, cool, b.high - b.low, n)
    ensures CoolingOutranks(b.low, cool, other, bands, b, n)
    ensures TimeInBand(b.low, other, bands, n) == 0.5
  {
    LeavingTime(cool, bands, b, n);
    LeavingTime(other, bands, b, n);
    EndsCompare(b.low, other, cool, n);
  }

  // From the lower edge a slope that is negative or wider than the band leaves at once.
  lemma {:induction false} LeavingTime(slope: real, bands: seq<Band>, b: Band, n: nat)
    requires Constant(bands, b, n) && Proper(b) && n > 0
    requires slope < 0.0 || slope > b.high - b.low
    ensures TimeInBand(b.low, slope, bands, n) == 0.5
    ensures slope < 0.0 ==> Trajectory(b.low, slope, n) < b.low
    ensures slope > b.high - b.low ==> Trajectory(b.low, slope, n) > b.high
  {
    TrajectoryStep(b.low, slope, n - 1);
    assert Trajectory(b.low, slope, 0) == b.low;
    if n > 1 {
      LeavingTime(slope, bands, b, n - 1);
    } else {
      assert TimeInBand(b.low, slope, bands, 0) == 0.0;
    }
  }

  // Cooling is the ranking's winner exactly when it outranks both other candidates.
  lemma {:induction false} CoolWinsIff(s: Slopes, i: Inputs, horizon: nat, bands: Option<seq<Band>>)
    requires i.room.Some? && Steady(i, bands, horizon)
    requires s.idle.Some? && s.heat.Some? && s.cool.Some?
    ensures var steps, b := StepBands(i, bands, horizon), Band(i.low, i.high);
            FirstBest(Scores(EnumerateActions(i), s, i, horizon, bands)).candidate.kind == Cool <==>
              (CoolingOutranks(i.room.value, s.cool.value, s.idle.value, steps, b, horizon)
               && CoolingOutranks(i.room.value, s.cool.value, s.heat.value, steps, b, horizon))
  {
    ScoresListed(s, i, horizon, bands);
    var ss := Scores(EnumerateActions(i), s, i, horizon, bands);
    assert |ss| == 3 && ss[0].candidate.kind == Idle && ss[1].candidate.kind == Heat && ss[2].candidate.kind == Cool;
    var k := FirstBestSpec(ss);
    assert EndBand(i, bands) == Band(i.low, i.high);
    assert !Better(ss[2], ss[k]);
    assert k < 2 ==> !(Better(ss[2], ss[0]) && Better(ss[2], ss[1]));
  }

  // The planner's decision is cool, at or below the band, exactly when cooling wins the
  // ranking and idling does not all but fill the horizon.
  lemma {:induction false} PlansCoolIff(s: Slopes, i: Inputs, horizon: nat, predictor: Decision,
        bands: Option<seq<Band>>)
    requires i.room.Some? && Steady(i, bands, horizon) && i.room.value <= i.low && !Defers(s, i, bands)
    ensures var ss := Scores(EnumerateActions(i), s, i, horizon, bands);
            Plan(s, i, horizon, predictor, bands).action == Cool <==>
              (FirstBest(ss).candidate.kind == Cool
               && Simulate(Candidate(Idle, None), s, i, horizon, bands).time
                  < horizon as real - SIMULATION_STEP_MINUTES)
  {
    var ss := Scores(EnumerateActions(i), s, i, horizon, bands);
    PlanFollowsChoice(s, i, horizon, predictor, bands);
    ScoresListed(s, i, horizon, bands);
    assert ScoreFor(ss, Idle) == Some(ss[0]);
    ScoreForKind(ss, i.current);
    assert BailBand(i, bands) == Band(i.low, i.high);
  }

  // Some room at or below the band is cooled if and only if the horizon is two minutes or
  // more (the zone's setting is never under ten), heating overshoots, and idling either sinks
  // faster than cooling or overshoots too.
  lemma {:induction false} CoolsBelowBandIff(s: Slopes, i: Inputs, horizon: nat, predictor: Decision,
        bands: Option<seq<Band>>)
    requires Steady(i, bands, horizon) && RightSigned(s)
    requires s.idle.Some? && s.heat.Some? && s.cool.Some?
    ensures var width := i.high - i.low;
            (exists room :: room <= i.low &&
               Plan(s, i.(room := Some(room)), horizon, predictor, bands).action == Cool) <==>
              (horizon >= 2 && Overshoots(s.heat.value, s.cool.value, width, horizon)
               && (s.idle.value < s.cool.value || Overshoots(s.idle.value, s.cool.value, width, horizon)))
  {
    var b, width := Band(i.low, i.high), i.high - i.low;
    forall room | room <= i.low && Plan(s, i.(room := Some(room)), horizon, predictor, bands).action == Cool
      ensures horizon >= 2 && Overshoots(s.heat.value, s.cool.value, width, horizon)
      ensures s.idle.value < s.cool.value || Overshoots(s.idle.value, s.cool.value, width, horizon)
    {
      CoolsOnly(s, i.(room := Some(room)), horizon, predictor, bands);
    }
    if horizon >= 2 && Overshoots(s.heat.value, s.cool.value, width, horizon)
       && (s.idle.value < s.cool.value || Overshoots(s.idle.value, s.cool.value, width, horizon)) {
      CoolsAtEdge(s, i.(room := Some(i.low)), horizon, predictor, bands);
      assert Plan(s, i.(room := Some(i.low)), horizon, predictor, bands).action == Cool;
    }
  }

  lemma {:induction false} CoolsOnly(s: Slopes, i: Inputs, horizon: nat, predictor: Decision, bands: Option<seq<Band>>)
    requires i.room.Some? && Steady(i, bands, horizon) && RightSigned(s) && i.room.value <= i.low
    requires s.idle.Some? && s.heat.Some? && s.cool.Some?
    requires Plan(s, i, horizon, predictor, bands).action == Cool
    ensures var width := i.high - i.low;
            && horizon >= 2 && Overshoots(s.heat.value, s.cool.value, width, horizon)
            && (s.idle.value < s.cool.value || Overshoots(s.idle.value, s.cool.value, width, horizon))
  {
    var steps, b := StepBands(i, bands, horizon), Band(i.low, i.high);
    assert BailBand(i, bands) == b;
    PlansCoolIff(s, i, horizon, predictor, bands);
    TimeBounds(i.room.value, s.idle.value, StepBands(i, bands, horizon), horizon);
    CoolWinsIff(s, i, horizon, bands);
    CoolingOutranksOnly(i.room.value, s.cool.value, s.heat.value, steps, b, horizon);
    CoolingOutranksOnly(i.room.value, s.cool.value, s.idle.value, steps, b, horizon);
  }

  lemma {:induction false} CoolsAtEdge(s: Slopes, i: Inputs, horizon: nat, predictor: Decision,
        bands: Option<seq<Band>>)
    requires i.room == Some(i.low) && Steady(i, bands, horizon) && RightSigned(s) && horizon >= 2
    requires s.idle.Some? && s.heat.Some? && s.cool.Some?
    requires Overshoots(s.heat.value, s.cool.value, i.high - i.low, horizon)
    requires s.idle.value < s.cool.value || Overshoots(s.idle.value, s.cool.value, i.high - i.low, horizon)
    ensures Plan(s, i, horizon, predictor, bands).action == Cool
  {
    var steps, b := StepBands(i, bands, horizon), Band(i.low, i.high);
    assert BailBand(i, bands) == b;
    CoolingOutranksAtEdge(s.cool.value, s.heat.value, steps, b, horizon);
    CoolingOutranksAtEdge(s.cool.value, s.idle.value, steps, b, horizon);
    CoolWinsIff(s, i, horizon, bands);
    PlansCoolIff(s, i, horizon, predictor, bands);
  }

  // An input that shows it: a degree-wide band, heating at five degrees a minute, idling
  // sinking faster than cooling.
  lemma {:induction false} OneStepOvershootCoolsBelowBand()
    ensures var s := Slopes(Some(-1.0), Some(5.0), Some(-0.1), Wls, Wls, Wls, None);
            var i := Inputs(Some(20.0), 20.0, 21.0, 0.3, 0.5, Cool);
            RightSigned(s) && Plan(s, i, 10, IDLE_DECISION, None).action == Cool
  {
    var s := Slopes(Some(-1.0), Some(5.0), Some(-0.1), Wls, Wls, Wls, None);
    CoolsAtEdge(s, Inputs(Some(20.0), 20.0, 21.0, 0.3, 0.5, Cool), 10, IDLE_DECISION, None);
  }

  // ----- heating at or above the band: the same upside down, ties going to heat -----

  predicate OvershootsOrTies(slope: real, cool: real, width: real, n: nat) {
    slope > width && n as real * (slope + cool) >= width
  }

  predicate NotOutranked(room: real, cool: real, other: real, bands: seq<Band>, b: Band, n: nat)
    requires n <= |bands|
  {
    !Outranks(TimeInBand(room, other, bands, n), Abs(Trajectory(room, other, n) - Midpoint(b)),
              TimeInBand(room, cool, bands, n), Abs(Trajectory(room, cool, n) - Midpoint(b)))
  }

  lemma {:induction false} NotOutrankedOnly(room: real, cool: real, other: real, bands: seq<Band>, b: Band, n: nat)
    requires Constant(bands, b, n) && Proper(b) && n > 0
    requires room <= b.low && cool < 0.0 < other
    requires NotOutranked(room, cool, other, bands, b, n)
    ensures OvershootsOrTies(other, cool, b.high - b.low, n)
  {
    SinkingTime(room, cool, bands, b, n);
    TimeBounds(room, other, bands, n);
    if room == b.low { FirstPointCounts(room, other, bands, b, n); }
    EndsCompare(room, other, cool, n);
    UnscoredEndsOutside(room, other, bands, b, n);
    if other <= b.high - b.low {
      RisingBeatsSinking(room, other, cool, bands, b, n);
    }
  }

  lemma {:induction false} NotOutrankedAtEdge(cool: real, other: real, bands: seq<Band>, b: Band, n: nat)
    requires Constant(bands, b, n) && Proper(b) && n > 0 && cool < 0.0
    requires OvershootsOrTies(other, cool, b.high - b.low, n)
    ensures NotOutranked(b.low, cool, other, bands, b, n)
  {
    LeavingTime(cool, bands, b, n);
    LeavingTime(other, bands, b, n);
    EndsCompare(b.low, other, cool, n);
  }

  // One candidate outranks another exactly when it does so upside down.
  lemma {:induction false} MirroredRank(room: real, x: real, y: real, bands: seq<Band>, b: Band, n: nat)
    requires n <= |bands|
    ensures Outranks(TimeInBand(room, x, bands, n), Abs(Trajectory(room, x, n) - Midpoint(b)),
                     TimeInBand(room, y, bands, n), Abs(Trajectory(room, y, n) - Midpoint(b)))
         == CoolingOutranks(-room, -x, -y, MirroredAll(bands), Mirrored(b), n)
  {
    MirrorTime(room, x, bands, n);
    MirrorTime(room, y, bands, n);
    assert Midpoint(Mirrored(b)) == -Midpoint(b);
  }

  lemma {:induction false} HeatWinsRanking(s: Slopes, i: Inputs, horizon: nat, bands: Option<seq<Band>>)
    requires i.room.Some? && CoversHorizon(bands, horizon)
    requires s.idle.Some? && s.heat.Some? && s.cool.Some?
    ensures var idle := Simulate(Candidate(Idle, None), s, i, horizon, bands);
            var heat := Simulate(Candidate(Heat, Some(i.high)), s, i, horizon, bands);
            var cool := Simulate(Candidate(Cool, Some(i.low)), s, i, horizon, bands);
            FirstBest(Scores(EnumerateActions(i), s, i, horizon, bands)).candidate.kind == Heat <==>
              (Better(heat, idle) && !Better(cool, heat))
  {
    ScoresListed(s, i, horizon, bands);
    var ss := Scores(EnumerateActions(i), s, i, horizon, bands);
    assert |ss| == 3 && ss[0].candidate.kind == Idle && ss[1].candidate.kind == Heat && ss[2].candidate.kind == Cool;
    var k := FirstBestSpec(ss);
    assert !Better(ss[1], ss[k]) && !Better(ss[2], ss[k]);
    assert k == 2 ==> Better(ss[2], ss[1]);
    assert k > 0 ==> Better(ss[k], ss[0]);
  }

  // On a steady band one score is better than another exactly when it is upside down.
  lemma {:induction false} BetterUpsideDown(s: Slopes, i: Inputs, horizon: nat, bands: Option<seq<Band>>,
        a: Candidate, c: Candidate)
    requires i.room.Some? && Steady(i, bands, horizon) && s.ForAction(a.kind).Some? && s.ForAction(c.kind).Some?
    ensures Better(Simulate(a, s, i, horizon, bands), Simulate(c, s, i, horizon, bands))
         == CoolingOutranks(-i.room.value, -s.ForAction(a.kind).value, -s.ForAction(c.kind).value,
                            MirroredAll(StepBands(i, bands, horizon)), Mirrored(Band(i.low, i.high)), horizon)
  {
    assert EndBand(i, bands) == Band(i.low, i.high);
    MirroredRank(i.room.value, s.ForAction(a.kind).value, s.ForAction(c.kind).value,
                 StepBands(i, bands, horizon), Band(i.low, i.high), horizon);
  }

  // Heating wins exactly when it outranks idling and cooling does not outrank it.
  lemma {:induction false} HeatWinsIff(s: Slopes, i: Inputs, horizon: nat, bands: Option<seq<Band>>)
    requires i.room.Some? && Steady(i, bands, horizon)
    requires s.idle.Some? && s.heat.Some? && s.cool.Some?
    ensures var room := i.room.value;
            var ms, m := MirroredAll(StepBands(i, bands, horizon)), Mirrored(Band(i.low, i.high));
            FirstBest(Scores(EnumerateActions(i), s, i, horizon, bands)).candidate.kind == Heat <==>
              (CoolingOutranks(-room, -s.heat.value, -s.idle.value, ms, m, horizon)
               && NotOutranked(-room, -s.heat.value, -s.cool.value, ms, m, horizon))
  {
    var heat, cool := Candidate(Heat, Some(i.high)), Candidate(Cool, Some(i.low));
    HeatWinsRanking(s, i, horizon, bands);
    BetterUpsideDown(s, i, horizon, bands, heat, Candidate(Idle, None));
    BetterUpsideDown(s, i, horizon, bands, cool, heat);
  }

  lemma {:induction false} PlansHeatIff(s: Slopes, i: Inputs, horizon: nat, predictor: Decision,
        bands: Option<seq<Band>>)
    requires i.room.Some? && Steady(i, bands, horizon) && i.room.value >= i.high && !Defers(s, i, bands)
    ensures var ss := Scores(EnumerateActions(i), s, i, horizon, bands);
            Plan(s, i, horizon, predictor, bands).action == Heat <==>
              (FirstBest(ss).candidate.kind == Heat
               && Simulate(Candidate(Idle, None), s, i, horizon, bands).time
                  < horizon as real - SIMULATION_STEP_MINUTES)
  {
    var ss := Scores(EnumerateActions(i), s, i, horizon, bands);
    PlanFollowsChoice(s, i, horizon, predictor, bands);
    ScoresListed(s, i, horizon, bands);
    assert ScoreFor(ss, Idle) == Some(ss[0]);
    ScoreForKind(ss, i.current);
    assert BailBand(i, bands) == Band(i.low, i.high);
  }

  // Some room at or above the band is heated if and only if cooling overshoots and idling
  // either rises faster than heating or overshoots too.
  lemma {:induction false} HeatsAboveBandIff(s: Slopes, i: Inputs, horizon: nat, predictor: Decision,
        bands: Option<seq<Band>>)
    requires Steady(i, bands, horizon) && RightSigned(s)
    requires s.idle.Some? && s.heat.Some? && s.cool.Some?
    ensures var width := i.high - i.low;
            (exists room :: room >= i.high &&
               Plan(s, i.(room := Some(room)), horizon, predictor, bands).action == Heat) <==>
              (horizon >= 2 && OvershootsOrTies(-s.cool.value, -s.heat.value, width, horizon)
               && (s.idle.value > s.heat.value || Overshoots(-s.idle.value, -s.heat.value, width, horizon)))
  {
    var width := i.high - i.low;
    forall room | room >= i.high && Plan(s, i.(room := Some(room)), horizon, predictor, bands).action == Heat
      ensures horizon >= 2 && OvershootsOrTies(-s.cool.value, -s.heat.value, width, horizon)
      ensures s.idle.value > s.heat.value || Overshoots(-s.idle.value, -s.heat.value, width, horizon)
    {
      HeatsOnly(s, i.(room := Some(room)), horizon, predictor, bands);
    }
    if horizon >= 2 && OvershootsOrTies(-s.cool.value, -s.heat.value, width, horizon)
       && (s.idle.value > s.heat.value || Overshoots(-s.idle.value, -s.heat.value, width, horizon)) {
      HeatsAtEdge(s, i.(room := Some(i.high)), horizon, predictor, bands);
      assert Plan(s, i.(room := Some(i.high)), horizon, predictor, bands).action == Heat;
    }
  }

  lemma {:induction false} HeatsOnly(s: Slopes, i: Inputs, horizon: nat, predictor: Decision, bands: Option<seq<Band>>)
    requires i.room.Some? && Steady(i, bands, horizon) && RightSigned(s) && i.room.value >= i.high
    requires s.idle.Some? && s.heat.Some? && s.cool.Some?
    requires Plan(s, i, horizon, predictor, bands).action == Heat
    ensures var width := i.high - i.low;
            && horizon >= 2 && OvershootsOrTies(-s.cool.value, -s.heat.value, width, horizon)
            && (s.idle.value > s.heat.value || Overshoots(-s.idle.value, -s.heat.value, width, horizon))
  {
    var b := Band(i.low, i.high);
    var ms := MirroredAll(StepBands(i, bands, horizon));
    assert BailBand(i, bands) == b;
    PlansHeatIff(s, i, horizon, predictor, bands);
    TimeBounds(i.room.value, s.idle.value, StepBands(i, bands, horizon), horizon);
    HeatWinsIff(s, i, horizon, bands);
    NotOutrankedOnly(-i.room.value, -s.heat.value, -s.cool.value, ms, Mirrored(b), horizon);
    CoolingOutranksOnly(-i.room.value, -s.heat.value, -s.idle.value, ms, Mirrored(b), horizon);
  }

  lemma {:induction false} HeatsAtEdge(s: Slopes, i: Inputs, horizon: nat, predictor: Decision,
        bands: Option<seq<Band>>)
    requires i.room == Some(i.high) && Steady(i, bands, horizon) && RightSigned(s) && horizon >= 2
    requires s.idle.Some? && s.heat.Some? && s.cool.Some?
    requires OvershootsOrTies(-s.cool.value, -s.heat.value, i.high - i.low, horizon)
    requires s.idle.value > s.heat.value || Overshoots(-s.idle.value, -s.heat.value, i.high - i.low, horizon)
    ensures Plan(s, i, horizon, predictor, bands).action == Heat
  {
    var b := Band(i.low, i.high);
    var steps := StepBands(i, bands, horizon);
    var ms := MirroredAll(steps);
    assert BailBand(i, bands) == b;
    NotOutrankedAtEdge(-s.heat.value, -s.cool.value, ms, Mirrored(b), horizon);
    CoolingOutranksAtEdge(-s.heat.value, -s.idle.value, ms, Mirrored(b), horizon);
    MirrorTime(i.high, s.idle.value, steps, horizon);
    HeatWinsIff(s, i, horizon, bands);
    PlansHeatIff(s, i, horizon, predictor, bands);
  }

  // An input that shows it: a degree-wide band, cooling at five degrees a minute, idling
  // rising faster than heating.
  lemma {:induction false} OneStepOvershootHeatsAboveBand()
    ensures var s := Slopes(Some(1.0), Some(0.1), Some(-5.0), Wls, Wls, Wls, None);
            var i := Inputs(Some(21.0), 20.0, 21.0, 0.3, 0.5, Heat);
            RightSigned(s) && Plan(s, i, 10, IDLE_DECISION, None).action == Heat
  {
    var s := Slopes(Some(1.0), Some(0.1), Some(-5.0), Wls, Wls, Wls, None);
    HeatsAtEdge(s, Inputs(Some(21.0), 20.0, 21.0, 0.3, 0.5, Heat), 10, IDLE_DECISION, None);
  }
}
