// What the planner's simulation and ranking guarantee.

module MpcFacts {
  import opened ComfortTypes
  import opened Hysteresis
  import opened Predictor
  import opened LearnedSlopes
  import opened Mpc

  // ----- the simulation in closed form -----

  // How many of the first m grid points lie in the band.
  function PointsInBand(room: real, slope: real, b: Band, m: nat): nat {
    if m == 0 then 0
    else PointsInBand(room, slope, b, m - 1) + if Within(Trajectory(room, slope, m - 1), b) then 1 else 0
  }

  function HalfIf(c: bool): real {
    if c then 0.5 else 0.0
  }

  // On a fixed band the loop's score is the number of in-band grid points, ends included,
  // less half a minute for each end of the horizon that is in band.
  lemma {:induction false} TimeIsPointCount(room: real, slope: real, bands: seq<Band>, b: Band, n: nat)
    requires n <= |bands| && forall k :: 0 <= k < n ==> bands[k] == b
    ensures TimeInBand(room, slope, bands, n)
         == PointsInBand(room, slope, b, n + 1) as real
            - HalfIf(Within(room, b)) - HalfIf(Within(Trajectory(room, slope, n), b))
  {
    if n == 0 {
      assert Trajectory(room, slope, 0) == room;
      assert PointsInBand(room, slope, b, 1) == if Within(room, b) then 1 else 0;
    } else {
      TimeIsPointCount(room, slope, bands, b, n - 1);
    }
  }

  lemma {:induction false} TrajectoryBetween(room: real, slope: real, i: nat, j: nat, k: nat)
    requires i <= j <= k
    ensures slope >= 0.0 ==> Trajectory(room, slope, i) <= Trajectory(room, slope, j) <= Trajectory(room, slope, k)
    ensures slope <= 0.0 ==> Trajectory(room, slope, i) >= Trajectory(room, slope, j) >= Trajectory(room, slope, k)
  {
    Ordered(slope, i as real, j as real);
    Ordered(slope, j as real, k as real);
  }

  lemma {:induction false} Ordered(s: real, a: real, b: real)
    requires a <= b
    ensures s >= 0.0 ==> a * s <= b * s
    ensures s <= 0.0 ==> a * s >= b * s
  {
    assert b * s - a * s == (b - a) * s;
  }

  // The in-band grid points form one contiguous block.
  lemma {:induction false} InBandIsContiguous(room: real, slope: real, b: Band, i: nat, j: nat, k: nat)
    requires i <= j <= k
    requires Within(Trajectory(room, slope, i), b) && Within(Trajectory(room, slope, k), b)
    ensures Within(Trajectory(room, slope, j), b)
  {
    TrajectoryBetween(room, slope, i, j, k);
  }

  // Widening any of the per-step bands never lowers a score.
  lemma {:induction false} WiderNeverLower(room: real, slope: real, bands: seq<Band>, wider: seq<Band>, n: nat)
    requires n <= |bands| && n <= |wider|
    requires forall k :: 0 <= k < n ==> Covers(wider[k], bands[k])
    ensures TimeInBand(room, slope, bands, n) <= TimeInBand(room, slope, wider, n)
  {
    if n > 0 {
      WiderNeverLower(room, slope, bands, wider, n - 1);
    }
  }

  lemma {:induction false} TimeBounds(room: real, slope: real, bands: seq<Band>, n: nat)
    requires n <= |bands|
    ensures 0.0 <= TimeInBand(room, slope, bands, n) <= n as real
    ensures forall m :: 0 <= m <= n ==> TimeInBand(room, slope, bands, m) <= TimeInBand(room, slope, bands, n)
  {
    if n > 0 {
      TimeBounds(room, slope, bands, n - 1);
    }
  }

  // ----- driving away from the band loses -----

  // Every step of the horizon is judged against one band.
  ghost predicate Constant(bands: seq<Band>, b: Band, n: nat) {
    n <= |bands| && forall k :: 0 <= k < n ==> bands[k] == b
  }

  // Below the band and moving further below: at most the half minute of the first point.
  lemma {:induction false} SinkingTime(room: real, slope: real, bands: seq<Band>, b: Band, n: nat)
    requires Constant(bands, b, n) && room <= b.low && slope < 0.0
    ensures TimeInBand(room, slope, bands, n) <= if room == b.low then 0.5 else 0.0
    ensures n > 0 ==> Trajectory(room, slope, n) < room
  {
    if n > 0 {
      SinkingTime(room, slope, bands, b, n - 1);
      TrajectoryStep(room, slope, n - 1);
      assert Trajectory(room, slope, 0) == room;
    }
  }

  // Rising by no more than the band's width a step, the room cannot jump over the band:
  // as long as nothing has been scored it is still below.
  lemma {:induction false} RisingTime(room: real, slope: real, bands: seq<Band>, b: Band, n: nat)
    requires Constant(bands, b, n) && room <= b.low && 0.0 < slope <= b.high - b.low
    ensures TimeInBand(room, slope, bands, n) >= 0.0
    ensures TimeInBand(room, slope, bands, n) == 0.0 && n > 0 ==> room < Trajectory(room, slope, n) < b.low
    ensures room == b.low && n > 0 ==> TimeInBand(room, slope, bands, n) >= 1.0
  {
    if n > 0 {
      RisingTime(room, slope, bands, b, n - 1);
      TrajectoryStep(room, slope, n - 1);
      assert Trajectory(room, slope, 0) == room;
      TimeBounds(room, slope, bands, n - 1);
    }
  }

  // The trajectory seen upside down.
  function Mirrored(b: Band): Band {
    Band(-b.high, -b.low)
  }

  function MirroredAll(bands: seq<Band>): (ms: seq<Band>)
    ensures |ms| == |bands| && forall k :: 0 <= k < |bands| ==> ms[k] == Mirrored(bands[k])
  {
    seq(|bands|, k requires 0 <= k < |bands| => Mirrored(bands[k]))
  }

  lemma {:induction false} MirrorTime(room: real, slope: real, bands: seq<Band>, n: nat)
    requires n <= |bands|
    ensures TimeInBand(-room, -slope, MirroredAll(bands), n) == TimeInBand(room, slope, bands, n)
    ensures Trajectory(-room, -slope, n) == -Trajectory(room, slope, n)
  {
    if n > 0 {
      MirrorTime(room, slope, bands, n - 1);
      MirrorTrajectory(room, slope, n);
      MirrorTrajectory(room, slope, n - 1);
    }
  }

  lemma {:induction false} MirrorTrajectory(room: real, slope: real, n: nat)
    ensures Trajectory(-room, -slope, n) == -Trajectory(room, slope, n)
  {
    assert n as real * -slope == -(n as real * slope);
  }

  // At or below a constant band a candidate that rises towards it, by at most the band's
  // width a minute, outranks one that falls away from it.
  lemma {:induction false} RisingBeatsSinking(room: real, up: real, down: real, bands: seq<Band>, b: Band, n: nat)
    requires Constant(bands, b, n) && Proper(b) && n > 0
    requires room <= b.low && down < 0.0 < up <= b.high - b.low
    ensures var tu, td := TimeInBand(room, up, bands, n), TimeInBand(room, down, bands, n);
            var mid := Midpoint(b);
            tu > td || (tu == td && Abs(Trajectory(room, up, n) - mid) < Abs(Trajectory(room, down, n) - mid))
  {
    SinkingTime(room, down, bands, b, n);
    RisingTime(room, up, bands, b, n);
    TimeBounds(room, down, bands, n);
  }

  lemma {:induction false} SinkingLosesAbove(room: real, up: real, down: real, bands: seq<Band>, b: Band, n: nat)
    requires Constant(bands, b, n) && Proper(b) && n > 0
    requires room >= b.high && down < 0.0 < up && -down <= b.high - b.low
    ensures var tu, td := TimeInBand(room, up, bands, n), TimeInBand(room, down, bands, n);
            var mid := Midpoint(b);
            td > tu || (tu == td && Abs(Trajectory(room, down, n) - mid) < Abs(Trajectory(room, up, n) - mid))
  {
    MirrorTime(room, up, bands, n);
    MirrorTime(room, down, bands, n);
    RisingBeatsSinking(-room, -down, -up, MirroredAll(bands), Mirrored(b), n);
  }

  // ----- ranking -----

  // The winner is beaten by none, and strictly beats everything listed before it.
  lemma {:induction false} FirstBestSpec(ss: seq<Score>) returns (k: nat)
    requires ss != []
    ensures k < |ss| && FirstBest(ss) == ss[k]
    ensures forall j :: 0 <= j < |ss| ==> !Better(ss[j], ss[k])
    ensures forall j :: 0 <= j < k ==> Better(ss[k], ss[j])
  {
    if |ss| == 1 {
      k := 0;
    } else {
      var rest := ss[..|ss| - 1];
      k := FirstBestSpec(rest);
      assert forall j :: 0 <= j < |rest| ==> rest[j] == ss[j];
      if Better(Last(ss), rest[k]) {
        k := |ss| - 1;
      }
    }
  }

  function ScoreIf(c: Candidate, s: Slopes, i: Inputs, horizon: nat, bands: Option<seq<Band>>): seq<Score>
    requires CoversHorizon(bands, horizon)
  {
    if s.ForAction(c.kind).Some? then [Simulate(c, s, i, horizon, bands)] else []
  }

  // Idle is always scored; heat and cool when their slopes are known, in that order.
  lemma {:induction false} ScoresListed(s: Slopes, i: Inputs, horizon: nat, bands: Option<seq<Band>>)
    requires CoversHorizon(bands, horizon) && s.idle.Some?
    ensures Scores(EnumerateActions(i), s, i, horizon, bands)
         == [Simulate(Candidate(Idle, None), s, i, horizon, bands)]
            + ScoreIf(Candidate(Heat, Some(i.high)), s, i, horizon, bands)
            + ScoreIf(Candidate(Cool, Some(i.low)), s, i, horizon, bands)
  {
    var cs := EnumerateActions(i);
    assert cs[1..][1..] == [cs[2]] && cs[1..][0] == cs[1] && cs[1..][1..][1..] == [];
    assert Scores(cs[1..][1..], s, i, horizon, bands) == ScoreIf(cs[2], s, i, horizon, bands);
    assert Scores(cs[1..], s, i, horizon, bands)
        == ScoreIf(cs[1], s, i, horizon, bands) + ScoreIf(cs[2], s, i, horizon, bands);
  }

  // Kinds in the score list are exactly those with a known slope.
  lemma {:induction false} ScoreForListed(s: Slopes, i: Inputs, horizon: nat, bands: Option<seq<Band>>, a: Action)
    requires CoversHorizon(bands, horizon) && s.idle.Some? && a != Unknown && s.ForAction(a).Some?
    ensures var ss := Scores(EnumerateActions(i), s, i, horizon, bands);
            && ScoreFor(ss, a).Some? && ScoreFor(ss, a).value in ss && ScoreFor(ss, a).value.candidate.kind == a
  {
    ScoresListed(s, i, horizon, bands);
    var ss := Scores(EnumerateActions(i), s, i, horizon, bands);
    ScoreForFinds(ss, a, if a == Idle then 0 else if a == Heat then 1 else |ss| - 1);
  }

  lemma {:induction false} ScoreForFinds(ss: seq<Score>, a: Action, k: nat)
    requires k < |ss| && ss[k].candidate.kind == a
    ensures ScoreFor(ss, a).Some? && ScoreFor(ss, a).value in ss && ScoreFor(ss, a).value.candidate.kind == a
  {
    if ss[0].candidate.kind != a {
      ScoreForFinds(ss[1..], a, k - 1);
    }
  }

  lemma {:induction false} ScoreForKind(ss: seq<Score>, a: Action)
    ensures ScoreFor(ss, a).Some? ==> ScoreFor(ss, a).value.candidate.kind == a && ScoreFor(ss, a).value in ss
  {
    if ss != [] && ss[0].candidate.kind != a {
      ScoreForKind(ss[1..], a);
    }
  }

  // ----- the planner never drives the room away from its band -----

  // The band stays what it is over the horizon.
  ghost predicate Steady(i: Inputs, bands: Option<seq<Band>>, horizon: nat) {
    && CoversHorizon(bands, horizon)
    && Proper(Band(i.low, i.high))
    && (bands.Some? ==> forall k :: 0 <= k < |bands.value| ==> bands.value[k] == Band(i.low, i.high))
  }

  // No recovery move takes the room across the whole band in one simulated minute.
  predicate StepsFitBand(s: Slopes, i: Inputs) {
    && (s.heat.Some? ==> s.heat.value <= i.high - i.low)
    && (s.cool.Some? ==> -s.cool.value <= i.high - i.low)
  }

  // At or below a steady band heating outranks cooling, at or above it cooling outranks
  // heating; over an empty horizon neither outranks idle.
  lemma {:induction false} TowardsOutranks(s: Slopes, i: Inputs, horizon: nat, bands: Option<seq<Band>>)
    requires i.room.Some? && Steady(i, bands, horizon) && RightSigned(s) && StepsFitBand(s, i)
    requires s.heat.Some? && s.cool.Some? && horizon > 0
    ensures var heat := Simulate(Candidate(Heat, Some(i.high)), s, i, horizon, bands);
            var cool := Simulate(Candidate(Cool, Some(i.low)), s, i, horizon, bands);
            && (i.room.value <= i.low ==> Better(heat, cool))
            && (i.room.value >= i.high ==> Better(cool, heat))
  {
    var steps, b, room := StepBands(i, bands, horizon), Band(i.low, i.high), i.room.value;
    assert Constant(steps, b, horizon) && EndBand(i, bands) == b;
    if room <= i.low {
      RisingBeatsSinking(room, s.heat.value, s.cool.value, steps, b, horizon);
    }
    if room >= i.high {
      SinkingLosesAbove(room, s.heat.value, s.cool.value, steps, b, horizon);
    }
  }

  lemma {:induction false} EmptyHorizonTies(s: Slopes, i: Inputs, bands: Option<seq<Band>>, a: Candidate, c: Candidate)
    requires i.room.Some? && CoversHorizon(bands, 0) && s.ForAction(a.kind).Some? && s.ForAction(c.kind).Some?
    ensures !Better(Simulate(a, s, i, 0, bands), Simulate(c, s, i, 0, bands))
  {
  }

  // The ranking's winner never drives away from a steady band.
  lemma {:induction false} WinnerNeverAway(s: Slopes, i: Inputs, horizon: nat, bands: Option<seq<Band>>)
    requires i.room.Some? && !Defers(s, i, bands)
    requires Steady(i, bands, horizon) && RightSigned(s) && StepsFitBand(s, i)
    ensures var top := FirstBest(Scores(EnumerateActions(i), s, i, horizon, bands)).candidate.kind;
            && (i.room.value <= i.low ==> top != Cool)
            && (i.room.value >= i.high ==> top != Heat)
  {
    ScoresListed(s, i, horizon, bands);
    var ss := Scores(EnumerateActions(i), s, i, horizon, bands);
    var k := FirstBestSpec(ss);
    if horizon == 0 {
      EmptyHorizonTies(s, i, bands, ss[k].candidate, ss[0].candidate);
    } else if s.heat.Some? && s.cool.Some? {
      TowardsOutranks(s, i, horizon, bands);
      assert ss[1].candidate.kind == Heat && ss[2].candidate.kind == Cool;
    }
  }

  lemma {:induction false} ScoresHaveTargets(s: Slopes, i: Inputs, horizon: nat, bands: Option<seq<Band>>)
    requires CoversHorizon(bands, horizon) && s.idle.Some?
    ensures forall x :: x in Scores(EnumerateActions(i), s, i, horizon, bands) ==>
              x.candidate in EnumerateActions(i) && s.ForAction(x.candidate.kind).Some?
  {
    ScoresListed(s, i, horizon, bands);
  }

  lemma {:induction false} ChoiceIsScored(ss: seq<Score>, s: Slopes, i: Inputs, horizon: nat, bands: Option<seq<Band>>)
    requires ss != [] && i.room.Some?
    ensures Choose(ss, s, i, horizon, bands) in ss
  {
    var k := FirstBestSpec(ss);
    ScoreForKind(ss, Idle);
    ScoreForKind(ss, i.current);
  }

  // A planned decision is one of the three candidates, issued as chosen.
  lemma {:induction false} PlanFollowsChoice(s: Slopes, i: Inputs, horizon: nat, predictor: Decision,
        bands: Option<seq<Band>>)
    requires i.room.Some? && CoversHorizon(bands, horizon) && !Defers(s, i, bands)
    ensures var ss := Scores(EnumerateActions(i), s, i, horizon, bands);
            var best := Choose(ss, s, i, horizon, bands);
            var d := Plan(s, i, horizon, predictor, bands);
            best in ss && d.action == best.candidate.kind && WellFormed(d)
  {
    ChoiceIsScored(Scores(EnumerateActions(i), s, i, horizon, bands), s, i, horizon, bands);
    ScoresHaveTargets(s, i, horizon, bands);
  }

  // Whenever MPC plans rather than defers, it never picks cool at or below the band nor
  // heat at or above it.
  lemma {:induction false} PlanNeverDrivesAway(s: Slopes, i: Inputs, horizon: nat, predictor: Decision,
        bands: Option<seq<Band>>)
    requires i.room.Some? && !Defers(s, i, bands)
    requires Steady(i, bands, horizon) && RightSigned(s) && StepsFitBand(s, i)
    ensures i.room.value <= i.low ==> Plan(s, i, horizon, predictor, bands).action != Cool
    ensures i.room.value >= i.high ==> Plan(s, i, horizon, predictor, bands).action != Heat
  {
    WinnerNeverAway(s, i, horizon, bands);
    PlanFollowsChoice(s, i, horizon, predictor, bands);
    var ss := Scores(EnumerateActions(i), s, i, horizon, bands);
    ScoreForKind(ss, Idle);
    ScoreForKind(ss, i.current);
    assert BailBand(i, bands) == Band(i.low, i.high);
  }

  // A cycle planned on a borrowed slope is never ended by MPC short of the far edge: the
  // plan is to go on or to reverse, not to idle.
  lemma {:induction false} BorrowingCycleIsHeld(s: Slopes, i: Inputs, horizon: nat, predictor: Decision,
        bands: Option<seq<Band>>)
    requires i.room.Some? && CoversHorizon(bands, horizon) && !Defers(s, i, bands)
    requires Holds(s, i, bands) && s.ForAction(i.current).Some?
    ensures Plan(s, i, horizon, predictor, bands).action != Idle
  {
    PlanFollowsChoice(s, i, horizon, predictor, bands);
    ScoreForListed(s, i, horizon, bands, i.current);
  }

  // When idling keeps the room in band to within a minute of the whole horizon and no cycle
  // is held, MPC starts or keeps no cycle at all.
  lemma {:induction false} IdleWhenIdleSuffices(s: Slopes, i: Inputs, horizon: nat, predictor: Decision,
        bands: Option<seq<Band>>)
    requires i.room.Some? && CoversHorizon(bands, horizon) && !Defers(s, i, bands) && !Holds(s, i, bands)
    requires Simulate(Candidate(Idle, None), s, i, horizon, bands).time >= horizon as real - SIMULATION_STEP_MINUTES
    ensures Plan(s, i, horizon, predictor, bands) == IDLE_DECISION
  {
    ScoresListed(s, i, horizon, bands);
  }
}
