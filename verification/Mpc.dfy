// The model-predictive planner of mpc.py: simulate each candidate action over the horizon,
// rank by time in band, prefer idle when it holds the band, hold a borrowing cycle.

module Mpc {
  import opened ComfortTypes
  import opened Hysteresis
  import opened Predictor

  const SIMULATION_STEP_MINUTES := 1.0

  // ----- simulation -----

  // The room k minutes on.
  function Trajectory(room: real, slope: real, k: nat): real {
    room + k as real * slope
  }

  // Trapezoidal rule: half a minute for each end of the step inside the band.
  function StepShare(b: Band, from: real, to: real): real {
    if Within(from, b) && Within(to, b) then SIMULATION_STEP_MINUTES
    else if Within(from, b) || Within(to, b) then SIMULATION_STEP_MINUTES * 0.5
    else 0.0
  }

  function TimeInBand(room: real, slope: real, bands: seq<Band>, n: nat): real
    requires n <= |bands|
  {
    if n == 0 then 0.0
    else TimeInBand(room, slope, bands, n - 1)
         + StepShare(bands[n - 1], Trajectory(room, slope, n - 1), Trajectory(room, slope, n))
  }

  function Midpoint(b: Band): real {
    (b.low + b.high) / 2.0
  }

  datatype Candidate = Candidate(kind: Action, target: Option<real>)

  datatype Score = Score(candidate: Candidate, time: real, endTemp: real, distance: real)

  // The source's ranking key: longer in band first, then nearer the midpoint.
  predicate Better(s: Score, t: Score) {
    s.time > t.time || (s.time == t.time && s.distance < t.distance)
  }

  // The band of every step, and the band the end of the horizon is judged against.
  function StepBands(i: Inputs, bands: Option<seq<Band>>, horizon: nat): (bs: seq<Band>)
    ensures bands.None? ==> |bs| == horizon && forall k :: 0 <= k < horizon ==> bs[k] == Band(i.low, i.high)
  {
    match bands
    case Some(bs) => bs
    case None => seq(horizon, _ => Band(i.low, i.high))
  }

  function EndBand(i: Inputs, bands: Option<seq<Band>>): Band
    requires bands.Some? ==> bands.value != []
  {
    if bands.Some? then Last(bands.value) else Band(i.low, i.high)
  }

  // The lookahead the planner accepts: none, or one band for every minute of the horizon.
  ghost predicate CoversHorizon(bands: Option<seq<Band>>, horizon: nat) {
    bands.Some? ==> bands.value != [] && horizon <= |bands.value|
  }

  function ScoreOf(c: Candidate, room: real, slope: real, i: Inputs, horizon: nat, bands: Option<seq<Band>>): Score
    requires CoversHorizon(bands, horizon)
  {
    var end := Trajectory(room, slope, horizon);
    Score(c, TimeInBand(room, slope, StepBands(i, bands, horizon), horizon), end,
          Abs(end - Midpoint(EndBand(i, bands))))
  }

  function Simulate(c: Candidate, s: Slopes, i: Inputs, horizon: nat, bands: Option<seq<Band>>): Score
    requires CoversHorizon(bands, horizon)
  {
    var mid := Midpoint(EndBand(i, bands));
    if i.room.None? then Score(c, 0.0, mid, 0.0)
    else if s.ForAction(c.kind).None? then Score(c, 0.0, i.room.value, Abs(i.room.value - mid))
    else ScoreOf(c, i.room.value, s.ForAction(c.kind).value, i, horizon, bands)
  }

  lemma {:induction false} TrajectoryStep(room: real, slope: real, k: nat)
    ensures Trajectory(room, slope, k + 1) == Trajectory(room, slope, k) + slope
  {
  }

  // The source's integration loop computes the score.
  method SimulateLoop(c: Candidate, room: real, slope: real, i: Inputs, horizon: nat, bands: Option<seq<Band>>)
    returns (r: Score)
    requires CoversHorizon(bands, horizon)
    ensures r == ScoreOf(c, room, slope, i, horizon, bands)
  {
    var steps := StepBands(i, bands, horizon);
    var temp, timeInBand := room, 0.0;
    for k := 0 to horizon
      invariant temp == Trajectory(room, slope, k)
      invariant timeInBand == TimeInBand(room, slope, steps, k)
    {
      TrajectoryStep(room, slope, k);
      var next := temp + slope * SIMULATION_STEP_MINUTES;
      timeInBand := timeInBand + StepShare(steps[k], temp, next);
      temp := next;
    }
    r := Score(c, timeInBand, temp, Abs(temp - Midpoint(EndBand(i, bands))));
  }

  // ----- planning -----

  predicate IsReady(s: Slopes) {
    s.idle.Some? && (s.heat.Some? || s.cool.Some?)
  }

  function EnumerateActions(i: Inputs): seq<Candidate> {
    [Candidate(Idle, None), Candidate(Heat, Some(i.high)), Candidate(Cool, Some(i.low))]
  }

  // The candidates whose slope is known, simulated, in order.
  function Scores(cs: seq<Candidate>, s: Slopes, i: Inputs, horizon: nat, bands: Option<seq<Band>>): (ss: seq<Score>)
    requires CoversHorizon(bands, horizon)
    ensures cs != [] && s.ForAction(cs[0].kind).Some? ==> ss != []
  {
    if cs == [] then []
    else (if s.ForAction(cs[0].kind).Some? then [Simulate(cs[0], s, i, horizon, bands)] else [])
         + Scores(cs[1..], s, i, horizon, bands)
  }

  // The first score no other beats.
  function FirstBest(ss: seq<Score>): Score
    requires ss != []
  {
    if |ss| == 1 then ss[0]
    else
      var best := FirstBest(ss[..|ss| - 1]);
      if Better(Last(ss), best) then Last(ss) else best
  }

  function ScoreFor(ss: seq<Score>, a: Action): Option<Score> {
    if ss == [] then None
    else if ss[0].candidate.kind == a then Some(ss[0])
    else ScoreFor(ss[1..], a)
  }

  // The band in force now, as the bail-out reads it.
  function BailBand(i: Inputs, bands: Option<seq<Band>>): Band {
    if bands.Some? && bands.value != [] then bands.value[0] else Band(i.low, i.high)
  }

  // The planner hands the decision to the predictor.
  predicate Defers(s: Slopes, i: Inputs, bands: Option<seq<Band>>)
    requires i.room.Some?
  {
    || !IsReady(s)
    || (i.room.value <= BailBand(i, bands).low && s.heat.None?)
    || (i.room.value >= BailBand(i, bands).high && s.cool.None?)
  }

  // A cycle still planned on the previous cycle's slope is kept until the room reaches the
  // edge it is driven towards.
  predicate Holds(s: Slopes, i: Inputs, bands: Option<seq<Band>>)
    requires i.room.Some?
  {
    && s.CarriedOver(i.current)
    && !(i.current == Heat && i.room.value >= BailBand(i, bands).high)
    && !(i.current == Cool && i.room.value <= BailBand(i, bands).low)
  }

  // The winning score after the idle preference and the hold.
  function Choose(ss: seq<Score>, s: Slopes, i: Inputs, horizon: nat, bands: Option<seq<Band>>): Score
    requires ss != [] && i.room.Some?
  {
    var top := FirstBest(ss);
    var idle := ScoreFor(ss, Idle);
    var preferred :=
      if idle.Some? && top.candidate.kind != Idle && idle.value.time >= horizon as real - SIMULATION_STEP_MINUTES
      then idle.value else top;
    var held := ScoreFor(ss, i.current);
    if preferred.candidate.kind == Idle && Holds(s, i, bands) && held.Some? then held.value else preferred
  }

  function Issue(best: Candidate, predictor: Decision): Decision {
    if best.kind == Idle then IDLE_DECISION
    else if best.target.None? then predictor
    else if best.kind == Heat then HeatDecision(best.target.value)
    else if best.kind == Cool then CoolDecision(best.target.value)
    else predictor
  }

  function Plan(s: Slopes, i: Inputs, horizon: nat, predictor: Decision, bands: Option<seq<Band>>): Decision
    requires CoversHorizon(bands, horizon)
  {
    if i.room.None? then UNKNOWN_DECISION
    else if Defers(s, i, bands) then predictor
    else
      var ss := Scores(EnumerateActions(i), s, i, horizon, bands);
      Issue(Choose(ss, s, i, horizon, bands).candidate, predictor)
  }
}
