// What the planner answers, case by case, in terms of its inputs and the three scores.

module MpcPlan {
  import opened ComfortTypes
  import opened Hysteresis
  import opened Predictor
  import opened Mpc
  import opened MpcFacts
  import opened MpcFlips

  // The band of minute k of the lookahead, the band in force when there is none.
  function MinuteBand(i: Inputs, bands: Option<seq<Band>>, k: nat): Band
    requires bands.Some? ==> k < |bands.value|
  {
    if bands.Some? then bands.value[k] else Band(i.low, i.high)
  }

  function FirstBand(i: Inputs, bands: Option<seq<Band>>): Band
    requires bands.Some? ==> bands.value != []
  {
    MinuteBand(i, bands, 0)
  }

  // ----- the scores -----

  lemma {:induction false} SameSteps(room: real, slope: real, bands: seq<Band>, others: seq<Band>, n: nat)
    requires n <= |bands| && n <= |others| && forall k :: 0 <= k < n ==> bands[k] == others[k]
    ensures TimeInBand(room, slope, bands, n) == TimeInBand(room, slope, others, n)
  {
    if n > 0 {
      SameSteps(room, slope, bands, others, n - 1);
    }
  }

  // A candidate with a known slope is scored minute by minute against that minute's band, and
  // its end against the middle of the last band of the lookahead.
  lemma {:induction false} ScoreIs(c: Candidate, s: Slopes, i: Inputs, horizon: nat, bands: Option<seq<Band>>,
        steps: seq<Band>)
    requires CoversHorizon(bands, horizon) && i.room.Some? && s.ForAction(c.kind).Some?
    requires |steps| == horizon && forall k :: 0 <= k < horizon ==> steps[k] == MinuteBand(i, bands, k)
    ensures var score, slope := Simulate(c, s, i, horizon, bands), s.ForAction(c.kind).value;
            var end := i.room.value + horizon as real * slope;
            var last := if bands.Some? then bands.value[|bands.value| - 1] else Band(i.low, i.high);
            && score.candidate == c && score.endTemp == end
            && score.time == TimeInBand(i.room.value, slope, steps, horizon)
            && score.distance == Abs(end - (last.low + last.high) / 2.0)
  {
    SameSteps(i.room.value, s.ForAction(c.kind).value, steps, StepBands(i, bands, horizon), horizon);
  }

  // ----- deferring -----

  // MPC hands the decision to the predictor when it lacks the idle slope or both recovery
  // slopes, and when the room is at or outside the band on a side it has no slope for.
  lemma {:induction false} DefersToThePredictor(s: Slopes, i: Inputs, horizon: nat, predictor: Decision,
        bands: Option<seq<Band>>)
    requires CoversHorizon(bands, horizon) && i.room.Some?
    requires var b := FirstBand(i, bands);
             || s.idle.None? || (s.heat.None? && s.cool.None?)
             || (i.room.value <= b.low && s.heat.None?) || (i.room.value >= b.high && s.cool.None?)
    ensures Plan(s, i, horizon, predictor, bands) == predictor
  {
  }

  // ----- planning -----

  // The cycle that runs is planned on a borrowed slope and is short of its far edge.
  predicate Held(s: Slopes, i: Inputs, b: Band)
    requires i.room.Some?
  {
    || (i.current == Heat && s.heatSource == Previous && s.heat.Some? && i.room.value < b.high)
    || (i.current == Cool && s.coolSource == Previous && s.cool.Some? && i.room.value > b.low)
  }

  function IssuedFor(a: Action, i: Inputs): Decision {
    match a
    case Heat => Decision(Heat, Some(HeatMode), Some(i.high))
    case Cool => Decision(Cool, Some(CoolMode), Some(i.low))
    case _ => IDLE_DECISION
  }

  // Otherwise the answer is the winner of the scores, aimed at the far edge of the band, with
  // a held cycle kept where idling would have won.
  lemma {:induction false} PlanExactly(s: Slopes, i: Inputs, horizon: nat, predictor: Decision,
        bands: Option<seq<Band>>)
    requires CoversHorizon(bands, horizon) && i.room.Some? && s.idle.Some? && (s.heat.Some? || s.cool.Some?)
    requires var b := FirstBand(i, bands);
             (i.room.value <= b.low ==> s.heat.Some?) && (i.room.value >= b.high ==> s.cool.Some?)
    ensures Plan(s, i, horizon, predictor, bands) ==
              if HeatWins(s, i, horizon, bands) then IssuedFor(Heat, i)
              else if CoolWins(s, i, horizon, bands) then IssuedFor(Cool, i)
              else if Held(s, i, FirstBand(i, bands)) then IssuedFor(i.current, i)
              else IDLE_DECISION
  {
    RankingWinner(s, i, horizon, bands);
    ScoresListed(s, i, horizon, bands);
    ScoresHaveTargets(s, i, horizon, bands);
    var ss := Scores(EnumerateActions(i), s, i, horizon, bands);
    ChoiceIsScored(ss, s, i, horizon, bands);
    ScoreForKind(ss, i.current);
    if IsActive(i.current) && s.ForAction(i.current).Some? {
      ScoreForListed(s, i, horizon, bands, i.current);
    }
  }

  // Without a reading nothing is commanded, whatever the predictor said.
  lemma {:induction false} PlansOnlyWithAReading(s: Slopes, i: Inputs, horizon: nat, predictor: Decision,
        bands: Option<seq<Band>>)
    requires CoversHorizon(bands, horizon) && i.room.None?
    ensures Plan(s, i, horizon, predictor, bands) == Decision(Unknown, None, None)
  {
  }
}
