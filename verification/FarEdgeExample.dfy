// A state in which a heat cycle runs on past its far edge, as RefreshRuns.FarEdgeOutcome says
// it must: the schedule has put the band below the room, the room holds by itself, the
// planner asks for cooling, and the cross-mode dwell holds the flip back.

module FarEdgeExample {
  import opened ComfortTypes
  import opened SampleBuffer
  import opened SlopeFit
  import opened SlopeFacts
  import opened LearnedSlopes
  import opened StandIn
  import opened Coordinator
  import opened Lookahead
  import opened Refresh
  import opened RefreshRuns
  import opened OutageRuns
  import CommitGates
  import DecisionStack
  import ED = EditDetector
  import H = Hysteresis
  import IC = IdleCache
  import MpcFlips
  import P = Predictor
  import Peak

  // A cool cycle, one idle sample, and the heat cycle that is running, a sample a minute.
  const BUFFER := [
    Sample(0, 23.0, Cool), Sample(60, 22.9, Cool), Sample(120, 22.8, Cool), Sample(180, 22.7, Cool),
    Sample(240, 22.0, Idle),
    Sample(1200, 21.2, Heat), Sample(1260, 21.4, Heat), Sample(1320, 21.6, Heat), Sample(1380, 21.8, Heat)
  ]

  const NOW := 1440

  // Heat was committed four minutes ago.
  const STATE := ZoneState(CommitGates.Commitment(Some(Heat), Some(1200), Some(Idle), Some(1200)),
                           ED.Detector(None, None, None), Outage(None, None, None, false), BUFFER)

  // A room that holds its temperature by itself.
  const CACHE := IC.Cache(Some(0.0), Some(0), Some(0))

  const ZONE := Zone(BandSource(None, Band(20.0, 21.0), 0, Peak.Settings(false, false, 0.0, 0.0, 0, None, None), 0),
                     true, true, true, 5, 0.5, 60, 0.3, 0.5, 5, 10)

  const WORLD := World(NOW, Readings(Some(22.0), None, None), None, false, 0.5,
                       ModeReturned(false, false, false, ED.Reporting("heat", Some(21.0))))

  // What the example needs of the exponential: two time constants do not use it up.
  ghost predicate Gentle(e: real -> real) {
    IsExponential(e) && forall a :: -2.0 <= a <= 0.0 ==> e(a) >= 0.1
  }

  // ----- the fits -----

  lemma {:induction false} Weights(e: real -> real, t: int)
    requires Gentle(e) && 0 <= t <= NOW
    ensures Weight(e, NOW, t) >= 0.1
  {
    var m := Minutes(NOW - t);
    assert 0.0 <= m <= 40.0;
  }

  lemma {:induction false} HeavyPair(p: Point, q: Point)
    requires p.w >= 0.1 && q.w >= 0.1 && p.y == p.x && q.y == q.x && p.x - q.x == -1.0
    ensures PairTerm(p, q) >= 0.01
  {
    Product(p.w, q.w);
    assert (p.x - q.x) * (p.y - q.y) == 1.0;
  }

  lemma {:induction false} Product(a: real, b: real)
    requires a >= 0.1 && b >= 0.1
    ensures a * b >= 0.01
  {
    assert (a - 0.1) * (b - 0.1) == a * b - 0.1 * a - 0.1 * b + 0.01;
    NonNegative(a - 0.1, b - 0.1);
  }

  lemma {:induction false} NonNegative(a: real, b: real)
    requires a >= 0.0 && b >= 0.0
    ensures a * b >= 0.0
  {
  }

  // Four samples a minute apart, each a fixed step from the one before.
  ghost predicate Steps(seg: seq<Sample>, rate: real) {
    && |seg| == 4
    && seg[0].t >= 0 && seg[3].t <= NOW
    && forall k :: 0 <= k < 4 ==> seg[k].t == seg[0].t + 60 * k && seg[k].temp == seg[0].temp + rate * k as real
  }

  lemma {:induction false} StepsRate(seg: seq<Sample>, rate: real, i: nat, j: nat)
    requires Steps(seg, rate) && i < j < 4
    ensures Rate(seg[i], seg[j]) == rate
  {
    var x, y := i as real, j as real;
    assert Minutes(seg[j].t - seg[i].t) == y - x;
    QuotientIs(rate, x, y, seg[j].temp - seg[i].temp);
  }

  lemma {:induction false} QuotientIs(rate: real, x: real, y: real, d: real)
    requires x < y && d == rate * y - rate * x
    ensures d / (y - x) == rate
  {
    var q := d / (y - x);
    assert q * (y - x) == d;
    assert rate * (y - x) == rate * y - rate * x;
    Cancel(q, rate, y - x);
  }

  lemma {:induction false} StepsFit(seg: seq<Sample>, rate: real, e: real -> real)
    requires Gentle(e) && Steps(seg, rate)
    ensures FittedSlope(seg, NOW, e) == Some(rate)
  {
    Weights(e, seg[0].t);
    Weights(e, seg[1].t);
    var ds := Diagonal(Points(seg, NOW, e));
    HeavyPair(ds[0], ds[1]);
    SpreadRunIsFitted(seg, NOW, e, 0, 1);
    forall i, j | 0 <= i < j < |seg| && seg[i].t != seg[j].t
      ensures rate <= Rate(seg[i], seg[j]) <= rate
    {
      StepsRate(seg, rate, i, j);
    }
    SlopeBetweenRates(seg, NOW, e, rate, rate);
  }

  // ----- what the refresh learns -----

  lemma {:induction false} HeatRun()
    ensures LatestRun(BUFFER, Heat, 9, false) == Some(Run(5, 9)) && LatestRun(BUFFER, Heat, 5, false) == None
  {
    LatestRunSpec(BUFFER, Heat, 9, false);
    LatestRunSpec(BUFFER, Heat, 5, false);
    assert IsLatestRun(BUFFER, Heat, 9, false, Run(5, 9));
  }

  lemma {:induction false} CoolRun()
    ensures LatestRun(BUFFER, Cool, 9, false) == Some(Run(0, 4))
  {
    LatestRunSpec(BUFFER, Cool, 9, false);
    assert IsLatestRun(BUFFER, Cool, 9, false, Run(0, 4));
  }

  // The one idle sample is too fresh for an idle slope.
  lemma {:induction false} NothingSettled()
    ensures P.SettledIdleRun(BUFFER) == []
  {
    LatestRunSpec(BUFFER, Idle, 9, true);
    LatestRunSpec(BUFFER, Idle, 9, false);
    assert IsLatestRun(BUFFER, Idle, 9, true, Run(4, 5));
    assert IsLatestRun(BUFFER, Idle, 9, false, Run(4, 5));
    var run := P.LatestRunSamples(BUFFER, Idle, false);
    assert run == [BUFFER[4]] == P.LatestRunSamples(BUFFER, Idle, true);
    assert run[1..] == [] && P.Settled(run, 240) == Recent(run, 2040);
    assert Recent(run[1..], 2040) == [];
  }

  lemma {:induction false} LiveSlopes(e: real -> real)
    requires Gentle(e)
    ensures var s := P.EstimateSlopes(BUFFER, NOW, e);
            s.idle.None? && s.heat == Some(0.2) && s.cool == Some(-0.1)
  {
    HeatRun();
    CoolRun();
    NothingSettled();
    StepsFit(BUFFER[5..9], 0.2, e);
    StepsFit(BUFFER[0..4], -0.1, e);
  }

  // Neither cycle borrows: the one running is the first of its kind, the other is over.
  lemma {:induction false} NothingBorrowed()
    ensures P.Lender(BUFFER, Heat, NOW).None? && P.Lender(BUFFER, Cool, NOW).None?
  {
    HeatRun();
    CoolRun();
  }

  lemma {:induction false} CarriesNothing(s: P.Slopes, e: real -> real)
    ensures P.CarryOverRecoverySlopes(s, BUFFER, NOW, e) == s
  {
    NothingBorrowed();
  }

  lemma {:induction false} IdleFromCache(live: P.Slopes)
    requires live.idle.None?
    ensures IC.ResolveIdle(CACHE, live, NOW, true, true).1
         == live.(idle := Some(0.0), idleSource := P.Cached, idleMeasuredAt := Some(0))
  {
  }

  lemma {:induction false} PlannedOn(e: real -> real)
    requires Gentle(e)
    ensures var s := Learned(BUFFER, CACHE, true, false, NOW, e).2;
            s.idle == Some(0.0) && s.heat == Some(0.2) && s.cool == Some(-0.1)
  {
    var live := P.EstimateSlopes(BUFFER, NOW, e);
    LiveSlopes(e);
    IdleFromCache(live);
    CarriesNothing(IC.ResolveIdle(CACHE, live, NOW, true, true).1, e);
  }

  // ----- the refresh -----

  lemma {:induction false} TheSituation(e: real -> real)
    requires Gentle(e)
    ensures Configured(ZONE)
    ensures var t := Situate(STATE, CACHE, ZONE, WORLD, e);
            && t.inputs == H.Inputs(Some(22.0), 20.0, 21.0, 0.3, 0.5, Heat)
            && t.bands == None && t.layers == DecisionStack.Layers(true, true, false, false, 5, 0.5, 60)
            && t.effective == Learned(BUFFER, CACHE, true, false, NOW, e).2
  {
  }

  lemma {:induction false} PlannerReverses(e: real -> real)
    requires Gentle(e)
    ensures var t := Situate(STATE, CACHE, ZONE, WORLD, e);
            && Calm(t) && DecisionStack.PlannerInCharge(t.layers, t.effective)
            && MpcFlips.Reverses(t.effective, t.inputs, 60, t.bands)
  {
    TheSituation(e);
    PlannedOn(e);
    var t := Situate(STATE, CACHE, ZONE, WORLD, e);
    LearnedAreRightSigned(BUFFER, CACHE, true, false, NOW, e);
    MpcFlips.WarmRoomFlipsToCool(t.effective, t.inputs, 60, H.IDLE_DECISION, None);
    MpcFlips.PlansOppositeIff(t.effective, t.inputs, 60, H.IDLE_DECISION, None);
  }

  // The room is a degree above the band the heat cycle is driven to, the cooling that is
  // decided instead is stopped at the gate, and heating stays in force.
  lemma {:induction false} HeatRunsOnAboveTheBand(e: real -> real)
    requires Gentle(e)
    ensures H.AtFarEdge(Situate(STATE, CACHE, ZONE, WORLD, e).inputs)
    ensures Configured(ZONE)
    ensures !H.ThroughIdle(Situate(STATE, CACHE, ZONE, WORLD, e).inputs, Decided(STATE, CACHE, ZONE, WORLD, e))
    ensures RunCycle(STATE, CycleOf(STATE, CACHE, ZONE, WORLD, e)).commitment.last == Some(Heat)
  {
    TheSituation(e);
    PlannerReverses(e);
    var t := Situate(STATE, CACHE, ZONE, WORLD, e);
    DecisionStack.StackReversesIff(t.layers, t.live, t.effective, t.inputs, t.bands);
    FarEdgeOutcome(STATE, CACHE, ZONE, WORLD, e);
  }
}
