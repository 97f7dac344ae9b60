// What the learned slopes guarantee to the planners that use them: the sign of a recovery
// slope, where a borrowed one comes from, and when borrowing stops.

module LearnedSlopes {
  import opened ComfortTypes
  import opened SampleBuffer
  import opened SlopeFit
  import opened SlopeFacts
  import opened Predictor

  // ----- the sign guard -----

  // A fittable run that moved the way its cycle drives it, between any two samples taken at
  // different times, keeps its fit; one that never did gives no slope at all.
  lemma {:induction false} SignGuard(seg: seq<Sample>, a: Action, now: int, e: real -> real)
    requires IsExponential(e) && Sorted(seg) && IsActive(a)
    ensures Moving(seg, Direction(a)) && FittedSlope(seg, now, e).Some? ==>
              RecoverySlope(seg, a, now, e) == (FittedSlope(seg, now, e), Wls)
    ensures NeverMoving(seg, Direction(a)) ==> RecoverySlope(seg, a, now, e).0.None?
  {
    if FittedSlope(seg, now, e).Some? {
      if Moving(seg, Direction(a)) { MovingFit(seg, now, e, Direction(a)); }
      if NeverMoving(seg, Direction(a)) { NeverMovingFit(seg, now, e, Direction(a)); }
    }
  }

  lemma {:induction false} SortedRun(b: seq<Sample>, r: Run)
    requires Sorted(b) && r.start <= r.end <= |b|
    ensures Sorted(b[r.start..r.end])
  {
  }

  // The slope of an action is about its latest gap-free run and nothing else: kept as fitted
  // when that run moved the cycle's way, gone when it never did.
  lemma {:induction false} EstimateIsTheLatestRuns(b: seq<Sample>, a: Action, r: Run, now: int, e: real -> real)
    requires IsExponential(e) && Sorted(b) && IsActive(a) && IsLatestRun(b, a, |b|, false, r)
    ensures var seg := b[r.start..r.end];
            && (Moving(seg, Direction(a)) && FittedSlope(seg, now, e).Some? ==>
                  EstimateSlopes(b, now, e).ForAction(a) == FittedSlope(seg, now, e))
            && (NeverMoving(seg, Direction(a)) ==> EstimateSlopes(b, now, e).ForAction(a).None?)
  {
    LatestRunSpec(b, a, |b|, false);
    RunUnique(b, a, |b|, false, r, LatestRun(b, a, |b|, false).value);
    SortedRun(b, r);
    SignGuard(b[r.start..r.end], a, now, e);
  }

  // Index k splits the samples from..to of the buffer into those before the moment and the rest.
  ghost predicate Splits(b: seq<Sample>, from: nat, k: nat, to: nat, moment: int) {
    && from <= k <= to <= |b|
    && (forall i :: from <= i < k ==> b[i].t < moment)
    && (forall i :: k <= i < to ==> b[i].t >= moment)
  }

  lemma {:induction false} SplitUnique(b: seq<Sample>, from: nat, k: nat, j: nat, to: nat, moment: int)
    requires Splits(b, from, k, to, moment) && Splits(b, from, j, to, moment)
    ensures k == j
  {
    assert k < to ==> b[k].t >= moment;
    assert j < to ==> b[j].t >= moment;
  }

  lemma {:induction false} RecentIsTheSplit(b: seq<Sample>, r: Run, k: nat, moment: int)
    requires Sorted(b) && Splits(b, r.start, k, r.end, moment)
    ensures Recent(b[r.start..r.end], moment) == b[k..r.end]
  {
    var seg := b[r.start..r.end];
    SortedRun(b, r);
    var j := RecentIsSuffix(seg, moment);
    forall i | r.start <= i < r.end
      ensures i < r.start + j ==> b[i].t < moment
      ensures i >= r.start + j ==> b[i].t >= moment
    {
      assert b[i] == seg[i - r.start];
    }
    SplitUnique(b, r.start, r.start + j, k, r.end, moment);
    assert seg[j..] == b[k..r.end];
  }

  lemma {:induction false} RunSamplesAre(b: seq<Sample>, a: Action, acrossGaps: bool, r: Run)
    requires IsLatestRun(b, a, |b|, acrossGaps, r)
    ensures LatestRunSamples(b, a, acrossGaps) == b[r.start..r.end]
  {
    LatestRunSpec(b, a, |b|, acrossGaps);
  }

  lemma {:induction false} SettledIs(b: seq<Sample>, r: Run, q: Run, k: nat)
    requires Sorted(b) && IsLatestRun(b, Idle, |b|, false, r) && IsLatestRun(b, Idle, |b|, true, q)
    requires Splits(b, r.start, k, r.end, b[q.start].t + 1800)
    ensures SettledIdleRun(b) == b[k..r.end]
  {
    RunSamplesAre(b, Idle, false, r);
    RunSamplesAre(b, Idle, true, q);
    RecentIsTheSplit(b, r, k, b[q.start].t + 1800);
  }

  lemma {:induction false} IdleEstimate(b: seq<Sample>, now: int, e: real -> real)
    ensures var fit := FittedSlope(SettledIdleRun(b), now, e);
            && EstimateSlopes(b, now, e).idle == fit
            && (EstimateSlopes(b, now, e).idleMeasuredAt ==
                  if fit.Some? then Some(Last(SettledIdleRun(b)).t) else None)
  {
  }

  // The idle slope is the fit of the latest gap-free idle run, less everything in the first
  // half hour of the idle stretch it belongs to, gaps bridged.
  lemma {:induction false} IdleSlopeIsSettled(b: seq<Sample>, r: Run, q: Run, k: nat, now: int, e: real -> real)
    requires Sorted(b) && IsLatestRun(b, Idle, |b|, false, r) && IsLatestRun(b, Idle, |b|, true, q)
    requires Splits(b, r.start, k, r.end, b[q.start].t + 1800)
    ensures EstimateSlopes(b, now, e).idle == FittedSlope(b[k..r.end], now, e)
    ensures EstimateSlopes(b, now, e).idleMeasuredAt ==
              if FittedSlope(b[k..r.end], now, e).Some? then Some(b[r.end - 1].t) else None
  {
    SettledIs(b, r, q, k);
    IdleEstimate(b, now, e);
  }

  // An action the buffer holds no sample of has no slope.
  lemma {:induction false} NoSampleNoSlope(b: seq<Sample>, a: Action, now: int, e: real -> real)
    requires a != Unknown && forall i :: 0 <= i < |b| ==> b[i].action != a
    ensures EstimateSlopes(b, now, e).ForAction(a).None?
  {
    LatestRunSpec(b, a, |b|, false);
    LatestRunSpec(b, a, |b|, true);
  }

  ghost predicate RightSigned(s: Slopes) {
    && (s.heat.Some? ==> s.heat.value > 0.0)
    && (s.cool.Some? ==> s.cool.value < 0.0)
  }

  // Borrowing never hands a cycle a slope of the wrong sign.
  lemma {:induction false} CarryOverKeepsSigns(s: Slopes, b: seq<Sample>, now: int, e: real -> real)
    requires RightSigned(s)
    ensures RightSigned(CarryOverRecoverySlopes(s, b, now, e))
  {
    var heat, cool := Lender(b, Heat, now), Lender(b, Cool, now);
    if heat.Some? { RecoverySigned(b[heat.value.start..heat.value.end], Heat, now, e); }
    if cool.Some? { RecoverySigned(b[cool.value.start..cool.value.end], Cool, now, e); }
  }

  // Whatever the buffer holds, no planner is ever handed a heating slope that cools or a
  // cooling slope that warms.
  lemma {:induction false} SlopesAreRightSigned(b: seq<Sample>, now: int, e: real -> real)
    ensures RightSigned(EstimateSlopes(b, now, e))
    ensures RightSigned(CarryOverRecoverySlopes(EstimateSlopes(b, now, e), b, now, e))
  {
    RecoverySigned(LatestRunSamples(b, Heat, false), Heat, now, e);
    RecoverySigned(LatestRunSamples(b, Cool, false), Cool, now, e);
    CarryOverKeepsSigns(EstimateSlopes(b, now, e), b, now, e);
  }

  lemma {:induction false} RecoverySigned(seg: seq<Sample>, a: Action, now: int, e: real -> real)
    requires IsActive(a)
    ensures var m := RecoverySlope(seg, a, now, e).0;
            m.Some? ==> Times(Direction(a), m.value) > 0.0 && m == FittedSlope(seg, now, e)
  {
  }

  // ----- the lender -----

  lemma {:induction false} LenderSpec(b: seq<Sample>, a: Action, now: int) returns (young: Run, lender: Run)
    requires Lender(b, a, now).Some?
    ensures IsLatestRun(b, a, |b|, false, young) && TooYoung(b, young)
    ensures Lender(b, a, now) == Some(lender) && IsLatestRun(b, a, young.start, false, lender)
    ensures lender.end - lender.start >= SLOPE_MIN_SAMPLES
    ensures 0 < young.start && b[young.start - 1].action != a && lender.end < young.start
    ensures young.end == |b| ==> now - Last(b).t <= SAMPLE_MAX_GAP_S
  {
    young := LatestRun(b, a, |b|, false).value;
    lender := Lender(b, a, now).value;
    LatestRunSpec(b, a, |b|, false);
    LatestRunSpec(b, a, young.start, false);
    assert b[lender.end - 1].action == a;
  }

  // A slope marked as the previous cycle's is the fit of a maximal gap-free run of four or
  // more samples, with a sample of another action between it and the young run it serves.
  lemma {:induction false} BorrowedFromClosedCycle(b: seq<Sample>, a: Action, now: int, e: real -> real)
    returns (young: Run, lender: Run)
    requires IsActive(a)
    requires CarryOverRecoverySlopes(EstimateSlopes(b, now, e), b, now, e).CarriedOver(a)
    ensures IsLatestRun(b, a, |b|, false, young) && TooYoung(b, young)
    ensures IsLatestRun(b, a, young.start, false, lender) && lender.end - lender.start >= SLOPE_MIN_SAMPLES
    ensures 0 < young.start && lender.end < young.start && b[young.start - 1].action != a
    ensures young.end == |b| ==> now - Last(b).t <= SAMPLE_MAX_GAP_S
    ensures CarryOverRecoverySlopes(EstimateSlopes(b, now, e), b, now, e).ForAction(a)
         == FittedSlope(b[lender.start..lender.end], now, e)
  {
    EstimatedAreOwn(b, now, e);
    CarriedIsPrevious(EstimateSlopes(b, now, e), b, a, now, e);
    LenderFit(b, a, now, e);
    young, lender := LenderSpec(b, a, now);
  }

  lemma {:induction false} EstimatedAreOwn(b: seq<Sample>, now: int, e: real -> real)
    ensures var s := EstimateSlopes(b, now, e);
            s.heatSource != Previous && s.coolSource != Previous
  {
  }

  lemma {:induction false} CarriedIsPrevious(s: Slopes, b: seq<Sample>, a: Action, now: int, e: real -> real)
    requires s.heatSource != Previous && s.coolSource != Previous
    requires CarryOverRecoverySlopes(s, b, now, e).CarriedOver(a)
    ensures PreviousCycleSlope(b, a, now, e).Some?
    ensures CarryOverRecoverySlopes(s, b, now, e).ForAction(a) == PreviousCycleSlope(b, a, now, e)
  {
  }

  lemma {:induction false} LenderFit(b: seq<Sample>, a: Action, now: int, e: real -> real)
    requires IsActive(a) && PreviousCycleSlope(b, a, now, e).Some?
    ensures Lender(b, a, now).Some?
    ensures PreviousCycleSlope(b, a, now, e)
         == FittedSlope(b[Lender(b, a, now).value.start..Lender(b, a, now).value.end], now, e)
  {
  }

  lemma {:induction false} BorrowingIsMarked(s: Slopes, b: seq<Sample>, a: Action, now: int, e: real -> real)
    requires IsActive(a) && PreviousCycleSlope(b, a, now, e).Some?
    ensures CarryOverRecoverySlopes(s, b, now, e).CarriedOver(a)
  {
  }

  lemma {:induction false} LendsIff(b: seq<Sample>, a: Action, young: Run, lender: Run, now: int)
    requires IsLatestRun(b, a, |b|, false, young) && 0 < young.start && b[young.start - 1].action != a
    requires IsLatestRun(b, a, young.start, false, lender)
    ensures Lender(b, a, now) ==
              if (young.end - young.start < 4 || (young.end == |b| && Last(b).t - b[young.start].t < 600))
                 && (young.end == |b| ==> now - Last(b).t <= 1020) && lender.end - lender.start >= 4
              then Some(lender) else None
  {
    LatestRunSpec(b, a, |b|, false);
    LatestRunSpec(b, a, young.start, false);
    assert LatestRun(b, a, |b|, false) == Some(young) && LatestRun(b, a, young.start, false) == Some(lender);
  }

  // A cycle that began after a sample of another action borrows from the cycle before it
  // exactly while its own run has under four samples or, still running, under ten minutes and
  // a sample in the last seventeen, and the cycle before left a fit of its own.
  lemma {:induction false} BorrowsIff(b: seq<Sample>, a: Action, young: Run, lender: Run, now: int, e: real -> real)
    requires IsActive(a) && IsLatestRun(b, a, |b|, false, young)
    requires 0 < young.start && b[young.start - 1].action != a && IsLatestRun(b, a, young.start, false, lender)
    ensures PreviousCycleSlope(b, a, now, e) ==
              if (young.end - young.start < 4 || (young.end == |b| && Last(b).t - b[young.start].t < 600))
                 && (young.end == |b| ==> now - Last(b).t <= 1020)
              then RecoverySlope(b[lender.start..lender.end], a, now, e).0 else None
  {
    LendsIff(b, a, young, lender, now);
  }

  // What is planned with: the previous cycle's slope where one is lent, the run's own where
  // none is, and the idle slope always as it was.
  lemma {:induction false} CarryOverExactly(s: Slopes, b: seq<Sample>, a: Action, now: int, e: real -> real)
    requires IsActive(a)
    ensures var carried := CarryOverRecoverySlopes(s, b, now, e);
            && carried.ForAction(a) == (if PreviousCycleSlope(b, a, now, e).Some?
                                        then PreviousCycleSlope(b, a, now, e) else s.ForAction(a))
            && carried.idle == s.idle
  {
  }

  // ----- when borrowing stops -----

  // Nothing is borrowed at any later look at this buffer.
  ghost predicate NeverBorrows(b: seq<Sample>, a: Action) {
    forall now, e :: PreviousCycleSlope(b, a, now, e).None?
  }

  // The latest run of the action heads the buffer or resumes after a sampling gap.
  predicate NothingBefore(b: seq<Sample>, a: Action) {
    match LatestRun(b, a, |b|, false)
    case None => true
    case Some(r) => r.start == 0 || b[r.start - 1].action == a
  }

  // The latest run is still running and old enough for a slope of its own.
  predicate Outgrown(b: seq<Sample>, a: Action) {
    match LatestRun(b, a, |b|, false)
    case None => false
    case Some(r) => r.end == |b| && !TooYoung(b, r)
  }

  lemma {:induction false} GrowRun(b: seq<Sample>, k: nat, s: Sample, a: Action, r: Run)
    requires k < |b| && LatestRun(b, a, |b|, false) == Some(r) && r.end == |b|
    requires s.action == a && s.t - Last(b).t <= SAMPLE_MAX_GAP_S
    ensures var d := b[k..] + [s];
            LatestRun(d, a, |d|, false) == Some(Run(if r.start <= k then 0 else r.start - k, |d|))
  {
    var d := b[k..] + [s];
    LatestRunSpec(b, a, |b|, false);
    LatestRunSpec(d, a, |d|, false);
    assert IsLatestRun(b, a, |b|, false, r);
    var q := Run(if r.start <= k then 0 else r.start - k, |d|);
    assert forall i :: 0 <= i < |d| - 1 ==> d[i] == b[k + i];
    forall i | q.start < i < q.end
      ensures Joined(d, a, false, i)
    {
      if i < |d| - 1 { assert Joined(b, a, false, k + i); }
    }
    if q.start > 0 { assert !Joined(b, a, false, r.start); }
    assert IsLatestRun(d, a, |d|, false, q);
  }

  lemma {:induction false} FreshRun(b: seq<Sample>, k: nat, s: Sample, a: Action)
    requires k <= |b| && s.action == a
    requires k == |b| || Last(b).action != a || s.t - Last(b).t > SAMPLE_MAX_GAP_S
    ensures var d := b[k..] + [s];
            LatestRun(d, a, |d|, false) == Some(Run(|d| - 1, |d|))
  {
  }

  lemma {:induction false} KeepRun(b: seq<Sample>, k: nat, s: Sample, a: Action)
    requires k <= |b| && s.action != a
    ensures var d := b[k..] + [s];
            var r, q := LatestRun(b, a, |b|, false), LatestRun(d, a, |d|, false);
            q.Some? ==>
              (r.Some? && k < r.value.end
               && q.value.start == if r.value.start <= k then 0 else r.value.start - k)
  {
    var d := b[k..] + [s];
    LatestRunSpec(b, a, |b|, false);
    LatestRunSpec(d, a, |d|, false);
    var q := LatestRun(d, a, |d|, false);
    assert forall i :: 0 <= i < |d| - 1 ==> d[i] == b[k + i];
    if q.Some? {
      assert d[q.value.end - 1].action == a;
      assert b[k + q.value.end - 1].action == a;
      var r := LatestRun(b, a, |b|, false).value;
      assert IsLatestRun(b, a, |b|, false, r);
      assert b[r.end - 1].action == a;
      assert r.end > k;
      var p := Run(if r.start <= k then 0 else r.start - k, r.end - k);
      KeptRunIsLatest(b, k, s, a, r, p);
    }
  }

  lemma {:induction false} JoinedInTail(b: seq<Sample>, k: nat, s: Sample, a: Action, i: nat)
    requires k <= |b| && 0 < i < |b| - k
    ensures Joined(b[k..] + [s], a, false, i) == Joined(b, a, false, k + i)
  {
  }

  lemma {:induction false} KeptRunIsLatest(b: seq<Sample>, k: nat, s: Sample, a: Action, r: Run, p: Run)
    requires k <= |b| && s.action != a && IsLatestRun(b, a, |b|, false, r) && k < r.end
    requires p == Run(if r.start <= k then 0 else r.start - k, r.end - k)
    ensures LatestRun(b[k..] + [s], a, |b| - k + 1, false) == Some(p)
  {
    var d := b[k..] + [s];
    LatestRunSpec(d, a, |d|, false);
    forall i | p.start < i < p.end
      ensures Joined(d, a, false, i)
    {
      JoinedInTail(b, k, s, a, i);
    }
    if p.start > 0 { JoinedInTail(b, k, s, a, p.start); }
    assert forall i :: p.start <= i < |d| - 1 ==> d[i].action == b[k + i].action;
    assert IsLatestRun(d, a, |d|, false, p);
  }

  lemma {:induction false} NoLender(b: seq<Sample>, a: Action)
    requires NothingBefore(b, a) || Outgrown(b, a)
    ensures NeverBorrows(b, a)
  {
  }

  lemma {:induction false} RunningEndsLast(b: seq<Sample>, a: Action)
    requires b != [] && Last(b).action == a
    ensures LatestRun(b, a, |b|, false).Some? && LatestRun(b, a, |b|, false).value.end == |b|
  {
  }

  lemma {:induction false} ResumedTail(b: seq<Sample>, c: nat, s: Sample, a: Action)
    requires b != [] && c <= |b| && Last(b).action == a && s.action == a
    requires c == |b| || s.t - Last(b).t > SAMPLE_MAX_GAP_S
    ensures NothingBefore(b[c..] + [s], a)
  {
  }

  lemma {:induction false} RunningTail(b: seq<Sample>, c: nat, s: Sample, a: Action)
    requires b != [] && c < |b| && Last(b).action == a && s.action == a
    requires Last(b).t <= s.t && s.t - Last(b).t <= SAMPLE_MAX_GAP_S
    ensures NothingBefore(b, a) ==> NothingBefore(b[c..] + [s], a)
    ensures Outgrown(b, a) ==> NothingBefore(b[c..] + [s], a) || Outgrown(b[c..] + [s], a)
  {
    RunningEndsLast(b, a);
    var r := LatestRun(b, a, |b|, false).value;
    GrowRun(b, c, s, a, r);
    var d := b[c..] + [s];
    if c < r.start {
      assert d[r.start - c - 1] == b[r.start - 1] && d[r.start - c] == b[r.start];
    }
  }

  // One more sample of a running run: it stays out of the borrowing rule.
  lemma {:induction false} RunningStep(b: seq<Sample>, r: Reading, a: Action)
    requires Sorted(b) && b != [] && Last(b).t <= r.now
    requires Last(b).action == a && r.action == a
    ensures NothingBefore(b, a) ==> NothingBefore(Append(b, r), a)
    ensures Outgrown(b, a) ==> NothingBefore(Append(b, r), a) || Outgrown(Append(b, r), a)
  {
    if !RateLimited(b, r) {
      var k, c := AppendShape(b, r);
      var s := Sample(r.now, r.temp, r.action);
      if c == |b| || s.t - Last(b).t > SAMPLE_MAX_GAP_S {
        ResumedTail(b, c, s, a);
      } else {
        RunningTail(b, c, s, a);
      }
    }
  }

  lemma {:induction false} OtherTail(b: seq<Sample>, c: nat, s: Sample, a: Action)
    requires c <= |b| && s.action != a && NothingBefore(b, a)
    ensures NothingBefore(b[c..] + [s], a)
  {
    KeepRun(b, c, s, a);
    var d := b[c..] + [s];
    var q := LatestRun(d, a, |d|, false);
    if q.Some? && q.value.start > 0 {
      assert d[q.value.start - 1] == b[c + q.value.start - 1];
    }
  }

  // Any reading but the first of a new cycle leaves a resumed run without a lender.
  lemma {:induction false} ResumedStep(b: seq<Sample>, r: Reading, a: Action)
    requires Sorted(b) && b != [] && Last(b).t <= r.now
    requires r.action == a ==> Last(b).action == a
    requires NothingBefore(b, a)
    ensures NothingBefore(Append(b, r), a)
  {
    if r.action == a {
      RunningStep(b, r, a);
    } else if !RateLimited(b, r) {
      var k, c := AppendShape(b, r);
      OtherTail(b, c, Sample(r.now, r.temp, r.action), a);
    }
  }

  lemma {:induction false} AppendEndsWith(b: seq<Sample>, r: Reading)
    requires Sorted(b) && (b != [] ==> Last(b).t <= r.now)
    ensures Sorted(Append(b, r)) && Append(b, r) != []
    ensures Last(Append(b, r)).action == r.action && Last(Append(b, r)).t <= r.now
  {
    if !RateLimited(b, r) {
      var k, c := AppendShape(b, r);
      var d := b[c..] + [Sample(r.now, r.temp, r.action)];
      forall i, j | 0 <= i < j < |d|
        ensures d[i].t <= d[j].t
      {
        assert d[i] == b[c + i] && b[c + i].t <= Last(b).t;
      }
    }
  }

  // Once a running run has outgrown the borrowed slope it never borrows again while it
  // keeps running, however pruning and the count cap trim the buffer.
  lemma {:induction false} OutgrownForGood(b: seq<Sample>, rs: seq<Reading>, a: Action)
    requires Sorted(b) && Clocked(b, rs) && b != [] && Last(b).action == a
    requires NothingBefore(b, a) || Outgrown(b, a)
    requires forall i :: 0 <= i < |rs| ==> rs[i].action == a
    ensures NeverBorrows(AppendAll(b, rs), a)
    decreases |rs|
  {
    if rs == [] {
      NoLender(b, a);
    } else {
      AppendEndsWith(b, rs[0]);
      RunningStep(b, rs[0], a);
      OutgrownForGood(Append(b, rs[0]), rs[1..], a);
    }
  }

  // After the reading prev, no reading of rs is the first of a new cycle of the action.
  ghost predicate NoNewCycle(prev: Action, rs: seq<Reading>, a: Action)
    decreases |rs|
  {
    rs == [] || ((rs[0].action == a ==> prev == a) && NoNewCycle(rs[0].action, rs[1..], a))
  }

  lemma {:induction false} NothingBeforeForGood(b: seq<Sample>, rs: seq<Reading>, a: Action)
    requires Sorted(b) && Clocked(b, rs) && b != [] && NoNewCycle(Last(b).action, rs, a)
    requires NothingBefore(b, a)
    ensures NeverBorrows(AppendAll(b, rs), a)
    decreases |rs|
  {
    if rs == [] {
      NoLender(b, a);
    } else {
      AppendEndsWith(b, rs[0]);
      ResumedStep(b, rs[0], a);
      NothingBeforeForGood(Append(b, rs[0]), rs[1..], a);
    }
  }

  // A run resumed after a gap of more than 17 minutes borrows at no point of its life: not
  // while it runs, and not after it has ended, until a new cycle begins.
  lemma {:induction false} ResumedRunNeverBorrows(b: seq<Sample>, rs: seq<Reading>, a: Action)
    requires Sorted(b) && Clocked(b, rs) && b != [] && Last(b).action == a
    requires rs != [] && rs[0].action == a && rs[0].now - Last(b).t > SAMPLE_MAX_GAP_S
    requires NoNewCycle(a, rs, a)
    ensures NeverBorrows(AppendAll(b, rs), a)
  {
    AppendEndsWith(b, rs[0]);
    var k, c := AppendShape(b, rs[0]);
    FreshRun(b, c, Sample(rs[0].now, rs[0].temp, a), a);
    NothingBeforeForGood(Append(b, rs[0]), rs[1..], a);
  }
}
