# Comfort Band: a verified model of the controller core

Comfort Band is a Home Assistant integration that keeps each room inside a temperature band.
This project models, in Dafny, the logic that decides what a zone's climate unit is told to do,
and proves properties of it. It covers:

- **Slope learning** (`SampleBuffer`, `SlopeFit`, `SlopeFacts`, `Predictor`, `LearnedSlopes`): the pruned sample
  buffer, run segmentation, the weighted least-squares fit, the sign guard, and borrowing the
  previous cycle's slope.
- **The decision stack** (`Hysteresis`, `PredictorFacts`, `Mpc`, `MpcFacts`, `MpcLimits`, `MpcPlan`,
  `MpcFlips`, `DecisionStack`): three deciders that fall back on each other.
- **Bands** (`Schedule`, `Ramp`, `Peak`, `Setpoint`, `Lookahead`): the daily schedule, its ramps, peak shaping,
  setpoint alignment, and the per-minute lookahead.
- **The coordinator's state machines** (`CommitGates`, `EditDetector`, `StandIn`, `IdleCache`, `Coordinator`,
  `ApplyFacts`, `OutageRuns`): dwell gates, manual-edit detection, sensor outages and the persisted idle slope.
  `Coordinator.ZoneCoordinator` is the object with its fields; each method is proved to follow a
  transition function, and the lemmas are about runs of those functions.
- **Whole refreshes** (`Refresh`, `RefreshRuns`, `FarEdgeExample`,
  `RestartExample`): the parts above put together as one refresh and the
  apply it spawns, and runs of those with climate reports and restarts in between.
- **The store** (`StoreData`, `StoreFacts`, `Store`, `ZoneBands`): profiles, zones and shared schedules, every mutator of
  `Store.ComfortBandStore` proved against its effect on the whole payload.

`ComfortTypes` holds the values they share. Temperatures and slopes are exact reals, instants whole
seconds. The exponential of the fit is any positive function that turns sums into products. One
refresh and the apply it spawns are one step: the source does not claim its gates under overlapping
applies (coordinator.py:2626-2632).

## What the proofs show about the code

- The comment at coordinator.py:2142-2156 calls the gate's direct heat-to-cool branch defensive, since
  hysteresis always passes through idle; the documentation of `mpc.plan` says that MPC does not hold a
  cycle against the opposite one. With MPC in charge the branch is reached. `MpcFlips.PlansOppositeIff` says
  exactly when MPC reverses, and `MpcFlips.WarmRoomFlipsToCool` shows that in a heated room above a steady
  band, one that does not cool by itself, it is the rule: MPC always plans cooling there unless a slope
  jumps the band. Inside the cross-mode dwell the gate then holds the flip, and the heat cycle goes on past
  its far edge: `RefreshRuns.FarEdgeOutcome` is the exact condition and
  `FarEdgeExample.HeatRunsOnAboveTheBand` a state in which it happens.
- Four samples at different times are not enough for a fit: weights decay, and on a buffer that is no
  longer fed the fit is lost once the denominator falls under 1e-9 (`SlopeFacts.FitAtALaterLook`). With
  weights that at least halve in a time constant, as those of exp do, that moment comes for every run
  (`SlopeFacts.FrozenFitIsLost`), and it is for good (`SlopeFacts.FrozenFitIsLostForGood`).
- A hand edit to a state that is neither what the unit was last seen in nor what it was told passes
  unnoticed exactly while the unit has still to move in both fields, and exactly for the two mixtures of
  the two states (`EditDetector.ForeignEditsAreCaughtIff`, `EditDetector.MissedAreTheMixtures`).
- A second command drops the first. A unit that takes up the first one late is then mistaken for a hand
  edit unless the first asked for nothing new (`EditDetector.LateFirstCommandPassesIff`).
- A restart in the middle of an outage forgets the stand-in's latch, and a flush that was due may never
  come: `RefreshRuns.RestartInOutage` is the exact condition, `RestartExample.RestartLosesTheFlush` a run.
- MPC can drive a room away from its band when a slope crosses the band within one simulated minute.
  `MpcLimits.CoolsBelowBandIff` and `MpcLimits.HeatsAboveBandIff` give the exact conditions.
- The store accepts a shared schedule seeded with profiles that do not exist. `StoreFacts.AddSharedValidIff`
  is the exact condition, `StoreFacts.ForeignSeedBreaksTheStore` an input; the only caller always meets it.

## Model

| member | source | states |
|---|---|---|
| `SampleBuffer.AppendShape` | custom_components/comfort_band/predictor.py:276-318 | an append that is not rate-limited keeps a suffix of the old buffer and adds the reading: first the suffix inside the 90-minute window, then the suffix left by the count cap |
| `SampleBuffer.AppendTakesReading` | custom_components/comfort_band/predictor.py:276-318 | a reading is dropped exactly when it repeats the action of a sample under a minute old; any other is the newest sample afterwards |
| `SampleBuffer.AppendKeepsHealthy` | custom_components/comfort_band/predictor.py:303-318 | one append on a clock that does not go back keeps the buffer sorted, at most 90 minutes long, at most 200 samples, same-action neighbours 60 seconds apart |
| `SampleBuffer.BufferStaysHealthy` | custom_components/comfort_band/predictor.py:276-318 | the same over every sequence of appends |
| `SampleBuffer.RunAtMost91` | custom_components/comfort_band/predictor.py:303-318 | no stretch of one action in a healthy buffer holds more than 91 samples |
| `SampleBuffer.CapSparesRunningRun` | custom_components/comfort_band/predictor.py:313-318 | when the 200-sample cap cuts, everything it drops lies before the run that is still running |
| `SampleBuffer.LatestRunSpec` | custom_components/comfort_band/predictor.py:357-382 | the run found is the only stretch that ends at the last sample of the action, is joined throughout (one action, and no gap over 17 minutes unless gaps are bridged) and cannot be extended to the left |
| `SampleBuffer.RunUnique` | custom_components/comfort_band/predictor.py:357-382 | there is at most one such stretch |
| `SampleBuffer.RunBounds` | custom_components/comfort_band/predictor.py:357-382 | the two backward loops of the source return exactly that run, or none when the action does not occur |
| `SlopeFit.MomentsArePairs` | custom_components/comfort_band/predictor.py:455-473 | the loop's numerator and denominator equal the sums over pairs of w_i w_j (x_i-x_j)(y_i-y_j) and w_i w_j (x_i-x_j)^2 |
| `SlopeFit.Accumulate` | custom_components/comfort_band/predictor.py:455-466 | the accumulating loop computes the five moment sums |
| `SlopeFit.WlsSlope` | custom_components/comfort_band/predictor.py:429-473 | the source's fit is the ratio of the two pair sums, and none below four samples or with a denominator under 1e-9 |
| `SlopeFacts.DenominatorSign` | custom_components/comfort_band/predictor.py:467-473 | with positive weights the denominator is never negative, and positive exactly when two samples differ in time |
| `SlopeFacts.FutureWeighsAsNew` | custom_components/comfort_band/predictor.py:455-466 | a sample dated in the future weighs as one taken now |
| `SlopeFacts.SlopeBetweenRates` | custom_components/comfort_band/predictor.py:455-473 | the fitted slope lies between any lower and upper bound of the pairwise rates of the run |
| `SlopeFacts.MovingFit` | custom_components/comfort_band/predictor.py:455-473 | a run that rises (falls) between any two samples taken at different times and can be fitted has a positive (negative) fit |
| `SlopeFacts.NeverMovingFit` | custom_components/comfort_band/predictor.py:455-473 | one that never does has a fit of the other sign or zero |
| `SlopeFacts.SlopeIndependentOfNow` | custom_components/comfort_band/predictor.py:460-473 | the fit of one run is the same whenever it is computed: all weights scale together |
| `SlopeFacts.FitAtALaterLook` | custom_components/comfort_band/predictor.py:455-473 | an unchanged run has a fit at a later look if and only if it has four samples and the denominator, scaled by the square of the decay in between, is at least 1e-9 |
| `SlopeFacts.LostFitStaysLost` | custom_components/comfort_band/predictor.py:455-473 | with weights that only decay, a fit lost on an unchanged run never comes back |
| `SlopeFacts.FrozenFitIsLost` | custom_components/comfort_band/predictor.py:429-473 | with weights that at least halve in a time constant, every run with no future-dated sample has a later time at which it has no fit |
| `SlopeFacts.FrozenFitIsLostForGood` | custom_components/comfort_band/predictor.py:429-473 | and with weights that only decay it has none from then on |
| `LearnedSlopes.SignGuard` | custom_components/comfort_band/predictor.py:521-560 | a fittable run that strictly moved its cycle's way keeps its fit unchanged; one that never did yields no slope |
| `LearnedSlopes.EstimateIsTheLatestRuns` | custom_components/comfort_band/predictor.py:563-615 | the slope of heat or cool is the fit of that action's latest maximal gap-free run when the run moved its cycle's way, and none when it never did |
| `LearnedSlopes.IdleSlopeIsSettled` | custom_components/comfort_band/predictor.py:571-615 | the idle slope is the fit of the latest gap-free idle run without the first half hour of the idle stretch it belongs to, gaps bridged; its stamp is the time of the run's last sample, and none without a fit |
| `LearnedSlopes.NoSampleNoSlope` | custom_components/comfort_band/predictor.py:563-615 | an action the buffer holds no sample of has no slope |
| `LearnedSlopes.SlopesAreRightSigned` | custom_components/comfort_band/predictor.py:591-712 | for every buffer the heat slope is none or positive and the cool slope none or negative, before and after carry-over |
| `LearnedSlopes.CarryOverKeepsSigns` | custom_components/comfort_band/predictor.py:618-712 | carry-over keeps right-signed slopes right-signed whatever they were computed from |
| `LearnedSlopes.CarryOverExactly` | custom_components/comfort_band/predictor.py:618-712 | what is planned with: the previous cycle's slope where one is lent, the run's own where none is, the idle slope always as it was |
| `LearnedSlopes.BorrowedFromClosedCycle` | custom_components/comfort_band/predictor.py:706-751 | a slope marked as the previous cycle's is the fit of a maximal gap-free run of at least four samples, separated by a sample of another action from the young latest run it serves, which if still running was sampled within 17 minutes |
| `LearnedSlopes.OutgrownForGood` | custom_components/comfort_band/predictor.py:724-771 | a running cycle past four samples and ten minutes never borrows again while it runs, however window and cap trim it |
| `LearnedSlopes.ResumedRunNeverBorrows` | custom_components/comfort_band/predictor.py:374-382 | a run resumed after a gap of more than 17 minutes borrows at no later point until a new cycle begins |
| `PredictorFacts.PredictorIsHysteresisAhead` | custom_components/comfort_band/predictor.py:781-875 | the anticipating decider equals plain hysteresis on the room projected over the lookahead, except that a flat slope is not trusted and a call is suppressed only for an acceptable recovery (back inside the band, by at least 0.1 degrees, room within the passive tolerance) |
| `PredictorFacts.WithoutSlopeIsHysteresis` | custom_components/comfort_band/predictor.py:822-875 | without a reading, or a slope for what the zone is doing, the decider is hysteresis |
| `Hysteresis.DecidesExactly` | custom_components/comfort_band/hysteresis.py:80-102 | heat exactly below the low edge, less the deadband unless already heating, and not while cooling; cool symmetrically; the target is the edge that was crossed |
| `LearnedSlopes.LenderSpec` | custom_components/comfort_band/predictor.py:715-751 | which run lends and to which, in terms of the buffer alone |
| `LearnedSlopes.BorrowsIff` | custom_components/comfort_band/predictor.py:715-771 | a cycle begun after another action borrows the fit of the run before it, if that has one of the right sign, exactly while its own run has under four samples or, still running, under ten minutes and a sample in the last 17 |
| `Mpc.SimulateLoop` | custom_components/comfort_band/mpc.py:190-237 | the source's integration loop computes the closed form: end room + n slope, score as the trapezoidal sum |
| `MpcFacts.TimeIsPointCount` | custom_components/comfort_band/mpc.py:197-230 | on a fixed band the score is the number of in-band grid points less one half for each in-band end of the horizon |
| `MpcFacts.InBandIsContiguous` | custom_components/comfort_band/mpc.py:197-230 | the in-band grid points of a trajectory form one contiguous block |
| `MpcFacts.WiderNeverLower` | custom_components/comfort_band/mpc.py:197-230 | widening any of the per-minute bands never lowers a score |
| `MpcFacts.RisingBeatsSinking` | custom_components/comfort_band/mpc.py:197-237 | below a steady band a candidate that rises by at most the band's width a minute outranks any that sinks |
| `MpcFacts.FirstBestSpec` | custom_components/comfort_band/mpc.py:404-409 | the winner of the ranking is beaten by no candidate and strictly beats every one listed before it |
| `MpcFacts.PlanFollowsChoice` | custom_components/comfort_band/mpc.py:393-440 | a planned decision is one of the scored candidates, issued with mode and target that belong together |
| `MpcFacts.PlanNeverDrivesAway` | custom_components/comfort_band/mpc.py:382-440 | on a steady band no recovery step wider than the band: MPC, when it plans, never picks cool at or below the band nor heat at or above it |
| `MpcFacts.BorrowingCycleIsHeld` | custom_components/comfort_band/mpc.py:428-440 | a cycle planned on a borrowed slope is not ended by an idle plan short of the edge it is driven to |
| `MpcFacts.IdleWhenIdleSuffices` | custom_components/comfort_band/mpc.py:410-427 | when idling keeps the room in band to within a minute of the horizon and nothing is held, the plan is idle |
| `MpcPlan.ScoreIs` | custom_components/comfort_band/mpc.py:163-237 | a candidate with a known slope is scored minute by minute against that minute's band, and its end against the middle of the last band of the lookahead |
| `MpcPlan.DefersToThePredictor` | custom_components/comfort_band/mpc.py:360-386 | MPC hands back the predictor's decision when it lacks the idle slope or both recovery slopes, and when the room is at or outside the first band on a side it has no slope for |
| `MpcPlan.PlanExactly` | custom_components/comfort_band/mpc.py:388-457 | otherwise its answer, whole: heat to the upper edge or cool to the lower where that wins the scores, else the running cycle if it is on a borrowed slope and short of its far edge, else idle |
| `MpcPlan.PlansOnlyWithAReading` | custom_components/comfort_band/mpc.py:358-359 | without a reading MPC commands nothing, whatever the predictor said |
| `MpcLimits.CoolsBelowBandIff` | custom_components/comfort_band/mpc.py:382-440 | without the bound on the step size: some room at or below a steady band is cooled if and only if the horizon is two minutes or more, heating jumps the band in one minute and ends further above than cooling ends below, and idling either sinks faster than cooling or overshoots likewise |
| `MpcLimits.HeatsAboveBandIff` | custom_components/comfort_band/mpc.py:382-440 | the same for heating at or above the band, where ties go to heating |
| `MpcLimits.OneStepOvershootCoolsBelowBand` | custom_components/comfort_band/mpc.py:382-440 | a concrete input on which MPC cools a room at the low edge |
| `MpcLimits.OneStepOvershootHeatsAboveBand` | custom_components/comfort_band/mpc.py:382-440 | a concrete input on which MPC heats a room at the high edge |
| `MpcFlips.PlansOppositeIff` | custom_components/comfort_band/mpc.py:382-440 | for every room and lookahead: while one cycle runs, MPC plans the opposite one if and only if it wins the ranking over idling and over the running cycle and idling falls short of the horizon by more than a minute |
| `MpcFlips.PlanReversesIff` | custom_components/comfort_band/mpc.py:264-457 | handed a decision that goes through idle, MPC breaks that rule if and only if it plans and reverses as above |
| `MpcFlips.FlipsToCoolIff` | custom_components/comfort_band/mpc.py:382-440 | a heat cycle at or above a steady band: MPC plans cooling if and only if cooling outscores idling and idling falls short |
| `MpcFlips.FlipsToHeatIff` | custom_components/comfort_band/mpc.py:382-440 | a cool cycle at or below a steady band: the same for heating |
| `MpcFlips.WarmRoomFlipsToCool` | custom_components/comfort_band/mpc.py:382-440 | in closed form where idling does not cool the room: a heat cycle at or above the band is turned into cooling over every horizon of two minutes or more, except for a room resting exactly on the edge |
| `MpcFlips.CoolRoomFlipsToHeat` | custom_components/comfort_band/mpc.py:382-440 | the same for a cool cycle at or below the band where idling does not warm the room |
| `DecisionStack.HysteresisReleases` | custom_components/comfort_band/hysteresis.py:80-102 | hysteresis never continues a cycle whose room is at the far edge, and never goes from one cycle straight to the other |
| `DecisionStack.PredictorReleases` | custom_components/comfort_band/predictor.py:781-875 | the same for the predictor, for every set of slopes |
| `DecisionStack.StackReleases` | custom_components/comfort_band/coordinator.py:1063-1070 | with a steady band, right-signed slopes and no step wider than the band, none of hysteresis, predictor, MPC and the final three-way choice continues a cool cycle at or below low or a heat cycle at or above high |
| `DecisionStack.ReadingAlwaysDecides` | custom_components/comfort_band/coordinator.py:986-1070 | with a reading the stack always commands heat, cool or idle, with mode and target to match |
| `DecisionStack.WhoDecides` | custom_components/comfort_band/coordinator.py:1063-1070 | whose decision it is for every setting of the two switches, a stand-in reading, a peak and the slopes at hand |
| `DecisionStack.StackReversesIff` | custom_components/comfort_band/coordinator.py:986-1070 | the decision goes from one cycle straight to the opposite one if and only if MPC is in charge (both switches on, slopes ready, no stand-in, no peak) and reverses |
| `DecisionStack.PlannerCanReverseDirectly` | custom_components/comfort_band/coordinator.py:2142-2169 | an input at the shortest horizon the setting allows on which MPC goes from heat straight to cool, so the direct branch of the cross-mode gate is reached |
| `Schedule.NormalizeSchedule` | custom_components/comfort_band/schedule.py:25-37 | accepted if and only if all times are distinct and all bands proper; the result is sorted with the same entries; otherwise the error is that of the earliest offending entry, a repeated time before an inverted band |
| `Schedule.SortIsIdentity` | custom_components/comfort_band/schedule.py:25-37 | a normalized schedule normalizes to itself |
| `Schedule.BisectSplits` | custom_components/comfort_band/schedule.py:69-72 | the bisection index splits the transitions into those at or before now and those after |
| `Schedule.SteppedIs` | custom_components/comfort_band/schedule.py:69-72 | the stepped band is that of the last transition at or before now, before the first of the day that of the day's last |
| `Schedule.NextChange` | custom_components/comfort_band/schedule.py:75-93 | the transition returned is the first to move the stepped band: constant at every moment up to it round the clock, different at it; none means constant over the whole day; an empty schedule is refused |
| `Schedule.ImportLegacyHourly` | custom_components/comfort_band/schedule.py:251-270 | accepted exactly when all 24 bands are there and proper; the result is already normalized, neighbours differ, and every moment of hour h resolves to hour h's band |
| `Ramp.WindowsFollowCurve` | custom_components/comfort_band/schedule.py:127-175 | whichever clamped ramp window holds now, its band is the one piecewise-linear curve, so the order of the scan does not matter |
| `Ramp.MeetAtMidpoint` | custom_components/comfort_band/schedule.py:137-175 | where the window behind now and the one ahead both hold it, now is the end of the one and the start of the other, and the curve is at the band between them |
| `Ramp.WindowsMeetAtEndpoints` | custom_components/comfort_band/schedule.py:137-175 | any two different windows, of any transitions and days, hold the same moment only at an endpoint of each, where both give the stepped band |
| `Ramp.RampProfile` | custom_components/comfort_band/schedule.py:127-175 | within the window of each transition, midnight included, the band runs linearly from the previous transition's band to its own |
| `Ramp.RampLaw` | custom_components/comfort_band/schedule.py:127-175 | with the reach spelled out, half the set ramp or half the gap to the nearer neighbour: over it, before and after the transition and across midnight, the band runs linearly from the previous transition's to its own |
| `Ramp.PlateauLaw` | custom_components/comfort_band/schedule.py:127-175 | from the end of one ramp to the start of the next the band is the transition's own |
| `Ramp.BlendIs` | custom_components/comfort_band/schedule.py:169-174 | both edges of a mixed band are the mixture of the two edges in the same share |
| `Ramp.RampJoinsStepped` | custom_components/comfort_band/schedule.py:65-72 | at both edges of every window the ramped band equals the stepped band |
| `Ramp.OutsideIsStepped` | custom_components/comfort_band/schedule.py:65-72 | outside every window the curve is the stepped band |
| `Ramp.RampInterpolate` | custom_components/comfort_band/schedule.py:96-175 | the double loop over transitions and day offsets answers exactly when some window holds now, with the curve's band |
| `Ramp.Resolve` | custom_components/comfort_band/schedule.py:40-72 | the resolver computes the curve for every normalized schedule and ramp, and refuses an empty one |
| `Ramp.ResolvedBandIsProper` | custom_components/comfort_band/schedule.py:40-72 | ramped or not, low stays below high at every moment |
| `Peak.RelaxWidens` | custom_components/comfort_band/peak.py:140-165 | a peak only widens the band, by at most the offsets, and not past the unit's limits unless the band was there already |
| `Peak.PreconditionNarrows` | custom_components/comfort_band/peak.py:168-187 | pre-conditioning stays inside the band, moves one edge only, by at most the offset, and leaves at least half a degree unless the band was narrower |
| `Peak.PeakCoversPreconditioning` | custom_components/comfort_band/peak.py:140-187 | the relaxed band of a peak covers the pre-conditioned band before it |
| `Peak.RelaxExactly` | custom_components/comfort_band/peak.py:140-165 | a relaxed edge moves by the whole offset, or to the unit's limit where that comes first, and not at all past it |
| `Peak.PreconditionExactly` | custom_components/comfort_band/peak.py:168-187 | a pre-conditioned edge moves by the whole offset where that leaves half a degree of band, otherwise until it does, and not at all in a narrower band |
| `Peak.ShapedWhen` | custom_components/comfort_band/peak.py:233-306 | the band is relaxed exactly while a peak is on and pre-conditioned exactly in the lead time, with saving on, an answering peak entity, a direction and no override |
| `Peak.OverriddenWhen` | custom_components/comfort_band/peak.py:233-306 | under an override the state says so exactly where the band would have been shaped but for it; the states for saving off and for no answer, and the two reported times |
| `Peak.ShapingIsProper` | custom_components/comfort_band/peak.py:233-306 | whatever the signal, the shaped band is proper and differs from the normal one only in a peak or its lead time, never under an override |
| `Setpoint.InnerCountIsExact` | custom_components/comfort_band/coordinator.py:88-114 | despite the six-place rounding the multiple chosen is exactly the least at or above a minimum, the greatest at or below a maximum |
| `Setpoint.AlignedLimitIsSent` | custom_components/comfort_band/coordinator.py:88-125 | the aligned limit, rounded again on the way out, is that same multiple |
| `Setpoint.PublishedHasSixPlaces` | custom_components/comfort_band/coordinator.py:88-114 | the published limit has six decimal places and is within half of the last of that multiple |
| `Setpoint.SentMonotone` | custom_components/comfort_band/coordinator.py:117-125 | the step rounding never reverses the order of two setpoints |
| `Setpoint.NoStepNoRounding` | custom_components/comfort_band/coordinator.py:117-125 | a unit without a step is sent the target as it is |
| `Setpoint.HalvesToEven` | custom_components/comfort_band/coordinator.py:117-125 | halfway between two steps the even one is taken |
| `Setpoint.RelaxedFloorAllowed` | custom_components/comfort_band/peak.py:159-165 | the peak's floor is a setpoint on the allowed side of the minimum if and only if the normal floor is, in particular whenever the normal floor is inside the aligned limit |
| `Setpoint.RelaxedCeilingAllowed` | custom_components/comfort_band/coordinator.py:1899-1932 | the same for the ceiling |
| `Lookahead.UpcomingBands` | custom_components/comfort_band/schedule.py:178-226 | the per-minute loop gives the resolved band of each whole minute ahead, and refuses an empty schedule |
| `Lookahead.ShapeSteps` | custom_components/comfort_band/peak.py:309-330 | the shaping loop shapes exactly the steps at or after the given moment |
| `Lookahead.LookaheadAgrees` | custom_components/comfort_band/coordinator.py:1934-1997 | on a whole-minute clock, without override and with signal and direction unchanged, entry i of the shaped lookahead is the band a refresh i minutes later controls to, for every step before the announced start |
| `Lookahead.SecondsAreDropped` | custom_components/comfort_band/schedule.py:211-226 | all refreshes of one minute look ahead over the same bands |
| `Lookahead.BandIs` | custom_components/comfort_band/coordinator.py:907-945 | without peak saving a refresh controls to the manual band under an override or without a schedule, else to the schedule's at the local time of day |
| `Lookahead.OverrideHasNoLookahead` | custom_components/comfort_band/coordinator.py:1018-1055 | under an override MPC gets no lookahead and a peak changes nothing |
| `Lookahead.PeakRelaxesEveryStep` | custom_components/comfort_band/coordinator.py:1934-1997 | during a peak every minute of the lookahead is relaxed, with a schedule or without |
| `CommitGates.FieldsTrackTheLog` | custom_components/comfort_band/coordinator.py:2392-2411 | over every run of applies the one-slot look-back yields the latest committed heat or cool, last_active_at its time, last_action and last_action_at the latest commit |
| `CommitGates.DwellsAreKept` | custom_components/comfort_band/coordinator.py:2118-2185 | over every run consecutive commits of one action are its minimum cycle apart, and every heat or cool its cross-mode dwell after the opposite before it |
| `CommitGates.OppositesApart` | custom_components/comfort_band/coordinator.py:2118-2185 | any two opposite commits of a run, adjacent or not, are at least the smallest cross-mode dwell apart |
| `CommitGates.ReleaseIsNeverGated` | custom_components/comfort_band/coordinator.py:2118-2185 | no gate blocks a release to idle |
| `CommitGates.ProceedsIff` | custom_components/comfort_band/coordinator.py:2118-2185 | over every run an apply goes through unless the latest commit is of the same action within its minimum cycle, or it starts the cycle opposite to the latest heat or cool with the latest commit within the cross-mode dwell |
| `CommitGates.LogGrowsIff` | custom_components/comfort_band/coordinator.py:2287-2411 | what commits are the applies that go through and are delivered, and no others |
| `EditDetector.OwnCommandNeverFlushes` | custom_components/comfort_band/coordinator.py:2508-2868 | after a delivered command no run of reports in which each field moves at most once from what the entity shows at the delivery to what was commanded, with unavailable, unknown and setpoint-less reports anywhere, flushes |
| `EditDetector.UnmovedUnitNeverFlushes` | custom_components/comfort_band/coordinator.py:2508-2531 | a unit that goes on showing what it showed at the delivery is never taken for an edit |
| `EditDetector.UnreadUnitIsJudgedByTheLastSeen` | custom_components/comfort_band/coordinator.py:2495-2544 | after a delivery to a unit that could not be read, a report outside the echo window flushes if and only if a field is neither as last seen nor as commanded |
| `EditDetector.EchoFollowsTheUnit` | custom_components/comfort_band/coordinator.py:2802-2821 | inside the echo window nothing flushes and the baseline follows the report |
| `EditDetector.FirstReportIsTheBaseline` | custom_components/comfort_band/coordinator.py:2822-2826 | with nothing seen yet the first report is the baseline, not an edit |
| `EditDetector.SilentReportsChangeNothing` | custom_components/comfort_band/coordinator.py:2731-2747 | an entity that appears, disappears or is unavailable neither flushes nor moves the baseline |
| `EditDetector.AgreedEditsAreCaught` | custom_components/comfort_band/coordinator.py:2642-2680 | once the unit has agreed, a report outside the echo window flushes if and only if a field it carries differs from the baseline |
| `EditDetector.JudgedByTheOccupantsState` | custom_components/comfort_band/coordinator.py:2837-2868 | after a detected edit, with no further command, a later report flushes if and only if it differs from what the unit has shown since, beginning with what the occupant set |
| `EditDetector.AgreementPersists` | custom_components/comfort_band/coordinator.py:2734-2868 | every report outside the echo window leaves an agreed state agreed, edit or not |
| `EditDetector.EditsAlongARun` | custom_components/comfort_band/coordinator.py:2734-2868 | and so at every point of a run: exactly when it differs from what the unit last showed |
| `EditDetector.ForeignEditsAreCaughtIff` | custom_components/comfort_band/coordinator.py:2642-2680 | outside the echo window every report of a state neither last seen nor told flushes, if and only if the unit has not still to move in both fields |
| `EditDetector.MissedAreTheMixtures` | custom_components/comfort_band/coordinator.py:2656-2671 | such a report passes unnoticed if and only if both fields are pending and it takes one from each of the two states |
| `EditDetector.MixtureIsMissed` | custom_components/comfort_band/coordinator.py:2665-2671 | the one the source names: mode turned back, our setpoint left alone, both pending; it passes and leaves the command standing |
| `EditDetector.EditsAreCaughtIffAgreed` | custom_components/comfort_band/coordinator.py:2642-2680 | every report that shows any change at all, the unit taking up our own command included, flushes if and only if the unit has agreed in both fields |
| `EditDetector.LateFirstCommandPassesIff` | custom_components/comfort_band/coordinator.py:2508-2544 | after a second command, reports made of what the unit showed then and of what the first command asked for never flush outside the echo window, if and only if the first asked for nothing new in either field |
| `IdleCache.SubstitutesOnlyIdle` | custom_components/comfort_band/coordinator.py:1379-1455 | only a missing idle slope is substituted, and only by one measured within the last day |
| `IdleCache.IdleResolvedExactly` | custom_components/comfort_band/coordinator.py:1379-1455 | MPC's idle slope is the live one, else the stored one for a day, else none with the store emptied |
| `IdleCache.WritesExactly` | custom_components/comfort_band/coordinator.py:1456-1511 | a live slope with a new stamp is written, with its stamp, unless the last write is under five minutes old; nothing else is |
| `IdleCache.FrozenBufferMovesStampOnce` | custom_components/comfort_band/coordinator.py:1456-1511 | any number of refreshes on an unchanged buffer move the stored stamp to at most one new value |
| `IdleCache.StampIsASettledSample` | custom_components/comfort_band/predictor.py:571-615 | that value is the time of a real idle sample at least 30 minutes into its stretch |
| `Coordinator.ZoneCoordinator.ReadRoom` | custom_components/comfort_band/coordinator.py:652-797 | resolve the reading, latch the stand-in, flush when due, remember the edge: the fields end as the specification says |
| `Coordinator.ZoneCoordinator.ResolveRoomReading` | custom_components/comfort_band/coordinator.py:1145-1182 | the reading order and the grace period |
| `Coordinator.ZoneCoordinator.LogRoomSourceEdge` | custom_components/comfort_band/coordinator.py:1227-1265 | which outage fields the edge log sets and clears |
| `Coordinator.ZoneCoordinator.Suppressed` | custom_components/comfort_band/coordinator.py:2118-2185 | the two gates as written hold back exactly what the gate specification holds back |
| `Coordinator.ZoneCoordinator.MaybeApplyAction` | custom_components/comfort_band/coordinator.py:2030-2552 | one apply, every branch: shadow mode, no mode, suppressed, raised, dropped, delivered; the whole state after it |
| `Coordinator.ZoneCoordinator.OnClimateStateChange` | custom_components/comfort_band/coordinator.py:2683-2868 | one climate report: ignored, echo, expected, or an edit that empties buffer and idle cache |
| `Coordinator.ZoneCoordinator.ResolveIdleSlope` | custom_components/comfort_band/coordinator.py:1379-1526 | persisting, expiring and substituting the idle slope |
| `Coordinator.ZoneCoordinator.Hydrate` | custom_components/comfort_band/coordinator.py:364-420 | a restart restores commitment, buffer and idle slope and forgets the rest |
| `Coordinator.ZoneCoordinator.AppendSample` | custom_components/comfort_band/coordinator.py:2554-2613 | one append to the buffer field, nothing without a reading |
| `Coordinator.ZoneCoordinator.RecordCommitment` | custom_components/comfort_band/coordinator.py:2392-2411 | the four commitment fields after a delivered mode |
| `Coordinator.ZoneCoordinator.RecordCommand` | custom_components/comfort_band/coordinator.py:2508-2544 | baseline snapshot and commanded state after a delivery |
| `Coordinator.ZoneCoordinator.IssueCommand` | custom_components/comfort_band/coordinator.py:2228-2552 | past the gates: raised, dropped and delivered calls, each with the whole state after it |
| `Coordinator.ZoneCoordinator.JudgedReading` | custom_components/comfort_band/coordinator.py:2734-2800 | the reading a report is judged as, unknown fields carried forward |
| `Coordinator.ZoneCoordinator.MaybePersistIdleSlope` | custom_components/comfort_band/coordinator.py:1456-1511 | when the live idle slope is stored, and with which stamp |
| `ApplyFacts.SampleTaken` | custom_components/comfort_band/coordinator.py:2085-2552 | which apply takes a sample, and its label: the decision in shadow mode or once landed, the action in force when held back, none when a call raised or was dropped |
| `ApplyFacts.CommitsOnlyLanded` | custom_components/comfort_band/coordinator.py:2287-2411 | the commitment moves only with a command that landed |
| `ApplyFacts.CommandRecorded` | custom_components/comfort_band/coordinator.py:2085-2544 | what the detector is told by each kind of apply: command, echo stamp and baseline |
| `ApplyFacts.CommandIs` | custom_components/comfort_band/coordinator.py:2186-2300 | the command of a decision: its mode by name and its target rounded to the step, none when idle or when the setpoint call raised |
| `StandIn.SourceOrder` | custom_components/comfort_band/coordinator.py:1145-1182 | room sensor whenever it reports; dark, nothing for five minutes; then the fallback sensor, only without it the climate reading |
| `OutageRuns.SamplesAreThePrimarys` | custom_components/comfort_band/coordinator.py:1119-1127 | over every run no sample comes from a stand-in: each is a reading the room sensor gave in the cycle that took it |
| `OutageRuns.LabelsAreTheActionInForce` | custom_components/comfort_band/coordinator.py:2130-2185 | over every run of an enabled zone each sample is labelled with the action in force after the cycle that took it, held-back cycles included |
| `OutageRuns.OutageAndHandBack` | custom_components/comfort_band/coordinator.py:785-797 | if the action in force ever left the one at the start of the outage the buffer is emptied exactly once, before anything can be appended; otherwise it is untouched |
| `OutageRuns.CyclesKeepTheDwells` | custom_components/comfort_band/coordinator.py:2118-2185 | outages and hand-backs leave the dwells as CommitGates proves them |
| `Refresh.Update` | custom_components/comfort_band/coordinator.py:643-1070 | a whole refresh on the coordinator's fields: read, learn, substitute, borrow, shape, decide |
| `Refresh.LearnedAreRightSigned` | custom_components/comfort_band/coordinator.py:870-905 | the slopes the planner gets are right-signed for every buffer and every idle cache |
| `Refresh.PlannedSlopesAre` | custom_components/comfort_band/coordinator.py:870-905 | the slopes MPC plans with: idle as measured or remembered for a day, heat and cool as lent or else as the run's own |
| `Refresh.LearnsOnlyFromItsSensor` | custom_components/comfort_band/coordinator.py:889-902 | only a learning zone on its own room sensor writes the idle slope it measured |
| `Refresh.InputsAre` | custom_components/comfort_band/coordinator.py:923-1055 | the edges, deadbands, current action, lookahead and slopes a refresh decides on |
| `Refresh.StandInStartsLater` | custom_components/comfort_band/coordinator.py:966-986 | on a stand-in reading an idle zone starts a cycle exactly half a degree past the zone's own deadband |
| `Refresh.SituationIsSound` | custom_components/comfort_band/coordinator.py:907-1055 | the layers always get a proper band and a lookahead for every minute of the horizon |
| `Refresh.Learn` | custom_components/comfort_band/coordinator.py:870-905 | live and effective slopes from one reading of the buffer, and the idle cache after it |
| `Refresh.RefreshAndApply` | custom_components/comfort_band/coordinator.py:643-1131 | a refresh and its apply are one cycle of OutageRuns with the decision the refresh reaches |
| `RefreshRuns.RefreshIsSensible` | custom_components/comfort_band/coordinator.py:986-1127 | a refresh without a reading commands nothing, and every decision is whole |
| `RefreshRuns.EditForgetsWhatWasLearned` | custom_components/comfort_band/coordinator.py:2832-2868 | at any point of a run a report taken for a hand edit empties the sample buffer, the remembered idle slope and the command; any other report leaves all three, and neither touches the commitment or the outage |
| `RefreshRuns.NothingLearnedPlansWithoutSlope` | custom_components/comfort_band/coordinator.py:870-905 | with that forgotten the next refresh plans with no slope at all |
| `RefreshRuns.RefreshReleases` | custom_components/comfort_band/coordinator.py:870-1070 | StackReleases for the slopes actually learned: only the steady band and the step size remain as conditions |
| `RefreshRuns.FarEdgeOutcome` | custom_components/comfort_band/coordinator.py:2118-2185 | at the far edge a delivered apply leaves the running cycle in force if and only if MPC is in charge, the opposite cycle wins over idling, idling falls short, and the cross-mode dwell is running |
| `FarEdgeExample.HeatRunsOnAboveTheBand` | custom_components/comfort_band/coordinator.py:2142-2185 | a whole state, with a buffer the slopes are fitted to and an hour's horizon, in which a heat cycle runs on a degree above its band |
| `RefreshRuns.BorrowedCycleRunsOn` | custom_components/comfort_band/mpc.py:428-440 | over a whole refresh: with MPC in charge and planning, a cycle on a borrowed slope is not ended by an idle decision short of the edge it is driven to |
| `RefreshRuns.BorrowingCycleStaysInForce` | custom_components/comfort_band/mpc.py:303-335 | over every run of refreshes, applies, reports and restarts: a cycle goes out of force only at a refresh at which MPC is not in charge or defers, or reverses, or the room has reached the far edge, or the cycle has no earlier slope to borrow |
| `RefreshRuns.RunsKeepTheDwells` | custom_components/comfort_band/coordinator.py:2118-2185 | the gates over every run of refreshes, applies, climate reports and restarts of a new zone, on the decisions the refreshes themselves reach |
| `RefreshRuns.DirectionIsTheLatestCycle` | custom_components/comfort_band/peak.py:190-230 | pre-conditioning follows the latest committed heat or cool of the run, while at most a day old and not against the drift |
| `RefreshRuns.RunsKeepTheBuffer` | custom_components/comfort_band/predictor.py:276-318 | over every such run the buffer stays healthy, flushes and restarts included |
| `RefreshRuns.RunSamplesAreThePrimarys` | custom_components/comfort_band/coordinator.py:2554-2613 | over every such run each sample is a reading of the room sensor at that time |
| `RefreshRuns.OutagesFlushOnce` | custom_components/comfort_band/coordinator.py:785-797 | OutageAndHandBack with the decisions the refreshes themselves reach, for runs of refreshes and applies only; for restarts see the next row |
| `RefreshRuns.RestartInOutage` | custom_components/comfort_band/coordinator.py:785-797 | with a restart in the outage, the buffer at the hand-back is emptied after a change of action and untouched without one if and only if the action changed after the restart, or had not changed before it, or the saved buffer was already empty |
| `RestartExample.RestartLosesTheFlush` | custom_components/comfort_band/coordinator.py:785-797 | a run in which the flush is due and, after a restart, never comes |
| `StoreData.NewIdIsFresh` | custom_components/comfort_band/storage.py:723-733 | a new shared-schedule id is unused; it is the slug, or the least free number after it |
| `Store.ComfortBandStore.NewSharedScheduleId` | custom_components/comfort_band/storage.py:723-733 | the search loop terminates with that id |
| `Store.ComfortBandStore.SharedNameTaken` | custom_components/comfort_band/storage.py:746-751 | true exactly when another schedule has the name ignoring case |
| `Store.ComfortBandStore.AddZone` | custom_components/comfort_band/storage.py:506-511 | a zone with default settings, or refused as existing |
| `Store.ComfortBandStore.RemoveZone` | custom_components/comfort_band/storage.py:513-515 | the zone goes, if it was there |
| `Store.ComfortBandStore.SetZoneSchedule` | custom_components/comfort_band/storage.py:537-554 | one slot of one zone, baseline doubling as current when none is given; unknown zones and profiles are refused |
| `Store.ComfortBandStore.SetZoneScheduleId` | custom_components/comfort_band/storage.py:828-836 | the assignment of one zone; unknown zones and schedules are refused |
| `Store.ComfortBandStore.SetActiveProfile` | custom_components/comfort_band/storage.py:587-591 | the active profile, refused when unknown |
| `Store.ComfortBandStore.AddProfile` | custom_components/comfort_band/storage.py:593-602 | a new profile, refused when it exists or the cap is reached |
| `Store.ComfortBandStore.CloneProfile` | custom_components/comfort_band/storage.py:604-626 | the whole payload after a clone; refused clones change nothing |
| `Store.ComfortBandStore.RenameProfile` | custom_components/comfort_band/storage.py:628-651 | the whole payload after a rename; refused renames change nothing |
| `Store.ComfortBandStore.RemoveProfile` | custom_components/comfort_band/storage.py:653-672 | the whole payload after a removal; the default profile and unknown names are refused |
| `Store.ComfortBandStore.RemoveSharedSchedule` | custom_components/comfort_band/storage.py:787-798 | the schedule goes, its zones are unassigned and reported, no other changes |
| `Store.ComfortBandStore.ZonesUsing` | custom_components/comfort_band/storage.py:696-700 | exactly the zones assigned to a shared schedule |
| `Store.ComfortBandStore.AddSharedSchedule` | custom_components/comfort_band/storage.py:753-774 | a new shared schedule under a fresh id; blank, reserved and taken names and a full store are refused |
| `Store.ComfortBandStore.RenameSharedSchedule` | custom_components/comfort_band/storage.py:776-785 | the name only; ids and zone pointers stay |
| `Store.ComfortBandStore.SetSharedSchedule` | custom_components/comfort_band/storage.py:800-826 | one slot of one shared schedule |
| `Store.ComfortBandStore.CreateSharedSchedule` | custom_components/comfort_band/shared_schedules.py:61-69 | the registry's create, seeded from a zone |
| `Store.ComfortBandStore.DeleteSharedSchedule` | custom_components/comfort_band/shared_schedules.py:75-90 | the registry's delete, refused while in use unless cascading |
| `Store.ComfortBandStore.ScheduleFor` | custom_components/comfort_band/coordinator.py:825-833 | what a refresh reads for a zone: shared or own, active profile then default |
| `ZoneBands.ScheduleTransitions` | custom_components/comfort_band/coordinator.py:1764-1775 | the schedule of a slot is its current list, normalized; none without a slot, with an empty list or a corrupt one |
| `ZoneBands.BandSourceFor` | custom_components/comfort_band/coordinator.py:1777-1793 | whatever the store holds, a band is resolved from a normalized schedule or the manual band alone |
| `ZoneBands.BaselineDoubles` | custom_components/comfort_band/storage.py:549-553 | a schedule written without a current list is in force as its baseline |
| `StoreFacts.FreshIsValid` | custom_components/comfort_band/storage.py:256-266 | a first start is sound |
| `StoreFacts.StepKeepsValidIff` | custom_components/comfort_band/storage.py:506-836 | one mutation, refused or not, keeps a sound store sound if and only if it does not seed a shared schedule with profiles that do not exist |
| `StoreFacts.RunKeepsValid` | custom_components/comfort_band/storage.py:506-836 | over every run of mutators, refused or not, whose seeds are sound when added (AddSharedValidIff): active and default profile exist, slot keys are profiles, zone pointers resolve, shared names are non-empty, not reserved and unique ignoring case; both caps hold if they held, whatever the seeds |
| `StoreFacts.RunIsValidIff` | custom_components/comfort_band/storage.py:506-836 | a run is sound at every point if and only if every seed it adds is sound when added |
| `StoreFacts.RefusedIff` | custom_components/comfort_band/storage.py:506-836 | each mutator refuses exactly for its reasons, spelled out |
| `StoreFacts.AcceptedIsDone` | custom_components/comfort_band/storage.py:506-836 | an accepted mutation does what it is for |
| `StoreFacts.RegistrySeedsAreSound` | custom_components/comfort_band/shared_schedules.py:61-69 | runs that create shared schedules through the registry only, seeded from a zone, add no unsound seed |
| `StoreFacts.AddSharedValidIff` | custom_components/comfort_band/storage.py:753-774 | seeding a shared schedule keeps the store sound if and only if the seed names existing profiles only |
| `StoreFacts.ForeignSeedBreaksTheStore` | custom_components/comfort_band/storage.py:753-774 | a seed on a fresh store that is accepted and breaks it |
| `StoreFacts.RenameKeepsResolved` | custom_components/comfort_band/storage.py:628-651 | a rename changes no zone's resolved schedule, under the active profile or any other |
| `StoreFacts.RenameIsUndone` | custom_components/comfort_band/storage.py:628-651 | renaming back restores the whole payload |
| `StoreFacts.CloneKeepsResolved` | custom_components/comfort_band/storage.py:604-626 | a clone, once active, resolves every zone as its source did, and changes nothing under any other profile |
| `StoreFacts.RemoveKeepsResolved` | custom_components/comfort_band/storage.py:653-672 | removing a profile changes nothing under the others; removing the active one resolves as activating the default would |
| `StoreFacts.DeleteSharedResolves` | custom_components/comfort_band/storage.py:787-798 | deleting a shared schedule sends exactly its zones back to their own schedules; without cascade there are none |
| `StoreFacts.AssignIsUndone` | custom_components/comfort_band/storage.py:828-836 | assigning a zone and putting the old assignment back restores the whole payload |
| `StoreFacts.FollowsTheAssignment` | custom_components/comfort_band/coordinator.py:825-833 | a zone follows the shared schedule it is assigned to, its own when unassigned or when that schedule is gone |
| `StoreFacts.FollowsProfileThenDefault` | custom_components/comfort_band/coordinator.py:825-833 | under any profile a zone follows that profile's slot if there is one, else the default profile's, else no schedule |
| `StoreFacts.WritingIsFollowed` | custom_components/comfort_band/storage.py:537-554 | a slot written to an unassigned zone or to a zone's shared schedule is what the zone follows under that profile |
| `StoreFacts.AssigningIsFollowed` | custom_components/comfort_band/storage.py:828-836 | an assignment is followed at once, and so is taking it back |
| `StoreFacts.ActivatingIsFollowed` | custom_components/comfort_band/storage.py:587-591 | activating a profile gives every zone what it follows under that profile |
| `StoreFacts.HarmlessRunKeepsResolved` | custom_components/comfort_band/coordinator.py:825-833 | any run of renames, clones, additions and edits elsewhere, in any order and with sound seeds, leaves the zone following the schedule it followed |

## Left out

- Home Assistant plumbing: entities, config flow, services, websocket, dispatcher signals, timers, debouncing; a refresh is a step that happens.
- Log lines, their throttles and warning budgets: they do not affect control.
- Floating-point rounding and the real exponential: arithmetic is exact, so claims about nearly flat runs are not expressible.
- Time zones, daylight saving, `fold`, and the parsing of dates and peak events: a fixed offset and plain instants stand for them.
- Sub-second parts of the clock: instants are whole seconds.
- Overlapping apply tasks, and with them the identity check on the rollback of the echo stamp.
- Fan-mode commands, the feedback log, sensor attributes, standard deviations and counts: no decision reads them.
- Apparent temperature: the decision room is the room reading.
- Loading and backfilling of stored payloads, the sample codec, the disk throttle of the sample buffer, `async_update_zone`: a payload is taken as read, and saving is not modelled.
- The action strings are the four labels the controller writes; any other stored string is not modelled.
- Texts of errors: `Schedule.ImportLegacyHourly` reports the first missing hour where the source lists all of them; `StoreData` has one constructor per refusal.
- Sorting of returned zone and schedule names: sets are returned.
- The string library: strip, casefold and slugify are arbitrary functions.
- Lookahead.UpcomingBands: the step is the one minute its only caller passes.
- Setpoint.InnerCountIsExact: the guards for an overflowing or non-finite quotient have no counterpart in exact arithmetic.
- Refresh.Update: asks for a planning horizon of at least a minute (the setting starts at ten), because the source indexes the last band of the lookahead.
- RefreshRuns.RunsKeepTheDwells: runs start with a zone that has committed nothing; a restart inside the run keeps the stored commitment and brings back the buffer as some earlier event left it.
- Store.ComfortBandStore.RenameProfile: clone, rename and remove apply one slot edit to every zone and shared schedule, in no particular order, where the source iterates its dictionaries in insertion order; no slot edit reads another.
- Empirical claims of the integration's documentation, such as minutes in band or starts per hour.
