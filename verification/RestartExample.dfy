// A run in which the flush of an outage never comes, as RefreshRuns.RestartInOutage says: the
// stand-in starts a heat cycle, and the zone restarts before the next refresh.

module RestartExample {
  import opened ComfortTypes
  import opened SampleBuffer
  import opened StandIn
  import opened Coordinator
  import opened Lookahead
  import opened OutageRuns
  import opened Refresh
  import opened RefreshRuns
  import CommitGates
  import DecisionStack
  import ED = EditDetector
  import H = Hysteresis
  import IC = IdleCache
  import P = Predictor
  import Peak

  const BUFFER := [Sample(0, 20.5, Idle)]

  // An idling zone with one sample.
  const STATE := ZoneState(CommitGates.Commitment(Some(Idle), Some(0), None, None),
                           ED.Detector(None, None, None), Outage(None, None, None, false), BUFFER)

  const ZONE := Zone(BandSource(None, Band(20.0, 21.0), 0, Peak.Settings(false, false, 0.0, 0.0, 0, None, None), 0),
                     false, false, true, 5, 0.5, 60, 0.3, 0.5, 5, 10)

  const DELIVERED := ModeReturned(false, false, false, ED.Reporting("heat", Some(20.0)))

  // The room sensor is dark and the fallback sensor reads a cold room.
  function DarkAt(now: int): World {
    World(now, Readings(None, Some(15.0), None), None, false, 0.5, DELIVERED)
  }

  const BACK := World(500, Readings(Some(20.5), None, None), None, false, 0.5, DELIVERED)

  const DARK := [Tick(ZONE, DarkAt(60)), Tick(ZONE, DarkAt(400))]

  // Inside the grace period nothing is read and nothing done.
  lemma {:induction false} FirstRefresh(c: IC.Cache, e: real -> real)
    ensures Configured(ZONE)
    ensures RunCycle(STATE, CycleOf(STATE, c, ZONE, DarkAt(60), e))
         == STATE.(outage := Outage(Some(60), None, None, false))
  {
    var w := DarkAt(60);
    RefreshIsSensible(STATE, c, ZONE, w, e);
  }

  // Past it the stand-in drives plain hysteresis, which heats.
  lemma {:induction false} SecondRefresh(s: ZoneState, c: IC.Cache, e: real -> real)
    requires s == STATE.(outage := Outage(Some(60), None, None, false))
    ensures Decided(s, c, ZONE, DarkAt(400), e) == H.HeatDecision(20.0)
  {
  }

  lemma {:induction false} HeatCommitted(s: ZoneState, c: IC.Cache, e: real -> real)
    requires s == STATE.(outage := Outage(Some(60), None, None, false))
    ensures var t := RunCycle(s, CycleOf(s, c, ZONE, DarkAt(400), e));
            && t.commitment.last == Some(Heat) && t.samples == BUFFER
            && t.outage == Outage(Some(60), Some(FallbackSensor), Some(Idle), false)
  {
    SecondRefresh(s, c, e);
  }

  lemma {:induction false} DarkRun(c: IC.Cache, e: real -> real)
    ensures AllConfigured(DARK)
    ensures var t := Play(STATE, c, DARK, e).0;
            && t.commitment.last == Some(Heat) && t.samples == BUFFER
            && t.outage == Outage(Some(60), Some(FallbackSensor), Some(Idle), false)
  {
    var (s1, c1) := (STATE.(outage := Outage(Some(60), None, None, false)), CacheAfter(STATE, c, ZONE, DarkAt(60), e));
    FirstRefresh(c, e);
    assert DARK[..1] == [Tick(ZONE, DarkAt(60))] && DARK[..1][..0] == [];
    assert Play(STATE, c, DARK[..1][..0], e) == (STATE, c);
    assert Play(STATE, c, DARK[..1], e) == (s1, c1);
    HeatCommitted(s1, c1, e);
  }

  lemma {:induction false} DueWithoutRestart(t: ZoneState)
    requires t.commitment.last == Some(Heat) && t.outage == Outage(Some(60), Some(FallbackSensor), Some(Idle), false)
    ensures RefreshFlushes(t, BACK.readings, BACK.now)
  {
  }

  lemma {:induction false} GoneAfterRestart(t: ZoneState)
    requires t.commitment.last == Some(Heat)
    ensures BeginRefresh(Hydrated(t.commitment, BUFFER), BACK.readings, BACK.now).0.samples == BUFFER
  {
  }

  // The flush is due at the hand-back without a restart; after one the buffer is still there.
  lemma {:induction false} RestartLosesTheFlush(c: IC.Cache, e: real -> real)
    ensures AllConfigured(DARK)
    ensures RefreshFlushes(Play(STATE, c, DARK, e).0, BACK.readings, BACK.now)
    ensures BeginRefresh(AfterRestart(STATE, c, DARK, |DARK|, e).0, BACK.readings, BACK.now).0.samples == BUFFER
  {
    DarkRun(c, e);
    var t := Play(STATE, c, DARK, e).0;
    RestartState(STATE, c, DARK, |DARK|, e);
    assert DARK[..|DARK|] == DARK;
    DueWithoutRestart(t);
    GoneAfterRestart(t);
  }
}
