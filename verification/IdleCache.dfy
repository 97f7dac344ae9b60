// The persisted idle slope of the coordinator: what is remembered, how it is stamped, and
// when it stands in for a live one.

module IdleCache {
  import opened ComfortTypes
  import opened SampleBuffer
  import opened Predictor

  const SAMPLE_PERSIST_INTERVAL_S := 300
  const PERSISTED_MAX_AGE_S := 24 * 3600

  // The stored slope, its stamp, and when it was last written.
  datatype Cache = Cache(slope: Option<real>, at: Option<int>, writtenAt: Option<int>)

  const EMPTY := Cache(None, None, None)

  // Write a live slope stamped with the newest sample behind it: not while that sample is
  // the one already stored, and at most once an interval.
  function Persist(c: Cache, s: Slopes, now: int): Cache {
    if s.idle.None? || s.idleMeasuredAt.None? || c.at == s.idleMeasuredAt then c
    else if c.writtenAt.Some? && now - c.writtenAt.value < SAMPLE_PERSIST_INTERVAL_S then c
    else Cache(s.idle, s.idleMeasuredAt, Some(now))
  }

  predicate Usable(c: Cache, now: int) {
    c.slope.Some? && c.at.Some? && now - c.at.value <= PERSISTED_MAX_AGE_S
  }

  // The slopes the planner gets, and the cache after the refresh.
  function ResolveIdle(c: Cache, s: Slopes, now: int, learning: bool, persistOk: bool): (Cache, Slopes) {
    if s.idle.Some? then (if learning && persistOk then Persist(c, s, now) else c, s)
    else if c.slope.None? || c.at.None? then (c, s)
    else if !Usable(c, now) then (EMPTY, s)
    else (c, s.(idle := c.slope, idleSource := Cached, idleMeasuredAt := c.at))
  }

  // Only the idle slope is ever substituted, and only a value measured within the last day.
  lemma {:induction false} SubstitutesOnlyIdle(c: Cache, s: Slopes, now: int, learning: bool, persistOk: bool)
    ensures var eff := ResolveIdle(c, s, now, learning, persistOk).1;
            && eff.heat == s.heat && eff.cool == s.cool
            && eff.heatSource == s.heatSource && eff.coolSource == s.coolSource
            && (s.idle.Some? ==> eff == s)
            && (s.idle.None? && eff.idle.Some? ==> eff.idle == c.slope && now - c.at.value <= PERSISTED_MAX_AGE_S)
  {
  }

  // ----- the stamp -----

  lemma {:induction false} RunMember(b: seq<Sample>, a: Action, acrossGaps: bool, x: Sample)
    requires x in LatestRunSamples(b, a, acrossGaps)
    ensures x in b && x.action == a
  {
    LatestRunSpec(b, a, |b|, acrossGaps);
    var r := LatestRun(b, a, |b|, acrossGaps).value;
    assert IsLatestRun(b, a, |b|, acrossGaps, r);
    var k :| 0 <= k < r.end - r.start && b[r.start..r.end][k] == x;
    assert b[r.start + k] == x;
  }

  // The samples behind a live idle slope are idle samples of the buffer, each at least
  // half an hour into the idle stretch.
  lemma {:induction false} SettledSamples(b: seq<Sample>, x: Sample)
    requires x in SettledIdleRun(b)
    ensures x in b && x.action == Idle
    ensures var stretch := LatestRun(b, Idle, |b|, true);
            stretch.Some? && x.t >= b[stretch.value.start].t + IDLE_SETTLE_S
  {
    var stretch := LatestRunSamples(b, Idle, true);
    RecentMember(LatestRunSamples(b, Idle, false), stretch[0].t + IDLE_SETTLE_S, x);
    RunMember(b, Idle, false, x);
  }

  lemma {:induction false} RecentMember(s: seq<Sample>, cutoff: int, x: Sample)
    requires x in Recent(s, cutoff)
    ensures x in s && x.t >= cutoff
  {
    if x !in (if s[0].t >= cutoff then [s[0]] else []) {
      RecentMember(s[1..], cutoff, x);
    }
  }

  // One look at the buffer by a refresh.
  datatype Look = Look(now: int, learning: bool, persistOk: bool)

  // Any number of refreshes on one unchanged buffer.
  function LookAll(c: Cache, b: seq<Sample>, looks: seq<Look>, e: real -> real): Cache
    decreases |looks|
  {
    if looks == [] then c
    else
      var l := looks[0];
      LookAll(ResolveIdle(c, EstimateSlopes(b, l.now, e), l.now, l.learning, l.persistOk).0, b, looks[1..], e)
  }

  // The one stamp a buffer can give.
  function Stamp(b: seq<Sample>): Option<int> {
    if SettledIdleRun(b) == [] then None else Some(Last(SettledIdleRun(b)).t)
  }

  lemma {:induction false} EstimateStamp(b: seq<Sample>, now: int, e: real -> real)
    ensures EstimateSlopes(b, now, e).idleMeasuredAt.Some? ==> EstimateSlopes(b, now, e).idleMeasuredAt == Stamp(b)
  {
  }

  // Refreshes on an unchanged buffer move the stored stamp to at most one new value, however
  // many there are: it stays, is cleared, or is the time of the newest settled idle sample.
  lemma {:induction false} FrozenBufferMovesStampOnce(c: Cache, b: seq<Sample>, looks: seq<Look>, e: real -> real)
    ensures var at := LookAll(c, b, looks, e).at;
            at == c.at || at == None || at == Stamp(b)
    decreases |looks|
  {
    if looks != [] {
      var l := looks[0];
      EstimateStamp(b, l.now, e);
      var c' := ResolveIdle(c, EstimateSlopes(b, l.now, e), l.now, l.learning, l.persistOk).0;
      assert c'.at == c.at || c'.at == None || c'.at == Stamp(b);
      FrozenBufferMovesStampOnce(c', b, looks[1..], e);
    }
  }

  // ... and that stamp is the time of a real idle sample, half an hour into its stretch.
  lemma {:induction false} StampIsASettledSample(b: seq<Sample>) returns (x: Sample)
    requires Stamp(b).Some?
    ensures x in b && x.action == Idle && Stamp(b) == Some(x.t)
    ensures var stretch := LatestRun(b, Idle, |b|, true);
            stretch.Some? && x.t >= b[stretch.value.start].t + IDLE_SETTLE_S
  {
    x := Last(SettledIdleRun(b));
    SettledSamples(b, x);
  }

  // ----- what is written and when -----

  // A live slope with a stamp not yet stored is written, with its stamp, unless the last write
  // is under five minutes old; nothing else is ever written.
  lemma {:induction false} WritesExactly(c: Cache, s: Slopes, now: int)
    ensures var r := Persist(c, s, now);
            if s.idle.Some? && s.idleMeasuredAt.Some? && c.at != s.idleMeasuredAt
               && (c.writtenAt.None? || now - c.writtenAt.value >= 300)
            then r.slope == s.idle && r.at == s.idleMeasuredAt && r.writtenAt == Some(now)
            else r == c
  {
  }

  // What the planner's idle slope is: the live one; without it the stored one, for a day; and
  // after a day none, with the store emptied. Only a learning zone on its own sensor writes.
  lemma {:induction false} IdleResolvedExactly(c: Cache, s: Slopes, now: int, learning: bool, persistOk: bool)
    ensures var (r, eff) := ResolveIdle(c, s, now, learning, persistOk);
            var stored := c.slope.Some? && c.at.Some?;
            && (eff.idle == if s.idle.Some? then s.idle
                            else if stored && now - c.at.value <= 86400 then c.slope else None)
            && (r == if s.idle.Some? then (if learning && persistOk then Persist(c, s, now) else c)
                     else if stored && now - c.at.value > 86400 then Cache(None, None, None) else c)
  {
  }
}
