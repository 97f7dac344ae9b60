// The daily schedule of schedule.py: normalising, stepped resolution round the clock, the
// next change, and the legacy hourly import.

module Schedule {
  import opened ComfortTypes

  const DAY := 86400

  // Transitions fall on whole seconds of the day.
  type TimeOfDay = s: int | 0 <= s < DAY

  // A moment of the day, in seconds since midnight.
  ghost predicate IsClock(now: real) {
    0.0 <= now < DAY as real
  }

  datatype Transition = Transition(at: TimeOfDay, band: Band)

  datatype ScheduleError = Duplicate(at: TimeOfDay) | Inverted(at: TimeOfDay) | Empty | MissingHour(hour: nat)

  ghost predicate Ordered(ts: seq<Transition>) {
    forall i, j :: 0 <= i < j < |ts| ==> ts[i].at <= ts[j].at
  }

  ghost predicate Normalized(ts: seq<Transition>) {
    && (forall i, j :: 0 <= i < j < |ts| ==> ts[i].at < ts[j].at)
    && (forall i :: 0 <= i < |ts| ==> Proper(ts[i].band))
  }

  // ----- normalising -----

  // The library sort, stable on `at`.
  function Insert(ts: seq<Transition>, t: Transition): seq<Transition> {
    if ts != [] && Last(ts).at > t.at then Insert(ts[..|ts| - 1], t) + [Last(ts)] else ts + [t]
  }

  function SortByAt(ts: seq<Transition>): seq<Transition> {
    if ts == [] then [] else Insert(SortByAt(ts[..|ts| - 1]), Last(ts))
  }

  lemma {:induction false} InsertMembers(ts: seq<Transition>, t: Transition)
    ensures multiset(Insert(ts, t)) == multiset(ts) + multiset{t} && |Insert(ts, t)| == |ts| + 1
  {
    if ts != [] && Last(ts).at > t.at {
      InsertMembers(ts[..|ts| - 1], t);
      assert ts == ts[..|ts| - 1] + [Last(ts)];
    }
  }

  lemma {:induction false} InsertOrdered(ts: seq<Transition>, t: Transition, bound: int)
    requires Ordered(ts) && t.at <= bound && forall i :: 0 <= i < |ts| ==> ts[i].at <= bound
    ensures Ordered(Insert(ts, t)) && forall i :: 0 <= i < |Insert(ts, t)| ==> Insert(ts, t)[i].at <= bound
  {
    if ts != [] && Last(ts).at > t.at {
      InsertOrdered(ts[..|ts| - 1], t, Last(ts).at);
    }
  }

  lemma {:induction false} SortSpec(ts: seq<Transition>)
    ensures Ordered(SortByAt(ts)) && multiset(SortByAt(ts)) == multiset(ts) && |SortByAt(ts)| == |ts|
  {
    if ts != [] {
      SortSpec(ts[..|ts| - 1]);
      InsertMembers(SortByAt(ts[..|ts| - 1]), Last(ts));
      InsertOrdered(SortByAt(ts[..|ts| - 1]), Last(ts), DAY);
      assert ts == ts[..|ts| - 1] + [Last(ts)];
    }
  }

  lemma {:induction false} SortIsIdentity(ts: seq<Transition>)
    requires Ordered(ts)
    ensures SortByAt(ts) == ts
  {
    if ts != [] {
      SortIsIdentity(ts[..|ts| - 1]);
    }
  }

  function TimesTo(ts: seq<Transition>, n: nat): set<TimeOfDay>
    requires n <= |ts|
  {
    if n == 0 then {} else TimesTo(ts, n - 1) + {ts[n - 1].at}
  }

  // A time is repeated in an ordered schedule exactly when it equals its predecessor's.
  lemma {:induction false} TimesToSpec(ts: seq<Transition>, n: nat, at: TimeOfDay)
    requires n <= |ts|
    ensures at in TimesTo(ts, n) <==> exists k :: 0 <= k < n && ts[k].at == at
  {
    if n > 0 {
      TimesToSpec(ts, n - 1, at);
    }
  }

  // Why a sorted schedule is refused: entry i is the first to offend, by repeating a time
  // already seen or, with a new time, by its band.
  ghost predicate OffendsFirst(ts: seq<Transition>, i: nat, e: ScheduleError) {
    && i < |ts| && Normalized(ts[..i]) && !Normalized(ts[..i + 1])
    && var repeated := exists k :: 0 <= k < i && ts[k].at == ts[i].at;
       e == if repeated then Duplicate(ts[i].at) else Inverted(ts[i].at)
  }

  lemma {:induction false} NextOffends(ts: seq<Transition>, i: nat, repeated: bool)
    requires Ordered(ts) && i < |ts| && Normalized(ts[..i])
    requires repeated <==> exists k :: 0 <= k < i && ts[k].at == ts[i].at
    requires repeated || !Proper(ts[i].band)
    ensures OffendsFirst(ts, i, if repeated then Duplicate(ts[i].at) else Inverted(ts[i].at)) && !Normalized(ts)
  {
    var next := ts[..i + 1];
    assert next[i] == ts[i];
    if repeated {
      var k :| 0 <= k < i && ts[k].at == ts[i].at;
      assert next[k] == ts[k];
    }
  }

  // One pass over the sorted transitions rejects a repeated time or an inverted band.
  method Validate(ordered: seq<Transition>) returns (r: Result<seq<Transition>, ScheduleError>)
    requires Ordered(ordered)
    ensures r.Ok? <==> Normalized(ordered)
    ensures r.Ok? ==> r.value == ordered
    ensures r.Err? ==> exists i :: OffendsFirst(ordered, i, r.error)
  {
    var seen: set<TimeOfDay> := {};
    for i := 0 to |ordered|
      invariant seen == TimesTo(ordered, i)
      invariant Normalized(ordered[..i])
    {
      var t := ordered[i];
      TimesToSpec(ordered, i, t.at);
      if t.at in seen {
        NextOffends(ordered, i, true);
        return Err(Duplicate(t.at));
      }
      seen := seen + {t.at};
      if t.band.low >= t.band.high {
        NextOffends(ordered, i, false);
        return Err(Inverted(t.at));
      }
    }
    assert ordered[..|ordered|] == ordered;
    return Ok(ordered);
  }

  // Distinct times and proper bands, whatever the order.
  ghost predicate Acceptable(ts: seq<Transition>) {
    && (forall i, j :: 0 <= i < j < |ts| ==> ts[i].at != ts[j].at)
    && (forall i :: 0 <= i < |ts| ==> Proper(ts[i].band))
  }

  predicate Elsewhen(ts: seq<Transition>, at: TimeOfDay) {
    forall t :: t in ts ==> t.at != at
  }

  lemma {:induction false} AcceptableEnd(ts: seq<Transition>, t: Transition)
    ensures Acceptable(ts + [t]) <==> (Acceptable(ts) && Elsewhen(ts, t.at) && Proper(t.band))
  {
    var us := ts + [t];
    assert forall i :: 0 <= i < |ts| ==> us[i] == ts[i];
    assert us[|ts|] == t;
    if Acceptable(us) {
      forall i | 0 <= i < |ts|
        ensures ts[i].at != t.at && Proper(ts[i].band)
      {
        assert us[i].at != us[|ts|].at;
      }
    }
  }

  lemma {:induction false} InsertAcceptable(ts: seq<Transition>, t: Transition)
    ensures Acceptable(Insert(ts, t)) <==> (Acceptable(ts) && Elsewhen(ts, t.at) && Proper(t.band))
    ensures forall x :: x in Insert(ts, t) <==> (x in ts || x == t)
  {
    AcceptableEnd(ts, t);
    if ts != [] && Last(ts).at > t.at {
      var rest := ts[..|ts| - 1];
      assert ts == rest + [Last(ts)];
      InsertAcceptable(rest, t);
      AcceptableEnd(Insert(rest, t), Last(ts));
      AcceptableEnd(rest, Last(ts));
    }
  }

  lemma {:induction false} SortAcceptable(ts: seq<Transition>)
    ensures Acceptable(SortByAt(ts)) <==> Acceptable(ts)
    ensures forall x :: x in SortByAt(ts) <==> x in ts
  {
    if ts != [] {
      var rest := ts[..|ts| - 1];
      assert ts == rest + [Last(ts)];
      SortAcceptable(rest);
      InsertAcceptable(SortByAt(rest), Last(ts));
      AcceptableEnd(rest, Last(ts));
    }
  }

  // The schedule sorted by time, the same transitions, exactly when its times are distinct
  // and its bands proper; otherwise the error of the earliest offending entry. An already
  // normalized schedule comes back as it was.
  method NormalizeSchedule(ts: seq<Transition>) returns (r: Result<seq<Transition>, ScheduleError>)
    ensures r.Ok? <==> Acceptable(ts)
    ensures r.Ok? ==> Normalized(r.value) && multiset(r.value) == multiset(ts)
    ensures r.Err? ==> exists i :: OffendsFirst(SortByAt(ts), i, r.error)
    ensures Normalized(ts) ==> r == Ok(ts)
  {
    SortSpec(ts);
    SortAcceptable(ts);
    if Normalized(ts) { SortIsIdentity(ts); }
    r := Validate(SortByAt(ts));
  }

  // ----- stepped resolution -----

  // How many of the first n transitions have happened: bisect_right on their times.
  function BisectTo(ts: seq<Transition>, now: real, n: nat): (k: nat)
    requires n <= |ts|
    ensures k <= n
    ensures k > 0 ==> ts[k - 1].at as real <= now
    ensures forall j :: k <= j < n ==> ts[j].at as real > now
  {
    if n == 0 then 0
    else if ts[n - 1].at as real <= now then n
    else BisectTo(ts, now, n - 1)
  }

  function BisectRight(ts: seq<Transition>, now: real): nat {
    BisectTo(ts, now, |ts|)
  }

  // The transition in force: the last one at or before now, or yesterday's last.
  function ActiveIndex(ts: seq<Transition>, now: real): (i: nat)
    requires ts != []
    ensures i < |ts|
  {
    var k := BisectRight(ts, now);
    if k > 0 then k - 1 else |ts| - 1
  }

  function Stepped(ts: seq<Transition>, now: real): Band
    requires ts != []
  {
    ts[ActiveIndex(ts, now)].band
  }

  // On ordered transitions everything before the bisection point has happened.
  lemma {:induction false} BisectSplits(ts: seq<Transition>, now: real)
    requires Normalized(ts)
    ensures var k := BisectRight(ts, now);
            && k <= |ts|
            && (forall j :: 0 <= j < k ==> ts[j].at as real <= now)
            && (forall j :: k <= j < |ts| ==> ts[j].at as real > now)
  {
  }

  // The bisection point is the only place that splits the transitions that way.
  lemma {:induction false} BisectIs(ts: seq<Transition>, now: real, k: nat)
    requires Normalized(ts) && k <= |ts|
    requires k > 0 ==> ts[k - 1].at as real <= now
    requires k < |ts| ==> ts[k].at as real > now
    ensures BisectRight(ts, now) == k
  {
  }

  // The stepped band is that of the last transition at or before now, and before the first of
  // the day that of the day's last.
  lemma {:induction false} SteppedIs(ts: seq<Transition>, now: real, i: nat)
    requires Normalized(ts) && i < |ts|
    ensures ts[i].at as real <= now && (i + 1 < |ts| ==> now < ts[i + 1].at as real) ==> Stepped(ts, now) == ts[i].band
    ensures now < ts[0].at as real ==> Stepped(ts, now) == ts[|ts| - 1].band
  {
    if ts[i].at as real <= now && (i + 1 < |ts| ==> now < ts[i + 1].at as real) {
      BisectIs(ts, now, i + 1);
    }
    if now < ts[0].at as real {
      BisectIs(ts, now, 0);
    }
  }

  // ----- the next change -----

  // Seconds from now round the clock to the moment t.
  function Elapsed(now: real, t: real): real {
    if t >= now then t - now else t + DAY as real - now
  }

  // Seconds from now to the transition's next occurrence; a full day when it is at now.
  function Ahead(now: real, at: TimeOfDay): real {
    if at as real > now then at as real - now else at as real + DAY as real - now
  }

  // Index of the i-th transition after now, round the clock.
  function CandidateIndex(ts: seq<Transition>, now: real, i: nat): (m: nat)
    requires ts != []
    ensures m < |ts|
  {
    (BisectRight(ts, now) + i) % |ts|
  }

  // The first n candidates after now set the band in force.
  ghost predicate Unchanged(ts: seq<Transition>, now: real, n: nat)
    requires ts != []
  {
    forall i: nat :: i < n ==> ts[CandidateIndex(ts, now, i)].band == Stepped(ts, now)
  }

  // The stepped band is what it is at now at every moment up to the transition, going round
  // the clock.
  ghost predicate SteadyUntil(ts: seq<Transition>, now: real, at: TimeOfDay)
    requires ts != []
  {
    forall t :: IsClock(t) && Elapsed(now, t) < Ahead(now, at) ==> Stepped(ts, t) == Stepped(ts, now)
  }

  lemma {:induction false} SmallMod(x: nat, n: nat)
    requires 0 < n && x < 2 * n
    ensures x % n == if x < n then x else x - n
  {
  }

  // An index within the first n candidates carries the band in force.
  lemma {:induction false} UnchangedAt(ts: seq<Transition>, now: real, n: nat, m: nat)
    requires ts != [] && n <= |ts| && Unchanged(ts, now, n) && m < |ts|
    requires var s := BisectRight(ts, now); (s <= m < s + n) || (s <= m + |ts| < s + n)
    ensures ts[m].band == Stepped(ts, now)
  {
    var s := BisectRight(ts, now);
    var j := if s <= m < s + n then m - s else m + |ts| - s;
    SmallMod(s + j, |ts|);
    assert CandidateIndex(ts, now, j) == m;
  }

  // Between now and candidate n the stepped band does not move.
  lemma {:induction false} SteppedUntil(ts: seq<Transition>, now: real, n: nat, t: real)
    requires ts != [] && Normalized(ts) && IsClock(now) && n < |ts| && Unchanged(ts, now, n)
    requires IsClock(t) && Elapsed(now, t) < Ahead(now, ts[CandidateIndex(ts, now, n)].at)
    ensures Stepped(ts, t) == Stepped(ts, now)
  {
    var s := BisectRight(ts, now);
    SmallMod(s + n, |ts|);
    BisectSplits(ts, now);
    BisectSplits(ts, t);
    var k := BisectRight(ts, t);
    var i := ActiveIndex(ts, t);
    if i != ActiveIndex(ts, now) {
      UnchangedAt(ts, now, n, i);
    }
  }

  lemma {:induction false} SteppedAtTransition(ts: seq<Transition>, m: nat)
    requires m < |ts| && Normalized(ts)
    ensures Stepped(ts, ts[m].at as real) == ts[m].band
  {
  }

  lemma {:induction false} AllUnchanged(ts: seq<Transition>, now: real, t: real)
    requires ts != [] && Unchanged(ts, now, |ts|)
    ensures Stepped(ts, t) == Stepped(ts, now)
  {
    var s, i := BisectRight(ts, now), ActiveIndex(ts, t);
    UnchangedAt(ts, now, |ts|, i);
  }

  lemma {:induction false} ArcIsSteady(ts: seq<Transition>, now: real, n: nat)
    requires ts != [] && Normalized(ts) && IsClock(now) && n < |ts| && Unchanged(ts, now, n)
    ensures SteadyUntil(ts, now, ts[CandidateIndex(ts, now, n)].at)
  {
    forall t | IsClock(t) && Elapsed(now, t) < Ahead(now, ts[CandidateIndex(ts, now, n)].at)
      ensures Stepped(ts, t) == Stepped(ts, now)
    {
      SteppedUntil(ts, now, n, t);
    }
  }

  // The transition that next moves the band: the stepped band is what it is now at every
  // moment up to it, round the clock, and differs at it. None: it never changes all day.
  method NextChange(ts: seq<Transition>, now: real) returns (r: Result<Option<Transition>, ScheduleError>)
    requires Normalized(ts) && IsClock(now)
    ensures ts == [] <==> r.Err?
    ensures r.Err? ==> r.error == Empty
    ensures r.Ok? && r.value.Some? ==> r.value.value in ts && SteadyUntil(ts, now, r.value.value.at)
    ensures r.Ok? && r.value.Some? ==> Stepped(ts, r.value.value.at as real) == r.value.value.band != Stepped(ts, now)
    ensures r.Ok? && r.value.None? ==> forall t :: Stepped(ts, t) == Stepped(ts, now)
  {
    if ts == [] {
      return Err(Empty);
    }
    var current := Stepped(ts, now);
    for i := 0 to |ts|
      invariant Unchanged(ts, now, i)
    {
      var m := CandidateIndex(ts, now, i);
      if ts[m].band != current {
        SteppedAtTransition(ts, m);
        ArcIsSteady(ts, now, i);
        return Ok(Some(ts[m]));
      }
    }
    forall t
      ensures Stepped(ts, t) == Stepped(ts, now)
    {
      AllUnchanged(ts, now, t);
    }
    return Ok(None);
  }

  // ----- the legacy hourly import -----

  // The slot of an hour, in force from the start of that hour.
  function HourStart(h: nat): int {
    3600 * h
  }

  ghost predicate InHour(h: nat, t: real) {
    HourStart(h) as real <= t < HourStart(h + 1) as real
  }

  // Every hour before n resolves to its own slot.
  ghost predicate Resolves(ts: seq<Transition>, values: map<nat, Band>, n: nat)
    requires forall h :: 0 <= h < n ==> h in values
  {
    n > 0 ==> ts != [] && forall h, t :: 0 <= h < n && InHour(h, t) ==> Stepped(ts, t) == values[h]
  }

  // Transitions starting before hour n, neighbours differing.
  ghost predicate Collapsed(ts: seq<Transition>, n: nat) {
    && Normalized(ts)
    && (forall i :: 0 <= i < |ts| ==> ts[i].at < HourStart(n))
    && (forall i :: 0 < i < |ts| ==> ts[i - 1].band != ts[i].band)
    && (ts != [] ==> ts[0].at == 0)
  }

  lemma {:induction false} BisectIgnoresLater(ts: seq<Transition>, tr: Transition, t: real)
    requires t < tr.at as real
    ensures BisectRight(ts + [tr], t) == BisectRight(ts, t)
  {
    BisectPrefix(ts, tr, t, |ts|);
  }

  lemma {:induction false} BisectPrefix(ts: seq<Transition>, tr: Transition, t: real, n: nat)
    requires n <= |ts|
    ensures BisectTo(ts + [tr], t, n) == BisectTo(ts, t, n)
  {
    if n > 0 {
      BisectPrefix(ts, tr, t, n - 1);
    }
  }

  // Where the hour's slot repeats the one before, no transition is needed.
  lemma {:induction false} RepeatedHour(ts: seq<Transition>, values: map<nat, Band>, n: nat)
    requires forall h :: 0 <= h <= n ==> h in values
    requires ts != [] && Collapsed(ts, n) && Resolves(ts, values, n) && Last(ts).band == values[n]
    ensures Resolves(ts, values, n + 1)
  {
  }

  lemma {:induction false} HourBefore(h: nat, n: nat, t: real)
    requires h < n && InHour(h, t)
    ensures 0.0 <= t < HourStart(n) as real
  {
  }

  lemma {:induction false} BisectFirst(ts: seq<Transition>, t: real)
    requires ts != [] && Normalized(ts) && ts[0].at == 0 && t >= 0.0
    ensures BisectRight(ts, t) > 0
  {
  }

  lemma {:induction false} AppendedCollapsed(ts: seq<Transition>, n: nat, b: Band)
    requires n < 24 && Collapsed(ts, n) && Proper(b)
    requires if ts == [] then n == 0 else Last(ts).band != b
    ensures Collapsed(ts + [Transition(HourStart(n), b)], n + 1)
  {
  }

  lemma {:induction false} AppendedKeepsEarlier(ts: seq<Transition>, tr: Transition, t: real)
    requires ts != [] && Normalized(ts) && ts[0].at == 0 && 0.0 <= t < tr.at as real
    ensures Stepped(ts + [tr], t) == Stepped(ts, t)
  {
    BisectIgnoresLater(ts, tr, t);
    BisectFirst(ts, t);
  }

  // Where it differs, one transition at the start of the hour is.
  lemma {:induction false} ChangedHour(ts: seq<Transition>, values: map<nat, Band>, n: nat)
    requires forall h :: 0 <= h <= n ==> h in values
    requires n < 24 && Collapsed(ts, n) && Resolves(ts, values, n) && Proper(values[n])
    requires if ts == [] then n == 0 else Last(ts).band != values[n]
    ensures var ts' := ts + [Transition(HourStart(n), values[n])];
            Collapsed(ts', n + 1) && Resolves(ts', values, n + 1)
  {
    var tr := Transition(HourStart(n), values[n]);
    AppendedCollapsed(ts, n, values[n]);
    forall h: nat, t | h <= n && InHour(h, t)
      ensures Stepped(ts + [tr], t) == values[h]
    {
      if h == n {
        BisectIs(ts + [tr], t, |ts| + 1);
      } else {
        HourBefore(h, n, t);
        AppendedKeepsEarlier(ts, tr, t);
        assert Stepped(ts, t) == values[h];
      }
    }
  }

  // 24 valid hourly slots become a normalized schedule whose neighbours differ and which
  // gives every moment of hour h that hour's slot; anything else is refused.
  method ImportLegacyHourly(values: map<nat, Band>) returns (r: Result<seq<Transition>, ScheduleError>)
    ensures r.Ok? <==> (forall h :: 0 <= h < 24 ==> h in values && Proper(values[h]))
    ensures r.Ok? ==> Collapsed(r.value, 24) && r.value != []
    ensures r.Ok? ==> forall h, t :: 0 <= h < 24 && InHour(h, t) ==> Stepped(r.value, t) == values[h]
    ensures r.Err? && r.error.MissingHour? ==> r.error.hour < 24 && r.error.hour !in values
    ensures r.Err? && !r.error.MissingHour? ==>
              exists h :: 0 <= h < 24 && h in values && r.error == Inverted(HourStart(h)) && !Proper(values[h])
  {
    for h := 0 to 24
      invariant forall k :: 0 <= k < h ==> k in values
    {
      if h !in values {
        return Err(MissingHour(h));
      }
    }
    var ts: seq<Transition> := [];
    for h := 0 to 24
      invariant forall k :: 0 <= k < h ==> Proper(values[k])
      invariant Collapsed(ts, h) && Resolves(ts, values, h)
    {
      if values[h].low >= values[h].high {
        return Err(Inverted(HourStart(h)));
      }
      if ts == [] || values[h] != Last(ts).band {
        ChangedHour(ts, values, h);
        ts := ts + [Transition(HourStart(h), values[h])];
      } else {
        RepeatedHour(ts, values, h);
      }
    }
    return Ok(ts);
  }
}
