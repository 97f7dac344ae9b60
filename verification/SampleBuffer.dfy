// The rolling sample buffer of predictor.py: rate-limited, pruned appends and the
// segmentation of the buffer into runs of one action.

module SampleBuffer {
  import opened ComfortTypes

  const SAMPLE_WINDOW_S := 90 * 60
  const SAMPLE_MIN_INTERVAL_S := 60
  const SAMPLE_MAX_COUNT := 200
  const SAMPLE_MAX_GAP_S := 17 * 60

  datatype Sample = Sample(t: int, temp: real, action: Action)

  // One call of the sampler.
  datatype Reading = Reading(now: int, temp: real, action: Action)

  // ----- appending -----

  // The samples no older than the cutoff, in order.
  function Recent(s: seq<Sample>, cutoff: int): seq<Sample> {
    if s == [] then []
    else (if s[0].t >= cutoff then [s[0]] else []) + Recent(s[1..], cutoff)
  }

  function KeepLast(s: seq<Sample>, n: nat): seq<Sample> {
    if |s| > n then s[|s| - n..] else s
  }

  predicate RateLimited(b: seq<Sample>, r: Reading) {
    b != [] && r.now - Last(b).t < SAMPLE_MIN_INTERVAL_S && Last(b).action == r.action
  }

  // The buffer just before the count cap.
  function Grown(b: seq<Sample>, r: Reading): seq<Sample> {
    Recent(b, r.now - SAMPLE_WINDOW_S) + [Sample(r.now, r.temp, r.action)]
  }

  function Append(b: seq<Sample>, r: Reading): seq<Sample> {
    if RateLimited(b, r) then b else KeepLast(Grown(b, r), SAMPLE_MAX_COUNT)
  }

  function AppendAll(b: seq<Sample>, rs: seq<Reading>): seq<Sample>
    decreases |rs|
  {
    if rs == [] then b else AppendAll(Append(b, rs[0]), rs[1..])
  }

  // The clock never runs backwards: not before the newest sample, not between readings.
  ghost predicate Clocked(b: seq<Sample>, rs: seq<Reading>) {
    && (b != [] && rs != [] ==> Last(b).t <= rs[0].now)
    && forall i :: 0 < i < |rs| ==> rs[i - 1].now <= rs[i].now
  }

  ghost predicate Sorted(b: seq<Sample>) {
    forall i, j :: 0 <= i < j < |b| ==> b[i].t <= b[j].t
  }

  // Adjacent samples of one action are a full interval apart.
  ghost predicate Spaced(b: seq<Sample>) {
    forall i :: 0 < i < |b| && b[i].action == b[i - 1].action ==> b[i].t - b[i - 1].t >= SAMPLE_MIN_INTERVAL_S
  }

  ghost predicate Healthy(b: seq<Sample>) {
    && Sorted(b)
    && Spaced(b)
    && |b| <= SAMPLE_MAX_COUNT
    && (b != [] ==> Last(b).t - b[0].t <= SAMPLE_WINDOW_S)
  }

  // The samples s[i..j] all carry one action.
  ghost predicate OneAction(b: seq<Sample>, i: nat, j: nat, a: Action)
    requires i <= j <= |b|
  {
    forall k :: i <= k < j ==> b[k].action == a
  }

  // On a sorted buffer the age cap drops a prefix, and nothing else.
  lemma {:induction false} RecentIsSuffix(b: seq<Sample>, cutoff: int) returns (k: nat)
    requires Sorted(b)
    ensures k <= |b| && Recent(b, cutoff) == b[k..]
    ensures forall i :: 0 <= i < k ==> b[i].t < cutoff
    ensures forall i :: k <= i < |b| ==> b[i].t >= cutoff
  {
    if b == [] {
      k := 0;
    } else {
      var k' := RecentIsSuffix(b[1..], cutoff);
      if b[0].t >= cutoff {
        k := 0;
        assert b == [b[0]] + b[1..];
      } else {
        k := k' + 1;
        assert b[1..][k'..] == b[k..];
        forall i | 0 <= i < k
          ensures b[i].t < cutoff
        {
          assert i > 0 ==> b[i] == b[1..][i - 1];
        }
        forall i | k <= i < |b|
          ensures b[i].t >= cutoff
        {
          assert b[i] == b[1..][i - 1];
        }
      }
    }
  }

  // An accepted reading keeps a suffix of the buffer and adds itself at the end.
  // m samples survive the age cap from index a on; c of the whole are kept.
  lemma AppendShape(b: seq<Sample>, r: Reading) returns (a: nat, c: nat)
    requires Sorted(b) && !RateLimited(b, r)
    ensures a <= c <= |b|
    ensures Grown(b, r) == b[a..] + [Sample(r.now, r.temp, r.action)]
    ensures Append(b, r) == b[c..] + [Sample(r.now, r.temp, r.action)]
    ensures forall i :: 0 <= i < a ==> b[i].t < r.now - 5400
    ensures forall i :: a <= i < |b| ==> b[i].t >= r.now - 5400
    ensures c > a ==> |Append(b, r)| == 200
    ensures |Append(b, r)| <= 200
  {
    a := RecentIsSuffix(b, r.now - SAMPLE_WINDOW_S);
    var g := Grown(b, r);
    if |g| > SAMPLE_MAX_COUNT {
      c := a + (|g| - SAMPLE_MAX_COUNT);
      assert g[|g| - SAMPLE_MAX_COUNT..] == b[c..] + [Sample(r.now, r.temp, r.action)];
    } else {
      c := a;
    }
  }

  // A reading is dropped exactly when it repeats the action of a sample under a minute old;
  // any other is the newest sample afterwards.
  lemma {:induction false} AppendTakesReading(b: seq<Sample>, r: Reading)
    ensures if b != [] && Last(b).action == r.action && r.now - Last(b).t < 60 then Append(b, r) == b
            else Append(b, r) != [] && Last(Append(b, r)) == Sample(r.now, r.temp, r.action)
  {
    var g := Grown(b, r);
    assert Last(g) == Sample(r.now, r.temp, r.action);
  }

  // A suffix of an ordered, spaced buffer with one more sample at its end.
  lemma {:induction false} TailPlusOne(b: seq<Sample>, c: nat, s: Sample)
    requires c <= |b| && Sorted(b) && Spaced(b)
    requires b != [] ==> Last(b).t <= s.t
    requires b != [] && Last(b).action == s.action ==> s.t - Last(b).t >= SAMPLE_MIN_INTERVAL_S
    ensures Sorted(b[c..] + [s]) && Spaced(b[c..] + [s])
  {
  }

  lemma {:induction false} AppendKeepsHealthy(b: seq<Sample>, r: Reading)
    requires Healthy(b)
    requires b != [] ==> Last(b).t <= r.now
    ensures Healthy(Append(b, r))
    ensures Append(b, r) != [] && Last(Append(b, r)).t <= r.now
  {
    if !RateLimited(b, r) {
      var a, c := AppendShape(b, r);
      TailPlusOne(b, c, Sample(r.now, r.temp, r.action));
    }
  }

  // Over any run of appends on a clock that does not run backwards the buffer stays
  // sorted, inside the 90-minute window, under the cap and spaced.
  lemma {:induction false} BufferStaysHealthy(b: seq<Sample>, rs: seq<Reading>)
    requires Healthy(b) && Clocked(b, rs)
    ensures Healthy(AppendAll(b, rs))
    decreases |rs|
  {
    if rs != [] {
      AppendKeepsHealthy(b, rs[0]);
      assert Clocked(Append(b, rs[0]), rs[1..]);
      BufferStaysHealthy(Append(b, rs[0]), rs[1..]);
    }
  }

  // A stretch of one action starts at least a minute per sample before its end.
  lemma {:induction false} SpacedSpan(b: seq<Sample>, i: nat, j: nat, a: Action)
    requires i < j <= |b| && Spaced(b) && OneAction(b, i, j, a)
    ensures b[j - 1].t - b[i].t >= SAMPLE_MIN_INTERVAL_S * (j - 1 - i)
    decreases j
  {
    if j - 1 > i {
      SpacedSpan(b, i, j - 1, a);
      assert b[j - 1].action == b[j - 2].action;
    }
  }

  // ... so no single-action stretch of the buffer is longer than 91 samples.
  lemma RunAtMost91(b: seq<Sample>, i: nat, j: nat, a: Action)
    requires Healthy(b) && i <= j <= |b| && OneAction(b, i, j, a)
    ensures j - i <= 91
  {
    if i < j {
      SpacedSpan(b, i, j, a);
      assert b[0].t <= b[i].t && b[j - 1].t <= Last(b).t;
    }
  }

  // ----- runs -----

  datatype Run = Run(start: nat, end: nat)

  // One past the last sample of the action before stop.
  function LastWith(b: seq<Sample>, a: Action, stop: nat): (r: Option<nat>)
    requires stop <= |b|
    ensures r.Some? ==> 0 < r.value <= stop && b[r.value - 1].action == a
  {
    if stop == 0 then None
    else if b[stop - 1].action == a then Some(stop)
    else LastWith(b, a, stop - 1)
  }

  // Consecutive samples i-1 and i belong to one run of the action.
  predicate Joined(b: seq<Sample>, a: Action, acrossGaps: bool, i: nat)
    requires 0 < i < |b|
  {
    b[i - 1].action == a && (acrossGaps || b[i].t - b[i - 1].t <= SAMPLE_MAX_GAP_S)
  }

  function RunStart(b: seq<Sample>, a: Action, acrossGaps: bool, i: nat): (s: nat)
    requires i < |b|
    ensures s <= i
  {
    if i > 0 && Joined(b, a, acrossGaps, i) then RunStart(b, a, acrossGaps, i - 1) else i
  }

  // The most recent run of the action before stop (None: no such sample).
  function LatestRun(b: seq<Sample>, a: Action, stop: nat, acrossGaps: bool): (r: Option<Run>)
    requires stop <= |b|
    ensures r.Some? ==> r.value.start < r.value.end <= stop
  {
    match LastWith(b, a, stop)
    case None => None
    case Some(end) => Some(Run(RunStart(b, a, acrossGaps, end - 1), end))
  }

  // What a run is: the action throughout, joined throughout, maximal to the left, and
  // nothing of the action between it and stop.
  ghost predicate IsLatestRun(b: seq<Sample>, a: Action, stop: nat, acrossGaps: bool, r: Run)
    requires stop <= |b|
  {
    && r.start < r.end <= stop
    && OneAction(b, r.start, r.end, a)
    && (forall i :: r.start < i < r.end ==> Joined(b, a, acrossGaps, i))
    && (r.start > 0 ==> !Joined(b, a, acrossGaps, r.start))
    && (forall i :: r.end <= i < stop ==> b[i].action != a)
  }

  lemma {:induction false} LastWithSpec(b: seq<Sample>, a: Action, stop: nat)
    requires stop <= |b|
    ensures LastWith(b, a, stop).None? ==> forall i :: 0 <= i < stop ==> b[i].action != a
    ensures LastWith(b, a, stop).Some? ==>
              forall i :: LastWith(b, a, stop).value <= i < stop ==> b[i].action != a
  {
    if stop > 0 && b[stop - 1].action != a {
      LastWithSpec(b, a, stop - 1);
    }
  }

  lemma {:induction false} RunStartSpec(b: seq<Sample>, a: Action, acrossGaps: bool, i: nat)
    requires i < |b| && b[i].action == a
    ensures var s := RunStart(b, a, acrossGaps, i);
            && OneAction(b, s, i + 1, a)
            && (forall k :: s < k <= i ==> Joined(b, a, acrossGaps, k))
            && (s > 0 ==> !Joined(b, a, acrossGaps, s))
  {
    if i > 0 && Joined(b, a, acrossGaps, i) {
      RunStartSpec(b, a, acrossGaps, i - 1);
    }
  }

  lemma RunUnique(b: seq<Sample>, a: Action, stop: nat, acrossGaps: bool, r: Run, q: Run)
    requires stop <= |b|
    requires IsLatestRun(b, a, stop, acrossGaps, r) && IsLatestRun(b, a, stop, acrossGaps, q)
    ensures r == q
  {
    assert b[r.end - 1].action == a && b[q.end - 1].action == a;
    assert r.end == q.end;
  }

  // The two backward walks find exactly the latest run; it is unique.
  lemma LatestRunSpec(b: seq<Sample>, a: Action, stop: nat, acrossGaps: bool)
    requires stop <= |b|
    ensures LatestRun(b, a, stop, acrossGaps).None? <==> forall i :: 0 <= i < stop ==> b[i].action != a
    ensures forall r :: IsLatestRun(b, a, stop, acrossGaps, r) <==> LatestRun(b, a, stop, acrossGaps) == Some(r)
  {
    LastWithSpec(b, a, stop);
    forall r | IsLatestRun(b, a, stop, acrossGaps, r)
      ensures exists i :: 0 <= i < stop && b[i].action == a
    {
      assert b[r.start].action == a;
    }
    if LastWith(b, a, stop).Some? {
      var e := LastWith(b, a, stop).value;
      RunStartSpec(b, a, acrossGaps, e - 1);
      var q := Run(RunStart(b, a, acrossGaps, e - 1), e);
      assert IsLatestRun(b, a, stop, acrossGaps, q);
      forall r | IsLatestRun(b, a, stop, acrossGaps, r)
        ensures r == q
      {
        RunUnique(b, a, stop, acrossGaps, r, q);
      }
    }
  }

  // The first loop of the source: back to the newest sample of the action.
  method FindLast(b: seq<Sample>, a: Action, stop: nat) returns (end: Option<nat>)
    requires stop <= |b|
    ensures end == LastWith(b, a, stop)
  {
    for i := stop downto 0
      invariant LastWith(b, a, i) == LastWith(b, a, stop)
    {
      if b[i].action == a {
        return Some(i + 1);
      }
    }
    return None;
  }

  // The second loop: on while predecessors belong to the run.
  method FindStart(b: seq<Sample>, a: Action, acrossGaps: bool, last: nat) returns (start: nat)
    requires last < |b|
    ensures start == RunStart(b, a, acrossGaps, last)
  {
    start := last;
    while start > 0 && Joined(b, a, acrossGaps, start)
      invariant start <= last
      invariant RunStart(b, a, acrossGaps, start) == RunStart(b, a, acrossGaps, last)
    {
      start := start - 1;
    }
  }

  method RunBounds(b: seq<Sample>, a: Action, stop: nat, acrossGaps: bool) returns (r: Option<Run>)
    requires stop <= |b|
    ensures r == LatestRun(b, a, stop, acrossGaps)
    ensures r.None? <==> forall i :: 0 <= i < stop ==> b[i].action != a
    ensures r.Some? ==> IsLatestRun(b, a, stop, acrossGaps, r.value)
  {
    LatestRunSpec(b, a, stop, acrossGaps);
    var end := FindLast(b, a, stop);
    if end.None? {
      return None;
    }
    var start := FindStart(b, a, acrossGaps, end.value - 1);
    return Some(Run(start, end.value));
  }

  lemma {:induction false} KeepLastTail(g: seq<Sample>, start: nat, n: nat)
    requires start <= |g| && |g| - start <= n
    ensures |g| - start <= |KeepLast(g, n)|
    ensures KeepLast(g, n)[|KeepLast(g, n)| - (|g| - start)..] == g[start..]
  {
  }

  lemma {:induction false} RunningRunIsShort(g: seq<Sample>, a: Action)
    requires g != [] && Sorted(g) && Spaced(g) && Last(g).t - g[0].t <= SAMPLE_WINDOW_S && Last(g).action == a
    ensures var run := LatestRun(g, a, |g|, false);
            run.Some? && run.value.end == |g| && run.value.start < |g| <= run.value.start + 91
  {
    LatestRunSpec(g, a, |g|, false);
    assert g[|g| - 1].action == a;
    var run := LatestRun(g, a, |g|, false).value;
    assert IsLatestRun(g, a, |g|, false, run);
    SpacedSpan(g, run.start, run.end, a);
    assert g[0].t <= g[run.start].t;
  }

  // The count cap never reaches into the run that is still growing: that run is at most
  // 91 samples, so it is kept whole at the end of the capped buffer.
  lemma {:induction false} CapSparesRunningRun(b: seq<Sample>, r: Reading)
    requires Healthy(b) && (b != [] ==> Last(b).t <= r.now)
    requires !RateLimited(b, r)
    ensures var g := Grown(b, r);
            var run := LatestRun(g, r.action, |g|, false);
            && run.Some? && run.value.end == |g|
            && run.value.start < |g| <= run.value.start + 91
            && |g| - run.value.start <= |Append(b, r)|
            && Append(b, r)[|Append(b, r)| - (|g| - run.value.start)..] == g[run.value.start..]
  {
    var a, c := AppendShape(b, r);
    var g := Grown(b, r);
    TailPlusOne(b, a, Sample(r.now, r.temp, r.action));
    RunningRunIsShort(g, r.action);
    KeepLastTail(g, LatestRun(g, r.action, |g|, false).value.start, SAMPLE_MAX_COUNT);
  }
}
