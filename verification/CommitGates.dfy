// The commitment kept by the coordinator and the two dwell gates in front of it
// (_maybe_apply_action), over any run of applies.

module CommitGates {
  import opened ComfortTypes

  // The stored fields last_action, last_action_at, previous_action and last_active_at.
  datatype Commitment = Commitment(last: Option<Action>, lastAt: Option<int>,
                                   previous: Option<Action>, lastActiveAt: Option<int>)

  const FRESH := Commitment(None, None, None, None)

  datatype Verdict = SameModeHold | CrossModeHold | Proceed

  // The active action the cross-mode gate measures against: the running one, otherwise
  // whatever the one-slot look-back holds.
  function LookBack(c: Commitment): Option<Action> {
    if c.last.Some? && IsActive(c.last.value) then c.last else c.previous
  }

  predicate Dwelling(c: Commitment, now: int, minutes: int) {
    c.lastAt.Some? && now - c.lastAt.value < 60 * minutes
  }

  predicate Opposite(a: Action, b: Action) {
    IsActive(a) && IsActive(b) && a != b
  }

  function Gate(c: Commitment, action: Action, now: int, minCycle: int, crossMode: int): Verdict {
    if c.last == Some(action) && Dwelling(c, now, minCycle) then SameModeHold
    else if LookBack(c).Some? && Opposite(LookBack(c).value, action) && Dwelling(c, now, crossMode) then CrossModeHold
    else Proceed
  }

  function Commit(c: Commitment, action: Action, now: int): Commitment {
    Commitment(Some(action), Some(now),
               if c.last != Some(action) then c.last else c.previous,
               if IsActive(action) then Some(now) else c.lastActiveAt)
  }

  // ----- runs of applies -----

  // One apply: the action wanted, the dwells in force, and whether the mode call raised, was
  // dropped by an unreachable unit, or was delivered.
  datatype Outcome = Raised | Dropped | Delivered

  datatype Apply = Apply(now: int, action: Action, minCycle: int, crossMode: int, outcome: Outcome)

  predicate Commits(c: Commitment, a: Apply) {
    a.outcome == Delivered && Gate(c, a.action, a.now, a.minCycle, a.crossMode) == Proceed
  }

  function Step(c: Commitment, a: Apply): Commitment {
    if Commits(c, a) then Commit(c, a.action, a.now) else c
  }

  // The commitment after a run from a fresh zone.
  function After(xs: seq<Apply>): Commitment {
    if xs == [] then FRESH else Step(After(xs[..|xs| - 1]), Last(xs))
  }

  // The applies of the run that committed, in order.
  function Log(xs: seq<Apply>): seq<Apply> {
    if xs == [] then []
    else
      var rest := xs[..|xs| - 1];
      if Commits(After(rest), Last(xs)) then Log(rest) + [Last(xs)] else Log(rest)
  }

  ghost predicate Clocked(xs: seq<Apply>) {
    forall i, j :: 0 <= i < j < |xs| ==> xs[i].now <= xs[j].now
  }

  // Every apply asks for heat, cool or idle: an unknown decision never reaches the gates.
  ghost predicate Decided(xs: seq<Apply>) {
    forall i :: 0 <= i < |xs| ==> xs[i].action != Unknown
  }

  // The last heat or cool of a log.
  function LatestActive(log: seq<Apply>): (r: Option<Apply>)
    ensures r.Some? ==> IsActive(r.value.action) && r.value in log
  {
    if log == [] then None
    else if IsActive(Last(log).action) then Some(Last(log))
    else LatestActive(log[..|log| - 1])
  }

  // What the four stored fields say about everything committed so far: the latest commit and
  // its time, the latest heat or cool behind the one-slot look-back, and that one's time.
  ghost predicate Tracks(c: Commitment, log: seq<Apply>) {
    var active := LatestActive(log);
    && c.last == (if log == [] then None else Some(Last(log).action))
    && c.lastAt == (if log == [] then None else Some(Last(log).now))
    && LookBack(c) == (if active.Some? then Some(active.value.action) else None)
    && c.lastActiveAt == (if active.Some? then Some(active.value.now) else None)
  }

  lemma {:induction false} CommitTracks(c: Commitment, log: seq<Apply>, a: Apply)
    requires Tracks(c, log) && a.action != Unknown && (log != [] ==> Last(log).action != Unknown)
    ensures Tracks(Commit(c, a.action, a.now), log + [a])
  {
  }

  lemma {:induction false} LogIsDecided(xs: seq<Apply>)
    requires Decided(xs)
    ensures Decided(Log(xs))
  {
    if xs != [] {
      LogIsDecided(xs[..|xs| - 1]);
    }
  }

  // Over every run of applies, with any mix of raised, dropped and delivered calls, the one
  // slot of previous_action always yields the most recently committed heat or cool, and
  // last_active_at its time.
  lemma {:induction false} FieldsTrackTheLog(xs: seq<Apply>)
    requires Decided(xs)
    ensures Tracks(After(xs), Log(xs))
  {
    if xs != [] {
      var rest := xs[..|xs| - 1];
      FieldsTrackTheLog(rest);
      LogIsDecided(rest);
      if Commits(After(rest), Last(xs)) {
        CommitTracks(After(rest), Log(rest), Last(xs));
      }
    }
  }

  // ----- the dwells -----

  // Consecutive commits of one action are its dwell apart.
  ghost predicate SameModeSpaced(log: seq<Apply>) {
    forall i :: 0 < i < |log| && log[i].action == log[i - 1].action ==>
      log[i].now - log[i - 1].now >= 60 * log[i].minCycle
  }

  // Every heat or cool comes its cross-mode dwell after the heat or cool before it, when
  // that was the other one.
  ghost predicate CrossModeSpaced(log: seq<Apply>) {
    forall j :: 0 <= j < |log| ==> CrossModeGap(log, j)
  }

  ghost predicate CrossModeGap(log: seq<Apply>, j: nat)
    requires j < |log|
  {
    var prior := LatestActive(log[..j]);
    prior.Some? && Opposite(prior.value.action, log[j].action) ==> log[j].now - prior.value.now >= 60 * log[j].crossMode
  }

  lemma {:induction false} LogIsClocked(xs: seq<Apply>)
    requires Clocked(xs)
    ensures Clocked(Log(xs)) && (Log(xs) != [] ==> xs != [] && Last(Log(xs)).now <= Last(xs).now)
  {
    if xs != [] {
      LogIsClocked(xs[..|xs| - 1]);
    }
  }

  lemma {:induction false} CommitKeepsSpacing(c: Commitment, log: seq<Apply>, a: Apply)
    requires Tracks(c, log) && Commits(c, a) && Clocked(log)
    requires SameModeSpaced(log) && CrossModeSpaced(log)
    ensures SameModeSpaced(log + [a]) && CrossModeSpaced(log + [a])
  {
    var next := log + [a];
    forall j | 0 <= j < |next|
      ensures CrossModeGap(next, j)
    {
      assert next[..j] == if j < |log| then log[..j] else log;
      if j < |log| {
        assert CrossModeGap(log, j);
      } else if LatestActive(log).Some? {
        var prior := LatestActive(log).value;
        var k :| 0 <= k < |log| && log[k] == prior;
        assert log[k].now <= Last(log).now;
      }
    }
  }

  // Over every run on a clock that does not run backwards, both dwells are kept.
  lemma {:induction false} DwellsAreKept(xs: seq<Apply>)
    requires Decided(xs) && Clocked(xs)
    ensures SameModeSpaced(Log(xs)) && CrossModeSpaced(Log(xs))
  {
    if xs != [] {
      var rest := xs[..|xs| - 1];
      DwellsAreKept(rest);
      FieldsTrackTheLog(rest);
      LogIsClocked(rest);
      if Commits(After(rest), Last(xs)) {
        CommitKeepsSpacing(After(rest), Log(rest), Last(xs));
      }
    }
  }

  // With the cross-mode dwell never set below m, any heat and any cool of the run, adjacent
  // or not, are at least m minutes apart.
  lemma {:induction false} OppositesApart(xs: seq<Apply>, m: nat, i: nat, j: nat)
    requires Decided(xs) && Clocked(xs) && i < j < |Log(xs)|
    requires forall k :: 0 <= k < |Log(xs)| ==> Log(xs)[k].crossMode >= m
    requires Opposite(Log(xs)[i].action, Log(xs)[j].action)
    ensures Log(xs)[j].now - Log(xs)[i].now >= 60 * m
  {
    DwellsAreKept(xs);
    LogIsClocked(xs);
    FlipBetween(Log(xs), m, i, j);
  }

  lemma {:induction false} FlipBetween(log: seq<Apply>, m: nat, i: nat, j: nat)
    requires Clocked(log) && CrossModeSpaced(log) && i < j < |log|
    requires forall k :: 0 <= k < |log| ==> log[k].crossMode >= m
    requires Opposite(log[i].action, log[j].action)
    ensures log[j].now - log[i].now >= 60 * m
    decreases j
  {
    assert CrossModeGap(log, j);
    var p := LatestActiveAt(log[..j], i);
    assert log[i].now <= log[p].now;
    if log[p].action == log[j].action {
      FlipBetween(log, m, i, p);
      assert log[p].now <= log[j].now;
    }
  }

  lemma {:induction false} LatestActiveAt(log: seq<Apply>, i: nat) returns (p: nat)
    requires i < |log| && IsActive(log[i].action)
    ensures i <= p < |log| && LatestActive(log) == Some(log[p]) && IsActive(log[p].action)
  {
    if IsActive(Last(log).action) {
      p := |log| - 1;
    } else {
      p := LatestActiveAt(log[..|log| - 1], i);
    }
  }

  // No gate ever blocks the release of a running cycle: it commits whenever it is delivered.
  lemma {:induction false} ReleaseIsNeverGated(c: Commitment, a: Apply)
    requires a.action == Idle && c.last != Some(Idle)
    ensures Gate(c, a.action, a.now, a.minCycle, a.crossMode) == Proceed
    ensures Commits(c, a) <==> a.outcome == Delivered
  {
  }

  // Exactly when an apply goes through: unless the latest commit is of the same action and
  // within its minimum cycle, or the action is a cycle opposite to the latest heat or cool of
  // the run and the latest commit is within the cross-mode dwell.
  lemma {:induction false} ProceedsIff(xs: seq<Apply>, a: Apply)
    requires Decided(xs) && a.action != Unknown
    ensures var log := Log(xs);
            var cycle := LatestActive(log);
            Gate(After(xs), a.action, a.now, a.minCycle, a.crossMode) == Proceed <==>
              (log == []
               || (!(Last(log).action == a.action && a.now - Last(log).now < 60 * a.minCycle)
                   && !(cycle.Some? && IsActive(a.action) && cycle.value.action != a.action
                        && a.now - Last(log).now < 60 * a.crossMode)))
  {
    FieldsTrackTheLog(xs);
  }

  // What commits: the applies that go through and are delivered, and no others.
  lemma {:induction false} LogGrowsIff(xs: seq<Apply>, a: Apply)
    ensures Log(xs + [a]) ==
              if a.outcome == Delivered && Gate(After(xs), a.action, a.now, a.minCycle, a.crossMode) == Proceed
              then Log(xs) + [a] else Log(xs)
  {
    assert (xs + [a])[..|xs|] == xs;
  }
}
