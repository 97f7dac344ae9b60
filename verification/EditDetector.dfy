// The manual-edit detector of the coordinator: the baseline, what was commanded, the echo
// window, and the reports of the climate entity judged against them.

module EditDetector {
  import opened ComfortTypes

  const CLIMATE_ECHO_WINDOW_S := 30

  // A mode and a setpoint. In a command, temp None means that no setpoint was delivered.
  datatype Reading = Reading(mode: string, temp: Option<real>)

  // What the state machine holds for the climate entity.
  datatype Entity = Missing | Unavailable
    | ModeUnknown(setpoint: Option<real>) | Reporting(mode: string, setpoint: Option<real>)

  datatype Detector = Detector(baseline: Option<Reading>, commanded: Option<Reading>, lastCommandAt: Option<int>)

  // One state-change event of the climate entity.
  datatype Report = Report(before: Entity, entity: Entity, now: int)

  predicate InEchoWindow(d: Detector, now: int) {
    d.lastCommandAt.Some? && 0 <= now - d.lastCommandAt.value < CLIMATE_ECHO_WINDOW_S
  }

  // The reading an event is judged as: an unknown mode and an absent setpoint say nothing,
  // so the baseline's are carried forward. None: the event is not compared at all.
  function Observed(baseline: Option<Reading>, r: Report): Option<Reading> {
    if r.before.Missing? then None
    else
      match r.entity
      case Missing => None
      case Unavailable => None
      case ModeUnknown(t) =>
        if baseline.None? then None
        else Some(Reading(baseline.value.mode, if t.Some? then t else baseline.value.temp))
      case Reporting(m, t) =>
        Some(Reading(m, if t.None? && baseline.Some? then baseline.value.temp else t))
  }

  // A field is expected when it matches the baseline or what was last commanded for it.
  predicate Expected(d: Detector, o: Reading)
    requires d.baseline.Some?
  {
    && (o.mode == d.baseline.value.mode || (d.commanded.Some? && o.mode == d.commanded.value.mode))
    && (o.temp == d.baseline.value.temp
        || (d.commanded.Some? && d.commanded.value.temp.Some? && o.temp == d.commanded.value.temp))
  }

  // The event is a hand edit: the sample buffer is flushed.
  predicate Flushes(d: Detector, r: Report) {
    var o := Observed(d.baseline, r);
    o.Some? && !InEchoWindow(d, r.now) && d.baseline.Some? && !Expected(d, o.value)
  }

  function Observe(d: Detector, r: Report): Detector {
    var o := Observed(d.baseline, r);
    if o.None? then d
    else if Flushes(d, r) then Detector(o, None, d.lastCommandAt)
    else d.(baseline := o)
  }

  // The baseline after a delivered command: what the entity reports now, an unreported
  // setpoint carried forward; left standing while it reports nothing usable.
  function Snapshot(baseline: Option<Reading>, live: Entity, command: Reading): Option<Reading> {
    match live
    case Reporting(m, t) =>
      Some(Reading(m, if t.None? && baseline.Some? then baseline.value.temp else t))
    case _ => if baseline.None? then Some(command) else baseline
  }

  function Delivered(d: Detector, live: Entity, command: Reading, now: int): Detector {
    Detector(Snapshot(d.baseline, live, command), Some(command), Some(now))
  }

  function ObserveAll(d: Detector, rs: seq<Report>): Detector
    decreases |rs|
  {
    if rs == [] then d else ObserveAll(Observe(d, rs[0]), rs[1..])
  }

  ghost predicate EverFlushes(d: Detector, rs: seq<Report>)
    decreases |rs|
  {
    rs != [] && (Flushes(d, rs[0]) || EverFlushes(Observe(d, rs[0]), rs[1..]))
  }

  // ----- a unit taking up a command -----

  // The fields a report actually carries.
  function KnownMode(e: Entity): Option<string> {
    if e.Reporting? then Some(e.mode) else None
  }

  function KnownTemp(e: Entity): Option<real> {
    if e.Reporting? || e.ModeUnknown? then e.setpoint else None
  }

  // Each field the unit shows stays where it was or moves, once, to what was commanded;
  // unavailable, unknown and setpoint-less reports may come anywhere in between.
  ghost predicate TakesUp(shown: Reading, command: Reading, rs: seq<Report>)
    decreases |rs|
  {
    rs == [] ||
    (var m, t := KnownMode(rs[0].entity), KnownTemp(rs[0].entity);
     && (m.Some? ==> m.value == shown.mode || m.value == command.mode)
     && (t.Some? ==> t == shown.temp || (command.temp.Some? && t == command.temp))
     && TakesUp(Reading(if m.Some? then m.value else shown.mode, if t.Some? then t else shown.temp), command, rs[1..]))
  }

  // What the unit last showed is the baseline or was only shown by an event that is not
  // compared; either way a field shown is the baseline's or the command's.
  ghost predicate Consistent(d: Detector, shown: Reading, command: Reading) {
    && d.commanded == Some(command) && d.baseline.Some?
    && (d.baseline.value.mode == shown.mode || shown.mode == command.mode)
    && (d.baseline.value.temp == shown.temp || (command.temp.Some? && shown.temp == command.temp))
  }

  lemma {:induction false} TakingUpNeverFlushes(d: Detector, shown: Reading, command: Reading, rs: seq<Report>)
    requires Consistent(d, shown, command) && TakesUp(shown, command, rs)
    ensures !EverFlushes(d, rs) && ObserveAll(d, rs).commanded == Some(command)
    decreases |rs|
  {
    if rs != [] {
      var m, t := KnownMode(rs[0].entity), KnownTemp(rs[0].entity);
      var shown' := Reading(if m.Some? then m.value else shown.mode, if t.Some? then t else shown.temp);
      TakingUpNeverFlushes(Observe(d, rs[0]), shown', command, rs[1..]);
    }
  }

  // What the unit shows at a delivery, read from the entity: its mode, and its setpoint or,
  // where it reports none, the last one seen. Of a unit that reports no mode, what it was last
  // seen in, and only when it was never seen, the command.
  predicate ShownAt(d: Detector, live: Entity, command: Reading, shown: Reading) {
    if live.Reporting? then
      && shown.mode == live.mode
      && (if live.setpoint.Some? then shown.temp == live.setpoint
          else shown.temp == if d.baseline.Some? then d.baseline.value.temp else None)
    else if d.baseline.Some? then shown == d.baseline.value
    else shown == command
  }

  // After a delivered command no sequence of reports by which the unit takes it up, starting
  // from what it shows, however slowly and with whatever drop-outs, reads as a hand edit.
  lemma {:induction false} OwnCommandNeverFlushes(d: Detector, live: Entity, command: Reading, now: int, shown: Reading,
        rs: seq<Report>)
    requires ShownAt(d, live, command, shown) && TakesUp(shown, command, rs)
    ensures !EverFlushes(Delivered(d, live, command, now), rs)
  {
    TakingUpNeverFlushes(Delivered(d, live, command, now), shown, command, rs);
  }

  // A unit that goes on showing what it showed at the delivery is never taken for an edit,
  // however long it takes to move.
  lemma {:induction false} UnmovedUnitNeverFlushes(d: Detector, live: Entity, command: Reading, sent: int, r: Report)
    requires live.Reporting? && r.entity == live
    ensures !Flushes(Delivered(d, live, command, sent), r)
  {
  }

  // ... and one that could not be read is judged by what it was last seen in: coming back in
  // any other state than that or the command's is an edit.
  lemma {:induction false} UnreadUnitIsJudgedByTheLastSeen(d: Detector, live: Entity, command: Reading, sent: int,
        r: Report)
    requires !live.Reporting? && d.baseline.Some?
    requires r.entity.Reporting? && r.entity.setpoint.Some? && !r.before.Missing?
    requires !(0 <= r.now - sent < 30)
    ensures Flushes(Delivered(d, live, command, sent), r) <==>
              ((r.entity.mode != d.baseline.value.mode && r.entity.mode != command.mode)
               || (r.entity.setpoint != d.baseline.value.temp && r.entity.setpoint != command.temp))
  {
  }

  // ----- the echo window -----

  // For thirty seconds after a command nothing reads as an edit, and the baseline follows
  // whatever the unit reports.
  lemma {:induction false} EchoFollowsTheUnit(d: Detector, r: Report)
    requires d.lastCommandAt.Some? && 0 <= r.now - d.lastCommandAt.value < 30
    ensures !Flushes(d, r)
    ensures r.entity.Reporting? && r.entity.setpoint.Some? && !r.before.Missing? ==>
              Observe(d, r) == d.(baseline := Some(Reading(r.entity.mode, r.entity.setpoint)))
  {
  }

  // With nothing seen yet the first report is the baseline, not an edit.
  lemma {:induction false} FirstReportIsTheBaseline(d: Detector, r: Report)
    requires d.baseline.None? && r.entity.Reporting? && !r.before.Missing?
    ensures !Flushes(d, r) && Observe(d, r) == d.(baseline := Some(Reading(r.entity.mode, r.entity.setpoint)))
  {
  }

  // An entity that appears, disappears or is unavailable says nothing.
  lemma {:induction false} SilentReportsChangeNothing(d: Detector, r: Report)
    requires r.before.Missing? || r.entity.Missing? || r.entity.Unavailable?
    ensures !Flushes(d, r) && Observe(d, r) == d
  {
  }

  // ----- an edit at the wall -----

  // The unit has agreed in both fields, or nothing is vouched for any more.
  predicate Agreed(d: Detector) {
    && d.baseline.Some?
    && (d.commanded.Some? ==>
          && d.baseline.value.mode == d.commanded.value.mode
          && (d.commanded.value.temp.Some? ==> d.baseline.value.temp == d.commanded.value.temp))
  }

  // A field the report carries differs from the baseline.
  predicate Differs(baseline: Reading, e: Entity) {
    || (KnownMode(e).Some? && KnownMode(e).value != baseline.mode)
    || (KnownTemp(e).Some? && KnownTemp(e) != baseline.temp)
  }

  // Once the unit has agreed, a report outside the echo window flushes exactly when a field
  // it carries differs from what was last seen.
  lemma {:induction false} AgreedEditsAreCaught(d: Detector, r: Report)
    requires Agreed(d) && !InEchoWindow(d, r.now) && !r.before.Missing?
    ensures Flushes(d, r) <==> Differs(d.baseline.value, r.entity)
  {
  }

  // A detected edit leaves the occupant's state as the only thing later reports are judged
  // against: nothing of ours vouches for a later edit, until another command is delivered.
  lemma {:induction false} EditClearsTheCommand(d: Detector, r: Report)
    requires Flushes(d, r)
    ensures var d' := Observe(d, r);
            && Agreed(d') && d'.commanded.None? && d'.lastCommandAt == d.lastCommandAt
            && d'.baseline == Observed(d.baseline, r)
            && (KnownMode(r.entity).Some? ==> d'.baseline.value.mode == KnownMode(r.entity).value)
            && (KnownTemp(r.entity).Some? ==> d'.baseline.value.temp == KnownTemp(r.entity))
  {
  }

  // Every report outside the echo window leaves an agreed state agreed, edit or not, so the
  // two lemmas above decide each report of a run in turn.
  lemma {:induction false} AgreementPersists(d: Detector, r: Report)
    requires Agreed(d) && !InEchoWindow(d, r.now)
    ensures Agreed(Observe(d, r))
  {
  }

  // What the unit is last known to show after a run of reports.
  function Shown(start: Reading, rs: seq<Report>): Reading
    decreases |rs|
  {
    if rs == [] then start
    else
      var e := rs[0].entity;
      Shown(Reading(if KnownMode(e).Some? then KnownMode(e).value else start.mode,
                    if KnownTemp(e).Some? then KnownTemp(e) else start.temp), rs[1..])
  }

  // From an agreed state the baseline is, at every point of a run outside the echo window,
  // exactly what the unit last showed: a further report flushes if and only if it differs
  // from that.
  lemma {:induction false} EditsAlongARun(d: Detector, rs: seq<Report>, r: Report)
    requires Agreed(d) && !r.before.Missing? && !InEchoWindow(d, r.now)
    requires forall i :: 0 <= i < |rs| ==> !InEchoWindow(d, rs[i].now) && !rs[i].before.Missing?
    ensures Flushes(ObserveAll(d, rs), r) <==> Differs(Shown(d.baseline.value, rs), r.entity)
    decreases |rs|
  {
    if rs == [] {
      AgreedEditsAreCaught(d, r);
    } else {
      AgreementPersists(d, rs[0]);
      EditsAlongARun(Observe(d, rs[0]), rs[1..], r);
    }
  }

  // After a detected edit later reports are judged against the occupant's state alone, for as
  // long as no command is delivered: one flushes exactly when it differs from what the unit
  // has shown since, beginning with what the occupant set.
  lemma {:induction false} JudgedByTheOccupantsState(d: Detector, edit: Report, rs: seq<Report>, r: Report)
    requires Flushes(d, edit) && !r.before.Missing? && !InEchoWindow(d, r.now)
    requires forall i :: 0 <= i < |rs| ==> !InEchoWindow(d, rs[i].now) && !rs[i].before.Missing?
    ensures Flushes(ObserveAll(Observe(d, edit), rs), r) <==>
              Differs(Shown(Observed(d.baseline, edit).value, rs), r.entity)
  {
    EditClearsTheCommand(d, edit);
    EditsAlongARun(Observe(d, edit), rs, r);
  }

  // ----- an edit while the unit has not agreed -----

  // What the unit was last told to show: the command, with the baseline's setpoint where none
  // was delivered; the baseline itself when nothing is commanded.
  function Told(d: Detector): Reading
    requires d.baseline.Some?
  {
    if d.commanded.None? then d.baseline.value
    else Reading(d.commanded.value.mode,
                 if d.commanded.value.temp.Some? then d.commanded.value.temp else d.baseline.value.temp)
  }

  // A state that is neither what the unit was last seen in nor what it was told: somebody's.
  predicate Foreign(d: Detector, r: Report)
    requires d.baseline.Some?
  {
    var o := Observed(d.baseline, r);
    o.Some? && o.value != d.baseline.value && o.value != Told(d)
  }

  // The unit has still to move in both fields.
  predicate BothPending(d: Detector)
    requires d.baseline.Some?
  {
    Told(d).mode != d.baseline.value.mode && Told(d).temp != d.baseline.value.temp
  }

  // One field as last seen, the other as told.
  predicate Mixture(d: Detector, o: Reading)
    requires d.baseline.Some?
  {
    || o == Reading(d.baseline.value.mode, Told(d).temp)
    || o == Reading(Told(d).mode, d.baseline.value.temp)
  }

  // Exactly which edits slip through outside the echo window: the two mixtures, while both
  // fields are pending.
  lemma {:induction false} MissedAreTheMixtures(d: Detector, r: Report)
    requires d.baseline.Some? && !InEchoWindow(d, r.now)
    ensures (Foreign(d, r) && !Flushes(d, r)) <==>
              (BothPending(d) && Observed(d.baseline, r).Some? && Mixture(d, Observed(d.baseline, r).value))
  {
  }

  ghost predicate ForeignEditsAreCaught(d: Detector, now: int)
    requires d.baseline.Some?
  {
    forall r: Report :: r.now == now && Foreign(d, r) ==> Flushes(d, r)
  }

  // Exactly when no edit can slip through: unless both fields are pending at once. Then, and
  // only then, turning the mode back at the wall and leaving our setpoint does.
  lemma {:induction false} ForeignEditsAreCaughtIff(d: Detector, now: int)
    requires d.baseline.Some? && !InEchoWindow(d, now)
    ensures ForeignEditsAreCaught(d, now) <==> !BothPending(d)
  {
    forall r: Report | r.now == now
      ensures (Foreign(d, r) && !Flushes(d, r)) ==> BothPending(d)
    {
      MissedAreTheMixtures(d, r);
    }
    if BothPending(d) {
      var r := Report(Unavailable, Reporting(d.baseline.value.mode, Told(d).temp), now);
      MixtureIsMissed(d, r);
    }
  }

  // The edit named in the source as the price: mode as before and our setpoint passes unseen
  // while both are pending, and leaves the command standing.
  lemma {:induction false} MixtureIsMissed(d: Detector, r: Report)
    requires d.baseline.Some? && BothPending(d) && !r.before.Missing?
    requires r.entity == Reporting(d.baseline.value.mode, Told(d).temp)
    ensures Foreign(d, r) && !Flushes(d, r) && Observe(d, r).commanded == d.commanded
  {
  }

  // Every report that shows any change at all flushes exactly when the unit has agreed: before
  // that, taking up our own command must not.
  lemma {:induction false} EditsAreCaughtIffAgreed(d: Detector, now: int)
    requires d.baseline.Some? && !InEchoWindow(d, now)
    ensures (forall r: Report :: r.now == now && !r.before.Missing? && Differs(d.baseline.value, r.entity) ==>
                                   Flushes(d, r))
            <==> Agreed(d)
  {
    var b := d.baseline.value;
    if Agreed(d) {
      forall r: Report | r.now == now && !r.before.Missing? && Differs(b, r.entity)
        ensures Flushes(d, r)
      {
        AgreedEditsAreCaught(d, r);
      }
    } else {
      var r := Report(Unavailable, Reporting(Told(d).mode, Told(d).temp), now);
      assert Differs(b, r.entity) && !Flushes(d, r);
    }
  }

  // ----- a second command before the first was taken up -----

  // The unit shows only what it showed when the second command was delivered, or what the
  // first had asked for.
  predicate LateFor(shown: Reading, first: Reading, r: Report) {
    && r.entity.Reporting?
    && (r.entity.mode == shown.mode || r.entity.mode == first.mode)
    && (r.entity.setpoint == shown.temp || (first.temp.Some? && r.entity.setpoint == first.temp))
  }

  // What the first command asked for in a field is what the unit showed, or the second asks
  // for it too.
  predicate StillVouchedFor(shown: Reading, first: Reading, second: Reading) {
    && (first.mode == shown.mode || first.mode == second.mode)
    && (first.temp.Some? ==> first.temp == shown.temp || first.temp == second.temp)
  }

  // A second command drops the first: a unit that then takes up the first, late, is never
  // mistaken for a hand edit exactly when the first asked for nothing new.
  lemma {:induction false} LateFirstCommandPassesIff(d: Detector, live: Entity, first: Reading, second: Reading,
        shown: Reading, sent: int, now: int)
    requires d.commanded == Some(first) && live.Reporting? && ShownAt(d, live, second, shown)
    requires !(0 <= now - sent < CLIMATE_ECHO_WINDOW_S)
    ensures var d2 := Delivered(d, live, second, sent);
            (forall r: Report :: r.now == now && LateFor(shown, first, r) ==> !Flushes(d2, r))
            <==> StillVouchedFor(shown, first, second)
  {
    var d2 := Delivered(d, live, second, sent);
    if !StillVouchedFor(shown, first, second) {
      var r := Report(live, Reporting(first.mode, if first.temp.Some? then first.temp else shown.temp), now);
      assert LateFor(shown, first, r) && Flushes(d2, r);
    }
  }
}
