// From the slot a zone follows to the schedule its band is resolved from.

module ZoneBands {
  import opened ComfortTypes
  import opened Schedule
  import opened StoreData
  import Lookahead
  import Peak

  // The transitions of a slot's current list; none when there is no slot, the list is empty or
  // it is corrupt.
  method ScheduleTransitions(slot: Option<Slot>) returns (r: Option<seq<Transition>>)
    ensures r.Some? <==> slot.Some? && slot.value.current != [] && Acceptable(slot.value.current)
    ensures r.Some? ==> Normalized(r.value) && multiset(r.value) == multiset(slot.value.current)
  {
    if slot.None? || slot.value.current == [] {
      return None;
    }
    var normalized := NormalizeSchedule(slot.value.current);
    return if normalized.Ok? then Some(normalized.value) else None;
  }

  // Whatever the store holds, the band a zone resolves is made of something sound: a normalized
  // schedule, or the manual band alone.
  method BandSourceFor(slot: Option<Slot>, manual: Band, rampMinutes: nat, peak: Peak.Settings, utcOffset: int)
    returns (z: Lookahead.BandSource)
    requires Proper(manual) && Peak.OffsetsSensible(peak)
    ensures Lookahead.Sound(z) && z.manual == manual && z.rampMinutes == rampMinutes && z.peak == peak
    ensures z.utcOffset == utcOffset
    ensures z.schedule.Some? <==> slot.Some? && slot.value.current != [] && Acceptable(slot.value.current)
    ensures z.schedule.Some? ==> multiset(z.schedule.value) == multiset(slot.value.current)
  {
    var transitions := ScheduleTransitions(slot);
    if transitions.Some? {
      assert |multiset(transitions.value)| == |transitions.value|;
      assert |multiset(slot.value.current)| == |slot.value.current|;
    }
    z := Lookahead.BandSource(transitions, manual, rampMinutes, peak, utcOffset);
  }

  // A schedule written without a current list is in force as its baseline.
  lemma {:induction false} BaselineDoubles(baseline: seq<Transition>, current: Option<seq<Transition>>)
    ensures Written(baseline, None) == Slot(baseline, baseline)
    ensures current.Some? ==> Written(baseline, current) == Slot(baseline, current.value)
  {
  }
}
