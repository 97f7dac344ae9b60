// The store object: the dictionaries its mutators update in place, each mutator proved to do
// what StoreData says it does to the whole payload.

module Store {
  import opened ComfortTypes
  import opened Schedule
  import opened StoreData
  import StoreFacts

  // A mutator either does exactly what the specification says, or refuses and changes nothing.
  predicate Follows(spec: Result<Data, StoreError>, before: Data, after: Data, error: Option<StoreError>) {
    match spec
    case Ok(d) => after == d && error == None
    case Err(e) => after == before && error == Some(e)
  }

  class ComfortBandStore {
    const text: Text
    var zones: map<string, Zone>
    var profiles: map<string, Profile>
    var shared: map<string, SharedSchedule>
    var activeProfile: string
    var defaultProfile: string

    function View(): Data
      reads this
    {
      Data(zones, profiles, shared, activeProfile, defaultProfile)
    }

    // A first start: two built-in profiles and nothing else.
    constructor (text: Text)
      ensures this.text == text && View() == StoreFacts.FRESH
      ensures Valid(text, View()) && WithinCaps(View())
    {
      this.text := text;
      zones := map[];
      profiles := StoreFacts.FRESH_PROFILES;
      shared := map[];
      activeProfile := "home";
      defaultProfile := "home";
      StoreFacts.FreshIsValid(text);
    }

    // ----- zones -----

    method AddZone(z: string) returns (error: Option<StoreError>)
      modifies this`zones
      ensures Follows(StoreData.AddZone(old(View()), z), old(View()), View(), error)
    {
      if z in zones { return Some(ZoneExists); }
      zones := zones[z := Zone(map[], None)];
      error := None;
    }

    method RemoveZone(z: string)
      modifies this`zones
      ensures Follows(StoreData.RemoveZone(old(View()), z), old(View()), View(), None)
    {
      zones := zones - {z};
    }

    method SetZoneSchedule(z: string, profile: string, baseline: seq<Transition>, current: Option<seq<Transition>>)
      returns (error: Option<StoreError>)
      modifies this`zones
      ensures Follows(StoreData.SetZoneSchedule(old(View()), z, profile, Written(baseline, current)),
                      old(View()), View(), error)
    {
      if z !in zones { return Some(NoSuchZone); }
      if profile !in profiles { return Some(NoSuchProfile); }
      var persisted := Slot(baseline, if current.Some? then current.value else baseline);
      zones := zones[z := zones[z].(schedules := zones[z].schedules[profile := persisted])];
      error := None;
    }

    method SetZoneScheduleId(z: string, id: Option<string>) returns (error: Option<StoreError>)
      modifies this`zones
      ensures Follows(StoreData.SetZoneScheduleId(old(View()), z, id), old(View()), View(), error)
    {
      if z !in zones { return Some(NoSuchZone); }
      if id.Some? && id.value !in shared { return Some(NoSuchShared); }
      zones := zones[z := zones[z].(scheduleId := id)];
      error := None;
    }

    // ----- every zone, every shared schedule -----

    method EditEveryZone(e: SlotEdit)
      modifies this`zones
      ensures zones == EditZones(old(zones), e)
    {
      var todo := zones.Keys;
      while todo != {}
        invariant todo <= zones.Keys == old(zones).Keys
        invariant forall z :: z in zones && z in todo ==> zones[z] == old(zones)[z]
        invariant forall z :: z in zones && z !in todo ==> zones[z] == EditedZone(old(zones)[z], e)
      {
        var z :| z in todo;
        zones := zones[z := zones[z].(schedules := Edited(zones[z].schedules, e))];
        todo := todo - {z};
      }
    }

    method EditEveryShared(e: SlotEdit)
      modifies this`shared
      ensures shared == EditShared(old(shared), e)
    {
      var todo := shared.Keys;
      while todo != {}
        invariant todo <= shared.Keys == old(shared).Keys
        invariant forall s :: s in shared && s in todo ==> shared[s] == old(shared)[s]
        invariant forall s :: s in shared && s !in todo ==> shared[s] == EditedShared(old(shared)[s], e)
      {
        var s :| s in todo;
        shared := shared[s := shared[s].(schedules := Edited(shared[s].schedules, e))];
        todo := todo - {s};
      }
    }

    // ----- profiles -----

    method SetActiveProfile(name: string) returns (error: Option<StoreError>)
      modifies this`activeProfile
      ensures Follows(SetActive(old(View()), name), old(View()), View(), error)
    {
      if name !in profiles { return Some(NoSuchProfile); }
      activeProfile := name;
      error := None;
    }

    method AddProfile(name: string, description: string) returns (error: Option<StoreError>)
      modifies this`profiles
      ensures Follows(StoreData.AddProfile(old(View()), name, description), old(View()), View(), error)
    {
      if name in profiles { return Some(ProfileExists); }
      if |profiles| >= MAX_PROFILES { return Some(TooManyProfiles); }
      profiles := profiles[name := Profile(name, description)];
      error := None;
    }

    method CloneProfile(source: string, target: string, description: string) returns (error: Option<StoreError>)
      modifies this
      ensures Follows(StoreData.CloneProfile(old(View()), source, target, description), old(View()), View(), error)
    {
      if source !in profiles { return Some(NoSuchProfile); }
      if target in profiles { return Some(ProfileExists); }
      if |profiles| >= MAX_PROFILES { return Some(TooManyProfiles); }
      profiles := profiles[target := Profile(target, description)];
      EditEveryZone(Copy(source, target));
      EditEveryShared(Copy(source, target));
      error := None;
    }

    method RenameProfile(from: string, to: string) returns (error: Option<StoreError>)
      modifies this
      ensures Follows(StoreData.RenameProfile(old(View()), from, to), old(View()), View(), error)
    {
      if from !in profiles { return Some(NoSuchProfile); }
      if from == to { return None; }
      if to in profiles { return Some(ProfileExists); }
      var profile := profiles[from];
      profiles := profiles - {from};
      profiles := profiles[to := profile.(name := to)];
      EditEveryZone(Move(from, to));
      EditEveryShared(Move(from, to));
      if activeProfile == from { activeProfile := to; }
      if defaultProfile == from { defaultProfile := to; }
      error := None;
    }

    method RemoveProfile(name: string) returns (error: Option<StoreError>)
      modifies this
      ensures Follows(StoreData.RemoveProfile(old(View()), name), old(View()), View(), error)
    {
      if name == defaultProfile { return Some(IsDefaultProfile); }
      if name !in profiles { return Some(NoSuchProfile); }
      profiles := profiles - {name};
      EditEveryZone(Drop(name));
      EditEveryShared(Drop(name));
      if activeProfile == name { activeProfile := defaultProfile; }
      error := None;
    }

    // ----- shared schedules -----

    method NewSharedScheduleId(name: string) returns (id: string)
      ensures id == NewId(text, shared.Keys, name) && id !in shared
    {
      var base := BaseId(text, name);
      NewIdIsFresh(text, shared.Keys, name);
      if base !in shared { return base; }
      var i: nat := 2;
      while Numbered(base, i) in shared
        invariant i >= 2
        invariant FirstUnused(shared.Keys, base, i) == FirstUnused(shared.Keys, base, 2)
        decreases shared.Keys - TriedTo(base, i)
      {
        NextIsUntried(base, i);
        i := i + 1;
      }
      id := Numbered(base, i);
    }

    method SharedNameTaken(name: string, exclude: Option<string>) returns (taken: bool)
      ensures taken <==> Taken(text, shared, name, exclude)
    {
      var todo := shared.Keys;
      while todo != {}
        invariant todo <= shared.Keys
        invariant forall s :: s in shared && s !in todo && Some(s) != exclude ==> !SameName(text, shared[s].name, name)
      {
        var s :| s in todo;
        if Some(s) != exclude && SameName(text, shared[s].name, name) { return true; }
        todo := todo - {s};
      }
      taken := false;
    }

    method AddSharedSchedule(name: string, schedules: Slots) returns (r: Result<string, StoreError>)
      modifies this`shared
      ensures Follows(AddShared(text, old(View()), name, schedules),
                      old(View()), View(), if r.Ok? then None else Some(r.error))
      ensures r.Ok? ==> r.value !in old(shared) && r.value in shared && shared[r.value].schedules == schedules
    {
      var cleaned := CleanName(text, name);
      if cleaned.Err? { return Err(cleaned.error); }
      var taken := SharedNameTaken(cleaned.value, None);
      if taken { return Err(NameTaken); }
      if |shared| >= MAX_SHARED_SCHEDULES { return Err(TooManyShared); }
      var id := NewSharedScheduleId(cleaned.value);
      shared := shared[id := SharedSchedule(cleaned.value, schedules)];
      r := Ok(id);
    }

    method RenameSharedSchedule(id: string, name: string) returns (error: Option<StoreError>)
      modifies this`shared
      ensures Follows(RenameShared(text, old(View()), id, name), old(View()), View(), error)
    {
      if id !in shared { return Some(NoSuchShared); }
      var cleaned := CleanName(text, name);
      if cleaned.Err? { return Some(cleaned.error); }
      var taken := SharedNameTaken(cleaned.value, Some(id));
      if taken { return Some(NameTaken); }
      shared := shared[id := shared[id].(name := cleaned.value)];
      error := None;
    }

    function ZonesUsing(id: string): (users: set<string>)
      reads this
      ensures forall z :: z in users <==> z in zones && zones[z].scheduleId == Some(id)
    {
      UsersOf(zones, id)
    }

    method RemoveSharedSchedule(id: string) returns (affected: set<string>, error: Option<StoreError>)
      modifies this
      ensures Follows(RemoveShared(old(View()), id), old(View()), View(), error)
      ensures error == None ==> affected == UsersOf(old(zones), id) && UsersOf(zones, id) == {}
    {
      affected := {};
      if id !in shared { return affected, Some(NoSuchShared); }
      affected := ZonesUsing(id);
      Unassign(id, affected);
      shared := shared - {id};
      error := None;
    }

    method Unassign(id: string, affected: set<string>)
      requires affected == UsersOf(zones, id)
      modifies this`zones
      ensures zones == Unassigned(old(zones), id)
    {
      var todo := affected;
      while todo != {}
        invariant todo <= affected && zones.Keys == old(zones).Keys
        invariant forall z :: z in zones && (z in todo || z !in affected) ==> zones[z] == old(zones)[z]
        invariant forall z :: z in zones && z in affected && z !in todo ==>
          zones[z] == old(zones)[z].(scheduleId := None)
      {
        var z :| z in todo;
        zones := zones[z := zones[z].(scheduleId := None)];
        todo := todo - {z};
      }
    }

    method SetSharedSchedule(id: string, profile: string, baseline: seq<Transition>, current: Option<seq<Transition>>)
      returns (error: Option<StoreError>)
      modifies this`shared
      ensures Follows(StoreData.SetSharedSchedule(old(View()), id, profile, Written(baseline, current)),
                      old(View()), View(), error)
    {
      if id !in shared { return Some(NoSuchShared); }
      if profile !in profiles { return Some(NoSuchProfile); }
      var persisted := Slot(baseline, if current.Some? then current.value else baseline);
      shared := shared[id := shared[id].(schedules := shared[id].schedules[profile := persisted])];
      error := None;
    }

    // ----- the registry's guarded create and delete -----

    method CreateSharedSchedule(name: string, seedFrom: Option<string>) returns (r: Result<string, StoreError>)
      modifies this`shared
      ensures Follows(CreateShared(text, old(View()), name, seedFrom),
                      old(View()), View(), if r.Ok? then None else Some(r.error))
    {
      if seedFrom.Some? && seedFrom.value !in zones { return Err(NoSuchZone); }
      r := AddSharedSchedule(name,
                             if seedFrom.Some? && seedFrom.value != "" then zones[seedFrom.value].schedules else map[]);
    }

    method DeleteSharedSchedule(id: string, cascade: bool) returns (affected: set<string>, error: Option<StoreError>)
      modifies this
      ensures Follows(DeleteShared(old(View()), id, cascade), old(View()), View(), error)
    {
      affected := {};
      if id !in shared { return affected, Some(NoSuchShared); }
      var users := ZonesUsing(id);
      if users != {} && !cascade { return affected, Some(SharedInUse); }
      affected, error := RemoveSharedSchedule(id);
    }

    // ----- what a refresh of a zone reads -----

    method ScheduleFor(z: string) returns (slot: Option<Slot>)
      requires z in zones
      ensures slot == Resolved(View(), z)
    {
      var id := zones[z].scheduleId;
      var slots := if id.Some? && id.value in shared then shared[id.value].schedules else zones[z].schedules;
      slot := if activeProfile in slots then Some(slots[activeProfile]) else None;
      if slot.None? && defaultProfile in slots {
        slot := Some(slots[defaultProfile]);
      }
    }
  }
}
