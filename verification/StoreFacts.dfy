// What the store keeps over every run of mutations, and which of them leave the schedule a
// zone follows untouched.

module StoreFacts {
  import opened ComfortTypes
  import opened StoreData

  const FRESH_PROFILES := map["home" := Profile("home", "Default schedule when the house is occupied."),
                              "away" := Profile("away", "Cooler heating / warmer cooling for an empty house.")]

  const FRESH := Data(map[], FRESH_PROFILES, map[], "home", "home")

  lemma {:induction false} FreshIsValid(t: Text)
    ensures Valid(t, FRESH) && WithinCaps(FRESH)
  {
  }

  // ----- editing every slot map -----

  lemma {:induction false} EditKeepsReferences(d: Data, e: SlotEdit, profiles: map<string, Profile>, active: string,
        fallback: string)
    requires NothingDangles(d)
    requires match e
      case Move(from, to) => profiles.Keys == d.profiles.Keys - {from} + {to}
      case Copy(_, target) => profiles.Keys == d.profiles.Keys + {target}
      case Drop(name) => profiles.Keys == d.profiles.Keys - {name}
    ensures NothingDangles(EditSlots(Data(d.zones, profiles, d.shared, active, fallback), e))
  {
  }

  lemma {:induction false} EditKeepsNames(t: Text, d: Data, e: SlotEdit, profiles: map<string, Profile>,
        active: string, fallback: string)
    requires NamesAreDistinct(t, d)
    ensures NamesAreDistinct(t, EditSlots(Data(d.zones, profiles, d.shared, active, fallback), e))
  {
  }

  // ----- the invariant, mutator by mutator -----

  lemma {:induction false} CloneKeepsValid(t: Text, d: Data, source: string, target: string, description: string)
    requires Valid(t, d) && CloneProfile(d, source, target, description).Ok?
    ensures Valid(t, CloneProfile(d, source, target, description).value)
  {
    var profiles := d.profiles[target := Profile(target, description)];
    EditKeepsReferences(d, Copy(source, target), profiles, d.active, d.fallback);
    EditKeepsNames(t, d, Copy(source, target), profiles, d.active, d.fallback);
  }

  lemma {:induction false} RenameKeepsValid(t: Text, d: Data, from: string, to: string)
    requires Valid(t, d) && RenameProfile(d, from, to).Ok?
    ensures Valid(t, RenameProfile(d, from, to).value)
  {
    if from != to {
      var profiles := RenamedProfiles(d.profiles, from, to);
      var active, fallback := Moved(d.active, from, to), Moved(d.fallback, from, to);
      EditKeepsReferences(d, Move(from, to), profiles, active, fallback);
      EditKeepsNames(t, d, Move(from, to), profiles, active, fallback);
    }
  }

  lemma {:induction false} RemoveKeepsValid(t: Text, d: Data, name: string)
    requires Valid(t, d) && RemoveProfile(d, name).Ok?
    ensures Valid(t, RemoveProfile(d, name).value)
  {
  }

  lemma {:induction false} AddedNameIsDistinct(t: Text, d: Data, id: string, name: string, slots: Slots)
    requires NamesAreDistinct(t, d) && id !in d.shared
    requires name != "" && !SameName(t, name, OWN_SCHEDULE_LABEL) && !Taken(t, d.shared, name, None)
    ensures NamesAreDistinct(t, d.(shared := d.shared[id := SharedSchedule(name, slots)]))
  {
  }

  lemma {:induction false} AddedReferences(d: Data, id: string, shared: SharedSchedule)
    requires NothingDangles(d) && id !in d.shared
    ensures NothingDangles(d.(shared := d.shared[id := shared])) <==> shared.schedules.Keys <= d.profiles.Keys
  {
    var r := d.(shared := d.shared[id := shared]);
    assert r.shared[id] == shared;
  }

  // Seeding a shared schedule keeps the store sound exactly when the seed names no profile
  // that does not exist; the store itself does not look.
  lemma {:induction false} AddSharedValidIff(t: Text, d: Data, name: string, slots: Slots)
    requires Valid(t, d) && AddShared(t, d, name, slots).Ok?
    ensures Valid(t, AddShared(t, d, name, slots).value) <==> slots.Keys <= d.profiles.Keys
  {
    var cleaned := CleanName(t, name).value;
    var id := NewId(t, d.shared.Keys, cleaned);
    NewIdIsFresh(t, d.shared.Keys, cleaned);
    AddedNameIsDistinct(t, d, id, cleaned, slots);
    AddedReferences(d, id, SharedSchedule(cleaned, slots));
  }

  lemma {:induction false} RenameSharedKeepsValid(t: Text, d: Data, id: string, name: string)
    requires Valid(t, d) && RenameShared(t, d, id, name).Ok?
    ensures Valid(t, RenameShared(t, d, id, name).value)
  {
  }

  lemma {:induction false} DeleteSharedKeepsValid(t: Text, d: Data, id: string, cascade: bool)
    requires Valid(t, d) && DeleteShared(d, id, cascade).Ok?
    ensures Valid(t, DeleteShared(d, id, cascade).value)
  {
  }

  lemma {:induction false} ZonesKeepValid(t: Text, d: Data, c: Command)
    requires Valid(t, d) && (c.AddingZone? || c.RemovingZone? || c.WritingZone? || c.Assigning?)
    ensures Valid(t, Settle(d, Perform(t, d, c)))
  {
    match c
    case AddingZone(_) =>
    case RemovingZone(_) =>
    case WritingZone(_, _, _) =>
    case Assigning(_, _) =>
  }

  lemma {:induction false} WritesKeepValid(t: Text, d: Data, c: Command)
    requires Valid(t, d) && (c.Activating? || c.AddingProfile? || c.WritingShared?)
    ensures Valid(t, Settle(d, Perform(t, d, c)))
  {
    match c
    case Activating(_) =>
    case AddingProfile(_, _) =>
    case WritingShared(_, _, _) =>
  }

  // A seed that is added names existing profiles only.
  predicate SeedIsSound(t: Text, d: Data, c: Command) {
    c.AddingShared? && Perform(t, d, c).Ok? ==> c.slots.Keys <= d.profiles.Keys
  }

  lemma {:induction false} SharedKeepValidIff(t: Text, d: Data, c: Command)
    requires Valid(t, d) && Perform(t, d, c).Ok?
    requires c.AddingShared? || c.CreatingShared? || c.RenamingShared? || c.DeletingShared?
    ensures Valid(t, Perform(t, d, c).value) <==> SeedIsSound(t, d, c)
  {
    match c
    case AddingShared(name, slots) => AddSharedValidIff(t, d, name, slots);
    case CreatingShared(name, seedFrom) =>
      AddSharedValidIff(t, d, name,
                        if seedFrom.Some? && seedFrom.value != "" then d.zones[seedFrom.value].schedules else map[]);
    case RenamingShared(id, name) => RenameSharedKeepsValid(t, d, id, name);
    case DeletingShared(id, cascade) => DeleteSharedKeepsValid(t, d, id, cascade);
  }

  // A mutation, refused or not, leaves a sound store sound exactly unless it seeds a shared
  // schedule with profiles that do not exist.
  lemma {:induction false} StepKeepsValidIff(t: Text, d: Data, c: Command)
    requires Valid(t, d)
    ensures Valid(t, Settle(d, Perform(t, d, c))) <==> SeedIsSound(t, d, c)
  {
    if Perform(t, d, c).Ok? {
      match c
      case Cloning(source, target, description) => CloneKeepsValid(t, d, source, target, description);
      case Renaming(from, to) => RenameKeepsValid(t, d, from, to);
      case RemovingProfile(profile) => RemoveKeepsValid(t, d, profile);
      case AddingShared(_, _) => SharedKeepValidIff(t, d, c);
      case CreatingShared(_, _) => SharedKeepValidIff(t, d, c);
      case RenamingShared(_, _) => SharedKeepValidIff(t, d, c);
      case DeletingShared(_, _) => SharedKeepValidIff(t, d, c);
      case AddingZone(_) => ZonesKeepValid(t, d, c);
      case RemovingZone(_) => ZonesKeepValid(t, d, c);
      case WritingZone(_, _, _) => ZonesKeepValid(t, d, c);
      case Assigning(_, _) => ZonesKeepValid(t, d, c);
      case _ => WritesKeepValid(t, d, c);
    }
  }

  // A seed that shows it: one slot for a profile nobody made, on a fresh store.
  lemma {:induction false} ForeignSeedBreaksTheStore()
    ensures var t := Text(x => x, x => x, x => x);
            var seed := Perform(t, FRESH, AddingShared("evenings", map["gone" := Slot([], [])]));
            Valid(t, FRESH) && seed.Ok? && !Valid(t, seed.value)
  {
    var t := Text(x => x, x => x, x => x);
    var slots := map["gone" := Slot([], [])];
    FreshIsValid(t);
    assert "evenings" != OWN_SCHEDULE_LABEL by { assert "evenings"[0] != OWN_SCHEDULE_LABEL[0]; }
    assert CleanName(t, "evenings") == Ok("evenings");
    assert "gone" in slots.Keys && "gone" !in FRESH_PROFILES by {
      assert "gone"[0] != "home"[0] && "gone"[0] != "away"[0];
    }
    AddSharedValidIff(t, FRESH, "evenings", slots);
  }

  lemma {:induction false} NoLarger<V, W>(a: map<string, V>, b: map<string, W>)
    requires a.Keys <= b.Keys
    ensures |a| <= |b|
  {
    assert b.Keys == a.Keys + (b.Keys - a.Keys);
    assert |a.Keys| <= |b.Keys|;
  }

  lemma {:induction false} RenameKeepsProfileCap(d: Data, from: string, to: string)
    requires |d.profiles| <= MAX_PROFILES
    ensures |Settle(d, RenameProfile(d, from, to)).profiles| <= MAX_PROFILES
  {
  }

  lemma {:induction false} RemoveKeepsProfileCap(d: Data, name: string)
    ensures |Settle(d, RemoveProfile(d, name)).profiles| <= |d.profiles|
  {
  }

  lemma {:induction false} AddKeepsProfileCap(d: Data, name: string, description: string)
    requires |d.profiles| <= MAX_PROFILES
    ensures |Settle(d, AddProfile(d, name, description)).profiles| <= MAX_PROFILES
  {
  }

  lemma {:induction false} CloneKeepsProfileCap(d: Data, source: string, target: string, description: string)
    requires |d.profiles| <= MAX_PROFILES
    ensures |Settle(d, CloneProfile(d, source, target, description)).profiles| <= MAX_PROFILES
  {
  }

  lemma {:induction false} SharedKeepsProfiles(t: Text, d: Data, c: Command)
    requires c.AddingShared? || c.CreatingShared? || c.RenamingShared? || c.DeletingShared? || c.WritingShared?
    ensures Settle(d, Perform(t, d, c)).profiles == d.profiles
  {
    match c
    case AddingShared(name, slots) =>
    case CreatingShared(name, seedFrom) =>
    case RenamingShared(id, name) =>
    case DeletingShared(id, cascade) =>
    case WritingShared(id, profile, slot) =>
  }

  lemma {:induction false} StepKeepsProfileCap(t: Text, d: Data, c: Command)
    requires |d.profiles| <= MAX_PROFILES
    ensures |Settle(d, Perform(t, d, c)).profiles| <= MAX_PROFILES
  {
    match c
    case Renaming(from, to) => RenameKeepsProfileCap(d, from, to);
    case RemovingProfile(profile) => RemoveKeepsProfileCap(d, profile);
    case AddingProfile(profile, description) => AddKeepsProfileCap(d, profile, description);
    case Cloning(source, target, description) => CloneKeepsProfileCap(d, source, target, description);
    case AddingZone(_) =>
    case RemovingZone(_) =>
    case WritingZone(_, _, _) =>
    case Assigning(_, _) =>
    case Activating(_) =>
    case _ => SharedKeepsProfiles(t, d, c);
  }

  // Every other mutation leaves the ids of the shared schedules, or drops one.
  lemma {:induction false} OthersAddNoShared(t: Text, d: Data, c: Command)
    requires !c.AddingShared? && !c.CreatingShared?
    ensures Settle(d, Perform(t, d, c)).shared.Keys <= d.shared.Keys
  {
    match c
    case Renaming(from, to) =>
    case RemovingProfile(profile) =>
    case Cloning(source, target, description) =>
    case RenamingShared(id, name) =>
    case DeletingShared(id, cascade) =>
    case _ =>
  }

  lemma {:induction false} StepKeepsSharedCap(t: Text, d: Data, c: Command)
    requires |d.shared| <= MAX_SHARED_SCHEDULES
    ensures |Settle(d, Perform(t, d, c)).shared| <= MAX_SHARED_SCHEDULES
  {
    if c.AddingShared? {
      assert Perform(t, d, c) == AddShared(t, d, c.name, c.slots);
    } else if c.CreatingShared? {
      assert Perform(t, d, c) == CreateShared(t, d, c.name, c.seedFrom);
    } else {
      OthersAddNoShared(t, d, c);
      NoLarger(Settle(d, Perform(t, d, c)).shared, d.shared);
    }
  }

  lemma {:induction false} StepKeepsCaps(t: Text, d: Data, c: Command)
    requires WithinCaps(d)
    ensures WithinCaps(Settle(d, Perform(t, d, c)))
  {
    StepKeepsProfileCap(t, d, c);
    StepKeepsSharedCap(t, d, c);
  }

  // Every seed added in the run is sound when it is added.
  predicate SeedsAreSound(t: Text, d: Data, cs: seq<Command>) {
    cs == [] ||
    (SeedsAreSound(t, d, cs[..|cs| - 1]) && SeedIsSound(t, After(t, d, cs[..|cs| - 1]), Last(cs)))
  }

  // From a fresh store, or any sound one, no run of mutations breaks a reference or a name,
  // as long as the seeds are sound, nor ever exceeds a cap.
  lemma {:induction false} RunKeepsValid(t: Text, d: Data, cs: seq<Command>)
    requires Valid(t, d)
    ensures SeedsAreSound(t, d, cs) ==> Valid(t, After(t, d, cs))
    ensures WithinCaps(d) ==> WithinCaps(After(t, d, cs))
  {
    if cs != [] {
      RunKeepsValid(t, d, cs[..|cs| - 1]);
      var before := After(t, d, cs[..|cs| - 1]);
      if Valid(t, before) {
        StepKeepsValidIff(t, before, Last(cs));
      }
      if WithinCaps(before) {
        StepKeepsCaps(t, before, Last(cs));
      }
    }
  }

  // The store is sound at every point of a run exactly when every seed was.
  ghost predicate ValidThroughout(t: Text, d: Data, cs: seq<Command>) {
    Valid(t, After(t, d, cs)) && (cs == [] || ValidThroughout(t, d, cs[..|cs| - 1]))
  }

  lemma {:induction false} RunIsValidIff(t: Text, d: Data, cs: seq<Command>)
    requires Valid(t, d)
    ensures ValidThroughout(t, d, cs) <==> SeedsAreSound(t, d, cs)
  {
    if cs != [] {
      var rest := cs[..|cs| - 1];
      RunIsValidIff(t, d, rest);
      RunKeepsValid(t, d, rest);
      if Valid(t, After(t, d, rest)) {
        StepKeepsValidIff(t, After(t, d, rest), Last(cs));
      }
    }
  }

  // The registry's seeds are a zone's own schedules, so its runs need no such care.
  lemma {:induction false} RegistrySeedsAreSound(t: Text, d: Data, cs: seq<Command>)
    requires forall i :: 0 <= i < |cs| ==> !cs[i].AddingShared?
    ensures SeedsAreSound(t, d, cs)
  {
    if cs != [] {
      RegistrySeedsAreSound(t, d, cs[..|cs| - 1]);
    }
  }

  // ----- what is refused, and what is done -----

  // The mutation is refused.
  predicate Refused(t: Text, d: Data, c: Command) {
    match c
    case AddingZone(z) => z in d.zones
    case RemovingZone(_) => false
    case WritingZone(z, p, _) => z !in d.zones || p !in d.profiles
    case Assigning(z, id) => z !in d.zones || (id.Some? && id.value !in d.shared)
    case Activating(p) => p !in d.profiles
    case AddingProfile(p, _) => p in d.profiles || |d.profiles| >= 50
    case Cloning(source, target, _) => source !in d.profiles || target in d.profiles || |d.profiles| >= 50
    case Renaming(from, to) => from !in d.profiles || (from != to && to in d.profiles)
    case RemovingProfile(p) => p == d.fallback || p !in d.profiles
    case AddingShared(name, _) => NameRefused(t, d, name, None) || |d.shared| >= 50
    case CreatingShared(name, seedFrom) =>
      (seedFrom.Some? && seedFrom.value !in d.zones) || NameRefused(t, d, name, None) || |d.shared| >= 50
    case RenamingShared(id, name) => id !in d.shared || NameRefused(t, d, name, Some(id))
    case DeletingShared(id, cascade) =>
      id !in d.shared || (!cascade && exists z :: z in d.zones && d.zones[z].scheduleId == Some(id))
    case WritingShared(id, p, _) => id !in d.shared || p !in d.profiles
  }

  // Blank, reserved, or the name of another schedule but for case.
  predicate NameRefused(t: Text, d: Data, name: string, id: Option<string>) {
    || t.strip(name) == ""
    || t.casefold(t.strip(name)) == t.casefold("Own schedule")
    || exists s :: s in d.shared && Some(s) != id && t.casefold(d.shared[s].name) == t.casefold(t.strip(name))
  }

  lemma {:induction false} NameRefusedIff(t: Text, d: Data, name: string, id: Option<string>)
    ensures NameRefused(t, d, name, id) <==>
              (CleanName(t, name).Err? || Taken(t, d.shared, CleanName(t, name).value, id))
    ensures CleanName(t, name).Ok? ==> CleanName(t, name).value == t.strip(name)
  {
  }

  // A mutation is refused exactly for these reasons.
  lemma {:induction false} RefusedIff(t: Text, d: Data, c: Command)
    ensures Perform(t, d, c).Err? <==> Refused(t, d, c)
  {
    match c
    case AddingShared(name, _) => NameRefusedIff(t, d, name, None);
    case CreatingShared(name, _) => NameRefusedIff(t, d, name, None);
    case RenamingShared(id, name) => NameRefusedIff(t, d, name, Some(id));
    case DeletingShared(id, cascade) => UsedIff(d, id);
    case _ =>
  }

  lemma {:induction false} UsedIff(d: Data, id: string)
    ensures UsersOf(d.zones, id) != {} <==> exists z :: z in d.zones && d.zones[z].scheduleId == Some(id)
  {
    if z :| z in d.zones && d.zones[z].scheduleId == Some(id) {
      assert z in UsersOf(d.zones, id);
    }
  }

  // What the mutation is for is there afterwards.
  ghost predicate Done(t: Text, d: Data, c: Command, r: Data) {
    match c
    case AddingZone(z) => z in r.zones && r.zones[z] == Zone(map[], None)
    case RemovingZone(z) => z !in r.zones
    case WritingZone(z, p, slot) => z in r.zones && Slotted(r.zones[z].schedules, p) == Some(slot)
    case Assigning(z, id) => z in r.zones && r.zones[z].scheduleId == id
    case Activating(p) => r.active == p
    case AddingProfile(p, description) => p in r.profiles && r.profiles[p].description == description
    case Cloning(_, target, description) => target in r.profiles && r.profiles[target].description == description
    case Renaming(from, to) =>
      && from in d.profiles && to in r.profiles && r.profiles[to].description == d.profiles[from].description
      && (from != to ==> from !in r.profiles)
    case RemovingProfile(p) =>
      && p !in r.profiles
      && (forall z :: z in r.zones ==> p !in r.zones[z].schedules)
      && (forall s :: s in r.shared ==> p !in r.shared[s].schedules)
    case AddingShared(name, slots) =>
      exists id :: id !in d.shared && r.shared == d.shared[id := SharedSchedule(t.strip(name), slots)]
    case CreatingShared(name, seedFrom) =>
      exists id :: id !in d.shared && r.shared == d.shared[id := SharedSchedule(t.strip(name), SeedOf(d, seedFrom))]
    case RenamingShared(id, name) =>
      id in d.shared && r.shared == d.shared[id := d.shared[id].(name := t.strip(name))]
    case DeletingShared(id, _) =>
      && r.shared == d.shared - {id}
      && (forall z :: z in r.zones ==> r.zones[z].scheduleId != Some(id))
    case WritingShared(id, p, slot) => id in r.shared && Slotted(r.shared[id].schedules, p) == Some(slot)
  }

  function SeedOf(d: Data, seedFrom: Option<string>): Slots {
    if seedFrom.Some? && seedFrom.value != "" && seedFrom.value in d.zones
    then d.zones[seedFrom.value].schedules else map[]
  }

  lemma {:induction false} AddSharedDone(t: Text, d: Data, name: string, slots: Slots)
    requires AddShared(t, d, name, slots).Ok?
    ensures var added := SharedSchedule(t.strip(name), slots);
            exists id :: id !in d.shared && AddShared(t, d, name, slots).value.shared == d.shared[id := added]
  {
    NewIdIsFresh(t, d.shared.Keys, CleanName(t, name).value);
  }

  lemma {:induction false} ZoneEditsDone(t: Text, d: Data, c: Command)
    requires Perform(t, d, c).Ok?
    requires c.AddingZone? || c.RemovingZone? || c.WritingZone? || c.Assigning?
    ensures Done(t, d, c, Perform(t, d, c).value)
  {
  }

  lemma {:induction false} ProfileEditsDone(t: Text, d: Data, c: Command)
    requires Perform(t, d, c).Ok?
    requires c.Activating? || c.AddingProfile? || c.Cloning? || c.Renaming? || c.RemovingProfile?
    ensures Done(t, d, c, Perform(t, d, c).value)
  {
  }

  lemma {:induction false} SharedEditsDone(t: Text, d: Data, c: Command)
    requires Perform(t, d, c).Ok?
    requires c.RenamingShared? || c.DeletingShared? || c.WritingShared?
    ensures Done(t, d, c, Perform(t, d, c).value)
  {
  }

  lemma {:induction false} SharedAdditionsDone(t: Text, d: Data, c: Command)
    requires Perform(t, d, c).Ok? && (c.AddingShared? || c.CreatingShared?)
    ensures Done(t, d, c, Perform(t, d, c).value)
  {
    match c
    case AddingShared(name, slots) => AddSharedDone(t, d, name, slots);
    case CreatingShared(name, seedFrom) => AddSharedDone(t, d, name, SeedOf(d, seedFrom));
  }

  // An accepted mutation does what it is for.
  lemma {:induction false} AcceptedIsDone(t: Text, d: Data, c: Command)
    requires Perform(t, d, c).Ok?
    ensures Done(t, d, c, Perform(t, d, c).value)
  {
    if c.AddingZone? || c.RemovingZone? || c.WritingZone? || c.Assigning? {
      ZoneEditsDone(t, d, c);
    } else if c.AddingShared? || c.CreatingShared? {
      SharedAdditionsDone(t, d, c);
    } else if c.RenamingShared? || c.DeletingShared? || c.WritingShared? {
      SharedEditsDone(t, d, c);
    } else {
      ProfileEditsDone(t, d, c);
    }
  }

  // ----- the schedule a zone follows -----

  // What the zone would follow with this profile active.
  function Under(d: Data, z: string, profile: string): Option<Slot>
    requires z in d.zones
  {
    Resolved(d.(active := profile), z)
  }

  // A zone assigned to a schedule that exists follows its slots, any other zone its own.
  lemma {:induction false} FollowsTheAssignment(d: Data, z: string)
    requires z in d.zones
    ensures d.zones[z].scheduleId.None? ==> SourceOf(d, z) == d.zones[z].schedules
    ensures d.zones[z].scheduleId.Some? && d.zones[z].scheduleId.value in d.shared ==>
              SourceOf(d, z) == d.shared[d.zones[z].scheduleId.value].schedules
    ensures d.zones[z].scheduleId.Some? && d.zones[z].scheduleId.value !in d.shared ==>
              SourceOf(d, z) == d.zones[z].schedules
  {
  }

  // Under any profile a zone follows that profile's slot when it has one, the default
  // profile's when it has only that, and no schedule at all when it has neither.
  lemma {:induction false} FollowsProfileThenDefault(d: Data, z: string, p: string)
    requires z in d.zones
    ensures p in SourceOf(d, z) ==> Under(d, z, p) == Some(SourceOf(d, z)[p])
    ensures p !in SourceOf(d, z) ==> Under(d, z, p) == Under(d, z, d.fallback)
    ensures p !in SourceOf(d, z) && d.fallback !in SourceOf(d, z) ==> Under(d, z, p) == None
    ensures Resolved(d, z) == Under(d, z, d.active)
  {
  }

  // A slot written to a zone with its own schedule, or to a shared schedule, is what the zones
  // that follow it resolve to under that profile.
  lemma {:induction false} WritingIsFollowed(d: Data, z: string, p: string, slot: Slot)
    requires z in d.zones && p in d.profiles
    ensures d.zones[z].scheduleId.None? ==>
              SetZoneSchedule(d, z, p, slot).Ok? && Under(SetZoneSchedule(d, z, p, slot).value, z, p) == Some(slot)
    ensures d.zones[z].scheduleId.Some? && d.zones[z].scheduleId.value in d.shared ==>
              var r := SetSharedSchedule(d, d.zones[z].scheduleId.value, p, slot);
              r.Ok? && Under(r.value, z, p) == Some(slot)
  {
  }

  // An assignment is followed at once, and so is taking it back.
  lemma {:induction false} AssigningIsFollowed(d: Data, z: string, id: string)
    requires z in d.zones && id in d.shared
    ensures var r := SetZoneScheduleId(d, z, Some(id));
            r.Ok? && Resolved(r.value, z) == FirstOf(d.shared[id].schedules, d.active, d.fallback)
    ensures var r := SetZoneScheduleId(d, z, None);
            r.Ok? && Resolved(r.value, z) == FirstOf(d.zones[z].schedules, d.active, d.fallback)
  {
  }

  // Activating a profile gives every zone what it was said to have under that profile.
  lemma {:induction false} ActivatingIsFollowed(d: Data, z: string, p: string)
    requires z in d.zones && p in d.profiles
    ensures SetActive(d, p).Ok? && SetActive(d, p).value.active == p
    ensures Resolved(SetActive(d, p).value, z) == Under(d, z, p)
  {
  }

  lemma {:induction false} SourceIsKnown(d: Data, z: string)
    requires NothingDangles(d) && z in d.zones
    ensures SourceOf(d, z).Keys <= d.profiles.Keys
  {
  }

  lemma {:induction false} EditedSource(d: Data, e: SlotEdit, z: string)
    requires z in d.zones
    ensures SourceOf(EditSlots(d, e), z) == Edited(SourceOf(d, z), e)
  {
  }

  // Renaming a profile changes no zone's schedule, whichever profile is or becomes active.
  lemma {:induction false} RenameKeepsResolved(d: Data, from: string, to: string, z: string, profile: string)
    requires ProfilesStand(d) && NothingDangles(d) && z in d.zones && profile in d.profiles
    requires RenameProfile(d, from, to).Ok?
    ensures z in RenameProfile(d, from, to).value.zones
    ensures Under(RenameProfile(d, from, to).value, z, Moved(profile, from, to)) == Under(d, z, profile)
    ensures RenameProfile(d, from, to).value.active == Moved(d.active, from, to)
  {
    if from != to {
      SourceIsKnown(d, z);
      EditedSource(d.(profiles := RenamedProfiles(d.profiles, from, to),
                      active := Moved(profile, from, to), fallback := Moved(d.fallback, from, to)), Move(from, to), z);
    }
  }

  // A clone, once active, gives every zone what its source gave, and no other profile notices.
  lemma {:induction false} CloneKeepsResolved(d: Data, source: string, target: string, description: string, z: string,
        profile: string)
    requires ProfilesStand(d) && NothingDangles(d) && z in d.zones && profile in d.profiles
    requires CloneProfile(d, source, target, description).Ok?
    ensures z in CloneProfile(d, source, target, description).value.zones
    ensures Under(CloneProfile(d, source, target, description).value, z, target) == Under(d, z, source)
    ensures Under(CloneProfile(d, source, target, description).value, z, profile) == Under(d, z, profile)
  {
  }

  // Removing a profile changes no schedule under the others; removing the active one gives
  // every zone what activating the default would have.
  lemma {:induction false} RemoveKeepsResolved(d: Data, name: string, z: string, profile: string)
    requires ProfilesStand(d) && z in d.zones && profile in d.profiles && profile != name
    requires RemoveProfile(d, name).Ok?
    ensures z in RemoveProfile(d, name).value.zones
    ensures Under(RemoveProfile(d, name).value, z, profile) == Under(d, z, profile)
    ensures Resolved(RemoveProfile(d, name).value, z) == Under(d, z, if d.active == name then d.fallback else d.active)
  {
  }

  lemma {:induction false} MoveBack(s: Slots, from: string, to: string)
    requires to !in s && from != to
    ensures Edited(Edited(s, Move(from, to)), Move(to, from)) == s
  {
  }

  lemma {:induction false} RenamedBack(profiles: map<string, Profile>, from: string, to: string)
    requires from in profiles && to !in profiles && profiles[from].name == from
    ensures RenamedProfiles(RenamedProfiles(profiles, from, to), to, from) == profiles
  {
  }

  // Renaming back restores the whole store.
  lemma {:induction false} RenameIsUndone(d: Data, from: string, to: string)
    requires ProfilesStand(d) && NothingDangles(d) && RenameProfile(d, from, to).Ok?
    ensures RenameProfile(RenameProfile(d, from, to).value, to, from) == Ok(d)
  {
    if from != to {
      var mid := RenameProfile(d, from, to).value;
      var r := RenameProfile(mid, to, from).value;
      RenamedBack(d.profiles, from, to);
      forall z | z in d.zones ensures r.zones[z] == d.zones[z] {
        MoveBack(d.zones[z].schedules, from, to);
      }
      forall s | s in d.shared ensures r.shared[s] == d.shared[s] {
        MoveBack(d.shared[s].schedules, from, to);
      }
      assert r.zones == d.zones && r.shared == d.shared;
    }
  }

  // Deleting a shared schedule sends its zones back to their own schedule and touches no other.
  lemma {:induction false} DeleteSharedResolves(d: Data, id: string, cascade: bool, z: string)
    requires NothingDangles(d) && z in d.zones && DeleteShared(d, id, cascade).Ok?
    ensures z in DeleteShared(d, id, cascade).value.zones
    ensures Resolved(DeleteShared(d, id, cascade).value, z) ==
            if d.zones[z].scheduleId == Some(id) then FirstOf(d.zones[z].schedules, d.active, d.fallback)
            else Resolved(d, z)
    ensures !cascade ==> d.zones[z].scheduleId != Some(id)
  {
    if d.zones[z].scheduleId == Some(id) {
      assert z in UsersOf(d.zones, id);
    }
  }

  // Assigning a zone and putting its old assignment back restores the whole store.
  lemma {:induction false} AssignIsUndone(d: Data, z: string, id: Option<string>)
    requires NothingDangles(d) && SetZoneScheduleId(d, z, id).Ok?
    ensures SetZoneScheduleId(SetZoneScheduleId(d, z, id).value, z, d.zones[z].scheduleId) == Ok(d)
  {
    assert d.zones[z := d.zones[z].(scheduleId := id)][z := d.zones[z]] == d.zones;
  }

  // ----- runs that leave a zone's schedule alone -----

  // Writing this profile's slot cannot show: it is not the active one, nor a default that is used.
  predicate Inert(d: Data, z: string, profile: string)
    requires z in d.zones
  {
    profile != d.active && (profile != d.fallback || d.active in SourceOf(d, z))
  }

  predicate Harmless(d: Data, c: Command, z: string)
    requires z in d.zones
  {
    match c
    case RemovingZone(y) => y != z
    case WritingZone(y, profile, _) => y != z || d.zones[z].scheduleId.Some? || Inert(d, z, profile)
    case Assigning(y, _) => y != z
    case Activating(profile) => profile == d.active
    case RemovingProfile(profile) => profile != d.active
    case DeletingShared(id, _) => d.zones[z].scheduleId != Some(id)
    case WritingShared(id, profile, _) => d.zones[z].scheduleId != Some(id) || Inert(d, z, profile)
    case _ => true
  }

  lemma {:induction false} AddSharedKeepsResolved(t: Text, d: Data, name: string, slots: Slots, z: string)
    requires NothingDangles(d) && z in d.zones && AddShared(t, d, name, slots).Ok?
    ensures Resolved(AddShared(t, d, name, slots).value, z) == Resolved(d, z)
  {
    NewIdIsFresh(t, d.shared.Keys, CleanName(t, name).value);
  }

  lemma {:induction false} WritingZoneKeepsResolved(d: Data, y: string, profile: string, slot: Slot, z: string)
    requires z in d.zones && SetZoneSchedule(d, y, profile, slot).Ok? && NothingDangles(d)
    requires y != z || d.zones[z].scheduleId.Some? || Inert(d, z, profile)
    ensures Resolved(SetZoneSchedule(d, y, profile, slot).value, z) == Resolved(d, z)
  {
  }

  lemma {:induction false} WritingSharedKeepsResolved(d: Data, id: string, profile: string, slot: Slot, z: string)
    requires z in d.zones && SetSharedSchedule(d, id, profile, slot).Ok?
    requires d.zones[z].scheduleId != Some(id) || Inert(d, z, profile)
    ensures Resolved(SetSharedSchedule(d, id, profile, slot).value, z) == Resolved(d, z)
  {
  }

  lemma {:induction false} RenameSharedKeepsResolved(t: Text, d: Data, id: string, name: string, z: string)
    requires z in d.zones && RenameShared(t, d, id, name).Ok?
    ensures Resolved(RenameShared(t, d, id, name).value, z) == Resolved(d, z)
  {
  }

  lemma {:induction false} HarmlessPlainCases(t: Text, d: Data, c: Command, z: string)
    requires z in d.zones && Harmless(d, c, z)
    requires c.AddingZone? || c.RemovingZone? || c.Assigning? || c.Activating? || c.AddingProfile?
    ensures z in Settle(d, Perform(t, d, c)).zones
    ensures Resolved(Settle(d, Perform(t, d, c)), z) == Resolved(d, z)
  {
    match c
    case AddingZone(_) =>
    case RemovingZone(_) =>
    case Assigning(_, _) =>
    case Activating(_) =>
    case AddingProfile(_, _) =>
  }

  lemma {:induction false} HarmlessAdditions(t: Text, d: Data, c: Command, z: string)
    requires Valid(t, d) && z in d.zones && (c.AddingShared? || c.CreatingShared?)
    ensures z in Settle(d, Perform(t, d, c)).zones
    ensures Resolved(Settle(d, Perform(t, d, c)), z) == Resolved(d, z)
  {
    if Perform(t, d, c).Ok? {
      match c
      case AddingShared(name, slots) => AddSharedKeepsResolved(t, d, name, slots, z);
      case CreatingShared(name, seedFrom) =>
        var slots := if seedFrom.Some? && seedFrom.value != "" then d.zones[seedFrom.value].schedules else map[];
        AddSharedKeepsResolved(t, d, name, slots, z);
    }
  }

  lemma {:induction false} HarmlessSharedEdits(t: Text, d: Data, c: Command, z: string)
    requires Valid(t, d) && z in d.zones && Harmless(d, c, z)
    requires c.RenamingShared? || c.DeletingShared? || c.WritingShared?
    ensures z in Settle(d, Perform(t, d, c)).zones
    ensures Resolved(Settle(d, Perform(t, d, c)), z) == Resolved(d, z)
  {
    if Perform(t, d, c).Ok? {
      match c
      case WritingShared(id, profile, slot) => WritingSharedKeepsResolved(d, id, profile, slot, z);
      case RenamingShared(id, name) => RenameSharedKeepsResolved(t, d, id, name, z);
      case DeletingShared(id, cascade) => DeleteSharedResolves(d, id, cascade, z);
    }
  }

  lemma {:induction false} HarmlessProfileEdits(t: Text, d: Data, c: Command, z: string)
    requires Valid(t, d) && z in d.zones && Harmless(d, c, z)
    requires c.Cloning? || c.Renaming? || c.RemovingProfile? || c.WritingZone?
    ensures z in Settle(d, Perform(t, d, c)).zones
    ensures Resolved(Settle(d, Perform(t, d, c)), z) == Resolved(d, z)
  {
    if Perform(t, d, c).Ok? {
      match c
      case Cloning(source, target, description) =>
        CloneKeepsResolved(d, source, target, description, z, d.active);
      case Renaming(from, to) => RenameKeepsResolved(d, from, to, z, d.active);
      case RemovingProfile(profile) => RemoveKeepsResolved(d, profile, z, d.active);
      case WritingZone(y, profile, slot) => WritingZoneKeepsResolved(d, y, profile, slot, z);
    }
  }

  lemma {:induction false} HarmlessKeepsResolved(t: Text, d: Data, c: Command, z: string)
    requires Valid(t, d) && z in d.zones && Harmless(d, c, z)
    ensures z in Settle(d, Perform(t, d, c)).zones
    ensures Resolved(Settle(d, Perform(t, d, c)), z) == Resolved(d, z)
  {
    if c.AddingShared? || c.CreatingShared? {
      HarmlessAdditions(t, d, c, z);
    } else if c.RenamingShared? || c.DeletingShared? || c.WritingShared? {
      HarmlessSharedEdits(t, d, c, z);
    } else if c.Cloning? || c.Renaming? || c.RemovingProfile? || c.WritingZone? {
      HarmlessProfileEdits(t, d, c, z);
    } else {
      HarmlessPlainCases(t, d, c, z);
    }
  }

  // Every mutation of the run is harmless to z at the moment it is made.
  predicate HarmlessRun(t: Text, d: Data, cs: seq<Command>, z: string) {
    cs == [] ||
    (HarmlessRun(t, d, cs[..|cs| - 1], z) &&
     var before := After(t, d, cs[..|cs| - 1]); z in before.zones && Harmless(before, Last(cs), z))
  }

  // Any number of renames, clones, additions and unrelated edits, in any order, refused or
  // not, leaves the zone following the schedule it followed.
  lemma {:induction false} HarmlessRunKeepsResolved(t: Text, d: Data, cs: seq<Command>, z: string)
    requires Valid(t, d) && SeedsAreSound(t, d, cs) && z in d.zones && HarmlessRun(t, d, cs, z)
    ensures z in After(t, d, cs).zones
    ensures Resolved(After(t, d, cs), z) == Resolved(d, z)
  {
    if cs != [] {
      HarmlessRunKeepsResolved(t, d, cs[..|cs| - 1], z);
      RunKeepsValid(t, d, cs[..|cs| - 1]);
      HarmlessKeepsResolved(t, After(t, d, cs[..|cs| - 1]), Last(cs), z);
    }
  }
}
