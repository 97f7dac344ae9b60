// The persisted payload of the integration: zones, profiles and shared schedules, what each
// mutator of the store makes of it, and the references that must never dangle.

module StoreData {
  import opened ComfortTypes
  import opened Schedule

  // The {baseline, current} pair stored per profile.
  datatype Slot = Slot(baseline: seq<Transition>, current: seq<Transition>)

  type Slots = map<string, Slot>

  datatype Zone = Zone(schedules: Slots, scheduleId: Option<string>)

  datatype Profile = Profile(name: string, description: string)

  datatype SharedSchedule = SharedSchedule(name: string, schedules: Slots)

  datatype Data = Data(zones: map<string, Zone>, profiles: map<string, Profile>, shared: map<string, SharedSchedule>,
                       active: string, fallback: string)

  datatype StoreError =
    | ZoneExists | NoSuchZone | NoSuchProfile | ProfileExists | TooManyProfiles | IsDefaultProfile
    | NoSuchShared | BlankName | ReservedName | NameTaken | TooManyShared | SharedInUse

  // The string library: str.strip, str.casefold and slugify.
  datatype Text = Text(strip: string -> string, casefold: string -> string, slugify: string -> string)

  const MAX_PROFILES := 50
  const MAX_SHARED_SCHEDULES := 50
  const OWN_SCHEDULE_LABEL := "Own schedule"

  // ----- what the store must never break -----

  predicate SameName(t: Text, a: string, b: string) {
    t.casefold(a) == t.casefold(b)
  }

  ghost predicate ProfilesStand(d: Data) {
    && d.active in d.profiles
    && d.fallback in d.profiles
    && (forall p :: p in d.profiles ==> d.profiles[p].name == p)
  }

  ghost predicate NothingDangles(d: Data) {
    && (forall z :: z in d.zones ==> d.zones[z].schedules.Keys <= d.profiles.Keys)
    && (forall z :: z in d.zones && d.zones[z].scheduleId.Some? ==> d.zones[z].scheduleId.value in d.shared)
    && (forall s :: s in d.shared ==> d.shared[s].schedules.Keys <= d.profiles.Keys)
  }

  ghost predicate NamesAreDistinct(t: Text, d: Data) {
    && (forall s :: s in d.shared ==> d.shared[s].name != "" && !SameName(t, d.shared[s].name, OWN_SCHEDULE_LABEL))
    && (forall r, s :: r in d.shared && s in d.shared && SameName(t, d.shared[r].name, d.shared[s].name) ==> r == s)
  }

  ghost predicate Valid(t: Text, d: Data) {
    ProfilesStand(d) && NothingDangles(d) && NamesAreDistinct(t, d)
  }

  // The two caps; a payload loaded above them is accepted, so they are kept apart from Valid.
  ghost predicate WithinCaps(d: Data) {
    |d.profiles| <= MAX_PROFILES && |d.shared| <= MAX_SHARED_SCHEDULES
  }

  // ----- what a zone follows -----

  function Slotted(s: Slots, profile: string): Option<Slot> {
    if profile in s then Some(s[profile]) else None
  }

  function FirstOf(s: Slots, active: string, fallback: string): Option<Slot> {
    if Slotted(s, active).Some? then Slotted(s, active) else Slotted(s, fallback)
  }

  // The slots a zone's band comes from: its shared schedule's, or its own when it has none or
  // the one it points at is gone.
  function SourceOf(d: Data, z: string): Slots
    requires z in d.zones
  {
    var id := d.zones[z].scheduleId;
    if id.Some? && id.value in d.shared then d.shared[id.value].schedules else d.zones[z].schedules
  }

  function Resolved(d: Data, z: string): Option<Slot>
    requires z in d.zones
  {
    FirstOf(SourceOf(d, z), d.active, d.fallback)
  }

  // ----- edits of every slot map at once -----

  datatype SlotEdit = Move(from: string, to: string) | Copy(source: string, target: string) | Drop(name: string)

  function Edited(s: Slots, e: SlotEdit): Slots {
    match e
    case Move(from, to) => if from in s then (s - {from})[to := s[from]] else s
    case Copy(source, target) => if source in s then s[target := s[source]] else s
    case Drop(name) => s - {name}
  }

  function EditedZone(z: Zone, e: SlotEdit): Zone {
    z.(schedules := Edited(z.schedules, e))
  }

  function EditedShared(s: SharedSchedule, e: SlotEdit): SharedSchedule {
    s.(schedules := Edited(s.schedules, e))
  }

  function EditZones(zones: map<string, Zone>, e: SlotEdit): map<string, Zone> {
    map z | z in zones :: EditedZone(zones[z], e)
  }

  function EditShared(shared: map<string, SharedSchedule>, e: SlotEdit): map<string, SharedSchedule> {
    map s | s in shared :: EditedShared(shared[s], e)
  }

  function EditSlots(d: Data, e: SlotEdit): Data {
    d.(zones := EditZones(d.zones, e), shared := EditShared(d.shared, e))
  }

  // ----- zones -----

  function AddZone(d: Data, z: string): Result<Data, StoreError> {
    if z in d.zones then Err(ZoneExists) else Ok(d.(zones := d.zones[z := Zone(map[], None)]))
  }

  function RemoveZone(d: Data, z: string): Result<Data, StoreError> {
    Ok(d.(zones := d.zones - {z}))
  }

  function Written(baseline: seq<Transition>, current: Option<seq<Transition>>): Slot {
    Slot(baseline, if current.Some? then current.value else baseline)
  }

  function SetZoneSchedule(d: Data, z: string, profile: string, slot: Slot): Result<Data, StoreError> {
    if z !in d.zones then Err(NoSuchZone)
    else if profile !in d.profiles then Err(NoSuchProfile)
    else Ok(d.(zones := d.zones[z := d.zones[z].(schedules := d.zones[z].schedules[profile := slot])]))
  }

  function SetZoneScheduleId(d: Data, z: string, id: Option<string>): Result<Data, StoreError> {
    if z !in d.zones then Err(NoSuchZone)
    else if id.Some? && id.value !in d.shared then Err(NoSuchShared)
    else Ok(d.(zones := d.zones[z := d.zones[z].(scheduleId := id)]))
  }

  // ----- profiles -----

  function SetActive(d: Data, name: string): Result<Data, StoreError> {
    if name !in d.profiles then Err(NoSuchProfile) else Ok(d.(active := name))
  }

  function AddProfile(d: Data, name: string, description: string): Result<Data, StoreError> {
    if name in d.profiles then Err(ProfileExists)
    else if |d.profiles| >= MAX_PROFILES then Err(TooManyProfiles)
    else Ok(d.(profiles := d.profiles[name := Profile(name, description)]))
  }

  function CloneProfile(d: Data, source: string, target: string, description: string): Result<Data, StoreError> {
    if source !in d.profiles then Err(NoSuchProfile)
    else if target in d.profiles then Err(ProfileExists)
    else if |d.profiles| >= MAX_PROFILES then Err(TooManyProfiles)
    else Ok(EditSlots(d.(profiles := d.profiles[target := Profile(target, description)]), Copy(source, target)))
  }

  function Moved(name: string, old_: string, new_: string): string {
    if name == old_ then new_ else name
  }

  function RenamedProfiles(profiles: map<string, Profile>, old_: string, new_: string): map<string, Profile>
    requires old_ in profiles
  {
    (profiles - {old_})[new_ := profiles[old_].(name := new_)]
  }

  function RenameProfile(d: Data, old_: string, new_: string): Result<Data, StoreError> {
    if old_ !in d.profiles then Err(NoSuchProfile)
    else if old_ == new_ then Ok(d)
    else if new_ in d.profiles then Err(ProfileExists)
    else Ok(EditSlots(d.(profiles := RenamedProfiles(d.profiles, old_, new_),
                         active := Moved(d.active, old_, new_), fallback := Moved(d.fallback, old_, new_)),
                      Move(old_, new_)))
  }

  function RemoveProfile(d: Data, name: string): Result<Data, StoreError> {
    if name == d.fallback then Err(IsDefaultProfile)
    else if name !in d.profiles then Err(NoSuchProfile)
    else Ok(EditSlots(d.(profiles := d.profiles - {name}, active := Moved(d.active, name, d.fallback)), Drop(name)))
  }

  // ----- shared schedules -----

  function CleanName(t: Text, name: string): Result<string, StoreError> {
    var cleaned := t.strip(name);
    if cleaned == "" then Err(BlankName)
    else if SameName(t, cleaned, OWN_SCHEDULE_LABEL) then Err(ReservedName)
    else Ok(cleaned)
  }

  predicate Taken(t: Text, shared: map<string, SharedSchedule>, name: string, exclude: Option<string>) {
    exists s :: s in shared && Some(s) != exclude && SameName(t, shared[s].name, name)
  }

  function Digit(n: nat): char
    requires n < 10
  {
    "0123456789"[n]
  }

  function Decimal(n: nat): string {
    if n < 10 then [Digit(n)] else Decimal(n / 10) + [Digit(n % 10)]
  }

  function Numbered(base: string, n: nat): string {
    base + "_" + Decimal(n)
  }

  lemma {:induction false} DigitInjective(a: nat, b: nat)
    requires a < 10 && b < 10 && Digit(a) == Digit(b)
    ensures a == b
  {
  }

  lemma {:induction false} DecimalInjective(a: nat, b: nat)
    requires Decimal(a) == Decimal(b)
    ensures a == b
    decreases a
  {
    DecimalLength(a);
    DecimalLength(b);
    var s, r := Decimal(a), Decimal(b);
    if a < 10 && b < 10 {
      assert s[0] == r[0];
      DigitInjective(a, b);
    } else if a >= 10 && b >= 10 {
      assert s[|s| - 1] == r[|r| - 1];
      assert s[..|s| - 1] == Decimal(a / 10);
      assert r[..|r| - 1] == Decimal(b / 10);
      DigitInjective(a % 10, b % 10);
      DecimalInjective(a / 10, b / 10);
    }
  }

  lemma {:induction false} DecimalLength(n: nat)
    ensures |Decimal(n)| >= 1
    ensures |Decimal(n)| == 1 <==> n < 10
  {
  }

  lemma {:induction false} NumberedInjective(base: string, a: nat, b: nat)
    requires Numbered(base, a) == Numbered(base, b)
    ensures a == b
  {
    var k := |base| + 1;
    assert Numbered(base, a)[k..] == Decimal(a);
    assert Numbered(base, b)[k..] == Decimal(b);
    DecimalInjective(a, b);
  }

  // The ids base_2 .. base_(n-1).
  function TriedTo(base: string, n: nat): set<string> {
    set j: nat | 2 <= j < n :: Numbered(base, j)
  }

  lemma {:induction false} NextIsUntried(base: string, n: nat)
    requires n >= 2
    ensures Numbered(base, n) !in TriedTo(base, n)
    ensures TriedTo(base, n + 1) == TriedTo(base, n) + {Numbered(base, n)}
  {
    if Numbered(base, n) in TriedTo(base, n) {
      var j: nat :| 2 <= j < n && Numbered(base, j) == Numbered(base, n);
      NumberedInjective(base, j, n);
    }
  }

  // The first id at or after base_n that is not used; the ids tried shrink what is left.
  function FirstUnused(existing: set<string>, base: string, n: nat): string
    requires n >= 2
    decreases existing - TriedTo(base, n)
  {
    NextIsUntried(base, n);
    if Numbered(base, n) in existing then FirstUnused(existing, base, n + 1) else Numbered(base, n)
  }

  function BaseId(t: Text, name: string): string {
    if t.slugify(name) == "" then "schedule" else t.slugify(name)
  }

  function NewId(t: Text, existing: set<string>, name: string): string {
    var base := BaseId(t, name);
    if base !in existing then base else FirstUnused(existing, base, 2)
  }

  lemma {:induction false} FirstUnusedIsLeast(existing: set<string>, base: string, n: nat) returns (k: nat)
    requires n >= 2
    ensures k >= n && FirstUnused(existing, base, n) == Numbered(base, k) && Numbered(base, k) !in existing
    ensures forall j :: n <= j < k ==> Numbered(base, j) in existing
    decreases existing - TriedTo(base, n)
  {
    NextIsUntried(base, n);
    if Numbered(base, n) in existing {
      k := FirstUnusedIsLeast(existing, base, n + 1);
    } else {
      k := n;
    }
  }

  // A new id collides with nothing, and is the plain slug or the least free number after it.
  lemma {:induction false} NewIdIsFresh(t: Text, existing: set<string>, name: string)
    ensures NewId(t, existing, name) !in existing
    ensures BaseId(t, name) !in existing ==> NewId(t, existing, name) == BaseId(t, name)
    ensures BaseId(t, name) in existing ==>
              exists k: nat :: k >= 2 && NewId(t, existing, name) == Numbered(BaseId(t, name), k)
                && forall j :: 2 <= j < k ==> Numbered(BaseId(t, name), j) in existing
  {
    if BaseId(t, name) in existing {
      var k := FirstUnusedIsLeast(existing, BaseId(t, name), 2);
    }
  }

  function AddShared(t: Text, d: Data, name: string, slots: Slots): Result<Data, StoreError> {
    var cleaned := CleanName(t, name);
    if cleaned.Err? then Err(cleaned.error)
    else if Taken(t, d.shared, cleaned.value, None) then Err(NameTaken)
    else if |d.shared| >= MAX_SHARED_SCHEDULES then Err(TooManyShared)
    else Ok(d.(shared := d.shared[NewId(t, d.shared.Keys, cleaned.value) := SharedSchedule(cleaned.value, slots)]))
  }

  // The registry's create: seeded with a zone's own schedules when a zone is named.
  function CreateShared(t: Text, d: Data, name: string, seedFrom: Option<string>): Result<Data, StoreError> {
    if seedFrom.Some? && seedFrom.value !in d.zones then Err(NoSuchZone)
    else AddShared(t, d, name,
                   if seedFrom.Some? && seedFrom.value != "" then d.zones[seedFrom.value].schedules else map[])
  }

  function RenameShared(t: Text, d: Data, id: string, name: string): Result<Data, StoreError> {
    if id !in d.shared then Err(NoSuchShared)
    else
      var cleaned := CleanName(t, name);
      if cleaned.Err? then Err(cleaned.error)
      else if Taken(t, d.shared, cleaned.value, Some(id)) then Err(NameTaken)
      else Ok(d.(shared := d.shared[id := d.shared[id].(name := cleaned.value)]))
  }

  function UsersOf(zones: map<string, Zone>, id: string): set<string> {
    set z | z in zones && zones[z].scheduleId == Some(id)
  }

  function Unassigned(zones: map<string, Zone>, id: string): map<string, Zone> {
    map z | z in zones :: if zones[z].scheduleId == Some(id) then zones[z].(scheduleId := None) else zones[z]
  }

  function RemoveShared(d: Data, id: string): Result<Data, StoreError> {
    if id !in d.shared then Err(NoSuchShared)
    else Ok(d.(zones := Unassigned(d.zones, id), shared := d.shared - {id}))
  }

  // The registry's delete: refused while zones follow the schedule, unless it may unassign them.
  function DeleteShared(d: Data, id: string, cascade: bool): Result<Data, StoreError> {
    if id !in d.shared then Err(NoSuchShared)
    else if UsersOf(d.zones, id) != {} && !cascade then Err(SharedInUse)
    else RemoveShared(d, id)
  }

  function SetSharedSchedule(d: Data, id: string, profile: string, slot: Slot): Result<Data, StoreError> {
    if id !in d.shared then Err(NoSuchShared)
    else if profile !in d.profiles then Err(NoSuchProfile)
    else Ok(d.(shared := d.shared[id := d.shared[id].(schedules := d.shared[id].schedules[profile := slot])]))
  }

  // ----- every mutation: the store's own, and the registry's create and delete -----

  datatype Command =
    | AddingZone(z: string)
    | RemovingZone(z: string)
    | WritingZone(z: string, profile: string, slot: Slot)
    | Assigning(z: string, id: Option<string>)
    | Activating(profile: string)
    | AddingProfile(profile: string, description: string)
    | Cloning(source: string, target: string, description: string)
    | Renaming(from: string, to: string)
    | RemovingProfile(profile: string)
    | AddingShared(name: string, slots: Slots)
    | CreatingShared(name: string, seedFrom: Option<string>)
    | RenamingShared(shared: string, name: string)
    | DeletingShared(shared: string, cascade: bool)
    | WritingShared(shared: string, profile: string, slot: Slot)

  function Perform(t: Text, d: Data, c: Command): Result<Data, StoreError> {
    match c
    case AddingZone(z) => AddZone(d, z)
    case RemovingZone(z) => RemoveZone(d, z)
    case WritingZone(z, profile, slot) => SetZoneSchedule(d, z, profile, slot)
    case Assigning(z, id) => SetZoneScheduleId(d, z, id)
    case Activating(profile) => SetActive(d, profile)
    case AddingProfile(profile, description) => AddProfile(d, profile, description)
    case Cloning(source, target, description) => CloneProfile(d, source, target, description)
    case Renaming(from, to) => RenameProfile(d, from, to)
    case RemovingProfile(profile) => RemoveProfile(d, profile)
    case AddingShared(name, slots) => AddShared(t, d, name, slots)
    case CreatingShared(name, seedFrom) => CreateShared(t, d, name, seedFrom)
    case RenamingShared(id, name) => RenameShared(t, d, id, name)
    case DeletingShared(id, cascade) => DeleteShared(d, id, cascade)
    case WritingShared(id, profile, slot) => SetSharedSchedule(d, id, profile, slot)
  }

  // A refused mutation leaves the store as it was.
  function Settle(d: Data, r: Result<Data, StoreError>): Data {
    if r.Ok? then r.value else d
  }

  function After(t: Text, d: Data, cs: seq<Command>): Data {
    if cs == [] then d else var before := After(t, d, cs[..|cs| - 1]); Settle(before, Perform(t, before, Last(cs)))
  }
}
