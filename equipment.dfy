/**
 * The user's equipment profile: which of the four equipment kinds they
 * have, the list of available kinds derived from it, and the upsert that
 * stores it, one profile per user.
 */
module Equipment {
  import opened Common

  datatype EquipmentProfile = EquipmentProfile(dumbbells: bool, barbells: bool, kettlebells: bool, bodyweight: bool)

  /** Whether the profile has the equipment called `name`. */
  predicate Has(p: EquipmentProfile, name: string) {
    || (name == "bodyweight" && p.bodyweight)
    || (name == "dumbbells" && p.dumbbells)
    || (name == "barbells" && p.barbells)
    || (name == "kettlebells" && p.kettlebells)
  }

  /** The position of an equipment name in the order the application lists them: bodyweight, dumbbells, barbells, kettlebells. */
  function Rank(name: string): int {
    if name == "bodyweight" then 0
    else if name == "dumbbells" then 1
    else if name == "barbells" then 2
    else if name == "kettlebells" then 3
    else 4
  }

  /** How many of the four flags are set. */
  function FlagCount(p: EquipmentProfile): (n: nat)
    ensures n <= 4
    ensures n == 0 <==> !p.bodyweight && !p.dumbbells && !p.barbells && !p.kettlebells
  {
    (if p.bodyweight then 1 else 0) + (if p.dumbbells then 1 else 0) +
    (if p.barbells then 1 else 0) + (if p.kettlebells then 1 else 0)
  }

  /** Names listed in strictly increasing canonical position, hence each at most once. */
  predicate InCanonicalOrder(names: seq<string>) {
    forall i, j :: 0 <= i < j < |names| ==> Rank(names[i]) < Rank(names[j])
  }

  /**
   * `getAvailableEquipment`: with no profile, bodyweight only; otherwise the
   * names whose flag is set, pushed one by one in canonical order.
   */
  method GetAvailableEquipment(profile: Option<EquipmentProfile>) returns (equipment: seq<string>)
    ensures profile.None? ==> equipment == ["bodyweight"]
    ensures profile.Some? ==> forall name :: name in equipment <==> Has(profile.value, name)
    ensures profile.Some? ==> |equipment| == FlagCount(profile.value)
    ensures InCanonicalOrder(equipment)
  {
    if profile.None? {
      return ["bodyweight"];
    }
    var p := profile.value;
    equipment := [];
    if p.bodyweight {
      equipment := equipment + ["bodyweight"];
    }
    if p.dumbbells {
      equipment := equipment + ["dumbbells"];
    }
    if p.barbells {
      equipment := equipment + ["barbells"];
    }
    if p.kettlebells {
      equipment := equipment + ["kettlebells"];
    }
  }

  /** Listed names never repeat. */
  lemma CanonicalOrderHasNoDuplicates(names: seq<string>)
    requires InCanonicalOrder(names)
    ensures forall i, j :: 0 <= i < j < |names| ==> names[i] != names[j]
  {
  }

  /**
   * The profile fields an upsert carries: each flag may be left out; a new
   * profile takes the column default for it (bodyweight true, the others
   * false) and an update keeps the stored value.
   */
  datatype ProfileData = ProfileData(dumbbells: Option<bool>, barbells: Option<bool>,
                                     kettlebells: Option<bool>, bodyweight: Option<bool>)

  /** The row `createEquipmentProfile` inserts. */
  function Created(data: ProfileData): (p: EquipmentProfile)
    ensures p.bodyweight == data.bodyweight.GetOr(true)
    ensures p.dumbbells == data.dumbbells.GetOr(false) && p.barbells == data.barbells.GetOr(false)
    ensures p.kettlebells == data.kettlebells.GetOr(false)
  {
    EquipmentProfile(data.dumbbells.GetOr(false), data.barbells.GetOr(false),
                     data.kettlebells.GetOr(false), data.bodyweight.GetOr(true))
  }

  /** The row `updateEquipmentProfile` leaves: the fields given replace the stored ones. */
  function Updated(stored: EquipmentProfile, data: ProfileData): (p: EquipmentProfile)
    ensures p.bodyweight == data.bodyweight.GetOr(stored.bodyweight)
    ensures p.dumbbells == data.dumbbells.GetOr(stored.dumbbells) && p.barbells == data.barbells.GetOr(stored.barbells)
    ensures p.kettlebells == data.kettlebells.GetOr(stored.kettlebells)
  {
    EquipmentProfile(data.dumbbells.GetOr(stored.dumbbells), data.barbells.GetOr(stored.barbells),
                     data.kettlebells.GetOr(stored.kettlebells), data.bodyweight.GetOr(stored.bodyweight))
  }

  /** With every field given, creating and updating store the same profile. */
  lemma FullDataCreatesOrUpdatesAlike(stored: EquipmentProfile, data: ProfileData)
    requires data.dumbbells.Some? && data.barbells.Some? && data.kettlebells.Some? && data.bodyweight.Some?
    ensures Updated(stored, data) == Created(data)
  {
  }

  /** Upserting twice with the same data stores what upserting once stores. */
  lemma UpdateIsIdempotent(stored: EquipmentProfile, data: ProfileData)
    ensures Updated(Updated(stored, data), data) == Updated(stored, data)
  {
  }

  /** The equipment profiles table: at most one profile per user, keyed by user id. */
  class ProfileTable {
    var profiles: map<string, EquipmentProfile>

    constructor ()
      ensures profiles == map[]
    {
      profiles := map[];
    }

    /** `getEquipmentProfile`. */
    function Lookup(userId: string): (r: Option<EquipmentProfile>)
      reads this
      ensures r.Some? <==> userId in profiles
      ensures r.Some? ==> r.value == profiles[userId]
    {
      if userId in profiles then Some(profiles[userId]) else None
    }

    /**
     * `upsertEquipmentProfile`: updates the user's profile when one exists,
     * creates one otherwise; no other user's profile changes.
     */
    method Upsert(userId: string, data: ProfileData) returns (p: EquipmentProfile)
      modifies this
      ensures userId in old(profiles) ==> p == Updated(old(profiles)[userId], data)
      ensures userId !in old(profiles) ==> p == Created(data)
      ensures profiles == old(profiles)[userId := p]
    {
      var existing := Lookup(userId);
      if existing.Some? {
        p := Updated(existing.value, data);
        profiles := profiles[userId := p];
        return;
      }
      p := Created(data);
      profiles := profiles[userId := p];
    }

    /** `getAvailableEquipment` for a user, read from the table. */
    method AvailableFor(userId: string) returns (equipment: seq<string>)
      ensures userId !in profiles ==> equipment == ["bodyweight"]
      ensures userId in profiles ==> forall name :: name in equipment <==> Has(profiles[userId], name)
      ensures InCanonicalOrder(equipment)
    {
      var profile := Lookup(userId);
      equipment := GetAvailableEquipment(profile);
    }
  }
}
