/**
 * The inventory join of `generate_inventory`: one entry per (zone, record)
 * pair of the snapshot, keyed by the record key, holding the record's own
 * fields, the user fields, the hosted-zone summary and the state "active".
 * A later pair with the same key replaces an earlier one.
 */
module InventoryJoin {
  import opened Route53Types
  import opened RecordKey
  import opened UserDataMerge

  /** The user entry the inventory shows for key `k`: the user's own, or the placeholder one. */
  function UserEntryFor(user: UserData, k: string): UserEntry
  {
    if k in user then user[k] else DefaultUserEntry
  }

  /** The hosted-zone summary `{id, name, private}` of a zone. */
  function Summary(zone: HostedZone): ZoneSummary
  {
    ZoneSummary(zone.id, zone.name, zone.config.privateZone)
  }

  /** The inventory entry built for one pair. */
  function EntryFor(p: ZoneRecord, user: UserData): (e: InventoryEntry)
    ensures Describes(e, p, user)
  {
    var u := UserEntryFor(user, KeyOf(p));
    InventoryEntry(
      p.record.name, p.record.resourceRecords, p.record.ttl, p.record.recordType,
      u.description, u.toDestroy, Summary(p.zone), ActiveState)
  }

  /**
   * What an inventory entry must say about pair `p`: the record's `Name`,
   * `ResourceRecords`, `TTL` and `Type` unchanged; the user's description and
   * to_destroy for the key, "tbd" when the user has no entry; the zone's id,
   * name and privacy; and the state "active".
   */
  ghost predicate Describes(e: InventoryEntry, p: ZoneRecord, user: UserData)
    ensures Describes(e, p, user) ==> e.hostedZone == Summary(p.zone) && e.state == ActiveState
    ensures Describes(e, p, user) ==> e.description == UserEntryFor(user, KeyOf(p)).description
  {
    && e.name == p.record.name
    && e.resourceRecords == p.record.resourceRecords
    && e.ttl == p.record.ttl
    && e.recordType == p.record.recordType
    && (KeyOf(p) in user ==>
          e.description == user[KeyOf(p)].description && e.toDestroy == user[KeyOf(p)].toDestroy)
    && (KeyOf(p) !in user ==> e.description == Placeholder && e.toDestroy == Placeholder)
    && e.hostedZone.id == p.zone.id
    && e.hostedZone.name == p.zone.name
    && e.hostedZone.isPrivate == p.zone.config.privateZone
    && e.state == ActiveState
  }

  /** The inventory after the join has visited the pairs `ps`, in order. */
  function Build(ps: seq<ZoneRecord>, user: UserData): (inventory: Inventory)
    ensures ps == [] ==> inventory == map[]
    ensures forall k :: k in inventory ==> inventory[k].state == ActiveState
  {
    if ps == [] then map[]
    else
      var last := ps[|ps| - 1];
      Build(ps[..|ps| - 1], user)[KeyOf(last) := EntryFor(last, user)]
  }

  /** The inventory has one entry per record key and no other. */
  lemma {:induction false} BuildDomain(ps: seq<ZoneRecord>, user: UserData)
    ensures Build(ps, user).Keys == KeySet(ps)
  {
    if ps != [] {
      BuildDomain(ps[..|ps| - 1], user);
    }
  }

  /**
   * Every entry describes the last pair that has its key, and every pair whose
   * key no later pair repeats is described by the entry under its key.
   */
  lemma {:induction false} BuildLastWins(ps: seq<ZoneRecord>, user: UserData, i: nat)
    requires i < |ps|
    requires forall j :: i < j < |ps| ==> KeyOf(ps[j]) != KeyOf(ps[i])
    ensures KeyOf(ps[i]) in Build(ps, user)
    ensures Describes(Build(ps, user)[KeyOf(ps[i])], ps[i], user)
  {
    var init := ps[..|ps| - 1];
    if i < |ps| - 1 {
      BuildLastWins(init, user, i);
    }
  }

  /** Every entry of the inventory describes some pair with that key; in particular its state is "active". */
  lemma {:induction false} BuildOrigin(ps: seq<ZoneRecord>, user: UserData, k: string)
    requires k in Build(ps, user)
    ensures exists i :: 0 <= i < |ps| && KeyOf(ps[i]) == k && Describes(Build(ps, user)[k], ps[i], user)
    ensures Build(ps, user)[k].state == ActiveState
  {
    var init, last := ps[..|ps| - 1], ps[|ps| - 1];
    if k == KeyOf(last) {
      assert Describes(Build(ps, user)[k], ps[|ps| - 1], user);
    } else {
      BuildOrigin(init, user, k);
      var i :| 0 <= i < |init| && KeyOf(init[i]) == k && Describes(Build(init, user)[k], init[i], user);
      assert ps[i] == init[i];
    }
  }

  /**
   * The user fields the inventory shows are those the user data holds once
   * `_fetch_user_data` has merged the same records into it.
   */
  lemma {:induction false} InventoryAgreesWithMerge(ps: seq<ZoneRecord>, user: UserData, k: string)
    requires k in Build(ps, user)
    ensures k in Merge(user, ps)
    ensures Build(ps, user)[k].description == Merge(user, ps)[k].description
    ensures Build(ps, user)[k].toDestroy == Merge(user, ps)[k].toDestroy
  {
    BuildDomain(ps, user);
    MergeDomain(user, ps);
    BuildOrigin(ps, user, k);
  }

  /** Joined against empty user data, every entry carries the placeholder user fields. */
  lemma {:induction false} InventoryFromEmptyUserData(ps: seq<ZoneRecord>, k: string)
    requires k in Build(ps, map[])
    ensures Build(ps, map[])[k].description == Placeholder
    ensures Build(ps, map[])[k].toDestroy == Placeholder
    ensures Build(ps, map[])[k].state == ActiveState
  {
    BuildOrigin(ps, map[], k);
  }
}
