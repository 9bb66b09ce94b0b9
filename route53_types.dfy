/**
 * The values the Route53 inventory source works on: hosted zones and their
 * resource record sets as the DNS service returns them, the zone entries the
 * source keeps in its snapshot, the user-editable metadata entries and the
 * inventory entries it emits.
 */
module Route53Types {

  /** One `{'Value': ...}` element of a record set's `ResourceRecords`. */
  datatype ResourceRecord = ResourceRecord(value: string)

  /** A resource record set: `Name`, `ResourceRecords`, `TTL`, `Type`. */
  datatype RecordSet = RecordSet(
    name: string,
    resourceRecords: seq<ResourceRecord>,
    ttl: nat,
    recordType: string)

  /** A zone's `Config`: its `Comment` and whether it is a `PrivateZone`. */
  datatype ZoneConfig = ZoneConfig(comment: string, privateZone: bool)

  /** A hosted zone as `list_hosted_zones` returns it. */
  datatype RemoteZone = RemoteZone(
    callerReference: string,
    config: ZoneConfig,
    id: string,
    name: string,
    resourceRecordSetCount: nat)

  /**
   * A hosted zone as the source keeps it in `source_data['hosted_zones']`:
   * the remote zone without its `CallerReference`, plus the accumulated `records`.
   */
  datatype HostedZone = HostedZone(
    config: ZoneConfig,
    id: string,
    name: string,
    resourceRecordSetCount: nat,
    records: seq<RecordSet>)

  /** The user-editable metadata kept for one record key. */
  datatype UserEntry = UserEntry(description: string, toDestroy: string)

  /** The placeholder both user fields get when the source creates an entry. */
  const Placeholder: string := "tbd"

  /** The entry created for a record the user has not described yet. */
  const DefaultUserEntry: UserEntry := UserEntry(Placeholder, Placeholder)

  /** The `hosted_zone` summary embedded in every inventory entry. */
  datatype ZoneSummary = ZoneSummary(id: string, name: string, isPrivate: bool)

  /** The only state the source assigns: every fetched record is live. */
  const ActiveState: string := "active"

  /** One inventory entry: the record's fields, the user fields, the zone summary, the state. */
  datatype InventoryEntry = InventoryEntry(
    name: string,
    resourceRecords: seq<ResourceRecord>,
    ttl: nat,
    recordType: string,
    description: string,
    toDestroy: string,
    hostedZone: ZoneSummary,
    state: string)

  /** The key under which `source_data` holds the list of hosted zones. */
  const HostedZonesKey: string := "hosted_zones"

  /** `source_data`: named sections, of which the source writes only `hosted_zones`. */
  type SourceData = map<string, seq<HostedZone>>

  /** `user_data`: record key to user entry. */
  type UserData = map<string, UserEntry>

  /** The inventory: record key to inventory entry. */
  type Inventory = map<string, InventoryEntry>

  /** A record set together with the hosted zone it was listed under. */
  datatype ZoneRecord = ZoneRecord(zone: HostedZone, record: RecordSet)

  /**
   * Every (zone, record) pair of a snapshot, in the order the source visits
   * them: zone by zone, and within a zone record by record.
   */
  function ZoneRecords(zones: seq<HostedZone>): (ps: seq<ZoneRecord>)
    ensures |zones| == 0 ==> ps == []
  {
    if zones == [] then []
    else ZoneRecords(zones[..|zones| - 1]) + RecordsOf(zones[|zones| - 1])
  }

  /** The pairs of one zone, in record order. */
  function RecordsOf(zone: HostedZone): (ps: seq<ZoneRecord>)
    ensures |ps| == |zone.records|
    ensures forall j :: 0 <= j < |ps| ==> ps[j] == ZoneRecord(zone, zone.records[j])
  {
    seq(|zone.records|, j requires 0 <= j < |zone.records| => ZoneRecord(zone, zone.records[j]))
  }

  /** The first `j + 1` pairs of a zone are its first `j` pairs and the pair of record `j`: the step of the inner loop. */
  lemma RecordsOfSnoc(zone: HostedZone, j: nat)
    requires j < |zone.records|
    ensures RecordsOf(zone)[..j + 1] == RecordsOf(zone)[..j] + [ZoneRecord(zone, zone.records[j])]
  {
  }

  /** Appending a zone appends its pairs: the step of the source's outer loop. */
  lemma ZoneRecordsSnoc(zones: seq<HostedZone>, i: nat)
    requires i < |zones|
    ensures ZoneRecords(zones[..i + 1]) == ZoneRecords(zones[..i]) + RecordsOf(zones[i])
  {
    assert zones[..i + 1][..i] == zones[..i];
  }

  /** A pair appears in the snapshot exactly when its record is listed under its zone. */
  lemma {:induction false} ZoneRecordsMember(zones: seq<HostedZone>, p: ZoneRecord)
    ensures p in ZoneRecords(zones) <==> p.zone in zones && p.record in p.zone.records
  {
    if zones != [] {
      var init, last := zones[..|zones| - 1], zones[|zones| - 1];
      ZoneRecordsMember(init, p);
      assert zones == init + [last];
      if p.zone == last && p.record in last.records {
        var j :| 0 <= j < |last.records| && last.records[j] == p.record;
        assert RecordsOf(last)[j] == p;
      }
    }
  }
}
