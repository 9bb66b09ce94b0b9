/**
 * The concrete scenarios the Route53 source's behaviour is pinned by: one
 * hosted zone `hostedzone.org` with a CNAME record `record1.clinv.org`,
 * fetched in one page or in two.
 */
module Route53Fixtures {
  import opened Wrappers
  import opened Route53Types
  import opened RecordKey
  import opened Pagination
  import opened UserDataMerge
  import opened InventoryJoin
  import opened Route53Source

  const FixtureConfig: ZoneConfig := ZoneConfig("This is the description", false)
  const FixtureZoneId: string := "/hostedzone/hosted_zone_id"
  const FixtureValues: seq<ResourceRecord> := [ResourceRecord("127.0.0.1"), ResourceRecord("localhost")]

  /** A CNAME record set of the fixture zone with the given name. */
  function FixtureRecord(name: string): RecordSet
  {
    RecordSet(name, FixtureValues, 172800, "CNAME")
  }

  /** The fixture zone as the service lists it. */
  const FixtureRemoteZone: RemoteZone :=
    RemoteZone("XXXXXXXX-XXXX-XXXX-XXXX-XXXXXXXXXXXX", FixtureConfig, FixtureZoneId, "hostedzone.org", 1)

  /** The fixture zone as the snapshot keeps it, with the given records. */
  function FixtureZone(records: seq<RecordSet>): HostedZone
  {
    HostedZone(FixtureConfig, FixtureZoneId, "hostedzone.org", 1, records)
  }

  const FixtureKey: string := "hosted_zone_id-record1.clinv.org-cname"

  /** With no hosted zones, the merge adds nothing to empty user data and the inventory is empty. */
  lemma NoZones()
    ensures Merge(map[], ZoneRecords([])) == map[]
    ensures Build(ZoneRecords([]), map[]) == map[]
  {
  }

  /** One record, empty user data: the merge creates exactly the placeholder entry under its key. */
  lemma FixtureUserData()
    ensures Merge(map[], ZoneRecords([FixtureZone([FixtureRecord("record1.clinv.org")])]))
         == map[FixtureKey := UserEntry("tbd", "tbd")]
  {
    var zone := FixtureZone([FixtureRecord("record1.clinv.org")]);
    var p := ZoneRecord(zone, FixtureRecord("record1.clinv.org"));
    assert ZoneRecords([zone]) == [p] by {
      assert [zone][..0] == [];
    }
    RecordKey.FixtureKey();
  }

  /** One record, empty user data: the inventory holds exactly the joined entry under its key. */
  lemma FixtureInventory()
    ensures Build(ZoneRecords([FixtureZone([FixtureRecord("record1.clinv.org")])]), map[])
         == map[FixtureKey := InventoryEntry(
              "record1.clinv.org", FixtureValues, 172800, "CNAME", "tbd", "tbd",
              ZoneSummary(FixtureZoneId, "hostedzone.org", false), "active")]
  {
    var zone := FixtureZone([FixtureRecord("record1.clinv.org")]);
    var p := ZoneRecord(zone, FixtureRecord("record1.clinv.org"));
    assert ZoneRecords([zone]) == [p] by {
      assert [zone][..0] == [];
    }
    RecordKey.FixtureKey();
  }

  /**
   * A single non-truncated page: the snapshot keeps the zone without its
   * caller reference, and the record name with its trailing dot.
   */
  method SinglePageScenario() returns (data: SourceData, calls: seq<ListCall>)
    ensures data == map[HostedZonesKey := [FixtureZone([FixtureRecord("record1.clinv.org.")])]]
    ensures calls == [ListCall(FixtureZoneId, None)]
  {
    var page := Final([FixtureRecord("record1.clinv.org.")]);
    var service := Route53Service([FixtureRemoteZone], [[page]]);
    assert [page][0].Final?;
    assert LastPage([page]) == 0;
    assert PagesRead([page]) == [page];
    assert Records([page]) == [FixtureRecord("record1.clinv.org.")] + Records([]);
    assert Records(PagesRead(service.recordPages[0])) == [FixtureRecord("record1.clinv.org.")];
    assert Snapshot(service)[0] == KeptZone(FixtureRemoteZone, [FixtureRecord("record1.clinv.org.")]);
    var src := new Route53Src(map[], Route53Service([], []));
    calls := src.FetchSourceData(service);
    data := src.GenerateSourceData();
    assert Snapshot(service) == [FixtureZone([FixtureRecord("record1.clinv.org.")])];
    assert CallsUpTo(service, 0) == [];
  }

  /**
   * Two pages: a previous `{'route53': {}}` snapshot is replaced, the zone's
   * records are both pages' records in order, and the second call starts
   * from the first page's cursor.
   */
  method PaginationScenario() returns (data: SourceData, calls: seq<ListCall>)
    ensures data == map[HostedZonesKey := [FixtureZone([FixtureRecord("record1.clinv.org"), FixtureRecord("record2.clinv.org")])]]
    ensures calls == [ListCall(FixtureZoneId, None), ListCall(FixtureZoneId, Some(Cursor("record2.clinv.org", "CNAME")))]
  {
    var r1, r2 := FixtureRecord("record1.clinv.org"), FixtureRecord("record2.clinv.org");
    var pages := [Truncated([r1], "record2.clinv.org", "CNAME"), Final([r2])];
    FixturePagination(FixtureZoneId, r1, r2);
    var src := new Route53Src(map[], Route53Service([], []));
    src.sourceData := map["route53" := []];
    var service := Route53Service([FixtureRemoteZone], [pages]);
    calls := src.FetchSourceData(service);
    data := src.GenerateSourceData();
    assert Snapshot(service) == [FixtureZone([r1, r2])];
    assert CallsUpTo(service, 0) == [];
  }
}
