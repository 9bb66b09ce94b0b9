/**
 * `Route53src`, the Route53 inventory source: it keeps the caller's
 * `user_data` and a `source_data` snapshot of every hosted zone with all of
 * its record sets, merges placeholder user entries for new records and joins
 * both into the inventory.
 */
module Route53Source {
  import opened Wrappers
  import opened Route53Types
  import opened RecordKey
  import opened Pagination
  import opened UserDataMerge
  import opened InventoryJoin

  /**
   * What the DNS service answers during one fetch: the hosted-zone list, and
   * for the zone at each position the pages `list_resource_record_sets`
   * returns to it, in call order.
   */
  datatype Route53Service = Route53Service(hostedZones: seq<RemoteZone>, recordPages: seq<seq<Page>>)

  /** Every zone has its own answers, and each zone's listing ends with a non-truncated page. */
  predicate WellFormed(service: Route53Service)
  {
    && |service.recordPages| == |service.hostedZones|
    && forall i :: 0 <= i < |service.recordPages| ==> Completes(service.recordPages[i])
  }

  /** The zone entry the snapshot keeps: `CallerReference` dropped, `records` added. */
  function KeptZone(zone: RemoteZone, records: seq<RecordSet>): (kept: HostedZone)
    ensures RemoteZone(zone.callerReference, kept.config, kept.id, kept.name, kept.resourceRecordSetCount) == zone
    ensures kept.records == records
  {
    HostedZone(zone.config, zone.id, zone.name, zone.resourceRecordSetCount, records)
  }

  /** The snapshot a fetch produces: every listed zone, in order, with all the records of its pages. */
  function Snapshot(service: Route53Service): (zones: seq<HostedZone>)
    requires WellFormed(service)
    ensures |zones| == |service.hostedZones|
    ensures forall i :: 0 <= i < |zones| ==>
      && zones[i].id == service.hostedZones[i].id
      && zones[i].config == service.hostedZones[i].config
      && zones[i].records == Records(PagesRead(service.recordPages[i]))
  {
    seq(|service.hostedZones|, i requires 0 <= i < |service.hostedZones| =>
      KeptZone(service.hostedZones[i], Records(PagesRead(service.recordPages[i]))))
  }

  /** The listing calls of a fetch for the first `n` zones: each zone's calls, zone after zone. */
  function CallsUpTo(service: Route53Service, n: nat): (calls: seq<ListCall>)
    requires WellFormed(service) && n <= |service.hostedZones|
    ensures |calls| >= n
    ensures forall j :: 0 <= j < |calls| ==>
      exists i :: 0 <= i < n && calls[j].hostedZoneId == service.hostedZones[i].id
  {
    if n == 0 then []
    else CallsUpTo(service, n - 1) + PagedCalls(service.hostedZones[n - 1].id, service.recordPages[n - 1])
  }

  /** One more zone fetched: the snapshot prefix and the call log each grow by that zone's part. */
  lemma FetchStep(service: Route53Service, i: nat)
    requires WellFormed(service) && i < |service.hostedZones|
    ensures Snapshot(service)[..i + 1]
         == Snapshot(service)[..i] + [KeptZone(service.hostedZones[i], Records(PagesRead(service.recordPages[i])))]
    ensures CallsUpTo(service, i + 1)
         == CallsUpTo(service, i) + PagedCalls(service.hostedZones[i].id, service.recordPages[i])
  {
    assert Snapshot(service)[i] == KeptZone(service.hostedZones[i], Records(PagesRead(service.recordPages[i])));
  }

  class Route53Src {
    /** The caller's record key to user entry map. */
    var userData: UserData
    /** The last fetched snapshot, under `hosted_zones`. */
    var sourceData: SourceData

    /** `source_data` has its `hosted_zones` section, which every reader of it looks up. */
    predicate Valid()
      reads this
    {
      HostedZonesKey in sourceData
    }

    /** The hosted zones of the snapshot. */
    function Zones(): seq<HostedZone>
      reads this
      requires Valid()
    {
      sourceData[HostedZonesKey]
    }

    /** `__init__`: keep the caller's user data as it is and fetch the snapshot. */
    constructor(userData: UserData, service: Route53Service)
      requires WellFormed(service)
      ensures Valid()
      ensures this.userData == userData
      ensures sourceData == map[HostedZonesKey := Snapshot(service)]
    {
      this.userData := userData;
      this.sourceData := map[];
      new;
      var calls := FetchSourceData(service);
    }

    /**
     * `_fetch_source_data`: list the hosted zones, page through each zone's
     * record sets and replace `source_data` by the new snapshot. Returns the
     * `list_resource_record_sets` calls made, in order.
     */
    method FetchSourceData(service: Route53Service) returns (calls: seq<ListCall>)
      requires WellFormed(service)
      modifies this`sourceData
      ensures Valid() && sourceData.Keys == {HostedZonesKey}
      ensures sourceData == map[HostedZonesKey := Snapshot(service)]
      ensures calls == CallsUpTo(service, |service.hostedZones|)
    {
      ghost var snapshot := Snapshot(service);
      var zones: seq<HostedZone> := [];
      calls := [];
      var i := 0;
      while i < |service.hostedZones|
        invariant 0 <= i <= |service.hostedZones| == |snapshot|
        invariant zones == snapshot[..i]
        invariant calls == CallsUpTo(service, i)
      {
        var kept, zoneCalls := FetchZone(service, i);
        zones := zones + [kept];
        calls := calls + zoneCalls;
        i := i + 1;
      }
      assert zones == snapshot;
      sourceData := map[HostedZonesKey := zones];
    }

    /** The body of `_fetch_source_data`'s zone loop: page through zone `i` and keep it. */
    static method FetchZone(service: Route53Service, i: nat) returns (kept: HostedZone, zoneCalls: seq<ListCall>)
      requires WellFormed(service) && i < |service.hostedZones|
      ensures Snapshot(service)[..i + 1] == Snapshot(service)[..i] + [kept]
      ensures CallsUpTo(service, i + 1) == CallsUpTo(service, i) + zoneCalls
    {
      var zone := service.hostedZones[i];
      var records;
      records, zoneCalls := FetchRecordSets(zone.id, service.recordPages[i]);
      kept := KeptZone(zone, records);
      FetchStep(service, i);
    }

    /**
     * `_fetch_user_data`: for every record of every zone, give its key the
     * placeholder entry unless the user already has one.
     */
    method FetchUserData()
      requires Valid()
      modifies this`userData
      ensures userData == Merge(old(userData), ZoneRecords(Zones()))
    {
      ghost var start := userData;
      var zones := sourceData[HostedZonesKey];
      var i := 0;
      while i < |zones|
        invariant 0 <= i <= |zones|
        invariant userData == Merge(start, ZoneRecords(zones[..i]))
      {
        FetchZoneUserData(zones[i]);
        MergeAppend(start, ZoneRecords(zones[..i]), RecordsOf(zones[i]));
        ZoneRecordsSnoc(zones, i);
        i := i + 1;
      }
      assert zones[..i] == zones;
    }

    /** The inner loop of `_fetch_user_data`: the records of one zone, in order. */
    method FetchZoneUserData(zone: HostedZone)
      modifies this`userData
      ensures userData == Merge(old(userData), RecordsOf(zone))
    {
      ghost var start := userData;
      ghost var pairs := RecordsOf(zone);
      var j := 0;
      while j < |zone.records|
        invariant 0 <= j <= |zone.records| == |pairs|
        invariant userData == Merge(start, pairs[..j])
      {
        var record := zone.records[j];
        var k := Key(zone.id, record.name, record.recordType);
        assert KeyOf(ZoneRecord(zone, record)) == k;
        RecordsOfSnoc(zone, j);
        MergeSnoc(start, pairs[..j], ZoneRecord(zone, record));
        if k !in userData {
          userData := userData[k := DefaultUserEntry];
        }
        j := j + 1;
      }
      assert pairs[..j] == pairs;
    }

    /** `generate_source_data`: the current snapshot, as it is. */
    function GenerateSourceData(): (data: SourceData)
      reads this
      ensures data == sourceData
    {
      sourceData
    }

    /** `generate_user_data`: the current user data, as it is. */
    function GenerateUserData(): (data: UserData)
      reads this
      ensures data == userData
    {
      userData
    }

    /**
     * `generate_inventory`: one entry per record key of the snapshot, each
     * describing a record listed under that key, all in state "active".
     */
    function GenerateInventory(): (inventory: Inventory)
      reads this
      requires Valid()
      ensures inventory.Keys == KeySet(ZoneRecords(Zones()))
      ensures forall k :: k in inventory ==>
        inventory[k].state == ActiveState
        && exists i :: 0 <= i < |ZoneRecords(Zones())| && KeyOf(ZoneRecords(Zones())[i]) == k
                    && Describes(inventory[k], ZoneRecords(Zones())[i], userData)
    {
      var ps := ZoneRecords(Zones());
      BuildDomain(ps, userData);
      assert forall k :: k in Build(ps, userData) ==>
        Build(ps, userData)[k].state == ActiveState
        && exists i :: 0 <= i < |ps| && KeyOf(ps[i]) == k && Describes(Build(ps, userData)[k], ps[i], userData)
      by {
        forall k | k in Build(ps, userData)
          ensures Build(ps, userData)[k].state == ActiveState
          ensures exists i :: 0 <= i < |ps| && KeyOf(ps[i]) == k && Describes(Build(ps, userData)[k], ps[i], userData)
        {
          BuildOrigin(ps, userData, k);
        }
      }
      Build(ps, userData)
    }
  }
}
