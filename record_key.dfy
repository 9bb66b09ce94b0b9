/**
 * The key under which a record is tracked in `user_data` and in the
 * inventory: the raw zone id (the zone `Id` without its `/hostedzone/`
 * prefix), the record `Name` and the lowercased record `Type`, joined by `-`.
 */
module RecordKey {
  import opened Route53Types

  /** The prefix the DNS service puts in front of every hosted-zone id. */
  const ZoneIdPrefix: string := "/hostedzone/"

  /** The raw zone id: `id` without a leading `/hostedzone/`; other ids are kept whole. */
  function RawZoneId(id: string): (raw: string)
    ensures ZoneIdPrefix <= id ==> ZoneIdPrefix + raw == id
    ensures !(ZoneIdPrefix <= id) ==> raw == id
  {
    if ZoneIdPrefix <= id then id[|ZoneIdPrefix|..] else id
  }

  /** Stripping undoes the prefix the service adds: the raw id comes back unchanged. */
  lemma RawZoneIdOfPrefixed(raw: string)
    ensures RawZoneId(ZoneIdPrefix + raw) == raw
  {
    assert ZoneIdPrefix <= ZoneIdPrefix + raw;
    assert (ZoneIdPrefix + raw)[|ZoneIdPrefix|..] == raw;
  }

  /** ASCII lowercasing of one character; every other character is left as it is. */
  function LowerChar(c: char): (d: char)
    ensures 'A' <= c <= 'Z' ==> 'a' <= d <= 'z' && d as int - c as int == 'a' as int - 'A' as int
    ensures !('A' <= c <= 'Z') ==> d == c
  {
    if 'A' <= c <= 'Z' then (c as int - 'A' as int + 'a' as int) as char else c
  }

  /** ASCII lowercasing of a string, character by character. */
  function Lower(s: string): (t: string)
    ensures |t| == |s|
    ensures forall i :: 0 <= i < |s| ==> t[i] == LowerChar(s[i])
  {
    seq(|s|, i requires 0 <= i < |s| => LowerChar(s[i]))
  }

  /** A lowercased string has no upper-case ASCII letter, and lowercasing it again changes nothing. */
  lemma LowerIdempotent(s: string)
    ensures forall i :: 0 <= i < |Lower(s)| ==> !('A' <= Lower(s)[i] <= 'Z')
    ensures Lower(Lower(s)) == Lower(s)
  {
  }

  /** The key of record set `name`/`recordType` listed under the zone with id `zoneId`. */
  function Key(zoneId: string, name: string, recordType: string): (k: string)
    ensures |k| == |RawZoneId(zoneId)| + |name| + |recordType| + 2
  {
    RawZoneId(zoneId) + "-" + name + "-" + Lower(recordType)
  }

  /** The key of a (zone, record) pair of the snapshot. */
  function KeyOf(p: ZoneRecord): (k: string)
    ensures var raw := RawZoneId(p.zone.id);
      && |k| == |raw| + |p.record.name| + |p.record.recordType| + 2
      && k[..|raw| + 1] == raw + "-"
      && k[|raw| + 1..|raw| + 1 + |p.record.name|] == p.record.name
      && k[|raw| + 1 + |p.record.name|..] == "-" + Lower(p.record.recordType)
  {
    Key(p.zone.id, p.record.name, p.record.recordType)
  }

  /** Within one zone, records of one name share a key exactly when their types agree up to case. */
  lemma KeyDeterminesType(zoneId: string, name: string, t1: string, t2: string)
    ensures Key(zoneId, name, t1) == Key(zoneId, name, t2) <==> Lower(t1) == Lower(t2)
  {
    var front := RawZoneId(zoneId) + "-" + name + "-";
    if Key(zoneId, name, t1) == Key(zoneId, name, t2) {
      assert Lower(t1) == Key(zoneId, name, t1)[|front|..];
      assert Lower(t2) == Key(zoneId, name, t2)[|front|..];
    }
  }

  /** Within one zone, records of one type share a key exactly when their names are equal. */
  lemma KeyDeterminesName(zoneId: string, n1: string, n2: string, recordType: string)
    ensures Key(zoneId, n1, recordType) == Key(zoneId, n2, recordType) <==> n1 == n2
  {
    var raw := RawZoneId(zoneId);
    var k1, k2 := Key(zoneId, n1, recordType), Key(zoneId, n2, recordType);
    if k1 == k2 {
      assert |n1| == |n2|;
      assert n1 == k1[|raw| + 1..|raw| + 1 + |n1|];
      assert n2 == k2[|raw| + 1..|raw| + 1 + |n2|];
    }
  }

  /** The fixture zone's raw id. */
  lemma FixtureRawZoneId()
    ensures RawZoneId("/hostedzone/hosted_zone_id") == "hosted_zone_id"
  {
    RawZoneIdOfPrefixed("hosted_zone_id");
    assert ZoneIdPrefix + "hosted_zone_id" == "/hostedzone/hosted_zone_id";
  }

  /** The fixture record's lowercased type. */
  lemma LowerCname()
    ensures Lower("CNAME") == "cname"
  {
    var t := Lower("CNAME");
    assert t[0] == 'c' && t[1] == 'n' && t[2] == 'a' && t[3] == 'm' && t[4] == 'e';
  }

  /** The key the test fixture fixes for its one CNAME record. */
  lemma FixtureKey()
    ensures Key("/hostedzone/hosted_zone_id", "record1.clinv.org", "CNAME")
         == "hosted_zone_id-record1.clinv.org-cname"
  {
    FixtureRawZoneId();
    LowerCname();
    assert Key("/hostedzone/hosted_zone_id", "record1.clinv.org", "CNAME")
        == "hosted_zone_id" + "-" + "record1.clinv.org" + "-" + "cname";
  }
}
