/**
 * The user-data merge of `_fetch_user_data`: for every (zone, record) pair of
 * the snapshot, in order, the record's key receives the placeholder entry
 * `{description: "tbd", to_destroy: "tbd"}` unless the user already has an
 * entry under that key.
 */
module UserDataMerge {
  import opened Route53Types
  import opened RecordKey

  /** One step of the merge: add the placeholder entry for `k` when `k` has none. */
  function AddDefault(user: UserData, k: string): (u: UserData)
    ensures u.Keys == user.Keys + {k}
    ensures forall k' :: k' in user ==> u[k'] == user[k']
    ensures k !in user ==> u[k] == DefaultUserEntry
  {
    if k in user then user else user[k := DefaultUserEntry]
  }

  /** The user data after the merge has visited the pairs `ps`, in order. */
  function Merge(user: UserData, ps: seq<ZoneRecord>): (merged: UserData)
    ensures forall k :: k in user ==> k in merged && merged[k] == user[k]
    ensures forall k :: k in merged && k !in user ==> merged[k] == DefaultUserEntry
  {
    if ps == [] then user else AddDefault(Merge(user, ps[..|ps| - 1]), KeyOf(ps[|ps| - 1]))
  }

  /** The keys of a sequence of pairs. */
  function KeySet(ps: seq<ZoneRecord>): set<string>
  {
    if ps == [] then {} else KeySet(ps[..|ps| - 1]) + {KeyOf(ps[|ps| - 1])}
  }

  /** A key is among the keys of `ps` exactly when some pair of `ps` has it. */
  lemma {:induction false} KeySetMember(ps: seq<ZoneRecord>, k: string)
    ensures k in KeySet(ps) <==> exists p :: p in ps && KeyOf(p) == k
  {
    if ps != [] {
      var init, last := ps[..|ps| - 1], ps[|ps| - 1];
      KeySetMember(init, k);
      assert ps == init + [last];
    }
  }

  /** Visiting one more pair merges one more key: the step of the source's loops. */
  lemma MergeSnoc(user: UserData, ps: seq<ZoneRecord>, p: ZoneRecord)
    ensures Merge(user, ps + [p]) == AddDefault(Merge(user, ps), KeyOf(p))
  {
    assert (ps + [p])[..|ps|] == ps;
  }

  /** Splitting off the last element of a non-empty right operand. */
  lemma SplitLast(a: seq<ZoneRecord>, b: seq<ZoneRecord>)
    requires b != []
    ensures a + b == (a + b[..|b| - 1]) + [b[|b| - 1]]
  {
    assert b == b[..|b| - 1] + [b[|b| - 1]];
  }

  /** Merging `a` and then `b` is merging `a + b`: the merge can be run zone by zone. */
  lemma {:induction false} MergeAppend(user: UserData, a: seq<ZoneRecord>, b: seq<ZoneRecord>)
    ensures Merge(Merge(user, a), b) == Merge(user, a + b)
  {
    if b == [] {
      assert a + b == a;
    } else {
      var init, last := b[..|b| - 1], b[|b| - 1];
      MergeAppend(user, a, init);
      assert Merge(Merge(user, a), b) == AddDefault(Merge(Merge(user, a), init), KeyOf(last));
      SplitLast(a, b);
      MergeSnoc(user, a + init, last);
    }
  }

  /** After the merge the user data holds exactly the keys it held before and the keys of the records. */
  lemma {:induction false} MergeDomain(user: UserData, ps: seq<ZoneRecord>)
    ensures Merge(user, ps).Keys == user.Keys + KeySet(ps)
  {
    if ps != [] {
      var init, last := ps[..|ps| - 1], ps[|ps| - 1];
      MergeDomain(user, init);
    }
  }

  /** The merge as one map: the old entries, plus a placeholder entry for every new record key. */
  lemma {:induction false} MergeIsAdditive(user: UserData, ps: seq<ZoneRecord>)
    ensures Merge(user, ps)
         == map k | k in user.Keys + KeySet(ps) :: if k in user then user[k] else DefaultUserEntry
  {
    MergeDomain(user, ps);
  }

  /** Starting from empty user data, the merge holds exactly one placeholder entry per record key. */
  lemma {:induction false} MergeFromEmpty(ps: seq<ZoneRecord>)
    ensures Merge(map[], ps) == map k | k in KeySet(ps) :: DefaultUserEntry
  {
    MergeIsAdditive(map[], ps);
  }

  /** Running the merge a second time over the same records changes nothing. */
  lemma {:induction false} MergeIdempotent(user: UserData, ps: seq<ZoneRecord>)
    ensures Merge(Merge(user, ps), ps) == Merge(user, ps)
  {
    var once := Merge(user, ps);
    MergeDomain(user, ps);
    MergeIsAdditive(once, ps);
  }

  /** A key is in the merged user data exactly when the user had it or some zone lists a record with that key. */
  lemma {:induction false} MergeKeysOfZones(user: UserData, zones: seq<HostedZone>, k: string)
    ensures k in Merge(user, ZoneRecords(zones)) <==>
      k in user || exists z, r :: z in zones && r in z.records && Key(z.id, r.name, r.recordType) == k
  {
    var ps := ZoneRecords(zones);
    MergeDomain(user, ps);
    KeySetMember(ps, k);
    if k in KeySet(ps) {
      var p :| p in ps && KeyOf(p) == k;
      ZoneRecordsMember(zones, p);
    }
    if exists z, r :: z in zones && r in z.records && Key(z.id, r.name, r.recordType) == k {
      var z, r :| z in zones && r in z.records && Key(z.id, r.name, r.recordType) == k;
      ZoneRecordsMember(zones, ZoneRecord(z, r));
      assert KeyOf(ZoneRecord(z, r)) == k;
    }
  }
}
