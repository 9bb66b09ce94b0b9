# Route53 inventory source, modelled in Dafny

This project models `Route53src`, the Route53 source of the clinv inventory
tool, as its test suite (`tests/sources/test_aws.py`) pins it down. The
source talks to the AWS Route53 DNS service. It keeps two fields:

- `user_data`: the caller's map from record key to a user entry
  `{description, to_destroy}`;
- `source_data`: a snapshot `{'hosted_zones': [...]}` of every hosted zone,
  each with all of its resource record sets.

It offers these operations:

- `_fetch_source_data`: lists the hosted zones, then pages through each
  zone's record sets by following the service's cursor. It replaces
  `source_data` with the new snapshot. Zone entries lose `CallerReference`
  and gain `records`.
- `_fetch_user_data`: gives every record key that has no entry yet the
  placeholder entry `{description: "tbd", to_destroy: "tbd"}`.
- `generate_source_data` and `generate_user_data`: return the fields.
- `generate_inventory`: joins records, user entries and a hosted-zone summary
  into one entry per record, with state `"active"`.

A record's key is the zone `Id` without `/hostedzone/`, the record `Name` and
the lowercased record `Type`, joined by `-`. For example,
`hosted_zone_id-record1.clinv.org-cname`.

Files (one module each):

- `route53_types.dfy` (`Route53Types`): the data model. `ZoneRecords` lists
  the (zone, record) pairs in the order the source visits them.
- `record_key.dfy` (`RecordKey`): key derivation.
- `pagination.dfy` (`Pagination`): the cursor-following loop for one zone,
  over the pages the service gives.
- `user_data.dfy` (`UserDataMerge`): the merge as a specification function
  (`Merge`), with its properties.
- `inventory.dfy` (`InventoryJoin`): the join as a specification function
  (`Build`), with its properties.
- `route53_source.dfy` (`Route53Source`): the class `Route53Src`. Its
  methods update `sourceData` and `userData` in place and are proved against
  the functions above.
- `fixtures.dfy` (`Route53Fixtures`): the concrete scenarios of the test
  suite, proved about the model.
- `wrappers.dfy` (`Wrappers`): `Option`.

The implementation file `clinv/sources/aws.py` is not part of this model. The
behaviour comes from what the test suite asserts. Where the suite is silent,
the model makes its own choice, and each such choice is listed under
"Left out".

## Model

| member | source | states |
|---|---|---|
| `Route53Source.Route53Src.constructor` | tests/sources/test_aws.py:83-89 | `__init__` stores the caller's user data unchanged. It fetches the snapshot, so `source_data` holds exactly the `hosted_zones` the service lists. |
| `Route53Source.Route53Src.GenerateSourceData` | tests/sources/test_aws.py:91-95 | Returns the current `source_data` as it is. |
| `Route53Source.Route53Src.GenerateUserData` | tests/sources/test_aws.py:116-120 | Returns the current `user_data` as it is. |
| `Route53Source.Route53Src.FetchUserData` | tests/sources/test_aws.py:97-114 | The nested loop leaves `user_data` equal to `Merge` of the old user data over every (zone, record) pair of the snapshot. `source_data` is untouched. |
| `Route53Source.Route53Src.FetchZoneUserData` | tests/sources/test_aws.py:102-114 | The inner loop over one zone's records leaves `user_data` equal to `Merge` of the old user data over that zone's pairs, in record order. |
| `Route53Source.Route53Src.FetchZone` | tests/sources/test_aws.py:343-401 | One pass of the zone loop: pages through zone `i` and extends the snapshot prefix and the call log by exactly that zone's kept entry and calls. |
| `Route53Source.KeptZone` | tests/sources/test_aws.py:235-262 | The kept zone plus the listed `CallerReference` gives back the listed zone, so only `CallerReference` is dropped. Its `records` are the accumulated records. |
| `Route53Source.Snapshot` | tests/sources/test_aws.py:343-389 | One entry per listed zone, in listing order. Each keeps the zone's `Id` and `Config` and holds the records of all pages read for that zone. |
| `Route53Source.CallsUpTo` | tests/sources/test_aws.py:391-401 | The call log of the first `n` zones has at least one call per zone, and every call names one of those zones' `HostedZoneId`. |
| `Route53Source.Route53Src.FetchSourceData` | tests/sources/test_aws.py:201-268 | `source_data` is replaced wholesale: its only key is `hosted_zones`. That key holds each listed zone in order, keeping `Config`, `Id`, `Name`, `ResourceRecordSetCount`, dropping `CallerReference` and gaining all records of its pages. Returns every listing call, zone after zone. `user_data` is untouched. |
| `Route53Source.Route53Src.GenerateInventory` | tests/sources/test_aws.py:126-151 | The inventory has exactly one key per record key of the snapshot. Every entry is in state `"active"` and describes a record listed under that key: the record's fields unchanged, the user fields (or `"tbd"`), and the zone summary `{id, name, private}`. |
| `Pagination.FetchRecordSets` | tests/sources/test_aws.py:338-401 | The per-zone loop returns the records of all pages read, concatenated in page order. It also returns exactly `PagedCalls`: one call per page read, the first without a cursor, each later one from the previous page's cursor. |
| `Pagination.LastPage` | tests/sources/test_aws.py:273-309 | Gives the position of the first page that is not truncated. Every earlier page is truncated. |
| `Pagination.PagesRead` | tests/sources/test_aws.py:338-341 | The pages read are a prefix of the service's answers. The last of them is not truncated and all the others are, so reading stops at the first non-truncated page. |
| `Pagination.PagedCalls` | tests/sources/test_aws.py:391-401 | There is one call per page read. The first passes only `HostedZoneId`. Call `i` passes page `i-1`'s `NextRecordName`/`NextRecordType` as `StartRecordName`/`StartRecordType`. |
| `Pagination.Records` | tests/sources/test_aws.py:353-380 | The accumulated records of a sequence of pages begin with the first page's records, and no page has more records than the accumulation. |
| `Pagination.RecordsAppend` | tests/sources/test_aws.py:343-383 | Concatenating pages concatenates their records, so each page's records are appended after the previous pages'. |
| `Pagination.RecordsMember` | tests/sources/test_aws.py:353-380 | A record is among the accumulated records exactly when some page read holds it. |
| `Pagination.FixturePagination` | tests/sources/test_aws.py:270-401 | For the two-page conversation, the records are `[record1, record2]`. The calls are `(HostedZoneId)` and then `(HostedZoneId, StartRecordName='record2.clinv.org', StartRecordType='CNAME')`. |
| `RecordKey.RawZoneId` | tests/sources/test_aws.py:106 | For an `Id` that starts with `/hostedzone/`, the raw id put back behind the prefix gives the `Id`. Any other `Id` is kept whole. |
| `RecordKey.RawZoneIdOfPrefixed` | tests/sources/test_aws.py:106 | Stripping undoes the prefix: `RawZoneId("/hostedzone/" + raw) == raw`. |
| `RecordKey.LowerChar` | tests/sources/test_aws.py:106 | Upper-case ASCII letters map to their lower-case letters. Every other character is kept. |
| `RecordKey.Lower` | tests/sources/test_aws.py:106 | Lowercases a string character by character and keeps its length. |
| `RecordKey.LowerIdempotent` | tests/sources/test_aws.py:106 | A lowercased type has no upper-case ASCII letter, and lowercasing it again changes nothing. |
| `RecordKey.Key` | tests/sources/test_aws.py:106 | The key is the raw zone id, the name and the type joined by two `-`, so its length is the sum of theirs plus two. |
| `RecordKey.KeyOf` | tests/sources/test_aws.py:105-106 | The key of a (zone, record) pair splits into the raw zone id and `-`, then the record `Name` verbatim, then `-` and the lowercased `Type`. |
| `RecordKey.KeyDeterminesType` | tests/sources/test_aws.py:106 | For one zone and one name, two types give the same key if and only if they agree up to ASCII case. |
| `RecordKey.KeyDeterminesName` | tests/sources/test_aws.py:106 | For one zone and one type, two names give the same key if and only if they are equal. |
| `RecordKey.FixtureKey` | tests/sources/test_aws.py:102-114 | `/hostedzone/hosted_zone_id`, `record1.clinv.org`, `CNAME` give `hosted_zone_id-record1.clinv.org-cname`. |
| `Route53Types.ZoneRecordsMember` | tests/sources/test_aws.py:50-77 | A (zone, record) pair is visited exactly when the zone is in the snapshot and the record is in its `records`. |
| `UserDataMerge.Merge` | tests/sources/test_aws.py:102-114 | The fold `_fetch_user_data` performs: every entry the user had is kept with its value, and every entry it adds is `{tbd, tbd}`. |
| `UserDataMerge.AddDefault` | tests/sources/test_aws.py:105-110 | One merge step adds the key. It keeps every existing entry and gives a new key the entry `{tbd, tbd}`. |
| `UserDataMerge.MergeAppend` | tests/sources/test_aws.py:102-114 | Merging one sequence of records and then another is the same as merging both at once, so the merge can run zone by zone. |
| `UserDataMerge.MergeDomain` | tests/sources/test_aws.py:102-114 | After the merge, the keys are the old keys plus the keys of all records. |
| `UserDataMerge.MergeIsAdditive` | tests/sources/test_aws.py:102-114 | The merge as one map: the old entries, plus `{tbd, tbd}` for every record key not yet present. |
| `UserDataMerge.MergeFromEmpty` | tests/sources/test_aws.py:102-114 | From empty user data, the result holds exactly one `{tbd, tbd}` entry per record key. |
| `UserDataMerge.MergeIdempotent` | tests/sources/test_aws.py:102-114 | Merging the same records twice gives the same user data as merging them once. |
| `UserDataMerge.MergeKeysOfZones` | tests/sources/test_aws.py:102-114 | A key is in the merged user data if and only if the user had it or some zone of the snapshot lists a record with that key. |
| `InventoryJoin.Build` | tests/sources/test_aws.py:122-151 | The join `generate_inventory` performs: no pairs give an empty inventory, and every entry is in state `"active"`. When two records share a key, the later one wins; see `BuildLastWins`. |
| `InventoryJoin.EntryFor` | tests/sources/test_aws.py:127-149 | The entry built for a pair `Describes` it. |
| `InventoryJoin.Describes` | tests/sources/test_aws.py:127-149 | An entry describing a pair has the record's `Name`, `ResourceRecords`, `TTL` and `Type`, and the user's description and to_destroy or `"tbd"`. It also has the zone summary `{id, name, private}` and state `"active"`. |
| `InventoryJoin.BuildDomain` | tests/sources/test_aws.py:126-151 | The inventory's keys are exactly the record keys of the snapshot. |
| `InventoryJoin.BuildLastWins` | tests/sources/test_aws.py:126-151 | A pair whose key no later pair repeats is described by the entry under its key. |
| `InventoryJoin.BuildOrigin` | tests/sources/test_aws.py:126-151 | Every entry describes some pair with its key, and its state is `"active"`. |
| `InventoryJoin.InventoryAgreesWithMerge` | tests/sources/test_aws.py:140-141 | An entry's `description` and `to_destroy` are the ones `user_data` holds under that key once the same records are merged. |
| `InventoryJoin.InventoryFromEmptyUserData` | tests/sources/test_aws.py:140-147 | With empty user data, every entry has `description` and `to_destroy` `"tbd"` and state `"active"`. |
| `Route53Fixtures.NoZones` | tests/sources/test_aws.py:97-100 | With no hosted zones, empty user data stays empty and the inventory is empty (also lines 122-124). |
| `Route53Fixtures.FixtureUserData` | tests/sources/test_aws.py:102-114 | For the one-record fixture, the merge from empty gives exactly `{hosted_zone_id-record1.clinv.org-cname: {tbd, tbd}}`. |
| `Route53Fixtures.FixtureInventory` | tests/sources/test_aws.py:126-151 | For the one-record fixture, the inventory is exactly the one expected entry. |
| `Route53Fixtures.SinglePageScenario` | tests/sources/test_aws.py:201-268 | A one-page fetch gives the expected `hosted_zones` snapshot, with the record name kept verbatim with its trailing dot. It makes a single call without a cursor. |
| `Route53Fixtures.PaginationScenario` | tests/sources/test_aws.py:270-401 | A two-page fetch replaces a previous `{'route53': {}}`. It gives the zone both pages' records in order and makes the two expected calls. |

## Left out

- The boto3 client is not called. The service is a value: the zone list, plus each zone's answers to `list_resource_record_sets` in call order. The calls the source makes are returned as a log. Transport failures, retries and `ResponseMetadata` are not modelled.
- Zone listing is one page. `IsTruncated` and `MaxItems` of `list_hosted_zones` are not modelled.
- `Route53Source.WellFormed` requires every zone's listing to end in a non-truncated page. A service that keeps answering "truncated" would make the source loop forever, and the model excludes that case.
- A truncated page always carries its `NextRecordName` and `NextRecordType`. The source would fail with a missing-key error on a truncated page without them, and the model cannot express such a page.
- A `source_data` without `hosted_zones` makes every reader fail with a missing-key error. The model makes its presence the precondition `Valid()` of the readers.
- `logging`, `print` and the temporary inventory directory are not modelled. They are I/O.
- Python stores the caller's `user_data` dict itself, so the merge is visible to the caller through that alias. The model stores a map value, and the caller reads it back with `GenerateUserData`.
- `Type` lowercasing covers ASCII letters only; Unicode case folding is not modelled.
- `RecordKey.RawZoneId` removes `/hostedzone/` only as a leading prefix and keeps any other `Id` whole. The test suite only uses ids that carry the prefix.
- `Route53Source.Route53Src.FetchUserData`: the model keeps an entry the user already has for a key and never overwrites it. The test suite only pins the merge from empty user data.
- `Route53Source.Route53Src.GenerateInventory` is a pure function of the fields. It reads a user entry where one exists and uses `"tbd"` otherwise. The test suite shows `"tbd"` with empty `user_data` and no preceding merge. Whether the implementation also writes those entries into `user_data` at that point is not pinned by the test suite, and the model does not do so.
- Record names are kept verbatim. A name fetched with a trailing dot keeps it in the snapshot and in its key; the model does not normalise it.
- `TTL` is a natural number. Record sets without a `TTL` (alias records) are not modelled.
