/**
 * Cursor-following pagination of `list_resource_record_sets`. The service's
 * answers for one hosted zone are modelled as the finite sequence of pages it
 * gives, in call order; a truncated page carries the cursor (`NextRecordName`,
 * `NextRecordType`) the next call must start from.
 */
module Pagination {
  import opened Wrappers
  import opened Route53Types

  /** Where a listing call starts: `StartRecordName` and `StartRecordType`. */
  datatype Cursor = Cursor(recordName: string, recordType: string)

  /** One answer of `list_resource_record_sets`: `IsTruncated` is `Truncated?`. */
  datatype Page =
    | Final(resourceRecordSets: seq<RecordSet>)
    | Truncated(resourceRecordSets: seq<RecordSet>, nextRecordName: string, nextRecordType: string)

  /** The arguments of one `list_resource_record_sets` call; `start` is absent on the first. */
  datatype ListCall = ListCall(hostedZoneId: string, start: Option<Cursor>)

  /** The cursor a truncated page hands to the next call. */
  function NextCursor(p: Page): Cursor
    requires p.Truncated?
  {
    Cursor(p.nextRecordName, p.nextRecordType)
  }

  /** The service eventually answers with a page that is not truncated. */
  predicate Completes(pages: seq<Page>)
  {
    exists i :: 0 <= i < |pages| && pages[i].Final?
  }

  /** The position of the first non-truncated page: the last page the source asks for. */
  function LastPage(pages: seq<Page>): (n: nat)
    requires Completes(pages)
    ensures n < |pages| && pages[n].Final?
    ensures forall i :: 0 <= i < n ==> pages[i].Truncated?
  {
    if pages[0].Final? then 0
    else
      assert Completes(pages[1..]) by {
        var i :| 0 <= i < |pages| && pages[i].Final?;
        assert pages[1..][i - 1].Final?;
      }
      1 + LastPage(pages[1..])
  }

  /** The pages the source reads: the shortest prefix that ends in a non-truncated page. */
  function PagesRead(pages: seq<Page>): (read: seq<Page>)
    requires Completes(pages)
    ensures read <= pages && |read| > 0
    ensures read[|read| - 1].Final?
    ensures forall i :: 0 <= i < |read| - 1 ==> read[i].Truncated?
  {
    pages[..LastPage(pages) + 1]
  }

  /** The records of a sequence of pages, page after page. */
  function Records(pages: seq<Page>): (records: seq<RecordSet>)
    ensures pages != [] ==> pages[0].resourceRecordSets <= records
    ensures forall i :: 0 <= i < |pages| ==> |pages[i].resourceRecordSets| <= |records|
  {
    if pages == [] then [] else pages[0].resourceRecordSets + Records(pages[1..])
  }

  /** Concatenating pages concatenates their records. */
  lemma {:induction false} RecordsAppend(a: seq<Page>, b: seq<Page>)
    ensures Records(a + b) == Records(a) + Records(b)
  {
    if a == [] {
      assert a + b == b;
    } else {
      assert (a + b)[1..] == a[1..] + b;
      RecordsAppend(a[1..], b);
    }
  }

  /** Every record of every page read appears in the accumulated records, and nothing else does. */
  lemma {:induction false} RecordsMember(pages: seq<Page>, r: RecordSet)
    ensures r in Records(pages) <==> exists i :: 0 <= i < |pages| && r in pages[i].resourceRecordSets
  {
    if pages != [] {
      RecordsMember(pages[1..], r);
      if r in Records(pages[1..]) {
        var i :| 0 <= i < |pages[1..]| && r in pages[1..][i].resourceRecordSets;
        assert r in pages[i + 1].resourceRecordSets;
      }
      if exists i :: 0 <= i < |pages| && r in pages[i].resourceRecordSets {
        var i :| 0 <= i < |pages| && r in pages[i].resourceRecordSets;
        if i > 0 {
          assert r in pages[1..][i - 1].resourceRecordSets;
        }
      }
    }
  }

  /** The arguments of the `i`-th call for a zone: the first carries no cursor, every later one the previous page's. */
  function CallAt(zoneId: string, pages: seq<Page>, i: nat): ListCall
    requires i < |pages|
    requires i > 0 ==> pages[i - 1].Truncated?
  {
    if i == 0 then ListCall(zoneId, None) else ListCall(zoneId, Some(NextCursor(pages[i - 1])))
  }

  /** The calls the source issues for one zone: one per page read, each starting where the previous page ended. */
  function PagedCalls(zoneId: string, pages: seq<Page>): (calls: seq<ListCall>)
    requires Completes(pages)
    ensures |calls| == |PagesRead(pages)|
    ensures calls[0] == ListCall(zoneId, None)
    ensures forall i :: 1 <= i < |calls| ==>
      pages[i - 1].Truncated? && calls[i] == ListCall(zoneId, Some(NextCursor(pages[i - 1])))
  {
    var n := LastPage(pages) + 1;
    seq(n, i requires 0 <= i < n => CallAt(zoneId, pages, i))
  }

  /**
   * The pagination loop of `_fetch_source_data` for one zone: ask, take the
   * page's records, and while the page is truncated ask again from its cursor.
   * Returns the accumulated records and the calls made, in order.
   */
  method FetchRecordSets(zoneId: string, pages: seq<Page>) returns (records: seq<RecordSet>, calls: seq<ListCall>)
    requires Completes(pages)
    ensures records == Records(PagesRead(pages))
    ensures calls == PagedCalls(zoneId, pages)
  {
    ghost var last := LastPage(pages);
    calls := [ListCall(zoneId, None)];
    var i := 0;
    var page := pages[i];
    records := page.resourceRecordSets;
    assert Records(pages[..1]) == records + Records([]);
    while page.Truncated?
      invariant 0 <= i <= last
      invariant page == pages[i]
      invariant records == Records(pages[..i + 1])
      invariant calls == PagedCalls(zoneId, pages)[..i + 1]
      decreases last - i
    {
      calls := calls + [ListCall(zoneId, Some(Cursor(page.nextRecordName, page.nextRecordType)))];
      i := i + 1;
      page := pages[i];
      RecordsAppend(pages[..i], [page]);
      assert pages[..i + 1] == pages[..i] + [page];
      assert Records([page]) == page.resourceRecordSets + Records([]);
      records := records + page.resourceRecordSets;
    }
    assert PagedCalls(zoneId, pages)[..i + 1] == PagedCalls(zoneId, pages);
  }

  /** The two-page conversation of the pagination fixture: records in page order, the second call from the first page's cursor. */
  lemma FixturePagination(zoneId: string, r1: RecordSet, r2: RecordSet)
    ensures var pages := [Truncated([r1], "record2.clinv.org", "CNAME"), Final([r2])];
      && Completes(pages)
      && Records(PagesRead(pages)) == [r1, r2]
      && PagedCalls(zoneId, pages)
         == [ListCall(zoneId, None), ListCall(zoneId, Some(Cursor("record2.clinv.org", "CNAME")))]
  {
    var pages := [Truncated([r1], "record2.clinv.org", "CNAME"), Final([r2])];
    assert pages[1].Final?;
    assert LastPage(pages[1..]) == 0;
    assert PagesRead(pages) == pages;
    assert Records(pages) == [r1] + Records(pages[1..]);
    assert Records(pages[1..]) == [r2] + Records([]);
  }
}
