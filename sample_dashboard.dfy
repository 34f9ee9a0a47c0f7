/** The registrar's sample dashboard: one page of samples, refreshed on a
    timer, with the last successful page kept as a cache for when a reload
    fails. */
module SampleDashboard {
  import opened Api
  import opened Seqs
  import opened Samples

  /** The reply to a page request; `data` is the page envelope. */
  datatype DashboardReply = DashboardReply(status: Status, data: PageResponse, message: Option<string>)

  /** The request sent for a page: the date range is fixed to one day. */
  datatype SampleRequest = SampleRequest(page: nat, size: nat, fromDate: string, toDate: string)

  const FROM_DATE := "2026-01-22T00:00:00"
  const TO_DATE := "2026-01-22T23:59:59"
  const PAGE_SIZE: nat := 10

  /** The number of samples a check has been done on. */
  function CheckedCount(samples: seq<Sample>, checked: Sample -> bool): (n: nat)
    ensures n <= |samples|
    ensures n == |samples| <==> forall i :: 0 <= i < |samples| ==> checked(samples[i])
    ensures n == 0 <==> forall i :: 0 <= i < |samples| ==> !checked(samples[i])
  {
    FilterCount(samples, checked);
    |Filter(samples, checked)|
  }

  class SampleDashboardPage {
    var samples: seq<Sample>
    var loading: bool
    var currentPage: nat
    var pageSize: nat
    var totalElements: nat
    var totalPages: nat
    var cacheData: seq<Sample>

    /** What is shown is always the cached page: both start empty, a
        successful reply sets both, and every fallback copies the cache. */
    ghost predicate Valid()
      reads this`samples, this`cacheData
    {
      samples == cacheData
    }

    constructor()
      ensures Valid()
      ensures samples == [] && cacheData == [] && !loading
      ensures currentPage == 0 && pageSize == PAGE_SIZE && totalElements == 0 && totalPages == 0
    {
      samples := [];
      loading := false;
      currentPage := 0;
      pageSize := PAGE_SIZE;
      totalElements := 0;
      totalPages := 0;
      cacheData := [];
    }

    /** The synchronous part of `loadSamples`: the load is in flight and the
        request for the current page is returned. */
    method LoadSamples() returns (req: SampleRequest)
      modifies this`loading
      ensures loading
      ensures req == SampleRequest(currentPage, pageSize, FROM_DATE, TO_DATE)
    {
      loading := true;
      req := SampleRequest(currentPage, pageSize, FROM_DATE, TO_DATE);
    }

    /** A reply, then `finalize`: SUCCESS replaces the page, the cache and
        the totals; any other status falls back to the cache. */
    method OnLoadResponse(reply: DashboardReply)
      requires Valid()
      modifies this`samples, this`cacheData, this`totalElements, this`totalPages, this`loading
      ensures Valid()
      ensures !loading
      ensures reply.status == SUCCESS ==>
        samples == reply.data.content && cacheData == reply.data.content &&
        totalElements == reply.data.totalElements && totalPages == reply.data.totalPages
      ensures reply.status != SUCCESS ==>
        samples == old(cacheData) && cacheData == old(cacheData) &&
        totalElements == old(totalElements) && totalPages == old(totalPages)
    {
      if reply.status == SUCCESS {
        samples := reply.data.content;
        cacheData := samples;
        totalElements := reply.data.totalElements;
        totalPages := reply.data.totalPages;
      } else {
        samples := cacheData;
      }
      loading := false;
    }

    /** A network error, then `finalize`: the page comes back from a
        non-empty cache and is otherwise left alone. */
    method OnLoadError()
      requires Valid()
      modifies this`samples, this`loading
      ensures Valid()
      ensures !loading
      ensures cacheData != [] ==> samples == cacheData
      ensures cacheData == [] ==> samples == old(samples)
    {
      if |cacheData| > 0 {
        samples := cacheData;
      }
      loading := false;
    }

    /** Only an existing page is loaded; any other page number changes
        nothing. */
    method OnPageChange(page: int) returns (req: Option<SampleRequest>)
      modifies this`currentPage, this`loading
      ensures 0 <= page < totalPages ==>
        currentPage == page && loading && req == Some(SampleRequest(page, pageSize, FROM_DATE, TO_DATE))
      ensures !(0 <= page < totalPages) ==>
        currentPage == old(currentPage) && loading == old(loading) && req.None?
    {
      if page >= 0 && page < totalPages {
        currentPage := page;
        var r := LoadSamples();
        return Some(r);
      }
      return None;
    }

    function TechnicianCheckedCount(): (n: nat)
      reads this`samples
      ensures n <= |samples|
      ensures n == |samples| <==> forall i :: 0 <= i < |samples| ==> samples[i].techanicianChecked
    {
      CheckedCount(samples, TechnicianChecked)
    }

    function QualityCheckedCount(): (n: nat)
      reads this`samples
      ensures n <= |samples|
      ensures n == |samples| <==> forall i :: 0 <= i < |samples| ==> samples[i].qualityChecked
    {
      CheckedCount(samples, QualityChecked)
    }
  }
}
