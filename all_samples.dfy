/** The sample registrar's list of all samples: one page of samples at a
    time from the backend, filtered on the client, with per-status
    statistics and a window of page numbers for navigation. */
module AllSamples {
  import opened Api
  import opened Text
  import opened Seqs
  import opened Samples

  datatype SampleStatus = Pending | Analysis | Approved

  /** `filters.status`: `'all'` or one status. */
  datatype StatusChoice = AnyStatus | OnlyStatus(status: SampleStatus)

  datatype Filters = Filters(searchTerm: string, status: StatusChoice, fromDate: string, toDate: string, sampleType: string)

  datatype Pagination = Pagination(currentPage: nat, pageSize: nat, totalPages: nat, totalElements: nat)

  datatype Stats = Stats(total: nat, pending: nat, analysis: nat, approved: nat)

  /** The request `loadSamples` sends; an empty date is sent as absent. */
  datatype PageRequest = PageRequest(page: nat, size: nat, fromDate: Option<string>, toDate: Option<string>)

  const ALL := "all"
  const DEFAULT_FILTERS := Filters("", AnyStatus, "", "", ALL)
  const DEFAULT_PAGE_SIZE: nat := 10
  /** Page-number windows longer than this are abbreviated. */
  const WINDOW := 7
  /** The ellipsis marker in a page-number window. */
  const GAP := -1

  /** Approved when both checks are done, under analysis when one is, and
      pending when neither is. */
  function GetSampleStatus(s: Sample): (r: SampleStatus)
    ensures r == Approved <==> s.techanicianChecked && s.qualityChecked
    ensures r == Analysis <==> s.techanicianChecked != s.qualityChecked
    ensures r == Pending <==> !s.techanicianChecked && !s.qualityChecked
  {
    if s.techanicianChecked && s.qualityChecked then Approved
    else if s.techanicianChecked || s.qualityChecked then Analysis
    else Pending
  }

  function StatusText(st: SampleStatus): (r: string)
    ensures r != []
  {
    match st
    case Analysis => "Under Analysis"
    case Approved => "Approved"
    case Pending => "Pending"
  }

  /** Each status has its own label. */
  lemma StatusTextInjective(a: SampleStatus, b: SampleStatus)
    requires StatusText(a) == StatusText(b)
    ensures a == b
  {
  }

  // ---- client-side filters ----

  /** `field?.toLowerCase().includes(term)`: a missing field never matches. */
  predicate FieldIncludes(field: Option<string>, term: string) {
    field.Some? && Includes(Lower(field.value), term)
  }

  function SearchFields(s: Sample): seq<Option<string>> {
    [s.sampleNumber, s.reportNumber, s.projectName, s.sampleDescription, s.address]
  }

  function MatchesSearch(term: string): Sample -> bool {
    (s: Sample) => exists i | 0 <= i < |SearchFields(s)| :: FieldIncludes(SearchFields(s)[i], term)
  }

  function HasStatus(st: SampleStatus): Sample -> bool {
    (s: Sample) => GetSampleStatus(s) == st
  }

  function MatchesType(sampleType: string): Sample -> bool {
    (s: Sample) => FieldIncludes(s.sampleDescription, Lower(sampleType))
  }

  predicate TypeFilterOn(sampleType: string) {
    sampleType != [] && sampleType != ALL
  }

  /** `filteredSamples` as `applyClientSideFilters` computes it from a copy of
      `samples`: the search, then the status, then the sample type, each
      applied only when set. */
  function ClientFilter(samples: seq<Sample>, f: Filters): seq<Sample> {
    var afterSearch := if f.searchTerm != [] then Filter(samples, MatchesSearch(Lower(f.searchTerm))) else samples;
    var afterStatus := if f.status.OnlyStatus? then Filter(afterSearch, HasStatus(f.status.status)) else afterSearch;
    if TypeFilterOn(f.sampleType) then Filter(afterStatus, MatchesType(f.sampleType)) else afterStatus
  }

  /** The three tests as one predicate. */
  function Passes(f: Filters): Sample -> bool {
    (s: Sample) =>
      (f.searchTerm == [] || MatchesSearch(Lower(f.searchTerm))(s)) &&
      (f.status.AnyStatus? || GetSampleStatus(s) == f.status.status) &&
      (!TypeFilterOn(f.sampleType) || MatchesType(f.sampleType)(s))
  }

  function PassesSearch(f: Filters): Sample -> bool {
    (s: Sample) => f.searchTerm == [] || MatchesSearch(Lower(f.searchTerm))(s)
  }

  function PassesSearchAndStatus(f: Filters): Sample -> bool {
    (s: Sample) => (f.searchTerm == [] || MatchesSearch(Lower(f.searchTerm))(s)) &&
      (f.status.AnyStatus? || GetSampleStatus(s) == f.status.status)
  }

  function PassesStatus(f: Filters): Sample -> bool {
    (s: Sample) => f.status.AnyStatus? || GetSampleStatus(s) == f.status.status
  }

  function PassesType(f: Filters): Sample -> bool {
    (s: Sample) => !TypeFilterOn(f.sampleType) || MatchesType(f.sampleType)(s)
  }

  /** The filters in a row are one filter by their conjunction. */
  lemma ClientFilterIsConjunction(samples: seq<Sample>, f: Filters)
    ensures ClientFilter(samples, f) == Filter(samples, Passes(f))
  {
    var a := if f.searchTerm != [] then Filter(samples, MatchesSearch(Lower(f.searchTerm))) else samples;
    FilterIf(samples, f.searchTerm != [], MatchesSearch(Lower(f.searchTerm)), PassesSearch(f));
    var b := if f.status.OnlyStatus? then Filter(a, HasStatus(f.status.status)) else a;
    if f.status.OnlyStatus? {
      FilterIf(a, true, HasStatus(f.status.status), PassesStatus(f));
    } else {
      FilterAll(a, PassesStatus(f));
    }
    FilterFilter(samples, PassesSearch(f), PassesStatus(f), PassesSearchAndStatus(f));
    FilterIf(b, TypeFilterOn(f.sampleType), MatchesType(f.sampleType), PassesType(f));
    FilterFilter(samples, PassesSearchAndStatus(f), PassesType(f), Passes(f));
  }

  /** The result is an order-preserving subsequence of the samples, and keeps
      exactly the samples that pass every filter that is set. */
  lemma ClientFilterSpec(samples: seq<Sample>, f: Filters)
    ensures IsSubseq(ClientFilter(samples, f), samples)
    ensures forall s :: s in ClientFilter(samples, f) <==> s in samples && Passes(f)(s)
  {
    ClientFilterIsConjunction(samples, f);
    FilterIsSubseq(samples, Passes(f));
    FilterMembers(samples, Passes(f));
  }

  /** With the default filters nothing is filtered out. */
  lemma DefaultFiltersKeepAll(samples: seq<Sample>)
    ensures ClientFilter(samples, DEFAULT_FILTERS) == samples
  {
  }

  /** A kept sample has the chosen status, and its description contains the
      chosen sample type. */
  lemma ClientFilterKeepsChosen(samples: seq<Sample>, f: Filters, s: Sample)
    requires s in ClientFilter(samples, f)
    ensures f.status.OnlyStatus? ==> GetSampleStatus(s) == f.status.status
    ensures TypeFilterOn(f.sampleType) ==> s.sampleDescription.Some? && Includes(Lower(s.sampleDescription.value), Lower(f.sampleType))
  {
    ClientFilterSpec(samples, f);
  }

  // ---- statistics ----

  predicate IsPending(s: Sample) { !s.techanicianChecked && !s.qualityChecked }
  predicate IsUnderAnalysis(s: Sample) {
    (s.techanicianChecked && !s.qualityChecked) || (!s.techanicianChecked && s.qualityChecked)
  }
  predicate IsApproved(s: Sample) { s.techanicianChecked && s.qualityChecked }

  /** `stats` as `calculateStats` sets it: the total is the backend's element
      count, the buckets count the samples of the page. */
  function StatsOf(samples: seq<Sample>, totalElements: nat): Stats {
    Stats(totalElements,
      |Filter(samples, (s: Sample) => IsPending(s))|,
      |Filter(samples, (s: Sample) => IsUnderAnalysis(s))|,
      |Filter(samples, (s: Sample) => IsApproved(s))|)
  }

  /** The buckets partition the page, each bucket holds the samples
      `GetSampleStatus` gives its status, and the total is the backend's
      count rather than the page's length. */
  lemma StatsPartition(samples: seq<Sample>, totalElements: nat)
    ensures StatsOf(samples, totalElements).pending + StatsOf(samples, totalElements).analysis +
            StatsOf(samples, totalElements).approved == |samples|
    ensures StatsOf(samples, totalElements).pending == |Filter(samples, HasStatus(Pending))|
    ensures StatsOf(samples, totalElements).analysis == |Filter(samples, HasStatus(Analysis))|
    ensures StatsOf(samples, totalElements).approved == |Filter(samples, HasStatus(Approved))|
    ensures StatsOf(samples, totalElements).total == totalElements
  {
    FilterPartition3(samples, (s: Sample) => IsPending(s), (s: Sample) => IsUnderAnalysis(s), (s: Sample) => IsApproved(s));
    FilterCongruent(samples, (s: Sample) => IsPending(s), HasStatus(Pending));
    FilterCongruent(samples, (s: Sample) => IsUnderAnalysis(s), HasStatus(Analysis));
    FilterCongruent(samples, (s: Sample) => IsApproved(s), HasStatus(Approved));
  }

  // ---- page-number window ----

  /** A seven-slot window over `total` pages: it starts at the first page and
      ends at the last, its page numbers lie in range and increase, adjacent
      page numbers are consecutive, and each ellipsis stands between two page
      numbers with at least one page skipped. */
  ghost predicate IsWindow(pages: seq<int>, total: nat) {
    |pages| == WINDOW && pages[0] == 0 && pages[WINDOW - 1] == total - 1 &&
    (forall i :: 0 <= i < |pages| ==> pages[i] == GAP || 0 <= pages[i] < total) &&
    (forall i, j :: 0 <= i < j < |pages| && pages[i] != GAP && pages[j] != GAP ==> pages[i] < pages[j]) &&
    (forall i :: 0 <= i < |pages| - 1 && pages[i] != GAP && pages[i + 1] != GAP ==> pages[i + 1] == pages[i] + 1) &&
    (forall i :: 0 <= i < |pages| && pages[i] == GAP ==>
      0 < i < |pages| - 1 && pages[i - 1] != GAP && pages[i + 1] != GAP && pages[i + 1] > pages[i - 1] + 1)
  }

  /** `getPageNumbers`: every page when there are at most seven, otherwise a
      window around the current page with ellipses for the skipped runs. */
  method PageNumbers(total: nat, current: nat) returns (pages: seq<int>)
    ensures total <= WINDOW ==> |pages| == total && forall i :: 0 <= i < |pages| ==> pages[i] == i
    ensures total > WINDOW ==> IsWindow(pages, total)
    ensures current < total ==> current in pages
  {
    pages := [];
    if total <= WINDOW {
      var i := 0;
      while i < total
        invariant 0 <= i <= total
        invariant |pages| == i
        invariant forall k :: 0 <= k < i ==> pages[k] == k
      {
        pages := pages + [i];
        i := i + 1;
      }
      if current < total {
        assert pages[current] == current;
      }
    } else if current <= 3 {
      pages := [0, 1, 2, 3, 4, GAP, total - 1];
      HeadWindow(total);
      assert pages[current] == current;
    } else if current >= total - 4 {
      pages := [0, GAP, total - 5, total - 4, total - 3, total - 2, total - 1];
      TailWindow(total);
      if current < total {
        assert pages[current - total + 7] == current;
      }
    } else {
      pages := [0, GAP, current - 1, current, current + 1, GAP, total - 1];
      MiddleWindow(total, current);
      assert pages[3] == current;
    }
  }

  lemma HeadWindow(total: nat)
    requires total > WINDOW
    ensures IsWindow([0, 1, 2, 3, 4, GAP, total - 1], total)
  {
  }

  lemma TailWindow(total: nat)
    requires total > WINDOW
    ensures IsWindow([0, GAP, total - 5, total - 4, total - 3, total - 2, total - 1], total)
  {
  }

  lemma MiddleWindow(total: nat, current: nat)
    requires total > WINDOW && 3 < current < total - 4
    ensures IsWindow([0, GAP, current - 1, current, current + 1, GAP, total - 1], total)
  {
  }

  // ---- the component ----

  class AllSamplesPage {
    var samples: seq<Sample>
    var filteredSamples: seq<Sample>
    var isLoading: bool
    var filters: Filters
    var pagination: Pagination
    var stats: Stats

    /** The statistics always describe the loaded page. */
    ghost predicate Valid()
      reads this
    {
      stats == StatsOf(samples, pagination.totalElements)
    }

    constructor()
      ensures Valid()
      ensures samples == [] && filteredSamples == [] && !isLoading
      ensures filters == DEFAULT_FILTERS && pagination == Pagination(0, DEFAULT_PAGE_SIZE, 0, 0)
      ensures stats == Stats(0, 0, 0, 0)
    {
      samples := [];
      filteredSamples := [];
      isLoading := false;
      filters := DEFAULT_FILTERS;
      pagination := Pagination(0, DEFAULT_PAGE_SIZE, 0, 0);
      stats := Stats(0, 0, 0, 0);
    }

    /** The synchronous part of `loadSamples`: marks the load as running and
        yields the request for the current page and date range. */
    method LoadSamples() returns (req: PageRequest)
      requires Valid()
      modifies this
      ensures Valid()
      ensures isLoading
      ensures req.page == pagination.currentPage && req.size == pagination.pageSize
      ensures req.fromDate == (if filters.fromDate == [] then None else Some(filters.fromDate))
      ensures req.toDate == (if filters.toDate == [] then None else Some(filters.toDate))
      ensures samples == old(samples) && filteredSamples == old(filteredSamples)
      ensures filters == old(filters) && pagination == old(pagination) && stats == old(stats)
    {
      isLoading := true;
      req := PageRequest(pagination.currentPage, pagination.pageSize,
        if filters.fromDate == [] then None else Some(filters.fromDate),
        if filters.toDate == [] then None else Some(filters.toDate));
    }

    /** The reply to `loadSamples`, followed by its `finalize`. A successful
        reply with a page replaces the samples and totals, then re-filters
        and recounts; any other reply changes nothing but `isLoading`. */
    method OnLoadResponse(reply: PageReply)
      requires Valid()
      modifies this
      ensures Valid()
      ensures !isLoading
      ensures reply.status == SUCCESS && reply.data.Some? ==>
        samples == reply.data.value.content &&
        pagination == old(pagination).(totalPages := reply.data.value.totalPages, totalElements := reply.data.value.totalElements) &&
        filteredSamples == ClientFilter(samples, filters)
      ensures !(reply.status == SUCCESS && reply.data.Some?) ==>
        samples == old(samples) && filteredSamples == old(filteredSamples) && pagination == old(pagination)
      ensures filters == old(filters)
    {
      if reply.status == SUCCESS && reply.data.Some? {
        var page := reply.data.value;
        samples := page.content;
        pagination := pagination.(totalPages := page.totalPages, totalElements := page.totalElements);
        ApplyClientSideFilters();
        CalculateStats();
      }
      isLoading := false;
    }

    /** The `error` callback followed by `finalize`: only the loading flag
        changes. */
    method OnLoadError()
      requires Valid()
      modifies this
      ensures Valid()
      ensures !isLoading
      ensures samples == old(samples) && filteredSamples == old(filteredSamples)
      ensures filters == old(filters) && pagination == old(pagination) && stats == old(stats)
    {
      isLoading := false;
    }

    /** Filters a copy of `samples`; `samples` itself is not changed. */
    method ApplyClientSideFilters()
      modifies this
      ensures filteredSamples == ClientFilter(samples, filters)
      ensures samples == old(samples) && isLoading == old(isLoading)
      ensures filters == old(filters) && pagination == old(pagination) && stats == old(stats)
    {
      var copy := samples;
      filteredSamples := ClientFilter(copy, filters);
    }

    method CalculateStats()
      modifies this
      ensures stats == StatsOf(samples, pagination.totalElements)
      ensures samples == old(samples) && filteredSamples == old(filteredSamples) && isLoading == old(isLoading)
      ensures filters == old(filters) && pagination == old(pagination)
    {
      stats := Stats(pagination.totalElements,
        |Filter(samples, (s: Sample) => IsPending(s))|,
        |Filter(samples, (s: Sample) => IsUnderAnalysis(s))|,
        |Filter(samples, (s: Sample) => IsApproved(s))|);
    }

    /** The debounced search: the new term, the first page, and a reload. */
    method OnSearchTerm(term: string) returns (req: PageRequest)
      requires Valid()
      modifies this
      ensures Valid()
      ensures filters == old(filters).(searchTerm := term)
      ensures pagination == old(pagination).(currentPage := 0)
      ensures isLoading && req.page == 0 && req.size == pagination.pageSize
      ensures samples == old(samples) && filteredSamples == old(filteredSamples)
    {
      filters := filters.(searchTerm := term);
      pagination := pagination.(currentPage := 0);
      req := LoadSamples();
    }

    /** A status or sample-type change: back to the first page and re-filter
        what is loaded, without a reload. */
    method OnFilterChange()
      requires Valid()
      modifies this
      ensures Valid()
      ensures pagination == old(pagination).(currentPage := 0)
      ensures filteredSamples == ClientFilter(samples, filters)
      ensures samples == old(samples) && filters == old(filters) && isLoading == old(isLoading)
    {
      pagination := pagination.(currentPage := 0);
      ApplyClientSideFilters();
    }

    /** A new page size (already bound to `pagination.pageSize`): back to the
        first page and reload. */
    method OnPageSizeChange() returns (req: PageRequest)
      requires Valid()
      modifies this
      ensures Valid()
      ensures pagination == old(pagination).(currentPage := 0)
      ensures isLoading && req.page == 0 && req.size == pagination.pageSize
      ensures samples == old(samples) && filteredSamples == old(filteredSamples) && filters == old(filters)
    {
      pagination := pagination.(currentPage := 0);
      req := LoadSamples();
    }

    /** Moves to `page` and reloads, only when it is a page that exists. */
    method GoToPage(page: int) returns (req: Option<PageRequest>)
      requires Valid()
      modifies this
      ensures Valid()
      ensures 0 <= page < pagination.totalPages ==>
        pagination == old(pagination).(currentPage := page) && isLoading && req.Some? && req.value.page == page
      ensures !(0 <= page < old(pagination.totalPages)) ==>
        pagination == old(pagination) && isLoading == old(isLoading) && req.None?
      ensures samples == old(samples) && filteredSamples == old(filteredSamples) && filters == old(filters)
    {
      if page >= 0 && page < pagination.totalPages {
        pagination := pagination.(currentPage := page);
        var r := LoadSamples();
        return Some(r);
      }
      return None;
    }

    method NextPage() returns (req: Option<PageRequest>)
      requires Valid()
      modifies this
      ensures Valid()
      ensures old(pagination.currentPage) + 1 < pagination.totalPages ==>
        pagination == old(pagination).(currentPage := old(pagination.currentPage) + 1) && isLoading &&
        req.Some? && req.value.page == old(pagination.currentPage) + 1
      ensures old(pagination.currentPage) + 1 >= old(pagination.totalPages) ==>
        pagination == old(pagination) && isLoading == old(isLoading) && req.None?
      ensures samples == old(samples) && filteredSamples == old(filteredSamples) && filters == old(filters)
    {
      req := GoToPage(pagination.currentPage + 1);
    }

    method PreviousPage() returns (req: Option<PageRequest>)
      requires Valid()
      modifies this
      ensures Valid()
      ensures 0 < old(pagination.currentPage) <= pagination.totalPages ==>
        pagination == old(pagination).(currentPage := old(pagination.currentPage) - 1) && isLoading &&
        req.Some? && req.value.page == old(pagination.currentPage) - 1
      ensures old(pagination.currentPage) == 0 || old(pagination.currentPage) > old(pagination.totalPages) ==>
        pagination == old(pagination) && isLoading == old(isLoading) && req.None?
      ensures samples == old(samples) && filteredSamples == old(filteredSamples) && filters == old(filters)
    {
      req := GoToPage(pagination.currentPage - 1);
    }

    /** The window of page numbers for the current page. */
    method GetPageNumbers() returns (pages: seq<int>)
      ensures pagination.totalPages <= WINDOW ==>
        |pages| == pagination.totalPages && forall i :: 0 <= i < |pages| ==> pages[i] == i
      ensures pagination.totalPages > WINDOW ==> IsWindow(pages, pagination.totalPages)
      ensures pagination.currentPage < pagination.totalPages ==> pagination.currentPage in pages
    {
      pages := PageNumbers(pagination.totalPages, pagination.currentPage);
    }

    /** Restores the default filters, goes back to the first page and
        reloads. */
    method ClearFilters() returns (req: PageRequest)
      requires Valid()
      modifies this
      ensures Valid()
      ensures filters == DEFAULT_FILTERS
      ensures pagination == old(pagination).(currentPage := 0)
      ensures isLoading && req == PageRequest(0, pagination.pageSize, None, None)
      ensures samples == old(samples) && filteredSamples == old(filteredSamples)
    {
      filters := DEFAULT_FILTERS;
      pagination := pagination.(currentPage := 0);
      req := LoadSamples();
    }
  }
}
