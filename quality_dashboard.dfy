/** The quality officer's dashboard: statistics over the samples the
    technician has checked, a search limited to those samples and ordered
    newest first, approval, and the printable report gate. */
module QualityDashboard {
  import opened Api
  import opened Seqs
  import opened Sorting
  import opened Samples
  import opened Dashboards

  datatype Stats = Stats(pendingQA: nat, approvedToday: nat, totalApproved: nat, totalProcessed: nat)

  const STATS_PAGE := PageQuery(0, 100)

  predicate NotQualityChecked(s: Sample) { !s.qualityChecked }

  function Today(isToday: int -> bool): Sample -> bool {
    (s: Sample) => UpdatedToday(s, isToday)
  }

  /** The statistics of a non-empty page, over the technician-checked
      samples only. */
  function StatsOf(content: seq<Sample>, isToday: int -> bool): (r: Stats)
    ensures r.pendingQA + r.totalApproved == r.totalProcessed
    ensures r.approvedToday <= r.totalApproved
    ensures r.totalProcessed == |Filter(content, TechnicianChecked)| <= |content|
  {
    var qualitySamples := Filter(content, TechnicianChecked);
    var approved := Filter(qualitySamples, QualityChecked);
    FilterComplement(qualitySamples, QualityChecked, NotQualityChecked);
    Stats(|Filter(qualitySamples, NotQualityChecked)|,
          |Filter(approved, Today(isToday))|,
          |approved|,
          |qualitySamples|)
  }

  /** `updatedAt || createdAt`: the time a sample last changed. */
  function Timestamp(s: Sample): int {
    if s.updatedAt.Some? then s.updatedAt.value else s.createdAt
  }

  /** Search results: the technician-checked samples of the reply, newest
      first; samples changed at the same time keep the reply's order. */
  function SearchResultsOf(reply: Response<Sample>): (r: seq<Sample>)
    ensures forall i :: 0 <= i < |r| ==> r[i].techanicianChecked
    ensures SortedDesc(r, Timestamp)
    ensures multiset(r) == multiset(Filter(Found(reply), TechnicianChecked))
    ensures forall t :: WithKey(r, Timestamp, t) == WithKey(Filter(Found(reply), TechnicianChecked), Timestamp, t)
  {
    var filtered := Filter(Found(reply), TechnicianChecked);
    SortDescSorted(filtered, Timestamp);
    forall t ensures WithKey(SortDesc(filtered, Timestamp), Timestamp, t) == WithKey(filtered, Timestamp, t) {
      SortDescStable(filtered, Timestamp, t);
    }
    SortedKeepsProperty(filtered, SortDesc(filtered, Timestamp));
    SortDesc(filtered, Timestamp)
  }

  /** A permutation of technician-checked samples holds only such samples. */
  lemma SortedKeepsProperty(s: seq<Sample>, t: seq<Sample>)
    requires forall i :: 0 <= i < |s| ==> s[i].techanicianChecked
    requires multiset(t) == multiset(s)
    ensures forall i :: 0 <= i < |t| ==> t[i].techanicianChecked
  {
    forall i | 0 <= i < |t| ensures t[i].techanicianChecked {
      assert t[i] in multiset(t);
      assert t[i] in multiset(s);
    }
  }

  function GetSampleStatus(s: Sample): (r: string)
    ensures r == "QA Approved" <==> s.qualityChecked
    ensures r == "Pending QA" <==> !s.qualityChecked
  {
    if s.qualityChecked then "QA Approved" else "Pending QA"
  }

  function GetSampleStatusClass(s: Sample): (r: string)
    ensures r == "approved" <==> GetSampleStatus(s) == "QA Approved"
    ensures r == "pending" <==> GetSampleStatus(s) == "Pending QA"
  {
    if s.qualityChecked then "approved" else "pending"
  }

  class QualityDashboardPage {
    var isLoading: bool
    var hasSearched: bool
    var searchType: string
    var searchValue: Option<string>
    var searchResults: seq<Sample>
    var loading: bool
    var selectedSample: Option<Sample>
    var showEditModal: bool
    var showResultModal: bool
    var showQualityCheckModal: bool
    var stats: Stats

    constructor()
      ensures !isLoading && !hasSearched && searchType == REPORT_NUMBER && searchValue == Some("")
      ensures searchResults == [] && !loading && selectedSample.None?
      ensures !showEditModal && !showResultModal && !showQualityCheckModal
      ensures stats == Stats(0, 0, 0, 0)
    {
      isLoading := false;
      hasSearched := false;
      searchType := REPORT_NUMBER;
      searchValue := Some("");
      searchResults := [];
      loading := false;
      selectedSample := None;
      showEditModal := false;
      showResultModal := false;
      showQualityCheckModal := false;
      stats := Stats(0, 0, 0, 0);
    }

    method LoadDashboardStats() returns (query: PageQuery)
      modifies this`isLoading
      ensures isLoading && query == STATS_PAGE
    {
      isLoading := true;
      query := STATS_PAGE;
    }

    /** An empty page leaves the statistics as they were. */
    method ProcessBackendData(page: PageResponse, isToday: int -> bool)
      modifies this`stats
      ensures page.content == [] ==> stats == old(stats)
      ensures page.content != [] ==> stats == StatsOf(page.content, isToday)
    {
      if |page.content| == 0 {
        return;
      }
      stats := StatsOf(page.content, isToday);
    }

    method OnStatsResponse(reply: PageReply, isToday: int -> bool)
      modifies this`stats, this`isLoading
      ensures !isLoading
      ensures reply.status == SUCCESS && reply.data.Some? && reply.data.value.content != [] ==>
        stats == StatsOf(reply.data.value.content, isToday)
      ensures !(reply.status == SUCCESS && reply.data.Some? && reply.data.value.content != []) ==>
        stats == old(stats)
    {
      if reply.status == SUCCESS && reply.data.Some? {
        ProcessBackendData(reply.data.value, isToday);
      }
      isLoading := false;
    }

    method OnStatsError()
      modifies this`isLoading
      ensures !isLoading
    {
      isLoading := false;
    }

    method OnSearchTypeChange(t: string)
      modifies this`searchType, this`searchValue, this`searchResults, this`hasSearched
      ensures searchType == t && searchValue.None? && searchResults == [] && !hasSearched
    {
      searchType := t;
      searchValue := None;
      searchResults := [];
      hasSearched := false;
    }

    method OnSearch() returns (req: Option<SearchRequest>)
      modifies this`loading, this`hasSearched, this`searchResults
      ensures SearchValue(searchValue).None? ==>
        req.None? && loading == old(loading) && hasSearched == old(hasSearched) && searchResults == old(searchResults)
      ensures SearchValue(searchValue).Some? ==>
        loading && !hasSearched && searchResults == [] && req == RequestFor(searchType, SearchValue(searchValue).value)
    {
      var value := SearchValue(searchValue);
      if value.None? {
        return None;
      }
      loading := true;
      hasSearched := false;
      searchResults := [];
      req := RequestFor(searchType, value.value);
    }

    method HandleSearchResponse(reply: Response<Sample>)
      modifies this`searchResults, this`hasSearched, this`loading
      ensures searchResults == SearchResultsOf(reply) && hasSearched && !loading
    {
      var filtered := Filter(Found(reply), TechnicianChecked);
      searchResults := SortDesc(filtered, Timestamp);
      hasSearched := true;
      loading := false;
    }

    method OnSearchError()
      modifies this`searchResults, this`hasSearched, this`loading
      ensures searchResults == [] && hasSearched && !loading
    {
      searchResults := [];
      loading := false;
      hasSearched := true;
    }

    method EditGeneralInformation(s: Sample)
      modifies this`selectedSample, this`showEditModal
      ensures selectedSample == Some(s) && showEditModal
    {
      selectedSample := Some(s);
      showEditModal := true;
    }

    method EditSampleResult(s: Sample)
      modifies this`selectedSample, this`showResultModal
      ensures selectedSample == Some(s) && showResultModal
    {
      selectedSample := Some(s);
      showResultModal := true;
    }

    method ApproveQuality(s: Sample)
      modifies this`selectedSample, this`showQualityCheckModal
      ensures selectedSample == Some(s) && showQualityCheckModal
    {
      selectedSample := Some(s);
      showQualityCheckModal := true;
    }

    method CloseModal()
      modifies this`showEditModal, this`showResultModal, this`showQualityCheckModal, this`selectedSample
      ensures !showEditModal && !showResultModal && !showQualityCheckModal && selectedSample.None?
    {
      showEditModal := false;
      showResultModal := false;
      showQualityCheckModal := false;
      selectedSample := None;
    }

    /** Approval needs a chosen sample; without one nothing happens. */
    method ConfirmQualityCheck() returns (send: bool)
      ensures send <==> selectedSample.Some?
    {
      send := selectedSample.Some?;
    }

    /** A successful approval closes the modal, repeats the search and
        reloads the statistics. */
    method OnQualityCheckResponse(status: Status) returns (search: Option<SearchRequest>, statsQuery: Option<PageQuery>)
      modifies this`showEditModal, this`showResultModal, this`showQualityCheckModal, this`selectedSample
      modifies this`loading, this`hasSearched, this`searchResults, this`isLoading
      ensures status != SUCCESS ==> search.None? && statsQuery.None? && unchanged(this)
      ensures status == SUCCESS ==>
        !showEditModal && !showResultModal && !showQualityCheckModal && selectedSample.None? &&
        isLoading && statsQuery == Some(STATS_PAGE) &&
        search == (if SearchValue(searchValue).Some? then RequestFor(searchType, SearchValue(searchValue).value) else None)
      ensures status == SUCCESS && SearchValue(searchValue).None? ==>
        loading == old(loading) && hasSearched == old(hasSearched) && searchResults == old(searchResults)
      ensures status == SUCCESS && SearchValue(searchValue).Some? ==> loading && !hasSearched && searchResults == []
    {
      search, statsQuery := None, None;
      if status == SUCCESS {
        CloseModal();
        search := OnSearch();
        var q := LoadDashboardStats();
        statsQuery := Some(q);
      }
    }

    /** Printing refuses a sample that is not approved before opening any
        window; the report is fetched only once a window has opened. */
    method PrintReport(s: Sample, windowOpened: bool) returns (opensWindow: bool, fetchesReport: bool)
      ensures opensWindow <==> s.qualityChecked
      ensures fetchesReport <==> s.qualityChecked && windowOpened
    {
      if !s.qualityChecked {
        return false, false;
      }
      opensWindow := true;
      fetchesReport := windowOpened;
    }
  }
}
