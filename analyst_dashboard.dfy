/** The analyst's dashboard: statistics over one page of samples, a search
    by report number, company or id, and the modals that act on a chosen
    sample. */
module AnalystDashboard {
  import opened Api
  import opened Text
  import opened Seqs
  import opened Samples
  import opened Dashboards

  datatype Stats = Stats(pendingAnalysis: nat, completedToday: nat, forwardedToTechnician: nat, totalProcessed: nat)

  const STATS_PAGE := PageQuery(0, 50)

  predicate AwaitingAnalysis(s: Sample) { !s.techanicianChecked && !s.qualityChecked }
  predicate WithTechnician(s: Sample) { s.techanicianChecked && !s.qualityChecked }
  function CompletedToday(isToday: int -> bool): Sample -> bool {
    (s: Sample) => UpdatedToday(s, isToday) && s.qualityChecked
  }

  /** The statistics of a non-empty page; whether a date is today is
      supplied by the caller. */
  function StatsOf(page: PageResponse, isToday: int -> bool): (r: Stats)
    ensures r.totalProcessed == page.totalElements
    ensures r.pendingAnalysis + r.forwardedToTechnician <= |page.content|
    ensures r.completedToday <= |Filter(page.content, QualityChecked)|
    ensures r.pendingAnalysis == |Filter(page.content, AwaitingAnalysis)|
    ensures r.forwardedToTechnician == |Filter(page.content, WithTechnician)|
  {
    FilterDisjoint(page.content, AwaitingAnalysis, WithTechnician);
    FilterMonotone(page.content, CompletedToday(isToday), QualityChecked);
    Stats(|Filter(page.content, AwaitingAnalysis)|,
          |Filter(page.content, CompletedToday(isToday))|,
          |Filter(page.content, WithTechnician)|,
          page.totalElements)
  }

  /** A sample is under exactly one of the three labels. */
  function GetSampleStatus(s: Sample): (r: string)
    ensures r == "Completed" <==> s.qualityChecked
    ensures r == "Forwarded" <==> !s.qualityChecked && s.techanicianChecked
    ensures r == "Pending" <==> !s.qualityChecked && !s.techanicianChecked
  {
    if s.qualityChecked then "Completed"
    else if s.techanicianChecked then "Forwarded"
    else "Pending"
  }

  function GetSampleStatusClass(s: Sample): string {
    if s.qualityChecked then "completed"
    else if s.techanicianChecked then "forwarded"
    else "pending"
  }

  /** The style class is the label in lower case. */
  lemma StatusClassMirrorsLabel(s: Sample)
    ensures GetSampleStatusClass(s) == Lower(GetSampleStatus(s))
  {
  }

  class AnalystDashboardPage {
    var isLoading: bool
    var hasSearched: bool
    var searchType: string
    var searchValue: Option<string>
    var searchResults: seq<Sample>
    var loading: bool
    var selectedSample: Option<Sample>
    var showEditModal: bool
    var showResultModal: bool
    var showForwardModal: bool
    var stats: Stats

    constructor()
      ensures !isLoading && !hasSearched && searchType == REPORT_NUMBER && searchValue == Some("")
      ensures searchResults == [] && !loading && selectedSample.None?
      ensures !showEditModal && !showResultModal && !showForwardModal
      ensures stats == Stats(0, 0, 0, 0)
    {
      isLoading := false;
      hasSearched := false;
      searchType := REPORT_NUMBER;
      searchValue := Some("");
      searchResults := [];
      loading := false;
      selectedSample := None;
      showEditModal := false;
      showResultModal := false;
      showForwardModal := false;
      stats := Stats(0, 0, 0, 0);
    }

    method LoadDashboardStats() returns (query: PageQuery)
      modifies this`isLoading
      ensures isLoading && query == STATS_PAGE
    {
      isLoading := true;
      query := STATS_PAGE;
    }

    /** An empty page leaves the statistics as they were. */
    method ProcessBackendData(page: PageResponse, isToday: int -> bool)
      modifies this`stats
      ensures page.content == [] ==> stats == old(stats)
      ensures page.content != [] ==> stats == StatsOf(page, isToday)
    {
      if |page.content| == 0 {
        return;
      }
      stats := StatsOf(page, isToday);
    }

    /** The statistics reply, then `finalize`. */
    method OnStatsResponse(reply: PageReply, isToday: int -> bool)
      modifies this`stats, this`isLoading
      ensures !isLoading
      ensures reply.status == SUCCESS && reply.data.Some? && reply.data.value.content != [] ==>
        stats == StatsOf(reply.data.value, isToday)
      ensures !(reply.status == SUCCESS && reply.data.Some? && reply.data.value.content != []) ==>
        stats == old(stats)
    {
      if reply.status == SUCCESS && reply.data.Some? {
        ProcessBackendData(reply.data.value, isToday);
      }
      isLoading := false;
    }

    method OnStatsError()
      modifies this`isLoading
      ensures !isLoading
    {
      isLoading := false;
    }

    /** A new search tab clears the box and the results. */
    method OnSearchTypeChange(t: string)
      modifies this`searchType, this`searchValue, this`searchResults, this`hasSearched
      ensures searchType == t && searchValue.None? && searchResults == [] && !hasSearched
    {
      searchType := t;
      searchValue := None;
      searchResults := [];
      hasSearched := false;
    }

    /** A blank search changes nothing; otherwise the results are cleared
        and the request for the current tab is returned. */
    method OnSearch() returns (req: Option<SearchRequest>)
      modifies this`loading, this`hasSearched, this`searchResults
      ensures SearchValue(searchValue).None? ==>
        req.None? && loading == old(loading) && hasSearched == old(hasSearched) && searchResults == old(searchResults)
      ensures SearchValue(searchValue).Some? ==>
        loading && !hasSearched && searchResults == [] && req == RequestFor(searchType, SearchValue(searchValue).value)
    {
      var value := SearchValue(searchValue);
      if value.None? {
        return None;
      }
      loading := true;
      hasSearched := false;
      searchResults := [];
      req := RequestFor(searchType, value.value);
    }

    method HandleSearchResponse(reply: Response<Sample>)
      modifies this`searchResults, this`hasSearched, this`loading
      ensures searchResults == Found(reply) && hasSearched && !loading
    {
      searchResults := Found(reply);
      hasSearched := true;
      loading := false;
    }

    method OnSearchError()
      modifies this`searchResults, this`hasSearched, this`loading
      ensures searchResults == [] && hasSearched && !loading
    {
      searchResults := [];
      loading := false;
      hasSearched := true;
    }

    method ViewSampleDetails(s: Sample)
      modifies this`selectedSample
      ensures selectedSample == Some(s)
    {
      selectedSample := Some(s);
    }

    method EditGeneralInformation(s: Sample)
      modifies this`selectedSample, this`showEditModal
      ensures selectedSample == Some(s) && showEditModal
    {
      selectedSample := Some(s);
      showEditModal := true;
    }

    method EditSampleResult(s: Sample)
      modifies this`selectedSample, this`showResultModal
      ensures selectedSample == Some(s) && showResultModal
    {
      selectedSample := Some(s);
      showResultModal := true;
    }

    method ForwardToTechnician(s: Sample)
      modifies this`selectedSample, this`showForwardModal
      ensures selectedSample == Some(s) && showForwardModal
    {
      selectedSample := Some(s);
      showForwardModal := true;
    }

    method CloseModal()
      modifies this`showEditModal, this`showResultModal, this`showForwardModal, this`selectedSample
      ensures !showEditModal && !showResultModal && !showForwardModal && selectedSample.None?
    {
      showEditModal, showResultModal, showForwardModal := false, false, false;
      selectedSample := None;
    }

    /** Forwarding needs a chosen sample; its report number is sent. */
    method ConfirmForward() returns (send: bool)
      ensures send <==> selectedSample.Some?
    {
      send := selectedSample.Some?;
    }

    /** A successful forward closes the modal, repeats the search and
        reloads the statistics. */
    method OnForwardResponse(status: Status) returns (search: Option<SearchRequest>, statsQuery: Option<PageQuery>)
      modifies this`showEditModal, this`showResultModal, this`showForwardModal, this`selectedSample
      modifies this`loading, this`hasSearched, this`searchResults, this`isLoading
      ensures status != SUCCESS ==> search.None? && statsQuery.None? && unchanged(this)
      ensures status == SUCCESS ==>
        !showEditModal && !showResultModal && !showForwardModal && selectedSample.None? &&
        isLoading && statsQuery == Some(STATS_PAGE) &&
        search == (if SearchValue(searchValue).Some? then RequestFor(searchType, SearchValue(searchValue).value) else None)
      ensures status == SUCCESS && SearchValue(searchValue).None? ==>
        loading == old(loading) && hasSearched == old(hasSearched) && searchResults == old(searchResults)
      ensures status == SUCCESS && SearchValue(searchValue).Some? ==> loading && !hasSearched && searchResults == []
    {
      search, statsQuery := None, None;
      if status == SUCCESS {
        CloseModal();
        search := OnSearch();
        var q := LoadDashboardStats();
        statsQuery := Some(q);
      }
    }
  }
}
