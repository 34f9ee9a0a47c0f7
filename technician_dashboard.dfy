/** The technician's dashboard: statistics over the samples forwarded to
    the technician, a search limited to those samples, and the modals that
    act on a chosen sample. */
module TechnicianDashboard {
  import opened Api
  import opened Seqs
  import opened Samples
  import opened Dashboards

  datatype Stats = Stats(pendingReview: nat, sentBackToAnalyst: nat, forwardedToQuality: nat, totalProcessed: nat)

  const STATS_PAGE := PageQuery(0, 50)

  predicate NotQualityChecked(s: Sample) { !s.qualityChecked }
  /** The test for a sample sent back to the analyst: checked by the
      technician, no longer forwarded, not yet quality-checked. */
  predicate SentBack(s: Sample) { s.techanicianChecked && !s.fordwardToTechanician && !s.qualityChecked }

  /** The samples forwarded to the technician that the technician has
      checked. */
  function TechnicianSamples(content: seq<Sample>): seq<Sample> {
    Filter(Filter(content, Forwarded), TechnicianChecked)
  }

  /** The statistics of a page: the reviewed samples split into those
      awaiting quality and those forwarded to it, and the sent-back count
      taken over samples that are all still forwarded. */
  function StatsOf(content: seq<Sample>): (r: Stats)
    ensures r.pendingReview + r.forwardedToQuality == r.totalProcessed
    ensures r.sentBackToAnalyst == 0
    ensures r.totalProcessed <= |Filter(content, Forwarded)|
    ensures r.totalProcessed == |TechnicianSamples(content)|
    ensures r.forwardedToQuality == |Filter(TechnicianSamples(content), QualityChecked)|
  {
    var samples := Filter(content, Forwarded);
    var technicianSamples := Filter(samples, TechnicianChecked);
    FilterComplement(technicianSamples, NotQualityChecked, QualityChecked);
    FilterCount(samples, SentBack);
    Stats(|Filter(technicianSamples, NotQualityChecked)|,
          |Filter(samples, SentBack)|,
          |Filter(technicianSamples, QualityChecked)|,
          |technicianSamples|)
  }

  /** Search results are the forwarded samples of the reply, in order. */
  function SearchResultsOf(reply: Response<Sample>): (r: seq<Sample>)
    ensures IsSubseq(r, Found(reply))
    ensures forall s :: s in r <==> s in Found(reply) && s.fordwardToTechanician
  {
    FilterIsSubseq(Found(reply), Forwarded);
    FilterMembers(Found(reply), Forwarded);
    Filter(Found(reply), Forwarded)
  }

  function GetSampleStatus(s: Sample): (r: string)
    ensures r == "QA Approved" <==> s.qualityChecked
    ensures r == "In Review" <==> !s.qualityChecked && s.fordwardToTechanician
    ensures r == "Pending" <==> !s.qualityChecked && !s.fordwardToTechanician
  {
    if s.qualityChecked then "QA Approved"
    else if s.fordwardToTechanician then "In Review"
    else "Pending"
  }

  function GetSampleStatusClass(s: Sample): string {
    if s.qualityChecked then "qa-approved"
    else if s.fordwardToTechanician then "in-review"
    else "pending"
  }

  /** Each label has its own class, so the class tells the label. */
  lemma StatusClassMirrorsLabel(a: Sample, b: Sample)
    ensures GetSampleStatusClass(a) == GetSampleStatusClass(b) <==> GetSampleStatus(a) == GetSampleStatus(b)
  {
  }

  class TechnicianDashboardPage {
    var isLoading: bool
    var hasSearched: bool
    var searchType: string
    var searchValue: Option<string>
    var searchResults: seq<Sample>
    var loading: bool
    var selectedSample: Option<Sample>
    var showEditModal: bool
    var showResultModal: bool
    var showSendBackModal: bool
    var showQualityCheckModal: bool
    var stats: Stats

    /** Whatever has been loaded, nothing is ever counted as sent back. */
    ghost predicate Valid()
      reads this`stats
    {
      stats.sentBackToAnalyst == 0
    }

    constructor()
      ensures Valid()
      ensures !isLoading && !hasSearched && searchType == REPORT_NUMBER && searchValue == Some("")
      ensures searchResults == [] && !loading && selectedSample.None?
      ensures !showEditModal && !showResultModal && !showSendBackModal && !showQualityCheckModal
      ensures stats == Stats(0, 0, 0, 0)
    {
      isLoading := false;
      hasSearched := false;
      searchType := REPORT_NUMBER;
      searchValue := Some("");
      searchResults := [];
      loading := false;
      selectedSample := None;
      showEditModal := false;
      showResultModal := false;
      showSendBackModal := false;
      showQualityCheckModal := false;
      stats := Stats(0, 0, 0, 0);
    }

    method LoadDashboardStats() returns (query: PageQuery)
      modifies this`isLoading
      ensures isLoading && query == STATS_PAGE
    {
      isLoading := true;
      query := STATS_PAGE;
    }

    /** A page with no forwarded sample leaves the statistics as they
        were. */
    method ProcessBackendData(page: PageResponse)
      requires Valid()
      modifies this`stats
      ensures Valid()
      ensures Filter(page.content, Forwarded) == [] ==> stats == old(stats)
      ensures Filter(page.content, Forwarded) != [] ==> stats == StatsOf(page.content)
    {
      var samples := Filter(page.content, Forwarded);
      if |samples| == 0 {
        return;
      }
      stats := StatsOf(page.content);
    }

    method OnStatsResponse(reply: PageReply)
      requires Valid()
      modifies this`stats, this`isLoading
      ensures Valid()
      ensures !isLoading
      ensures reply.status == SUCCESS && reply.data.Some? && Filter(reply.data.value.content, Forwarded) != [] ==>
        stats == StatsOf(reply.data.value.content)
      ensures !(reply.status == SUCCESS && reply.data.Some? && Filter(reply.data.value.content, Forwarded) != []) ==>
        stats == old(stats)
    {
      if reply.status == SUCCESS && reply.data.Some? {
        ProcessBackendData(reply.data.value);
      }
      isLoading := false;
    }

    method OnStatsError()
      modifies this`isLoading
      ensures !isLoading
    {
      isLoading := false;
    }

    method OnSearchTypeChange(t: string)
      modifies this`searchType, this`searchValue, this`searchResults, this`hasSearched
      ensures searchType == t && searchValue.None? && searchResults == [] && !hasSearched
    {
      searchType := t;
      searchValue := None;
      searchResults := [];
      hasSearched := false;
    }

    method OnSearch() returns (req: Option<SearchRequest>)
      modifies this`loading, this`hasSearched, this`searchResults
      ensures SearchValue(searchValue).None? ==>
        req.None? && loading == old(loading) && hasSearched == old(hasSearched) && searchResults == old(searchResults)
      ensures SearchValue(searchValue).Some? ==>
        loading && !hasSearched && searchResults == [] && req == RequestFor(searchType, SearchValue(searchValue).value)
    {
      var value := SearchValue(searchValue);
      if value.None? {
        return None;
      }
      loading := true;
      hasSearched := false;
      searchResults := [];
      req := RequestFor(searchType, value.value);
    }

    method HandleSearchResponse(reply: Response<Sample>)
      modifies this`searchResults, this`hasSearched, this`loading
      ensures searchResults == SearchResultsOf(reply) && hasSearched && !loading
      ensures forall i :: 0 <= i < |searchResults| ==> searchResults[i].fordwardToTechanician
    {
      searchResults := Filter(Found(reply), Forwarded);
      hasSearched := true;
      loading := false;
    }

    method OnSearchError()
      modifies this`searchResults, this`hasSearched, this`loading
      ensures searchResults == [] && hasSearched && !loading
    {
      searchResults := [];
      loading := false;
      hasSearched := true;
    }

    method EditGeneralInformation(s: Sample)
      modifies this`selectedSample, this`showEditModal
      ensures selectedSample == Some(s) && showEditModal
    {
      selectedSample := Some(s);
      showEditModal := true;
    }

    method EditSampleResult(s: Sample)
      modifies this`selectedSample, this`showResultModal
      ensures selectedSample == Some(s) && showResultModal
    {
      selectedSample := Some(s);
      showResultModal := true;
    }

    method SendBackToAnalyst(s: Sample)
      modifies this`selectedSample, this`showSendBackModal
      ensures selectedSample == Some(s) && showSendBackModal
    {
      selectedSample := Some(s);
      showSendBackModal := true;
    }

    method ForwardToQualityCheck(s: Sample)
      modifies this`selectedSample, this`showQualityCheckModal
      ensures selectedSample == Some(s) && showQualityCheckModal
    {
      selectedSample := Some(s);
      showQualityCheckModal := true;
    }

    method CloseModal()
      modifies this`showEditModal, this`showResultModal, this`showSendBackModal
      modifies this`showQualityCheckModal, this`selectedSample
      ensures !showEditModal && !showResultModal && !showSendBackModal && !showQualityCheckModal
      ensures selectedSample.None?
    {
      showEditModal := false;
      showResultModal := false;
      showSendBackModal := false;
      showQualityCheckModal := false;
      selectedSample := None;
    }

    /** Sending back or forwarding needs a chosen sample. */
    method ConfirmAction() returns (send: bool)
      ensures send <==> selectedSample.Some?
    {
      send := selectedSample.Some?;
    }

    /** A successful send-back or forward closes the modal, repeats the
        search and reloads the statistics. */
    method OnActionResponse(status: Status) returns (search: Option<SearchRequest>, statsQuery: Option<PageQuery>)
      modifies this`showEditModal, this`showResultModal, this`showSendBackModal
      modifies this`showQualityCheckModal, this`selectedSample
      modifies this`loading, this`hasSearched, this`searchResults, this`isLoading
      ensures status != SUCCESS ==> search.None? && statsQuery.None? && unchanged(this)
      ensures status == SUCCESS ==>
        !showEditModal && !showResultModal && !showSendBackModal && !showQualityCheckModal &&
        selectedSample.None? && isLoading && statsQuery == Some(STATS_PAGE) &&
        search == (if SearchValue(searchValue).Some? then RequestFor(searchType, SearchValue(searchValue).value) else None)
      ensures status == SUCCESS && SearchValue(searchValue).None? ==>
        loading == old(loading) && hasSearched == old(hasSearched) && searchResults == old(searchResults)
      ensures status == SUCCESS && SearchValue(searchValue).Some? ==> loading && !hasSearched && searchResults == []
    {
      search, statsQuery := None, None;
      if status == SUCCESS {
        CloseModal();
        search := OnSearch();
        var q := LoadDashboardStats();
        statsQuery := Some(q);
      }
    }
  }
}
