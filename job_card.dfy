/** The analyst's job-card screen as a component whose fields its methods
    update. The asynchronous pipeline of `loadJobCards` is cut at its
    callbacks: `BeginLoad` runs synchronously, `OnJobCardsResponse` is the
    `switchMap` step on the job-card reply, `OnLookupReplies` is the `next`
    callback with the sample lookups' replies, and `OnLoadError` is the
    `error` callback. */
module JobCard {
  import opened Api
  import opened Seqs
  import opened JobCardService
  import opened JobCardEnrich
  import opened JobCardGroup

  const NO_SESSION := "No analyst session found."
  const NO_CARDS := "No job cards found."
  const LOAD_FAILED := "Failed to load job cards."

  class JobCard {
    var isLoading: bool
    var errorMessage: string
    var jobCards: seq<JobCardModel>
    var grouped: seq<GroupedJobCard>
    var filtered: seq<GroupedJobCard>
    var activeFilter: StatusFilter
    var searchQuery: string
    var expandedReportNo: string
    var counts: Counts

    /** The counts always describe the groups on display. */
    ghost predicate Valid()
      reads this
    {
      counts == CountsOf(grouped)
    }

    constructor()
      ensures Valid()
      ensures !isLoading && errorMessage == "" && jobCards == [] && grouped == [] && filtered == []
      ensures activeFilter == All && searchQuery == "" && expandedReportNo == ""
      ensures counts == Counts(0, 0, 0, 0)
    {
      isLoading := false;
      errorMessage := "";
      jobCards := [];
      grouped := [];
      filtered := [];
      activeFilter := All;
      searchQuery := "";
      expandedReportNo := "";
      counts := Counts(0, 0, 0, 0);
    }

    predicate IsExpanded(reportNo: string)
      reads this
    {
      expandedReportNo == reportNo
    }

    /** The synchronous start of `loadJobCards`; `analystName` is what the
        stored session yields (`""` for none). */
    method BeginLoad(analystName: string) returns (started: bool)
      requires Valid()
      modifies this
      ensures Valid()
      ensures started <==> analystName != []
      ensures !started ==> errorMessage == NO_SESSION && isLoading == old(isLoading)
      ensures started ==> isLoading && errorMessage == ""
      ensures jobCards == old(jobCards) && grouped == old(grouped) && filtered == old(filtered) && counts == old(counts)
      ensures activeFilter == old(activeFilter) && searchQuery == old(searchQuery) && expandedReportNo == old(expandedReportNo)
    {
      if analystName == [] {
        errorMessage := NO_SESSION;
        return false;
      }
      isLoading := true;
      errorMessage := "";
      return true;
    }

    /** The reply to the job-card request. A failed reply, or one whose
        `data` is not an array, sets the error message and ends the load.
        Otherwise the cards are stored and the report numbers to look up are
        returned; with none to look up, the load completes at once. */
    method OnJobCardsResponse(res: Response<JobCardModel>) returns (lookups: seq<string>)
      requires Valid()
      modifies this
      ensures Valid()
      ensures res.status != SUCCESS || !res.data.Items? ==>
        lookups == [] && !isLoading && errorMessage == Or(res.message, NO_CARDS) &&
        jobCards == old(jobCards) && grouped == old(grouped) && filtered == old(filtered) && counts == old(counts)
      ensures res.status == SUCCESS && res.data.Items? ==>
        lookups == UniqueReportNos(res.data.items) && errorMessage == old(errorMessage)
      ensures res.status == SUCCESS && res.data.Items? && lookups != [] ==>
        jobCards == res.data.items && isLoading == old(isLoading) &&
        grouped == old(grouped) && filtered == old(filtered) && counts == old(counts)
      ensures res.status == SUCCESS && res.data.Items? && lookups == [] ==>
        !isLoading && jobCards == res.data.items &&
        grouped == Patch(Grouped(jobCards), jobCards) && filtered == ApplyFilterTo(grouped, activeFilter, searchQuery)
      ensures activeFilter == old(activeFilter) && searchQuery == old(searchQuery) && expandedReportNo == old(expandedReportNo)
    {
      if res.status != SUCCESS || !res.data.Items? {
        errorMessage := Or(res.message, NO_CARDS);
        isLoading := false;
        return [];
      }
      jobCards := res.data.items;
      lookups := UniqueReportNos(jobCards);
      if lookups == [] {
        OnLookupReplies([]);
        assert SampleMapOf([]) == map[];
        assert EnrichAll(res.data.items, map[]) == res.data.items;
      }
    }

    /** The lookups' replies, in the order of the lookups; a failed lookup is
        `None`. The cards are enriched from the samples, grouped, given their
        sample numbers and filtered. */
    method OnLookupReplies(replies: seq<Option<Payload<SampleRecord>>>)
      requires Valid()
      modifies this
      ensures Valid()
      ensures !isLoading
      ensures jobCards == EnrichAll(old(jobCards), SampleMapOf(replies))
      ensures grouped == Patch(Grouped(jobCards), jobCards)
      ensures filtered == ApplyFilterTo(grouped, activeFilter, searchQuery)
      ensures errorMessage == old(errorMessage)
      ensures activeFilter == old(activeFilter) && searchQuery == old(searchQuery) && expandedReportNo == old(expandedReportNo)
    {
      isLoading := false;
      var sampleMap := BuildSampleMap(replies);
      jobCards := EnrichAll(jobCards, sampleMap);
      BuildGrouped();
      PatchKeepsCounts(grouped, jobCards);
      grouped := Patch(grouped, jobCards);
      ApplyFilter();
    }

    /** The `error` callback: `err?.error?.message`, when present, or a
        default message. */
    method OnLoadError(message: Option<string>)
      requires Valid()
      modifies this
      ensures Valid()
      ensures !isLoading && errorMessage == Coalesce(message, LOAD_FAILED)
      ensures message.Some? ==> errorMessage == message.value
      ensures jobCards == old(jobCards) && grouped == old(grouped) && filtered == old(filtered) && counts == old(counts)
      ensures activeFilter == old(activeFilter) && searchQuery == old(searchQuery) && expandedReportNo == old(expandedReportNo)
    {
      isLoading := false;
      errorMessage := Coalesce(message, LOAD_FAILED);
    }

    /** Groups the cards by report number into a map that keeps its keys in
        insertion order, then sorts the groups and counts them. */
    method BuildGrouped()
      modifies this
      ensures grouped == Grouped(jobCards) && counts == CountsOf(grouped)
      ensures jobCards == old(jobCards) && filtered == old(filtered) && isLoading == old(isLoading)
      ensures errorMessage == old(errorMessage) && activeFilter == old(activeFilter)
      ensures searchQuery == old(searchQuery) && expandedReportNo == old(expandedReportNo)
    {
      var values := GroupCards(jobCards);
      grouped := Sorting.SortDesc(values, GroupCreatedAt);
      counts := CountsOf(grouped);
    }

    method ApplyFilter()
      modifies this
      ensures filtered == ApplyFilterTo(grouped, activeFilter, searchQuery)
      ensures jobCards == old(jobCards) && grouped == old(grouped) && counts == old(counts) && isLoading == old(isLoading)
      ensures errorMessage == old(errorMessage) && activeFilter == old(activeFilter)
      ensures searchQuery == old(searchQuery) && expandedReportNo == old(expandedReportNo)
    {
      filtered := ApplyFilterTo(grouped, activeFilter, searchQuery);
    }

    method SetFilter(f: StatusFilter)
      requires Valid()
      modifies this
      ensures Valid()
      ensures activeFilter == f && filtered == ApplyFilterTo(grouped, f, searchQuery)
      ensures jobCards == old(jobCards) && grouped == old(grouped) && counts == old(counts) && isLoading == old(isLoading)
      ensures errorMessage == old(errorMessage) && searchQuery == old(searchQuery) && expandedReportNo == old(expandedReportNo)
    {
      activeFilter := f;
      ApplyFilter();
    }

    /** Called once `searchQuery` has been edited. */
    method OnSearch()
      requires Valid()
      modifies this
      ensures Valid()
      ensures filtered == ApplyFilterTo(grouped, activeFilter, searchQuery)
      ensures jobCards == old(jobCards) && grouped == old(grouped) && counts == old(counts) && isLoading == old(isLoading)
      ensures errorMessage == old(errorMessage) && activeFilter == old(activeFilter)
      ensures searchQuery == old(searchQuery) && expandedReportNo == old(expandedReportNo)
    {
      ApplyFilter();
    }

    /** Opens a report, or closes it when it is the one open; at most one
        report is open at a time. */
    method ToggleExpand(reportNo: string)
      requires Valid()
      modifies this
      ensures Valid()
      ensures old(IsExpanded(reportNo)) ==> expandedReportNo == ""
      ensures !old(IsExpanded(reportNo)) ==> IsExpanded(reportNo)
      ensures reportNo != [] ==> (IsExpanded(reportNo) <==> !old(IsExpanded(reportNo)))
      ensures jobCards == old(jobCards) && grouped == old(grouped) && filtered == old(filtered) && counts == old(counts)
      ensures isLoading == old(isLoading) && errorMessage == old(errorMessage)
      ensures activeFilter == old(activeFilter) && searchQuery == old(searchQuery)
    {
      expandedReportNo := if expandedReportNo == reportNo then "" else reportNo;
    }
  }

  /** The insertion-ordered map after the first `n` cards: its keys, in
      order, are the distinct keys of those cards, and each key holds the
      group those cards make. */
  ghost predicate GroupingSoFar(jcs: seq<JobCardModel>, n: nat, order: seq<string>, groups: map<string, GroupedJobCard>) {
    n <= |jcs| &&
    order == Distinct(Keys(jcs[..n])) &&
    (forall k :: k in groups <==> k in order) &&
    (forall k :: k in groups ==> Params(jcs[..n], k) != [] && groups[k] == GroupOf(k, Params(jcs[..n], k)))
  }

  lemma KeysPrefixStep(jcs: seq<JobCardModel>, i: nat)
    requires i < |jcs|
    ensures Keys(jcs[..i + 1]) == Keys(jcs[..i]) + [KeyOf(jcs[i])]
  {
  }

  lemma ParamsPrefixStep(jcs: seq<JobCardModel>, i: nat, k: string)
    requires i < |jcs|
    ensures Params(jcs[..i + 1], k) == Params(jcs[..i], k) + (if KeyOf(jcs[i]) == k then [jcs[i]] else [])
  {
    assert jcs[..i + 1][..i] == jcs[..i];
  }

  /** `buildGrouped`'s loop: a map from report number to group that keeps
      its keys in insertion order (`order`), read out in that order. */
  method GroupCards(jcs: seq<JobCardModel>) returns (values: seq<GroupedJobCard>)
    ensures values == Groups(jcs)
  {
    var order: seq<string> := [];
    var groups: map<string, GroupedJobCard> := map[];
    for i := 0 to |jcs|
      invariant GroupingSoFar(jcs, i, order, groups)
    {
      var jc := jcs[i];
      var key := KeyOf(jc);
      ghost var order0, groups0 := order, groups;
      if key !in groups {
        groups := groups[key := NewGroup(key, jc)];
        order := order + [key];
      }
      ghost var mid := groups;
      var g := groups[key];
      groups := groups[key := g.(parameters := g.parameters + [jc])];
      GroupStep(jcs, i, order0, groups0, mid, order, groups);
    }
    values := seq(|order|, t requires 0 <= t < |order| => groups[order[t]]);
    GroupingDone(jcs, order, groups, values);
  }

  /** One step of the grouping loop: the card at `i` joins the group of its
      key, which is created when the key is new. */
  lemma GroupStep(jcs: seq<JobCardModel>, i: nat, order0: seq<string>, groups0: map<string, GroupedJobCard>,
                  mid: map<string, GroupedJobCard>, order: seq<string>, groups: map<string, GroupedJobCard>)
    requires i < |jcs| && GroupingSoFar(jcs, i, order0, groups0)
    requires KeyOf(jcs[i]) in groups0 ==> mid == groups0 && order == order0
    requires KeyOf(jcs[i]) !in groups0 ==> (mid == groups0[KeyOf(jcs[i]) := NewGroup(KeyOf(jcs[i]), jcs[i])] &&
      order == order0 + [KeyOf(jcs[i])])
    requires KeyOf(jcs[i]) in mid && groups == mid[KeyOf(jcs[i]) := mid[KeyOf(jcs[i])].(parameters := mid[KeyOf(jcs[i])].parameters + [jcs[i]])]
    ensures GroupingSoFar(jcs, i + 1, order, groups)
  {
    StepOrder(jcs, i, order0, groups0, mid, order, groups);
    forall k | k in groups ensures Params(jcs[..i + 1], k) != [] && groups[k] == GroupOf(k, Params(jcs[..i + 1], k)) {
      StepGroup(jcs, i, order0, groups0, mid, order, groups, k);
    }
  }

  lemma StepOrder(jcs: seq<JobCardModel>, i: nat, order0: seq<string>, groups0: map<string, GroupedJobCard>,
                  mid: map<string, GroupedJobCard>, order: seq<string>, groups: map<string, GroupedJobCard>)
    requires i < |jcs| && GroupingSoFar(jcs, i, order0, groups0)
    requires KeyOf(jcs[i]) in groups0 ==> mid == groups0 && order == order0
    requires KeyOf(jcs[i]) !in groups0 ==> (mid == groups0[KeyOf(jcs[i]) := NewGroup(KeyOf(jcs[i]), jcs[i])] &&
      order == order0 + [KeyOf(jcs[i])])
    requires KeyOf(jcs[i]) in mid && groups == mid[KeyOf(jcs[i]) := mid[KeyOf(jcs[i])].(parameters := mid[KeyOf(jcs[i])].parameters + [jcs[i]])]
    ensures order == Distinct(Keys(jcs[..i + 1]))
    ensures forall k :: k in groups <==> k in order
  {
    KeysPrefixStep(jcs, i);
    DistinctAppend(Keys(jcs[..i]), KeyOf(jcs[i]));
  }

  lemma StepGroup(jcs: seq<JobCardModel>, i: nat, order0: seq<string>, groups0: map<string, GroupedJobCard>,
                  mid: map<string, GroupedJobCard>, order: seq<string>, groups: map<string, GroupedJobCard>, k: string)
    requires i < |jcs| && GroupingSoFar(jcs, i, order0, groups0)
    requires KeyOf(jcs[i]) in groups0 ==> mid == groups0 && order == order0
    requires KeyOf(jcs[i]) !in groups0 ==> (mid == groups0[KeyOf(jcs[i]) := NewGroup(KeyOf(jcs[i]), jcs[i])] &&
      order == order0 + [KeyOf(jcs[i])])
    requires KeyOf(jcs[i]) in mid && groups == mid[KeyOf(jcs[i]) := mid[KeyOf(jcs[i])].(parameters := mid[KeyOf(jcs[i])].parameters + [jcs[i]])]
    requires k in groups
    ensures Params(jcs[..i + 1], k) != [] && groups[k] == GroupOf(k, Params(jcs[..i + 1], k))
  {
    ParamsPrefixStep(jcs, i, k);
    if k == KeyOf(jcs[i]) && k !in groups0 {
      assert k !in Keys(jcs[..i]);
      ParamsNonEmpty(jcs[..i], k);
    }
  }

  /** Reading the map's values in key order gives `Groups`. */
  lemma GroupingDone(jcs: seq<JobCardModel>, order: seq<string>, groups: map<string, GroupedJobCard>, values: seq<GroupedJobCard>)
    requires GroupingSoFar(jcs, |jcs|, order, groups)
    requires |values| == |order| && forall t :: 0 <= t < |order| ==> values[t] == groups[order[t]]
    ensures values == Groups(jcs)
  {
    assert jcs[..|jcs|] == jcs;
  }
}
