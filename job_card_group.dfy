/** The grouping half of the analyst's job-card screen: job cards grouped by
    report number, the groups sorted newest first, the per-status counts, the
    sample-number patch, and the status and search filters. */
module JobCardGroup {
  import opened Api
  import opened Text
  import opened Seqs
  import opened Sorting
  import opened JobCardService
  import opened JobCardEnrich

  const UNKNOWN := "UNKNOWN"
  /** The lab-name default of a group header; unlike the one enrichment uses,
      it ends in a space. */
  const DEFAULT_GROUP_LAB := "EPA Labs Private Limited "

  /** One report: its header fields and the job cards (its parameters). */
  datatype GroupedJobCard = GroupedJobCard(
    reportNo: string,
    sampleNumber: string,
    sampleDescription: string,
    projectName: string,
    labName: string,
    status: JobCardStatus,
    parameters: seq<JobCardModel>,
    analystName: string,
    createdAt: int)

  /** The group a card belongs to: its report number, or `UNKNOWN` when blank. */
  function KeyOf(jc: JobCardModel): (k: string)
    ensures k != []
    ensures jc.reportNo != [] ==> k == jc.reportNo
    ensures jc.reportNo == [] ==> k == UNKNOWN
  {
    if jc.reportNo != [] then jc.reportNo else UNKNOWN
  }

  function Keys(jcs: seq<JobCardModel>): (r: seq<string>)
    ensures |r| == |jcs|
    ensures forall i :: 0 <= i < |jcs| ==> r[i] == KeyOf(jcs[i])
  {
    seq(|jcs|, i requires 0 <= i < |jcs| => KeyOf(jcs[i]))
  }

  /** The cards of `jcs` whose group is `k`, in their order in `jcs`. */
  function Params(jcs: seq<JobCardModel>, k: string): (r: seq<JobCardModel>)
    ensures |r| <= |jcs|
    ensures forall i :: 0 <= i < |r| ==> KeyOf(r[i]) == k
  {
    if jcs == [] then []
    else
      var n := |jcs| - 1;
      Params(jcs[..n], k) + (if KeyOf(jcs[n]) == k then [jcs[n]] else [])
  }

  /** A key has cards exactly when some card carries it. */
  lemma {:induction false} ParamsNonEmpty(jcs: seq<JobCardModel>, k: string)
    ensures Params(jcs, k) != [] <==> k in Keys(jcs)
  {
    if jcs != [] {
      var n := |jcs| - 1;
      ParamsNonEmpty(jcs[..n], k);
      assert Keys(jcs) == Keys(jcs[..n]) + [KeyOf(jcs[n])];
    }
  }

  /** `Params` is the filter of the cards by key. */
  lemma {:induction false} ParamsIsFilter(jcs: seq<JobCardModel>, k: string)
    ensures Params(jcs, k) == Filter(jcs, HasKey(k))
  {
    if jcs != [] {
      var n := |jcs| - 1;
      ParamsIsFilter(jcs[..n], k);
      assert jcs == jcs[..n] + [jcs[n]];
      FilterAppend(jcs[..n], jcs[n], HasKey(k));
    }
  }

  function HasKey(k: string): JobCardModel -> bool {
    (jc: JobCardModel) => KeyOf(jc) == k
  }

  lemma KeysHaveParams(jcs: seq<JobCardModel>, keys: seq<string>)
    requires forall j :: 0 <= j < |keys| ==> keys[j] in Keys(jcs)
    ensures forall j :: 0 <= j < |keys| ==> Params(jcs, keys[j]) != []
  {
    forall j | 0 <= j < |keys| ensures Params(jcs, keys[j]) != [] {
      ParamsNonEmpty(jcs, keys[j]);
    }
  }

  /** The header a group gets from the first card seen with its key. */
  function NewGroup(k: string, jc: JobCardModel): GroupedJobCard {
    GroupedJobCard(
      reportNo := k,
      sampleNumber := "",
      sampleDescription := Or(jc.sampleDescription, Or(Some(jc.paremeterType), PLACEHOLDER)),
      projectName := Or(jc.projectName, PLACEHOLDER),
      labName := Or(jc.labName, DEFAULT_GROUP_LAB),
      status := GetJobCardStatus(jc),
      parameters := [],
      analystName := jc.analystName,
      createdAt := jc.createdAt)
  }

  /** The group of key `k` holding the cards `ps`, headed by the first of them. */
  function GroupOf(k: string, ps: seq<JobCardModel>): GroupedJobCard
    requires ps != []
  {
    NewGroup(k, ps[0]).(parameters := ps)
  }

  function GroupsFor(jcs: seq<JobCardModel>, keys: seq<string>): (r: seq<GroupedJobCard>)
    requires forall j :: 0 <= j < |keys| ==> Params(jcs, keys[j]) != []
    ensures |r| == |keys|
    ensures forall j :: 0 <= j < |keys| ==> r[j] == GroupOf(keys[j], Params(jcs, keys[j]))
  {
    if keys == [] then [] else [GroupOf(keys[0], Params(jcs, keys[0]))] + GroupsFor(jcs, keys[1..])
  }

  /** `Array.from(map.values())`: one group per key, in the order in which
      the keys were first met. */
  function Groups(jcs: seq<JobCardModel>): seq<GroupedJobCard> {
    KeysHaveParams(jcs, Distinct(Keys(jcs)));
    GroupsFor(jcs, Distinct(Keys(jcs)))
  }

  function GroupCreatedAt(g: GroupedJobCard): int {
    g.createdAt
  }

  function GroupReportNo(g: GroupedJobCard): string {
    g.reportNo
  }

  function ParamCount(g: GroupedJobCard): nat {
    |g.parameters|
  }

  /** `grouped` as `buildGrouped` leaves it: the groups sorted by creation
      time, newest first, by a stable sort. */
  function Grouped(jcs: seq<JobCardModel>): seq<GroupedJobCard> {
    SortDesc(Groups(jcs), GroupCreatedAt)
  }

  lemma GroupedMembers(jcs: seq<JobCardModel>)
    ensures forall g :: g in Grouped(jcs) <==> g in Groups(jcs)
  {
    SortDescSorted(Groups(jcs), GroupCreatedAt);
    assert forall g :: g in Grouped(jcs) <==> g in multiset(Grouped(jcs));
  }

  /** Adding a card to the end adds it to its own group only. */
  lemma SumParamsAppend(jcs: seq<JobCardModel>, x: JobCardModel, keys: seq<string>)
    requires NoDups(keys)
    ensures SumParams(jcs + [x], keys) == SumParams(jcs, keys) + (if KeyOf(x) in keys then 1 else 0)
    decreases |keys|
  {
    if keys != [] {
      assert (jcs + [x])[..|jcs|] == jcs;
      assert NoDups(keys[1..]);
      SumParamsAppend(jcs, x, keys[1..]);
      assert KeyOf(x) in keys <==> KeyOf(x) == keys[0] || KeyOf(x) in keys[1..];
    }
  }

  function SumParams(jcs: seq<JobCardModel>, keys: seq<string>): nat {
    if keys == [] then 0 else |Params(jcs, keys[0])| + SumParams(jcs, keys[1..])
  }

  lemma {:induction false} SumParamsAll(jcs: seq<JobCardModel>, keys: seq<string>)
    requires NoDups(keys)
    requires forall i :: 0 <= i < |jcs| ==> KeyOf(jcs[i]) in keys
    ensures SumParams(jcs, keys) == |jcs|
  {
    if jcs == [] {
      SumParamsEmpty(keys);
    } else {
      var n := |jcs| - 1;
      SumParamsAll(jcs[..n], keys);
      assert jcs == jcs[..n] + [jcs[n]];
      SumParamsAppend(jcs[..n], jcs[n], keys);
    }
  }

  lemma {:induction false} SumParamsEmpty(keys: seq<string>)
    ensures SumParams([], keys) == 0
  {
    if keys != [] {
      SumParamsEmpty(keys[1..]);
    }
  }

  lemma {:induction false} SumGroupsFor(jcs: seq<JobCardModel>, keys: seq<string>)
    requires forall j :: 0 <= j < |keys| ==> Params(jcs, keys[j]) != []
    ensures SumOf(GroupsFor(jcs, keys), ParamCount) == SumParams(jcs, keys)
  {
    if keys != [] {
      SumGroupsFor(jcs, keys[1..]);
      assert GroupsFor(jcs, keys)[1..] == GroupsFor(jcs, keys[1..]);
    }
  }

  /** The groups partition the cards: each group holds exactly the cards of
      its key, in their order, and is not empty; every card's key has a
      group; no two groups share a key; and the group sizes add up to the
      number of cards. */
  lemma GroupedPartition(jcs: seq<JobCardModel>)
    ensures forall j :: 0 <= j < |Grouped(jcs)| ==>
      Grouped(jcs)[j].parameters == Params(jcs, Grouped(jcs)[j].reportNo) && Grouped(jcs)[j].parameters != []
    ensures forall i :: 0 <= i < |jcs| ==> exists j :: 0 <= j < |Grouped(jcs)| && Grouped(jcs)[j].reportNo == KeyOf(jcs[i])
    ensures forall i, j :: 0 <= i < j < |Grouped(jcs)| ==> Grouped(jcs)[i].reportNo != Grouped(jcs)[j].reportNo
    ensures SumOf(Grouped(jcs), ParamCount) == |jcs|
  {
    GroupedParams(jcs);
    GroupedCovers(jcs);
    SortDescKeepsDistinct(Groups(jcs), GroupCreatedAt, GroupReportNo);
    GroupedSum(jcs);
  }

  lemma GroupedParams(jcs: seq<JobCardModel>)
    ensures forall g :: g in Grouped(jcs) ==> g.parameters == Params(jcs, g.reportNo) && g.parameters != []
  {
    GroupedMembers(jcs);
    var gs := Groups(jcs);
    KeysHaveParams(jcs, Distinct(Keys(jcs)));
    forall g | g in gs ensures g.parameters == Params(jcs, g.reportNo) && g.parameters != [] {
      var j :| 0 <= j < |gs| && gs[j] == g;
    }
  }

  lemma GroupedCovers(jcs: seq<JobCardModel>)
    ensures forall i :: 0 <= i < |jcs| ==> exists j :: 0 <= j < |Grouped(jcs)| && Grouped(jcs)[j].reportNo == KeyOf(jcs[i])
  {
    var keys := Distinct(Keys(jcs));
    var gs := Groups(jcs);
    var g := Grouped(jcs);
    GroupedMembers(jcs);
    forall i | 0 <= i < |jcs|
      ensures exists j :: 0 <= j < |g| && g[j].reportNo == KeyOf(jcs[i])
    {
      assert Keys(jcs)[i] == KeyOf(jcs[i]);
      assert KeyOf(jcs[i]) in keys;
      var k :| 0 <= k < |keys| && keys[k] == KeyOf(jcs[i]);
      assert gs[k].reportNo == KeyOf(jcs[i]);
      assert gs[k] in g;
    }
  }

  lemma GroupedSum(jcs: seq<JobCardModel>)
    ensures SumOf(Grouped(jcs), ParamCount) == |jcs|
  {
    var keys := Distinct(Keys(jcs));
    SortDescSum(Groups(jcs), GroupCreatedAt, ParamCount);
    KeysHaveParams(jcs, keys);
    SumGroupsFor(jcs, keys);
    forall i | 0 <= i < |jcs| ensures KeyOf(jcs[i]) in keys {
      assert Keys(jcs)[i] == KeyOf(jcs[i]);
    }
    SumParamsAll(jcs, keys);
  }

  /** The first card of a group is the first card of `jcs` with that key. */
  lemma {:induction false} ParamsHead(jcs: seq<JobCardModel>, k: string)
    requires k in Keys(jcs)
    ensures Params(jcs, k) != [] && Params(jcs, k)[0] == jcs[FirstIndex(Keys(jcs), k)]
  {
    var n := |jcs| - 1;
    assert Keys(jcs) == Keys(jcs[..n]) + [KeyOf(jcs[n])];
    if k in Keys(jcs[..n]) {
      ParamsHead(jcs[..n], k);
      FirstIndexPrefix(Keys(jcs), n, k);
    } else {
      ParamsNonEmpty(jcs[..n], k);
      assert FirstIndex(Keys(jcs), k) == n;
    }
  }

  /** A group's header comes from the first card with its key, never from a
      later one; its sample number starts out empty. */
  lemma GroupHeader(jcs: seq<JobCardModel>)
    ensures forall g :: g in Grouped(jcs) ==>
      g.reportNo in Keys(jcs) &&
      var first := jcs[FirstIndex(Keys(jcs), g.reportNo)];
      g.status == GetJobCardStatus(first) &&
      g.createdAt == first.createdAt &&
      g.analystName == first.analystName &&
      g.sampleNumber == "" &&
      g.projectName == Or(first.projectName, PLACEHOLDER) &&
      g.labName == Or(first.labName, DEFAULT_GROUP_LAB) &&
      g.sampleDescription == Or(first.sampleDescription, Or(Some(first.paremeterType), PLACEHOLDER))
  {
    GroupedMembers(jcs);
    forall g | g in Grouped(jcs) ensures g.reportNo in Keys(jcs) && g.parameters != [] &&
      g.parameters[0] == jcs[FirstIndex(Keys(jcs), g.reportNo)] && g == GroupOf(g.reportNo, g.parameters)
    {
      assert g in Groups(jcs);
      ParamsHead(jcs, g.reportNo);
    }
  }

  /** The groups come newest first; groups created at the same time keep the
      order in which their keys first appear among the cards. */
  lemma GroupedOrder(jcs: seq<JobCardModel>)
    ensures SortedDesc(Grouped(jcs), GroupCreatedAt)
    ensures forall t :: WithKey(Grouped(jcs), GroupCreatedAt, t) == WithKey(Groups(jcs), GroupCreatedAt, t)
    ensures forall i, j :: 0 <= i < j < |Groups(jcs)| ==>
      Groups(jcs)[i].reportNo in Keys(jcs) && Groups(jcs)[j].reportNo in Keys(jcs) &&
      FirstIndex(Keys(jcs), Groups(jcs)[i].reportNo) < FirstIndex(Keys(jcs), Groups(jcs)[j].reportNo)
  {
    SortDescSorted(Groups(jcs), GroupCreatedAt);
    forall t ensures WithKey(Grouped(jcs), GroupCreatedAt, t) == WithKey(Groups(jcs), GroupCreatedAt, t) {
      SortDescStable(Groups(jcs), GroupCreatedAt, t);
    }
    DistinctFirstAppearance(Keys(jcs));
  }

  /** There is an `UNKNOWN` group exactly when some card has a blank report
      number or the literal report number `UNKNOWN`. */
  lemma UnknownGroup(jcs: seq<JobCardModel>)
    ensures (exists j :: 0 <= j < |Grouped(jcs)| && Grouped(jcs)[j].reportNo == UNKNOWN) <==>
      exists i :: 0 <= i < |jcs| && (jcs[i].reportNo == [] || jcs[i].reportNo == UNKNOWN)
  {
    var g := Grouped(jcs);
    if exists j :: 0 <= j < |g| && g[j].reportNo == UNKNOWN {
      var j :| 0 <= j < |g| && g[j].reportNo == UNKNOWN;
      GroupInKeys(jcs, g[j]);
      var i :| 0 <= i < |Keys(jcs)| && Keys(jcs)[i] == UNKNOWN;
      assert KeyOf(jcs[i]) == UNKNOWN;
    }
    if exists i :: 0 <= i < |jcs| && (jcs[i].reportNo == [] || jcs[i].reportNo == UNKNOWN) {
      var i :| 0 <= i < |jcs| && (jcs[i].reportNo == [] || jcs[i].reportNo == UNKNOWN);
      GroupedPartition(jcs);
      assert KeyOf(jcs[i]) == UNKNOWN;
    }
  }

  lemma GroupInKeys(jcs: seq<JobCardModel>, g: GroupedJobCard)
    requires g in Grouped(jcs)
    ensures g.reportNo in Keys(jcs)
  {
    GroupedMembers(jcs);
    var j :| 0 <= j < |Groups(jcs)| && Groups(jcs)[j] == g;
  }

  // ---- counts ----

  datatype Counts = Counts(all: nat, active: nat, inactive: nat, completed: nat)

  function StatusIs(s: JobCardStatus): GroupedJobCard -> bool {
    (g: GroupedJobCard) => g.status == s
  }

  /** `counts`: the number of groups, and of groups in each status. */
  function CountsOf(gs: seq<GroupedJobCard>): (c: Counts)
    ensures c.all == |gs|
    ensures c.active + c.inactive + c.completed == c.all
  {
    FilterPartition3(gs, StatusIs(Active), StatusIs(Inactive), StatusIs(Completed));
    Counts(|gs|, |Filter(gs, StatusIs(Active))|, |Filter(gs, StatusIs(Inactive))|, |Filter(gs, StatusIs(Completed))|)
  }

  // ---- sample-number patch ----

  /** `jobCards.find(jc => jc.reportNo === key)` */
  function FindByReportNo(jcs: seq<JobCardModel>, key: string): (r: Option<JobCardModel>)
    ensures r.None? <==> forall i :: 0 <= i < |jcs| ==> jcs[i].reportNo != key
    ensures r.Some? ==> (r.value.reportNo == key &&
      exists i :: 0 <= i < |jcs| && jcs[i] == r.value && forall j :: 0 <= j < i ==> jcs[j].reportNo != key)
  {
    if jcs == [] then None
    else if jcs[0].reportNo == key then Some(jcs[0])
    else
      var r := FindByReportNo(jcs[1..], key);
      if r.Some? then
        var i :| 0 <= i < |jcs[1..]| && jcs[1..][i] == r.value && forall j :: 0 <= j < i ==> jcs[1..][j].reportNo != key;
        assert jcs[i + 1] == r.value;
        r
      else r
  }

  /** The sample number a group is given: that of the first card with the
      same report number, or the placeholder. */
  function PatchedSampleNumber(jcs: seq<JobCardModel>, key: string): (r: string)
    ensures r != []
  {
    var found := FindByReportNo(jcs, key);
    if found.Some? then Or(found.value.sampleNumber, PLACEHOLDER) else PLACEHOLDER
  }

  /** `grouped.map(g => ({ ...g, sampleNumber: ... }))` */
  function Patch(gs: seq<GroupedJobCard>, jcs: seq<JobCardModel>): (r: seq<GroupedJobCard>)
    ensures |r| == |gs|
    ensures forall i :: 0 <= i < |gs| ==> r[i] == gs[i].(sampleNumber := PatchedSampleNumber(jcs, gs[i].reportNo))
  {
    seq(|gs|, i requires 0 <= i < |gs| => gs[i].(sampleNumber := PatchedSampleNumber(jcs, gs[i].reportNo)))
  }

  /** The patch changes only sample numbers, which become non-empty, and so
      leaves the per-status counts as they were. */
  lemma {:induction false} PatchKeepsCounts(gs: seq<GroupedJobCard>, jcs: seq<JobCardModel>)
    ensures forall i :: 0 <= i < |gs| ==>
      Patch(gs, jcs)[i].sampleNumber != [] && Patch(gs, jcs)[i].(sampleNumber := gs[i].sampleNumber) == gs[i]
    ensures CountsOf(Patch(gs, jcs)) == CountsOf(gs)
  {
    forall s ensures |Filter(Patch(gs, jcs), StatusIs(s))| == |Filter(gs, StatusIs(s))| {
      PatchFilterLength(gs, jcs, s);
    }
  }

  lemma {:induction false} PatchFilterLength(gs: seq<GroupedJobCard>, jcs: seq<JobCardModel>, s: JobCardStatus)
    ensures |Filter(Patch(gs, jcs), StatusIs(s))| == |Filter(gs, StatusIs(s))|
  {
    if gs != [] {
      assert Patch(gs, jcs)[1..] == Patch(gs[1..], jcs);
      PatchFilterLength(gs[1..], jcs, s);
    }
  }

  /** A report whose sample was looked up shows that sample's number (or the
      placeholder when the sample has none), whichever of its cards is found. */
  lemma PatchShowsLookedUpSample(jcs: seq<JobCardModel>, sampleMap: map<string, SampleRecord>, k: string)
    requires k in sampleMap
    requires exists i :: 0 <= i < |jcs| && jcs[i].reportNo == k
    ensures PatchedSampleNumber(EnrichAll(jcs, sampleMap), k) == Or(sampleMap[k].sampleNumber, PLACEHOLDER)
  {
    var e := EnrichAll(jcs, sampleMap);
    var i :| 0 <= i < |jcs| && jcs[i].reportNo == k;
    assert e[i].reportNo == k;
    var found := FindByReportNo(e, k);
    var j :| 0 <= j < |e| && e[j] == found.value;
    assert e[j] == Enrich(jcs[j], sampleMap);
  }

  /** Cards with a blank report number are never found by the patch, so the
      `UNKNOWN` group shows the placeholder unless a card literally carries
      the report number `UNKNOWN`. */
  lemma UnknownGroupPlaceholder(jcs: seq<JobCardModel>)
    requires forall i :: 0 <= i < |jcs| ==> jcs[i].reportNo != UNKNOWN
    ensures PatchedSampleNumber(jcs, UNKNOWN) == PLACEHOLDER
  {
  }

  // ---- filter and search ----

  datatype StatusFilter = All | Only(status: JobCardStatus)

  /** The search: `q`, already trimmed and lower-cased, occurs in one of the
      five header fields, compared case-insensitively. */
  function MatchesQuery(q: string): GroupedJobCard -> bool {
    (g: GroupedJobCard) => exists i | 0 <= i < |SearchFields(g)| :: Includes(Lower(SearchFields(g)[i]), q)
  }

  function SearchFields(g: GroupedJobCard): seq<string> {
    [g.reportNo, g.sampleNumber, g.sampleDescription, g.projectName, g.labName]
  }

  function Query(searchQuery: string): string {
    Lower(Trim(searchQuery))
  }

  /** A group passes both the status filter and the search. */
  function Keeps(f: StatusFilter, q: string): GroupedJobCard -> bool {
    (g: GroupedJobCard) => (f.All? || g.status == f.status) && (q == [] || MatchesQuery(q)(g))
  }

  /** `filtered` as `applyFilter` computes it from `grouped`. */
  function ApplyFilterTo(gs: seq<GroupedJobCard>, f: StatusFilter, searchQuery: string): seq<GroupedJobCard> {
    var list := if f.All? then gs else Filter(gs, StatusIs(f.status));
    var q := Query(searchQuery);
    if q != [] then Filter(list, MatchesQuery(q)) else list
  }

  /** The two filters in a row keep, in order, exactly the groups that pass
      both: the result is `gs` filtered once by their conjunction. */
  lemma ApplyFilterIsConjunction(gs: seq<GroupedJobCard>, f: StatusFilter, searchQuery: string)
    ensures ApplyFilterTo(gs, f, searchQuery) == Filter(gs, Keeps(f, Query(searchQuery)))
  {
    var q := Query(searchQuery);
    if f.All? {
      if q != [] {
        FilterCongruent(gs, MatchesQuery(q), Keeps(f, q));
      } else {
        FilterAll(gs, Keeps(f, q));
      }
    } else {
      if q != [] {
        FilterFilter(gs, StatusIs(f.status), MatchesQuery(q), Keeps(f, q));
      } else {
        FilterCongruent(gs, StatusIs(f.status), Keeps(f, q));
      }
    }
  }

  /** The result is an order-preserving selection of the groups holding
      exactly those that pass the status filter and the search. */
  lemma ApplyFilterSpec(gs: seq<GroupedJobCard>, f: StatusFilter, searchQuery: string)
    ensures IsSubseq(ApplyFilterTo(gs, f, searchQuery), gs)
    ensures forall g :: g in ApplyFilterTo(gs, f, searchQuery) <==>
      g in gs && (f.All? || g.status == f.status) &&
      (Query(searchQuery) == [] || MatchesQuery(Query(searchQuery))(g))
  {
    ApplyFilterIsConjunction(gs, f, searchQuery);
    FilterIsSubseq(gs, Keeps(f, Query(searchQuery)));
    FilterMembers(gs, Keeps(f, Query(searchQuery)));
  }

  /** With the `all` filter and a blank search every group is shown. */
  lemma ApplyFilterShowsAll(gs: seq<GroupedJobCard>, searchQuery: string)
    requires IsBlank(searchQuery)
    ensures ApplyFilterTo(gs, All, searchQuery) == gs
  {
    TrimEmptyIffBlank(searchQuery);
  }

  /** Surrounding whitespace in the search box makes no difference. */
  lemma ApplyFilterIgnoresPadding(gs: seq<GroupedJobCard>, f: StatusFilter, searchQuery: string)
    ensures ApplyFilterTo(gs, f, Trim(searchQuery)) == ApplyFilterTo(gs, f, searchQuery)
  {
    TrimIdempotent(searchQuery);
  }
}
