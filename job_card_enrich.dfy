/** The loading half of the analyst's job-card screen: which report numbers
    are looked up, the report-number-to-sample map built from the lookups'
    replies, and the enrichment of every job card from that map. */
module JobCardEnrich {
  import opened Api
  import opened Seqs
  import opened JobCardService

  const PLACEHOLDER := "—"
  const DEFAULT_LAB := "EPA Labs Private Limited"

  /** The fields of a looked-up sample that enrichment reads. */
  datatype SampleRecord = SampleRecord(
    reportNumber: Option<string>,
    sampleNumber: Option<string>,
    sampleDescription: Option<string>,
    description: Option<string>,
    projectName: Option<string>,
    labName: Option<string>)

  /** `jobCards.map(jc => jc.reportNo)` */
  function ReportNos(jcs: seq<JobCardModel>): (r: seq<string>)
    ensures |r| == |jcs|
    ensures forall i :: 0 <= i < |jcs| ==> r[i] == jcs[i].reportNo
  {
    seq(|jcs|, i requires 0 <= i < |jcs| => jcs[i].reportNo)
  }

  /** A report number as `filter(Boolean)` sees it: only `''` is falsy. */
  predicate NonEmpty(s: string) {
    s != []
  }

  /** The report numbers to look up: `[...new Set(reportNos.filter(Boolean))]`. */
  function UniqueReportNos(jcs: seq<JobCardModel>): (r: seq<string>)
    ensures NoDups(r)
    ensures forall x :: x in r ==> x != [] && x in ReportNos(jcs)
  {
    FilterMembers(ReportNos(jcs), NonEmpty);
    Distinct(Filter(ReportNos(jcs), NonEmpty))
  }

  /** Every non-blank report number is looked up exactly once, and the
      lookups go out in the order in which the report numbers first appear. */
  lemma UniqueReportNosSpec(jcs: seq<JobCardModel>)
    ensures forall i :: 0 <= i < |jcs| && jcs[i].reportNo != [] ==> jcs[i].reportNo in UniqueReportNos(jcs)
    ensures forall i, j :: 0 <= i < j < |UniqueReportNos(jcs)| ==>
      FirstIndex(ReportNos(jcs), UniqueReportNos(jcs)[i]) < FirstIndex(ReportNos(jcs), UniqueReportNos(jcs)[j])
  {
    var f := Filter(ReportNos(jcs), NonEmpty);
    FilterMembers(ReportNos(jcs), NonEmpty);
    forall i | 0 <= i < |jcs| && jcs[i].reportNo != [] ensures jcs[i].reportNo in UniqueReportNos(jcs) {
      assert ReportNos(jcs)[i] == jcs[i].reportNo;
      assert jcs[i].reportNo in ReportNos(jcs) && NonEmpty(jcs[i].reportNo);
    }
    DistinctFirstAppearance(f);
    forall i, j | 0 <= i < j < |Distinct(f)|
      ensures FirstIndex(ReportNos(jcs), Distinct(f)[i]) < FirstIndex(ReportNos(jcs), Distinct(f)[j])
    {
      FilterFirstIndex(ReportNos(jcs), NonEmpty, Distinct(f)[i], Distinct(f)[j]);
    }
  }

  /** Filtering keeps the order of first appearances. */
  lemma {:induction false} FilterFirstIndex<T>(s: seq<T>, p: T -> bool, x: T, y: T)
    requires x in Filter(s, p) && y in Filter(s, p)
    requires FirstIndex(Filter(s, p), x) < FirstIndex(Filter(s, p), y)
    ensures x in s && y in s && FirstIndex(s, x) < FirstIndex(s, y)
  {
    var f := Filter(s, p);
    FilterMembers(s, p);
    var fi :| 0 <= fi < |f| && f[fi] == x;
    var fj :| 0 <= fj < |f| && f[fj] == y;
    assert x in s && y in s;
    if s[0] == x {
    } else {
      var t := Filter(s[1..], p);
      if p(s[0]) {
        assert f == [s[0]] + t;
        assert s[0] != y;
        assert x in t && y in t;
        assert FirstIndex(f, x) == 1 + FirstIndex(t, x);
        assert FirstIndex(f, y) == 1 + FirstIndex(t, y);
      } else {
        assert f == t;
        assert s[0] != y;
      }
      FilterFirstIndex(s[1..], p, x, y);
    }
  }

  /** The samples of one lookup: none for a failed lookup (`null`), otherwise
      the normalised `data` of its reply. */
  function Entries(reply: Option<Payload<SampleRecord>>): seq<SampleRecord> {
    match reply
    case None => []
    case Some(data) => Normalise(data)
  }

  /** The samples of all lookups, in the order the lookups were issued. */
  function Flatten(replies: seq<Option<Payload<SampleRecord>>>): seq<SampleRecord> {
    if replies == [] then []
    else Flatten(replies[..|replies| - 1]) + Entries(replies[|replies| - 1])
  }

  /** `s?.reportNumber` is truthy and equals `k`. */
  predicate HasReportNumber(s: SampleRecord, k: string) {
    k != [] && s.reportNumber == Some(k)
  }

  /** The last sample in `ss` carrying report number `k`. */
  function LastFor(ss: seq<SampleRecord>, k: string): (r: Option<SampleRecord>)
    ensures r.None? <==> forall i :: 0 <= i < |ss| ==> !HasReportNumber(ss[i], k)
    ensures r.Some? ==> HasReportNumber(r.value, k)
  {
    if ss == [] then None
    else if HasReportNumber(ss[|ss| - 1], k) then Some(ss[|ss| - 1])
    else
      assert forall i :: 0 <= i < |ss| - 1 ==> ss[..|ss| - 1][i] == ss[i];
      LastFor(ss[..|ss| - 1], k)
  }

  /** The sample found is the one at some index `i` of `ss`, and no later
      sample carries `k`. */
  lemma {:induction false} LastForIsLast(ss: seq<SampleRecord>, k: string) returns (i: nat)
    requires LastFor(ss, k).Some?
    ensures i < |ss| && ss[i] == LastFor(ss, k).value
    ensures forall j :: i < j < |ss| ==> !HasReportNumber(ss[j], k)
  {
    var n := |ss| - 1;
    if HasReportNumber(ss[n], k) {
      i := n;
    } else {
      i := LastForIsLast(ss[..n], k);
      assert ss[..n][i] == ss[i];
      forall j | i < j < |ss| ensures !HasReportNumber(ss[j], k) {
        if j < n {
          assert ss[..n][j] == ss[j];
        }
      }
    }
  }

  /** The report numbers carried by the samples of `ss`. */
  function ReportKeys(ss: seq<SampleRecord>): (r: set<string>)
    ensures forall k :: k in r <==> exists i :: 0 <= i < |ss| && HasReportNumber(ss[i], k)
  {
    var r := set s | s in ss && Truthy(s.reportNumber) :: s.reportNumber.value;
    assert forall k :: k in r <==> exists i :: 0 <= i < |ss| && HasReportNumber(ss[i], k) by {
      forall k ensures k in r <==> exists i :: 0 <= i < |ss| && HasReportNumber(ss[i], k) {
        if k in r {
          var s :| s in ss && Truthy(s.reportNumber) && s.reportNumber.value == k;
          var i :| 0 <= i < |ss| && ss[i] == s;
          assert HasReportNumber(ss[i], k);
        }
        if exists i :: 0 <= i < |ss| && HasReportNumber(ss[i], k) {
          var i :| 0 <= i < |ss| && HasReportNumber(ss[i], k);
          assert ss[i] in ss;
        }
      }
    }
    r
  }

  /** `sampleMap` once every reply has been processed: a report number maps to
      the last sample carrying it, so a later sample overwrites an earlier one. */
  function SampleMapOf(replies: seq<Option<Payload<SampleRecord>>>): (m: map<string, SampleRecord>)
    ensures forall k :: k in m <==> exists i :: 0 <= i < |Flatten(replies)| && HasReportNumber(Flatten(replies)[i], k)
    ensures forall k :: k in m ==> m[k] == LastFor(Flatten(replies), k).value
  {
    var flat := Flatten(replies);
    var m := map k | k in ReportKeys(flat) :: LastFor(flat, k).value;
    assert forall k :: k in m <==> k in ReportKeys(flat);
    assert flat == Flatten(replies);
    m
  }

  /** A failed lookup contributes nothing to the map. */
  lemma FailedLookupIgnored(replies: seq<Option<Payload<SampleRecord>>>)
    ensures SampleMapOf(replies + [None]) == SampleMapOf(replies)
  {
    assert (replies + [None])[..|replies|] == replies;
    assert Flatten(replies + [None]) == Flatten(replies);
  }

  /** A later reply's sample replaces the entry of an earlier one. */
  lemma LaterReplyWins(replies: seq<Option<Payload<SampleRecord>>>, s: SampleRecord)
    requires Truthy(s.reportNumber)
    ensures SampleMapOf(replies + [Some(Items([s]))]) == SampleMapOf(replies)[s.reportNumber.value := s]
  {
    var rs := replies + [Some(Items([s]))];
    assert rs[..|replies|] == replies;
    assert Flatten(rs) == Flatten(replies) + [s];
    var flat := Flatten(rs);
    assert flat[..|flat| - 1] == Flatten(replies);
  }

  /** `sampleMap` matches the samples `ss` seen so far. */
  ghost predicate MapMatches(m: map<string, SampleRecord>, ss: seq<SampleRecord>) {
    forall k :: (k in m <==> LastFor(ss, k).Some?) && (k in m ==> m[k] == LastFor(ss, k).value)
  }

  lemma MapMatchesStep(m: map<string, SampleRecord>, ss: seq<SampleRecord>, s: SampleRecord)
    requires MapMatches(m, ss)
    ensures Truthy(s.reportNumber) ==> MapMatches(m[s.reportNumber.value := s], ss + [s])
    ensures !Truthy(s.reportNumber) ==> MapMatches(m, ss + [s])
  {
    assert (ss + [s])[..|ss|] == ss;
  }

  lemma FlattenStep(replies: seq<Option<Payload<SampleRecord>>>, i: nat)
    requires i < |replies|
    ensures Flatten(replies[..i + 1]) == Flatten(replies[..i]) + Entries(replies[i])
  {
    assert replies[..i + 1][..i] == replies[..i];
  }

  /** The map that matches all the samples is `SampleMapOf`. */
  lemma MapMatchesAll(m: map<string, SampleRecord>, replies: seq<Option<Payload<SampleRecord>>>)
    requires MapMatches(m, Flatten(replies))
    ensures m == SampleMapOf(replies)
  {
    var flat := Flatten(replies);
    forall k ensures k in m <==> k in SampleMapOf(replies) {
      if k in m {
        assert LastFor(flat, k).Some?;
      }
    }
  }

  /** Builds the map by walking the replies and their samples in order. */
  method BuildSampleMap(replies: seq<Option<Payload<SampleRecord>>>) returns (m: map<string, SampleRecord>)
    ensures m == SampleMapOf(replies)
  {
    m := map[];
    var i := 0;
    while i < |replies|
      invariant 0 <= i <= |replies|
      invariant MapMatches(m, Flatten(replies[..i]))
    {
      m := PutSamples(m, Entries(replies[i]), Flatten(replies[..i]));
      FlattenStep(replies, i);
      i := i + 1;
    }
    assert replies[..i] == replies;
    MapMatchesAll(m, replies);
  }

  /** The samples of one reply, stored under their report numbers. */
  method PutSamples(m0: map<string, SampleRecord>, samples: seq<SampleRecord>, ghost before: seq<SampleRecord>)
    returns (m: map<string, SampleRecord>)
    requires MapMatches(m0, before)
    ensures MapMatches(m, before + samples)
  {
    m := m0;
    var j := 0;
    assert before + samples[..0] == before;
    while j < |samples|
      invariant 0 <= j <= |samples|
      invariant MapMatches(m, before + samples[..j])
    {
      var s := samples[j];
      MapMatchesStep(m, before + samples[..j], s);
      assert before + samples[..j + 1] == before + samples[..j] + [s];
      if Truthy(s.reportNumber) {
        m := m[s.reportNumber.value := s];
      }
      j := j + 1;
    }
    assert samples[..j] == samples;
  }

  /** A job card after enrichment from `sampleMap`. */
  function Enrich(jc: JobCardModel, sampleMap: map<string, SampleRecord>): (r: JobCardModel)
    ensures r.(sampleNumber := jc.sampleNumber, sampleDescription := jc.sampleDescription,
               projectName := jc.projectName, labName := jc.labName) == jc
    ensures jc.reportNo !in sampleMap ==> r == jc
    ensures jc.reportNo in sampleMap ==>
      Truthy(r.sampleNumber) && Truthy(r.sampleDescription) && Truthy(r.projectName) && Truthy(r.labName)
    ensures jc.reportNo in sampleMap ==> r.sampleNumber == Some(Or(sampleMap[jc.reportNo].sampleNumber, PLACEHOLDER))
    ensures Truthy(jc.sampleDescription) ==> r.sampleDescription == jc.sampleDescription
    ensures Truthy(jc.projectName) ==> r.projectName == jc.projectName
    ensures Truthy(jc.labName) ==> r.labName == jc.labName
    ensures jc.reportNo in sampleMap && !Truthy(jc.projectName) && !Truthy(sampleMap[jc.reportNo].projectName) ==>
      r.projectName == Some(PLACEHOLDER)
    ensures (jc.reportNo in sampleMap && !Truthy(jc.sampleDescription) &&
             !Truthy(sampleMap[jc.reportNo].sampleDescription) && !Truthy(sampleMap[jc.reportNo].description)) ==>
      r.sampleDescription == Some(PLACEHOLDER)
  {
    if jc.reportNo in sampleMap then
      var s := sampleMap[jc.reportNo];
      jc.(sampleNumber := Some(Or(s.sampleNumber, PLACEHOLDER)),
          sampleDescription := Some(Or(jc.sampleDescription, Or(s.sampleDescription, Or(s.description, PLACEHOLDER)))),
          projectName := Some(Or(jc.projectName, Or(s.projectName, PLACEHOLDER))),
          labName := Some(Or(jc.labName, Or(s.labName, DEFAULT_LAB))))
    else jc
  }

  /** Where the card has no value of its own, the sample's value is used. */
  lemma EnrichFallsBackToSample(jc: JobCardModel, sampleMap: map<string, SampleRecord>)
    requires jc.reportNo in sampleMap
    ensures var s := sampleMap[jc.reportNo];
      (!Truthy(jc.projectName) && Truthy(s.projectName) ==> Enrich(jc, sampleMap).projectName == s.projectName) &&
      (!Truthy(jc.labName) && Truthy(s.labName) ==> Enrich(jc, sampleMap).labName == s.labName) &&
      (!Truthy(jc.labName) && !Truthy(s.labName) ==> Enrich(jc, sampleMap).labName == Some(DEFAULT_LAB)) &&
      (!Truthy(jc.sampleDescription) && Truthy(s.sampleDescription) ==> Enrich(jc, sampleMap).sampleDescription == s.sampleDescription) &&
      (!Truthy(jc.sampleDescription) && !Truthy(s.sampleDescription) && Truthy(s.description) ==> Enrich(jc, sampleMap).sampleDescription == s.description)
  {
  }

  /** Enriching an enriched card changes nothing. */
  lemma EnrichIdempotent(jc: JobCardModel, sampleMap: map<string, SampleRecord>)
    ensures Enrich(Enrich(jc, sampleMap), sampleMap) == Enrich(jc, sampleMap)
  {
  }

  /** `jobCards.map(jc => enrich(jc))` */
  function EnrichAll(jcs: seq<JobCardModel>, sampleMap: map<string, SampleRecord>): (r: seq<JobCardModel>)
    ensures |r| == |jcs|
    ensures forall i :: 0 <= i < |jcs| ==> r[i] == Enrich(jcs[i], sampleMap)
  {
    seq(|jcs|, i requires 0 <= i < |jcs| => Enrich(jcs[i], sampleMap))
  }

  /** Enrichment keeps every card's report number and status, so it does not
      change how the cards are grouped or counted. */
  lemma EnrichAllKeepsKeys(jcs: seq<JobCardModel>, sampleMap: map<string, SampleRecord>)
    ensures ReportNos(EnrichAll(jcs, sampleMap)) == ReportNos(jcs)
    ensures forall i :: 0 <= i < |jcs| ==> GetJobCardStatus(EnrichAll(jcs, sampleMap)[i]) == GetJobCardStatus(jcs[i])
  {
  }
}
