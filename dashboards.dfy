/** What the analyst, technician and quality dashboards share: the search
    box with its three search kinds, and the way a search reply is read. */
module Dashboards {
  import opened Api
  import opened Text
  import opened Samples

  datatype SearchRequest = ByReportNumber(value: string) | ByCompanyName(value: string) | BySampleId(value: string)

  /** The page the statistics are computed from. */
  datatype PageQuery = PageQuery(page: nat, size: nat)

  const REPORT_NUMBER := "reportNumber"
  const COMPANY_NAME := "companyName"
  const SAMPLE_ID := "sampleId"

  /** `searchForm.get('searchValue')?.value?.trim()` as a truthy value: a
      missing or blank entry gives nothing. */
  function SearchValue(v: Option<string>): (r: Option<string>)
    ensures r.Some? <==> v.Some? && !IsBlank(v.value)
    ensures r.Some? ==> r.value == Trim(v.value) && r.value != [] && !IsBlank(r.value)
  {
    if v.None? then None
    else
      TrimEmptyIffBlank(v.value);
      TrimIdempotent(v.value);
      TrimEmptyIffBlank(Trim(v.value));
      if Trim(v.value) == [] then None else Some(Trim(v.value))
  }

  /** The `switch` on the search tab: an unknown tab sends nothing. */
  function RequestFor(searchType: string, value: string): (r: Option<SearchRequest>)
    ensures r.Some? <==> searchType == REPORT_NUMBER || searchType == COMPANY_NAME || searchType == SAMPLE_ID
    ensures r.Some? ==> r.value.value == value
    ensures r.Some? ==> (r.value.ByReportNumber? <==> searchType == REPORT_NUMBER)
    ensures r.Some? ==> (r.value.BySampleId? <==> searchType == SAMPLE_ID)
  {
    if searchType == REPORT_NUMBER then Some(ByReportNumber(value))
    else if searchType == COMPANY_NAME then Some(ByCompanyName(value))
    else if searchType == SAMPLE_ID then Some(BySampleId(value))
    else None
  }

  /** The samples a search reply carries: on SUCCESS the array, the page's
      content or the single object; nothing otherwise. */
  function Found(reply: Response<Sample>): (r: seq<Sample>)
    ensures reply.status != SUCCESS ==> r == []
    ensures reply.status == SUCCESS ==> r == Normalise(reply.data)
  {
    if reply.status == SUCCESS then Normalise(reply.data) else []
  }

  /** A reply is read the same way however it is wrapped. */
  lemma FoundWrapping(status: Status, code: string, message: Option<string>, items: seq<Sample>)
    ensures Found(Response(status, code, Items(items), message)) == Found(Response(status, code, Page(items), message))
    ensures status == SUCCESS ==> Found(Response(status, code, Items(items), message)) == items
  {
  }
}
