/** The sample record the dashboards and the sample lists receive, and the
    page envelope it arrives in. */
module Samples {
  import opened Api

  /** A registered sample. The three workflow flags are read with `=== true`
      or as truthy values; a missing flag is `false`. Timestamps are abstract
      integers; `updatedAt` may be missing. */
  datatype Sample = Sample(
    id: int,
    reportNumber: Option<string>,
    sampleNumber: Option<string>,
    projectName: Option<string>,
    sampleDescription: Option<string>,
    address: Option<string>,
    techanicianChecked: bool,
    qualityChecked: bool,
    fordwardToTechanician: bool,
    createdAt: int,
    updatedAt: Option<int>)

  datatype PageResponse = PageResponse(content: seq<Sample>, totalElements: nat, totalPages: nat)

  /** A reply whose `data` is a page object, or `null`. */
  datatype PageReply = PageReply(status: Status, data: Option<PageResponse>)

  predicate TechnicianChecked(s: Sample) { s.techanicianChecked }
  predicate QualityChecked(s: Sample) { s.qualityChecked }
  predicate Forwarded(s: Sample) { s.fordwardToTechanician }

  /** `new Date(s.updatedAt).toDateString() === today`, with the calendar
      comparison supplied by the caller; a missing `updatedAt` never matches. */
  predicate UpdatedToday(s: Sample, isToday: int -> bool) {
    s.updatedAt.Some? && isToday(s.updatedAt.value)
  }
}
