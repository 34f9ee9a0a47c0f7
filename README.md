# EPAL laboratory front-end, modelled in Dafny

This project models the core of the EPAL laboratory information system's
Angular front-end. The front-end is the set of screens through which a
sample moves through the laboratory:

- the sample registrar registers a sample (the registration form), fills in
  its general information (the general-information screen with its
  auto-fill and cascading parameter dropdowns), and browses the list of all
  samples and the registrar's sample dashboard;
- the analyst sees the analyst dashboard and the job cards, where the
  analyst's test parameters are enriched with sample data, grouped by report
  number, counted by status and filtered;
- the technician and the quality officer see their dashboards, search
  samples and forward, send back or approve them; the quality officer signs
  in through the quality login form;
- the registrar's navigation drawer and the shared UI-state service hold
  the sidebar flag and the highlighted menu entry.

Each source component is one Dafny module. Its state is a `class` whose
fields are the component's fields, and its handlers are methods with
`modifies` clauses naming the fields they change. An HTTP call is split into
the synchronous part (a method that returns the request it would send) and
one method per callback (`On…Response`, `On…Error`); the reply is a
parameter. The pure logic behind the handlers is written as functions:
status rules, statistics, client-side filters, the `reportNo` grouping and
the sample enrichment of the job cards, page-number windows, and form
validation and messages. The lemmas beside these functions state what the
screens promise. For example:

- grouping partitions the job cards, and every job card lands in exactly
  one group;
- filters are conjunctions of their criteria and keep the input order;
- statistics add up;
- a refused submission reveals every field error;
- the later sample reply wins in the enrichment map.

Helper modules: `Text` (`trim`, ASCII `toLowerCase`, `includes`, UTF-16 `length`), `Seqs`
(`filter`, subsequences, de-duplication as `[...new Set(s)]`), `Sorting` (a
stable descending sort, which is what `Array.prototype.sort` with a numeric
comparator does), `Api` (the reply envelope and the several shapes of its
`data` field) and `Samples` (the sample record the dashboards share).

## Model

| member | source | states |
|---|---|---|
| JobCardService.GetJobCardStatus | src/app/services/job-card-sevice.ts:50-62 | all three flags off gives inactive; approved with neither check gives active; approved with either check gives completed; not approved is always inactive |
| JobCardService.StatusCharacterised | src/app/services/job-card-sevice.ts:50-62 | a job card is active or completed exactly when it is approved, completed exactly when it is also checked by a technician or quality officer, and active exactly when it is approved and unchecked |
| JobCardService.StatusDependsOnFlagsOnly | src/app/services/job-card-sevice.ts:50-62 | two job cards with the same three flags have the same status |
| JobCardEnrich.ReportNos | src/app/analyst/job-card/job-card.ts:125 | the report numbers of the job cards, one per card, in order |
| JobCardEnrich.UniqueReportNos | src/app/analyst/job-card/job-card.ts:124-126 | the report numbers looked up have no duplicates and are all non-empty report numbers of the cards |
| JobCardEnrich.UniqueReportNosSpec | src/app/analyst/job-card/job-card.ts:124-126 | every non-empty report number of a card is looked up, and they are listed in the order of their first appearance |
| JobCardEnrich.LastFor | src/app/analyst/job-card/job-card.ts:160-164 | the sample kept for a report number is absent exactly when no sample carries that number, and otherwise carries it |
| JobCardEnrich.LastForIsLast | src/app/analyst/job-card/job-card.ts:160-164 | the sample kept for a report number is the last one carrying it: no later sample carries it |
| JobCardEnrich.SampleMapOf | src/app/analyst/job-card/job-card.ts:149-166 | the map's keys are exactly the truthy report numbers of the samples in the replies, and each maps to the last such sample |
| JobCardEnrich.Entries | src/app/analyst/job-card/job-card.ts:150-158 | definition of the samples one lookup contributes: none for a failed lookup, otherwise the normalised `data` |
| JobCardEnrich.Flatten | src/app/analyst/job-card/job-card.ts:150-166 | definition of all lookups' samples in lookup order; `SampleMapOf` and `BuildSampleMap` are stated over it |
| JobCardEnrich.FailedLookupIgnored | src/app/analyst/job-card/job-card.ts:133-151 | a lookup that failed (caught as `null`) leaves the sample map unchanged |
| JobCardEnrich.LaterReplyWins | src/app/analyst/job-card/job-card.ts:160-164 | a later reply's sample overrides the earlier entry for its report number and changes nothing else |
| JobCardEnrich.BuildSampleMap | src/app/analyst/job-card/job-card.ts:149-166 | the map built by the loop over the replies and their samples is the map the replies specify |
| JobCardEnrich.PutSamples | src/app/analyst/job-card/job-card.ts:160-165 | the inner loop over one reply's samples keeps the map in step with every sample seen so far |
| JobCardEnrich.Enrich | src/app/analyst/job-card/job-card.ts:169-181 | a card whose report number has no sample is unchanged; otherwise only the four display fields change: the sample number comes from the sample or the placeholder, and a truthy description, project or lab already on the card is kept; with no value on the card or the sample, the description (after the sample's `description` too) and the project become "—" |
| JobCardEnrich.EnrichFallsBackToSample | src/app/analyst/job-card/job-card.ts:172-178 | a description, project or lab missing on the card is taken from the sample, the description from the sample's `description` as a second choice, and a lab missing on both becomes the default lab name |
| JobCardEnrich.EnrichIdempotent | src/app/analyst/job-card/job-card.ts:169-181 | enriching twice with the same map is enriching once |
| JobCardEnrich.EnrichAll | src/app/analyst/job-card/job-card.ts:169-181 | the enriched list has the same length and each card is enriched on its own |
| JobCardEnrich.EnrichAllKeepsKeys | src/app/analyst/job-card/job-card.ts:169-181 | enrichment keeps every card's report number and status |
| JobCardGroup.KeyOf | src/app/analyst/job-card/job-card.ts:211 | the grouping key is the report number, or `UNKNOWN` for a card without one; never empty |
| JobCardGroup.Params | src/app/analyst/job-card/job-card.ts:225 | the parameters of a group all have that group's key, in card order |
| JobCardGroup.ParamsNonEmpty | src/app/analyst/job-card/job-card.ts:210-226 | a key has parameters exactly when some card has that key |
| JobCardGroup.GroupsFor | src/app/analyst/job-card/job-card.ts:212-225 | one group per key, each built from its key's parameters |
| JobCardGroup.NewGroup | src/app/analyst/job-card/job-card.ts:212-223 | definition of the header a key's first card gives its group; `GroupHeader` states its fields |
| JobCardGroup.Groups | src/app/analyst/job-card/job-card.ts:228 | definition of `Array.from(map.values())`: one group per distinct key in first-appearance order; `GroupCards` proves the loop builds it |
| JobCardGroup.Grouped | src/app/analyst/job-card/job-card.ts:228-230 | definition of the sorted groups; `GroupedPartition`, `GroupedOrder` and `GroupedMembers` state what it is |
| JobCardGroup.GroupedMembers | src/app/analyst/job-card/job-card.ts:228-230 | sorting changes only the order of the groups |
| JobCardGroup.GroupedPartition | src/app/analyst/job-card/job-card.ts:207-230 | the groups partition the cards: each group is non-empty and has its own key, every card's key has a group, no two groups share a key, and the parameter counts add up to the number of cards |
| JobCardGroup.GroupedParams | src/app/analyst/job-card/job-card.ts:207-230 | each group holds exactly the cards with its key, and at least one |
| JobCardGroup.GroupedCovers | src/app/analyst/job-card/job-card.ts:207-230 | every card's key has a group |
| JobCardGroup.GroupedSum | src/app/analyst/job-card/job-card.ts:207-230 | the group sizes add up to the number of cards |
| JobCardGroup.GroupHeader | src/app/analyst/job-card/job-card.ts:213-223 | a group's header fields (description with its fallbacks, project, lab with the default, status, analyst, creation time) come from the first card with its key |
| JobCardGroup.GroupedOrder | src/app/analyst/job-card/job-card.ts:228-230 | the groups are sorted newest first, and groups with the same creation time keep the order of first appearance |
| JobCardGroup.UnknownGroup | src/app/analyst/job-card/job-card.ts:211 | an `UNKNOWN` group exists exactly when some card has no report number or has `UNKNOWN` itself |
| JobCardGroup.CountsOf | src/app/analyst/job-card/job-card.ts:232-235 | `all` is the number of groups and the three status counts add up to it |
| JobCardGroup.FindByReportNo | src/app/analyst/job-card/job-card.ts:190 | `find`: absent exactly when no card has the report number, otherwise the first card that has it |
| JobCardGroup.PatchedSampleNumber | src/app/analyst/job-card/job-card.ts:190 | the sample number shown on a group is never empty |
| JobCardGroup.Patch | src/app/analyst/job-card/job-card.ts:188-191 | patching changes only each group's sample number, to the first matching card's number or the placeholder |
| JobCardGroup.PatchKeepsCounts | src/app/analyst/job-card/job-card.ts:188-191 | patching keeps every group's status, so the counts computed before it stay right |
| JobCardGroup.PatchShowsLookedUpSample | src/app/analyst/job-card/job-card.ts:169-191 | a group whose report number was looked up shows the sample number from the lookup, or the placeholder |
| JobCardGroup.UnknownGroupPlaceholder | src/app/analyst/job-card/job-card.ts:190 | the `UNKNOWN` group matches no card and shows the placeholder |
| JobCardGroup.ApplyFilterIsConjunction | src/app/analyst/job-card/job-card.ts:244-263 | the status filter followed by the search filter is one filter by both criteria |
| JobCardGroup.Query | src/app/analyst/job-card/job-card.ts:251 | definition of the search text: `searchQuery.trim().toLowerCase()` |
| JobCardGroup.MatchesQuery | src/app/analyst/job-card/job-card.ts:253-259 | definition of the search: the query occurs in one of the five lower-cased header fields |
| JobCardGroup.ApplyFilterTo | src/app/analyst/job-card/job-card.ts:244-263 | definition of `applyFilter`; `ApplyFilterIsConjunction` and `ApplyFilterSpec` state what it keeps |
| JobCardGroup.ApplyFilterSpec | src/app/analyst/job-card/job-card.ts:244-263 | the shown groups are a subsequence of the groups, and a group is shown exactly when it has the chosen status and some field includes the trimmed, lower-cased query |
| JobCardGroup.ApplyFilterShowsAll | src/app/analyst/job-card/job-card.ts:247-252 | with `all` and a blank query every group is shown |
| JobCardGroup.ApplyFilterIgnoresPadding | src/app/analyst/job-card/job-card.ts:251 | surrounding whitespace in the query changes nothing |
| JobCard.JobCard.constructor | src/app/analyst/job-card/job-card.ts:36-44 | the component starts empty: no cards, groups or counts, filter `all`, empty query, nothing expanded |
| JobCard.JobCard.BeginLoad | src/app/analyst/job-card/job-card.ts:100-110 | without an analyst session nothing is sent and the no-session message is shown; otherwise loading starts with the message cleared; the data fields are untouched |
| JobCard.JobCard.OnJobCardsResponse | src/app/analyst/job-card/job-card.ts:115-146 | a reply that is not a SUCCESS with an array stops loading with the server's message or the default; otherwise the cards are stored and the distinct report numbers are returned for lookup; with none to look up, the cards are grouped, patched and filtered at once |
| JobCard.JobCard.OnLookupReplies | src/app/analyst/job-card/job-card.ts:144-194 | loading ends; the cards become their enrichment by the replies' sample map; the groups become the patched grouping of those cards; the shown groups are the filter of the groups |
| JobCard.JobCard.OnLoadError | src/app/analyst/job-card/job-card.ts:195-199 | loading ends and the error's message, or the default, is shown; the data is untouched |
| JobCard.JobCard.BuildGrouped | src/app/analyst/job-card/job-card.ts:207-238 | the groups are the specified grouping of the cards and the counts are their counts |
| JobCard.JobCard.ApplyFilter | src/app/analyst/job-card/job-card.ts:244-263 | the shown groups are the specified filter of the groups; nothing else changes |
| JobCard.JobCard.SetFilter | src/app/analyst/job-card/job-card.ts:265 | the chosen status is stored and the shown groups follow it |
| JobCard.JobCard.OnSearch | src/app/analyst/job-card/job-card.ts:266 | the shown groups follow the current query |
| JobCard.JobCard.ToggleExpand | src/app/analyst/job-card/job-card.ts:272-278 | clicking the expanded report collapses it, and clicking another expands it alone |
| JobCard.JobCard.IsExpanded | src/app/analyst/job-card/job-card.ts:276-278 | definition of `isExpanded`: the report shown open is the one given |
| JobCard.GroupCards | src/app/analyst/job-card/job-card.ts:208-228 | the map-based loop over the cards yields, in insertion order, exactly the specified groups |
| JobCard.GroupingDone | src/app/analyst/job-card/job-card.ts:228 | once every card is seen, the map's values in insertion order are the specified groups |
| Sorting.SortDescSorted | src/app/quality/quality-dashboard/quality-dashboard.ts:141-145 | the sort's result is in descending key order and a permutation of its input |
| Sorting.SortDesc | src/app/quality/quality-dashboard/quality-dashboard.ts:141-145 | the sort keeps the length; `SortDescSorted`, `SortDescStable` and `SortDescCharacterised` state that it is the stable descending sort |
| Sorting.SortDescStable | src/app/quality/quality-dashboard/quality-dashboard.ts:141-145 | elements with equal keys keep their relative order |
| Sorting.StableSortUnique | src/app/quality/quality-dashboard/quality-dashboard.ts:141-145 | any sequence that is sorted, a permutation of the input and stable equals the sort's result, so the model agrees with every stable sort |
| Sorting.SortDescCharacterised | src/app/quality/quality-dashboard/quality-dashboard.ts:141-145 | the sort's result is the only sorted, stable permutation of its input |
| Api.Or | src/app/analyst/job-card/job-card.ts:174-177 | definition of JavaScript `o || fallback` for an optional string: a present non-empty string is kept, anything else falls back |
| Api.Coalesce | src/app/sample-registar/general-information/general-information.ts:30-36 | definition of JavaScript `o ?? fallback`: only a missing value falls back |
| Api.Normalise | src/app/analyst/analyst-dashboard/analyst-dashboard.ts:136-147 | definition of how the screens read `data` as a list: the array itself, a page's content, a single object as a one-element list, and nothing for `null` or a primitive |
| Api.TruthyData | src/app/sample-registar/general-information/general-information.ts:127 | definition of `data` as an `if` condition: every array and object is truthy, `[]` included; `null` is not; a primitive by its value |
| Text.TrimEmptyIffBlank | src/app/analyst/job-card/job-card.ts:251 | a trimmed string is empty exactly when the input was blank, and otherwise starts and ends with non-whitespace |
| Text.TrimIdempotent | src/app/analyst/job-card/job-card.ts:251 | trimming twice is trimming once |
| Text.Lower | src/app/analyst/job-card/job-card.ts:251-258 | lower-casing keeps the length and maps each letter on its own |
| Text.LowerIdempotent | src/app/analyst/job-card/job-card.ts:251-258 | lower-casing twice is lower-casing once |
| Text.Trim | src/app/analyst/job-card/job-card.ts:251 | definition of `trim`: `TrimStart` then `TrimEnd`, removing the ECMAScript white space and line terminators of `IsWhite`; its properties are `TrimEmptyIffBlank` and `TrimIdempotent` |
| Text.Includes | src/app/analyst/job-card/job-card.ts:254-258 | definition of `s.includes(q)`: `q` occurs in `s` as a contiguous block; every string includes `''` and itself (`IncludesTrivial`) |
| Text.Utf16Length | src/app/components/quality-login/quality-login.ts:52-57 | `s.length`: UTF-16 code units, between the number of characters and twice it, and zero only for the empty string |
| Text.Utf16LengthOfBmp | src/app/components/quality-login/quality-login.ts:52-57 | a string without characters beyond U+FFFF has one code unit per character |
| Text.Utf16LengthAppend | src/app/components/quality-login/quality-login.ts:52-57 | the length of a concatenation is the sum of the lengths |
| Seqs.Filter | src/app/sample-registar/all-samples/all-samples.ts:128-149 | `s.filter(p)`: no longer than `s`, and every kept element satisfies `p` |
| Seqs.Distinct | src/app/analyst/job-card/job-card.ts:124-126 | `[...new Set(s)]`: exactly the elements of `s`, without duplicates |
| Dashboards.SearchValue | src/app/analyst/analyst-dashboard/analyst-dashboard.ts:117-118 | a search runs exactly when the field holds a non-blank value, and then with the trimmed value |
| Dashboards.RequestFor | src/app/analyst/analyst-dashboard/analyst-dashboard.ts:124-128 | one request per known search tab, carrying the value; an unknown tab sends nothing |
| Dashboards.Found | src/app/analyst/analyst-dashboard/analyst-dashboard.ts:132-150 | a non-SUCCESS reply finds nothing; a SUCCESS reply finds the normalised data |
| Dashboards.FoundWrapping | src/app/analyst/analyst-dashboard/analyst-dashboard.ts:136-144 | an array and a page with the same samples are read alike |
| AnalystDashboard.StatsOf | src/app/analyst/analyst-dashboard/analyst-dashboard.ts:82-103 | processed is the page's total; pending and forwarded count the matching samples on the page, are disjoint and add up to at most the page size; completed-today counts only quality-checked samples |
| AnalystDashboard.GetSampleStatus | src/app/analyst/analyst-dashboard/analyst-dashboard.ts:196-200 | Completed exactly when quality-checked, Forwarded exactly when only technician-checked, Pending exactly when neither |
| AnalystDashboard.StatusClassMirrorsLabel | src/app/analyst/analyst-dashboard/analyst-dashboard.ts:202-206 | the CSS class is the lower-cased status label |
| AnalystDashboard.AnalystDashboardPage.constructor | src/app/analyst/analyst-dashboard/analyst-dashboard.ts:24-50 | nothing loaded or searched, report-number tab, an empty search field, no modal, zero stats |
| AnalystDashboard.AnalystDashboardPage.LoadDashboardStats | src/app/analyst/analyst-dashboard/analyst-dashboard.ts:62-66 | loading starts and the first page of 50 is requested |
| AnalystDashboard.AnalystDashboardPage.ProcessBackendData | src/app/analyst/analyst-dashboard/analyst-dashboard.ts:82-103 | an empty page leaves the stats alone; otherwise the stats are the page's statistics |
| AnalystDashboard.AnalystDashboardPage.OnStatsResponse | src/app/analyst/analyst-dashboard/analyst-dashboard.ts:67-75 | loading ends; a SUCCESS with content sets the statistics, and anything else keeps them |
| AnalystDashboard.AnalystDashboardPage.OnStatsError | src/app/analyst/analyst-dashboard/analyst-dashboard.ts:67-78 | loading ends |
| AnalystDashboard.AnalystDashboardPage.OnSearchTypeChange | src/app/analyst/analyst-dashboard/analyst-dashboard.ts:109-114 | the tab changes, the field is reset to null and the results are cleared |
| AnalystDashboard.AnalystDashboardPage.OnSearch | src/app/analyst/analyst-dashboard/analyst-dashboard.ts:116-129 | a blank field sends nothing and changes nothing; otherwise the results clear, loading starts and the tab's request is sent |
| AnalystDashboard.AnalystDashboardPage.HandleSearchResponse | src/app/analyst/analyst-dashboard/analyst-dashboard.ts:132-154 | the results are what the reply found; the search is marked done |
| AnalystDashboard.AnalystDashboardPage.OnSearchError | src/app/analyst/analyst-dashboard/analyst-dashboard.ts:156-166 | no results; the search is marked done |
| AnalystDashboard.AnalystDashboardPage.ViewSampleDetails | src/app/analyst/analyst-dashboard/analyst-dashboard.ts:212 | the sample is selected |
| AnalystDashboard.AnalystDashboardPage.EditGeneralInformation | src/app/analyst/analyst-dashboard/analyst-dashboard.ts:213 | the sample is selected and the edit modal opens |
| AnalystDashboard.AnalystDashboardPage.EditSampleResult | src/app/analyst/analyst-dashboard/analyst-dashboard.ts:214 | the sample is selected and the result modal opens |
| AnalystDashboard.AnalystDashboardPage.ForwardToTechnician | src/app/analyst/analyst-dashboard/analyst-dashboard.ts:215 | the sample is selected and the forward modal opens |
| AnalystDashboard.AnalystDashboardPage.CloseModal | src/app/analyst/analyst-dashboard/analyst-dashboard.ts:217-220 | every modal closes and the selection is cleared |
| AnalystDashboard.AnalystDashboardPage.ConfirmForward | src/app/analyst/analyst-dashboard/analyst-dashboard.ts:222-224 | the forward is sent exactly when a sample is selected |
| AnalystDashboard.AnalystDashboardPage.OnForwardResponse | src/app/analyst/analyst-dashboard/analyst-dashboard.ts:225-236 | a failure (status other than SUCCESS) changes no field and sends nothing; a success closes every modal and clears the selection, reloads the statistics (loading on, page 0 of size 50), and re-runs the search: with a blank search box the results and flags stay, otherwise the results are cleared, loading is set and the tab's request is returned |
| TechnicianDashboard.StatsOf | src/app/techanician/technician-dashboard/technician-dashboard.ts:72-101 | pending review and forwarded to quality add up to processed; processed counts technician-checked samples among those forwarded to the technician; sent back is always 0, because it filters the forwarded samples for not forwarded |
| TechnicianDashboard.SearchResultsOf | src/app/techanician/technician-dashboard/technician-dashboard.ts:129-153 | the results are the found samples forwarded to the technician, in their order |
| TechnicianDashboard.GetSampleStatus | src/app/techanician/technician-dashboard/technician-dashboard.ts:195-199 | QA Approved exactly when quality-checked, In Review exactly when only forwarded, Pending otherwise |
| TechnicianDashboard.StatusClassMirrorsLabel | src/app/techanician/technician-dashboard/technician-dashboard.ts:195-205 | two samples have the same CSS class exactly when they have the same status label |
| TechnicianDashboard.TechnicianDashboardPage.constructor | src/app/techanician/technician-dashboard/technician-dashboard.ts:17-43 | nothing loaded or searched, report-number tab, empty field, no modal, zero stats |
| TechnicianDashboard.TechnicianDashboardPage.LoadDashboardStats | src/app/techanician/technician-dashboard/technician-dashboard.ts:55-59 | loading starts and the first page of 50 is requested |
| TechnicianDashboard.TechnicianDashboardPage.ProcessBackendData | src/app/techanician/technician-dashboard/technician-dashboard.ts:72-101 | no forwarded sample leaves the stats alone; otherwise they are the page's statistics |
| TechnicianDashboard.TechnicianDashboardPage.OnStatsResponse | src/app/techanician/technician-dashboard/technician-dashboard.ts:60-66 | loading ends; a SUCCESS with forwarded samples sets the statistics, and anything else keeps them |
| TechnicianDashboard.TechnicianDashboardPage.OnStatsError | src/app/techanician/technician-dashboard/technician-dashboard.ts:60-69 | loading ends |
| TechnicianDashboard.TechnicianDashboardPage.OnSearchTypeChange | src/app/techanician/technician-dashboard/technician-dashboard.ts:107-112 | the tab changes, the field is reset and the results are cleared |
| TechnicianDashboard.TechnicianDashboardPage.OnSearch | src/app/techanician/technician-dashboard/technician-dashboard.ts:114-127 | a blank field sends nothing; otherwise the results clear, loading starts and the tab's request is sent |
| TechnicianDashboard.TechnicianDashboardPage.HandleSearchResponse | src/app/techanician/technician-dashboard/technician-dashboard.ts:129-153 | the results are the found forwarded samples, and each result is forwarded to the technician |
| TechnicianDashboard.TechnicianDashboardPage.OnSearchError | src/app/techanician/technician-dashboard/technician-dashboard.ts:155-165 | no results; the search is marked done |
| TechnicianDashboard.TechnicianDashboardPage.EditGeneralInformation | src/app/techanician/technician-dashboard/technician-dashboard.ts:211-214 | the sample is selected and the edit modal opens |
| TechnicianDashboard.TechnicianDashboardPage.EditSampleResult | src/app/techanician/technician-dashboard/technician-dashboard.ts:216-219 | the sample is selected and the result modal opens |
| TechnicianDashboard.TechnicianDashboardPage.SendBackToAnalyst | src/app/techanician/technician-dashboard/technician-dashboard.ts:221-224 | the sample is selected and the send-back modal opens |
| TechnicianDashboard.TechnicianDashboardPage.ForwardToQualityCheck | src/app/techanician/technician-dashboard/technician-dashboard.ts:226-229 | the sample is selected and the quality-check modal opens |
| TechnicianDashboard.TechnicianDashboardPage.CloseModal | src/app/techanician/technician-dashboard/technician-dashboard.ts:231-237 | every modal closes and the selection is cleared |
| TechnicianDashboard.TechnicianDashboardPage.ConfirmAction | src/app/techanician/technician-dashboard/technician-dashboard.ts:243-262 | the send-back or forward is sent exactly when a sample is selected |
| TechnicianDashboard.TechnicianDashboardPage.OnActionResponse | src/app/techanician/technician-dashboard/technician-dashboard.ts:246-279 | a failure (status other than SUCCESS) changes no field and sends nothing; a success closes every modal and clears the selection, reloads the statistics (loading on, page 0 of size 50), and re-runs the search: with a blank search box the results and flags stay, otherwise the results are cleared, loading is set and the tab's request is returned |
| QualityDashboard.StatsOf | src/app/quality/quality-dashboard/quality-dashboard.ts:72-96 | pending QA and total approved add up to processed, the technician-checked samples; approved today is at most total approved |
| QualityDashboard.SearchResultsOf | src/app/quality/quality-dashboard/quality-dashboard.ts:124-152 | the results are the found technician-checked samples, sorted newest first by `updatedAt` or else `createdAt`, a permutation of them, with equal times in their original order |
| QualityDashboard.Timestamp | src/app/quality/quality-dashboard/quality-dashboard.ts:142-143 | definition of the sort key `updatedAt || createdAt` |
| QualityDashboard.SortedKeepsProperty | src/app/quality/quality-dashboard/quality-dashboard.ts:138-145 | sorting cannot bring back a sample that is not technician-checked |
| QualityDashboard.GetSampleStatus | src/app/quality/quality-dashboard/quality-dashboard.ts:194-197 | QA Approved exactly when quality-checked, Pending QA otherwise |
| QualityDashboard.GetSampleStatusClass | src/app/quality/quality-dashboard/quality-dashboard.ts:199-201 | the class is `approved` exactly for QA Approved and `pending` exactly for Pending QA |
| QualityDashboard.QualityDashboardPage.constructor | src/app/quality/quality-dashboard/quality-dashboard.ts:17-42 | nothing loaded or searched, report-number tab, empty field, no modal, zero stats |
| QualityDashboard.QualityDashboardPage.LoadDashboardStats | src/app/quality/quality-dashboard/quality-dashboard.ts:54-58 | loading starts and the first page of 100 is requested |
| QualityDashboard.QualityDashboardPage.ProcessBackendData | src/app/quality/quality-dashboard/quality-dashboard.ts:72-96 | an empty page leaves the stats alone; otherwise they are the page's statistics |
| QualityDashboard.QualityDashboardPage.OnStatsResponse | src/app/quality/quality-dashboard/quality-dashboard.ts:59-66 | loading ends; a SUCCESS with content sets the statistics |
| QualityDashboard.QualityDashboardPage.OnStatsError | src/app/quality/quality-dashboard/quality-dashboard.ts:59-69 | loading ends |
| QualityDashboard.QualityDashboardPage.OnSearchTypeChange | src/app/quality/quality-dashboard/quality-dashboard.ts:102-107 | the tab changes, the field is reset and the results are cleared |
| QualityDashboard.QualityDashboardPage.OnSearch | src/app/quality/quality-dashboard/quality-dashboard.ts:109-122 | a blank field sends nothing; otherwise the results clear, loading starts and the tab's request is sent |
| QualityDashboard.QualityDashboardPage.HandleSearchResponse | src/app/quality/quality-dashboard/quality-dashboard.ts:124-152 | the results are the sorted technician-checked samples found; the search is marked done |
| QualityDashboard.QualityDashboardPage.OnSearchError | src/app/quality/quality-dashboard/quality-dashboard.ts:154-164 | no results; the search is marked done |
| QualityDashboard.QualityDashboardPage.EditGeneralInformation | src/app/quality/quality-dashboard/quality-dashboard.ts:207-210 | the sample is selected and the edit modal opens |
| QualityDashboard.QualityDashboardPage.EditSampleResult | src/app/quality/quality-dashboard/quality-dashboard.ts:212-215 | the sample is selected and the result modal opens |
| QualityDashboard.QualityDashboardPage.ApproveQuality | src/app/quality/quality-dashboard/quality-dashboard.ts:217-220 | the sample is selected and the quality-check modal opens |
| QualityDashboard.QualityDashboardPage.CloseModal | src/app/quality/quality-dashboard/quality-dashboard.ts:222-227 | every modal closes and the selection is cleared |
| QualityDashboard.QualityDashboardPage.ConfirmQualityCheck | src/app/quality/quality-dashboard/quality-dashboard.ts:233-235 | the approval is sent exactly when a sample is selected |
| QualityDashboard.QualityDashboardPage.OnQualityCheckResponse | src/app/quality/quality-dashboard/quality-dashboard.ts:236-248 | a failure (status other than SUCCESS) changes no field and sends nothing; a success closes every modal and clears the selection, reloads the statistics (loading on, page 0 of size 100), and re-runs the search: with a blank search box the results and flags stay, otherwise the results are cleared, loading is set and the tab's request is returned |
| QualityDashboard.QualityDashboardPage.PrintReport | src/app/quality/quality-dashboard/quality-dashboard.ts:255-282 | a report opens a window only for a quality-checked sample, and is fetched only when that window opened |
| AllSamples.GetSampleStatus | src/app/sample-registar/all-samples/all-samples.ts:155-162 | approved exactly when both checks are done, under analysis exactly when one is, pending exactly when none is |
| AllSamples.StatusText | src/app/sample-registar/all-samples/all-samples.ts:246-254 | every status has a non-empty label |
| AllSamples.StatusTextInjective | src/app/sample-registar/all-samples/all-samples.ts:246-254 | no two statuses share a label |
| AllSamples.ClientFilterIsConjunction | src/app/sample-registar/all-samples/all-samples.ts:122-153 | the chain of filters is one filter by the search term, the status and the sample type together |
| AllSamples.ClientFilter | src/app/sample-registar/all-samples/all-samples.ts:122-153 | definition of the three chained filters; `ClientFilterIsConjunction` and `ClientFilterSpec` state what it keeps |
| AllSamples.ClientFilterSpec | src/app/sample-registar/all-samples/all-samples.ts:122-153 | the shown samples are a subsequence of the page, and a sample is shown exactly when it passes every criterion |
| AllSamples.DefaultFiltersKeepAll | src/app/sample-registar/all-samples/all-samples.ts:122-153 | the default filters show the whole page |
| AllSamples.ClientFilterKeepsChosen | src/app/sample-registar/all-samples/all-samples.ts:137-150 | a shown sample has the chosen status, and its description includes the chosen type |
| AllSamples.StatsPartition | src/app/sample-registar/all-samples/all-samples.ts:164-171 | pending, under analysis and approved count the page's samples by status and add up to the page size; the total is the backend's total |
| AllSamples.PageNumbers | src/app/sample-registar/all-samples/all-samples.ts:202-222 | up to seven pages are all listed; more give a seven-slot window with first, last and gaps; the current page is listed whenever it is an existing page (below the page count) |
| AllSamples.IsWindow | src/app/sample-registar/all-samples/all-samples.ts:209-218 | definition of a seven-slot window: first and last page present, pages in range and increasing, each gap between two pages with a page skipped |
| AllSamples.HeadWindow | src/app/sample-registar/all-samples/all-samples.ts:212-213 | near the start the window is the first five pages, a gap and the last page |
| AllSamples.TailWindow | src/app/sample-registar/all-samples/all-samples.ts:214-215 | near the end the window is the first page, a gap and the last five pages |
| AllSamples.MiddleWindow | src/app/sample-registar/all-samples/all-samples.ts:216-217 | in the middle the window is the first page, a gap, the current page with its neighbours, a gap and the last page |
| AllSamples.AllSamplesPage.constructor | src/app/sample-registar/all-samples/all-samples.ts:32-62 | no samples, default filters, page 0 of size 10, zero stats |
| AllSamples.AllSamplesPage.LoadSamples | src/app/sample-registar/all-samples/all-samples.ts:91-101 | loading starts and the request carries the current page, its size and each date only when it is set |
| AllSamples.AllSamplesPage.OnLoadResponse | src/app/sample-registar/all-samples/all-samples.ts:103-115 | loading ends; a SUCCESS with data stores the page and its totals, then re-filters and recounts; anything else changes nothing |
| AllSamples.AllSamplesPage.OnLoadError | src/app/sample-registar/all-samples/all-samples.ts:103-118 | loading ends and nothing else changes |
| AllSamples.AllSamplesPage.ApplyClientSideFilters | src/app/sample-registar/all-samples/all-samples.ts:122-153 | the shown samples are the specified filter of the page |
| AllSamples.AllSamplesPage.CalculateStats | src/app/sample-registar/all-samples/all-samples.ts:164-171 | the stats are the page's statistics |
| AllSamples.AllSamplesPage.OnSearchTerm | src/app/sample-registar/all-samples/all-samples.ts:173-175 | the debounced term is stored, the page resets to 0 and the page is reloaded |
| AllSamples.AllSamplesPage.OnFilterChange | src/app/sample-registar/all-samples/all-samples.ts:177-180 | the page resets to 0 and the shown samples follow the filters |
| AllSamples.AllSamplesPage.OnPageSizeChange | src/app/sample-registar/all-samples/all-samples.ts:182-185 | the page resets to 0 and the page is reloaded with the new size |
| AllSamples.AllSamplesPage.GoToPage | src/app/sample-registar/all-samples/all-samples.ts:187-192 | an existing page is loaded; any other number changes nothing |
| AllSamples.AllSamplesPage.NextPage | src/app/sample-registar/all-samples/all-samples.ts:194-196 | when a next page exists, moves forward one page, sets loading and requests that page; otherwise changes nothing and requests nothing |
| AllSamples.AllSamplesPage.PreviousPage | src/app/sample-registar/all-samples/all-samples.ts:198-200 | when `0 < currentPage <= totalPages`, moves back one page, sets loading and requests that page; from the first page, or from a current page beyond the page count (after a reload shrank it), changes nothing and requests nothing |
| AllSamples.AllSamplesPage.GetPageNumbers | src/app/sample-registar/all-samples/all-samples.ts:202-222 | the window of the current pagination |
| AllSamples.AllSamplesPage.ClearFilters | src/app/sample-registar/all-samples/all-samples.ts:273-283 | the filters return to their defaults, the page to 0, and the page is reloaded with no dates |
| SampleDashboard.CheckedCount | src/app/components/sample-dashboard/sample-dashboard.ts:105-110 | the count is at most the page size, equals it exactly when every sample is checked, and is 0 exactly when none is |
| SampleDashboard.SampleDashboardPage.constructor | src/app/components/sample-dashboard/sample-dashboard.ts:17-23 | no samples, no cache, page 0 of size 10 |
| SampleDashboard.SampleDashboardPage.LoadSamples | src/app/components/sample-dashboard/sample-dashboard.ts:48-61 | loading starts and the current page is requested for the fixed day |
| SampleDashboard.SampleDashboardPage.OnLoadResponse | src/app/components/sample-dashboard/sample-dashboard.ts:64-82 | loading ends; a SUCCESS replaces the page, the cache and the totals; anything else shows the cache |
| SampleDashboard.SampleDashboardPage.OnLoadError | src/app/components/sample-dashboard/sample-dashboard.ts:64-89 | loading ends; a non-empty cache is shown, otherwise the page stays |
| SampleDashboard.SampleDashboardPage.OnPageChange | src/app/components/sample-dashboard/sample-dashboard.ts:98-103 | an existing page is loaded; any other number changes nothing |
| SampleDashboard.SampleDashboardPage.TechnicianCheckedCount | src/app/components/sample-dashboard/sample-dashboard.ts:105-107 | at most the page size, and equal to it exactly when every sample is technician-checked |
| SampleDashboard.SampleDashboardPage.QualityCheckedCount | src/app/components/sample-dashboard/sample-dashboard.ts:108-110 | at most the page size, and equal to it exactly when every sample is quality-checked |
| SampleRegistration.FieldNamed | src/app/sample-registar/sample-registration/sample-registration.ts:48-58 | a control name maps to its field, and an unknown name to none |
| SampleRegistration.FieldNamedRoundTrip | src/app/sample-registar/sample-registration/sample-registration.ts:48-58 | every field is found under its own control name |
| SampleRegistration.FieldsComplete | src/app/sample-registar/sample-registration/sample-registration.ts:48-58 | the form lists all nine fields |
| SampleRegistration.ErrorsOf | src/app/sample-registar/sample-registration/sample-registration.ts:48-58 | `required` fails only on an empty input; `minlength` fails only on a non-empty input shorter than the limit, the length counted in UTF-16 code units as Angular's validator counts it |
| SampleRegistration.ErrorsExclusive | src/app/sample-registar/sample-registration/sample-registration.ts:48-58 | a control never reports both errors at once |
| SampleRegistration.FieldRules | src/app/sample-registar/sample-registration/sample-registration.ts:48-58 | project name needs 3 characters, address 5, description 10, the two dates any non-empty value; the other four fields accept anything |
| SampleRegistration.FormValidIff | src/app/sample-registar/sample-registration/sample-registration.ts:48-65 | the form is valid exactly when the five constrained fields are filled in far enough |
| SampleRegistration.FieldLabel | src/app/sample-registar/sample-registration/sample-registration.ts:168-182 | every field has a non-empty label |
| SampleRegistration.LabelOfField | src/app/sample-registar/sample-registration/sample-registration.ts:168-182 | a known field's name gives its label |
| SampleRegistration.Label | src/app/sample-registar/sample-registration/sample-registration.ts:168-182 | definition of `labels[fieldName] || fieldName` over the nine fields; `LabelOfField` and `LabelOfUnknown` state both cases |
| SampleRegistration.LabelOfUnknown | src/app/sample-registar/sample-registration/sample-registration.ts:181 | an unknown name is its own label |
| SampleRegistration.LabelsDistinct | src/app/sample-registar/sample-registration/sample-registration.ts:168-182 | no two fields share a label |
| SampleRegistration.Decimal | src/app/sample-registar/sample-registration/sample-registration.ts:156 | the length in the message is written in decimal digits without a leading zero |
| SampleRegistration.DecimalRoundTrip | src/app/sample-registar/sample-registration/sample-registration.ts:156 | the digits in the message read back as the minimum length |
| SampleRegistration.FieldError | src/app/sample-registar/sample-registration/sample-registration.ts:148-161 | an unknown field has no message; a known field has a message exactly when it fails a validator; `required` comes first, then the minimum-length message with the length |
| SampleRegistration.FieldErrorOf | src/app/sample-registar/sample-registration/sample-registration.ts:148-161 | the message for a field is the message for its control name |
| SampleRegistration.FieldInvalid | src/app/sample-registar/sample-registration/sample-registration.ts:138-141 | definition of `isFieldInvalid`: the field exists, fails a validator, and is dirty or touched; `TouchedRevealsErrors` and `UneditedFormQuiet` state its consequences |
| SampleRegistration.AllTouched | src/app/sample-registar/sample-registration/sample-registration.ts:188-196 | definition of the controls after `markFormGroupTouched`: each marked touched, nothing else changed |
| SampleRegistration.TouchedRevealsErrors | src/app/sample-registar/sample-registration/sample-registration.ts:138-141 | after a refused submission a field shows as invalid exactly when it fails a validator |
| SampleRegistration.UneditedFormQuiet | src/app/sample-registar/sample-registration/sample-registration.ts:138-141 | a fresh or reset form cannot be submitted, yet shows no field as invalid |
| SampleRegistration.Reset | src/app/sample-registar/sample-registration/sample-registration.ts:91 | definition of `reset()`: every value `null`, every control pristine and untouched |
| SampleRegistration.FormDirty | src/app/sample-registar/sample-registration/sample-registration.ts:124 | definition of `sampleForm.dirty`: some control has been edited |
| SampleRegistration.Values | src/app/sample-registar/sample-registration/sample-registration.ts:75 | definition of `sampleForm.value`: every field under its key with its value |
| SampleRegistration.SampleRegistrationPage.constructor | src/app/sample-registar/sample-registration/sample-registration.ts:47-58 | nine empty controls and every flag cleared |
| SampleRegistration.SampleRegistrationPage.Input | src/app/sample-registar/sample-registration/sample-registration.ts:47-58 | typing changes one control's value and makes it dirty |
| SampleRegistration.SampleRegistrationPage.Blur | src/app/sample-registar/sample-registration/sample-registration.ts:47-58 | leaving a control makes it touched |
| SampleRegistration.SampleRegistrationPage.MarkFormGroupTouched | src/app/sample-registar/sample-registration/sample-registration.ts:188-197 | the loop marks every control touched and changes nothing else |
| SampleRegistration.SampleRegistrationPage.OnSubmit | src/app/sample-registar/sample-registration/sample-registration.ts:64-79 | nothing is sent exactly when the form is invalid, and then every control is touched; a valid form is sent with its values and the flags cleared |
| SampleRegistration.SampleRegistrationPage.OnSubmitResponse | src/app/sample-registar/sample-registration/sample-registration.ts:80-98 | the server's message or the default is shown and the form is reset |
| SampleRegistration.SampleRegistrationPage.OnSuccessTimeout | src/app/sample-registar/sample-registration/sample-registration.ts:94-98 | the success banner hides |
| SampleRegistration.SampleRegistrationPage.OnSubmitError | src/app/sample-registar/sample-registration/sample-registration.ts:100-105 | submission ends and the server's message or the default is shown |
| SampleRegistration.SampleRegistrationPage.OnReset | src/app/sample-registar/sample-registration/sample-registration.ts:112-118 | the form is reset and every message and flag is cleared |
| SampleRegistration.SampleRegistrationPage.OnCancel | src/app/sample-registar/sample-registration/sample-registration.ts:123-131 | leaving is immediate for an unedited form, and needs confirmation for an edited one |
| GeneralInformation.ToInfoModel | src/app/sample-registar/general-information/general-information.ts:28-38 | a row exists exactly when the input is an object with a non-blank name; the name and value are trimmed, the id is kept, and the report number falls back |
| GeneralInformation.NormaliseRoundTrip | src/app/sample-registar/general-information/general-information.ts:28-38 | normalising a normalised row gives it back, whatever the fallback |
| GeneralInformation.SavedRow | src/app/sample-registar/general-information/general-information.ts:298 | the row read from a save reply's `data`: that of a single object as `toInfoModel` gives it; `null`, a primitive, an array or a page gives none |
| GeneralInformation.ToRaw | src/app/sample-registar/general-information/general-information.ts:325 | definition of the object a stored row is sent back as; `NormaliseRoundTrip` is stated over it |
| GeneralInformation.LoadedRows | src/app/sample-registar/general-information/general-information.ts:164-166 | the loaded rows are normalised rows with an id, at most one per input |
| GeneralInformation.LoadedRowsMembers | src/app/sample-registar/general-information/general-information.ts:164-166 | a row is loaded exactly when it normalises from some input and has an id |
| GeneralInformation.RemoveAt | src/app/sample-registar/general-information/general-information.ts:345-361 | `splice(index, 1)` removes the element at the index and shifts the rest; an index past the end removes nothing |
| GeneralInformation.Present | src/app/sample-registar/general-information/general-information.ts:163-166 | a loaded list holds every element at its own position, with no hole |
| GeneralInformation.Assign | src/app/sample-registar/general-information/general-information.ts:335-336 | `a[index] = x` then `[...a]`: inside the array only that position changes; past the end the array grows to `index + 1`, `x` last and `undefined` between |
| GeneralInformation.RemoveAtMultiset | src/app/sample-registar/general-information/general-information.ts:345-361 | removal takes away exactly that one element |
| GeneralInformation.WithValue | src/app/sample-registar/general-information/general-information.ts:300 | an empty saved value falls back to the one sent, and nothing else changes |
| GeneralInformation.CompareById | src/app/sample-registar/general-information/general-information.ts:467 | two selections match exactly when both are empty or both have the same id |
| GeneralInformation.CompareByIdEquivalence | src/app/sample-registar/general-information/general-information.ts:467 | the match is reflexive, symmetric and transitive |
| GeneralInformation.ListOf | src/app/sample-registar/general-information/general-information.ts:387 | a bare array is the list; an envelope gives its data or nothing |
| GeneralInformation.DeleteOk | src/app/sample-registar/general-information/general-information.ts:357-358 | definition of a successful delete reply: `null`, a SUCCESS envelope, or a non-empty string |
| GeneralInformation.ParameterValue | src/app/sample-registar/general-information/general-information.ts:374 | definition of `param?.values ?? param?.defaultValues ?? ''` |
| GeneralInformation.DescriptionOf | src/app/sample-registar/general-information/general-information.ts:236 | definition of `sample?.sampleDescription ?? ''`, which is `''` for a sample kept as an array, page or primitive |
| GeneralInformation.AutoFillEntry | src/app/sample-registar/general-information/general-information.ts:232-237 | definition of the row auto-fill saves for one test parameter |
| GeneralInformation.UpdatedRecord | src/app/sample-registar/general-information/general-information.ts:518-519 | `res?.data ?? res` kept when its `name` is defined: no body gives nothing; a present `data` decides, otherwise the reply itself |
| GeneralInformation.UpdatedRecordEnvelope | src/app/sample-registar/general-information/general-information.ts:518-519 | a present `data` decides whatever the reply itself holds, and a bare record and a wrapped one are read alike |
| GeneralInformation.GeneralInformationPage.constructor | src/app/sample-registar/general-information/general-information.ts:54-89 | every list empty, nothing selected or loading, no message |
| GeneralInformation.GeneralInformationPage.ShowMessage | src/app/sample-registar/general-information/general-information.ts:547-550 | the message and its kind are shown |
| GeneralInformation.GeneralInformationPage.OnRouteParams | src/app/sample-registar/general-information/general-information.ts:101-116 | the route's report number is stored in the form; a missing one shows an error, otherwise the master categories start loading |
| GeneralInformation.GeneralInformationPage.OnSampleLoaded | src/app/sample-registar/general-information/general-information.ts:125-137 | a SUCCESS with truthy `data` (an object, any array including `[]`, a page, a truthy primitive) is kept as the sample and its rows start loading; its test parameters and chosen results load exactly when it has a description, so never for a non-object; any other reply changes nothing but shows "Sample not found" |
| GeneralInformation.GeneralInformationPage.OnSampleLoadError | src/app/sample-registar/general-information/general-information.ts:138-141 | "Failed to load sample" is shown |
| GeneralInformation.GeneralInformationPage.OnTestParametersLoaded | src/app/sample-registar/general-information/general-information.ts:190-197 | loading ends, and a SUCCESS with an array replaces the test parameters |
| GeneralInformation.GeneralInformationPage.OnTestParametersError | src/app/sample-registar/general-information/general-information.ts:210-213 | a failed template load ends the loading and changes nothing else |
| GeneralInformation.GeneralInformationPage.AutoFillDue | src/app/sample-registar/general-information/general-information.ts:200-207 | auto-fill runs exactly when no rows are saved and there are test parameters |
| GeneralInformation.GeneralInformationPage.AutoFillFromTestParameters | src/app/sample-registar/general-information/general-information.ts:222-238 | one entry per test parameter, with its name, its value or default, the report and the sample's description |
| GeneralInformation.GeneralInformationPage.LoadInfoByReport | src/app/sample-registar/general-information/general-information.ts:151-154 | an empty report loads nothing; otherwise the rows clear and loading starts |
| GeneralInformation.GeneralInformationPage.OnInfoLoaded | src/app/sample-registar/general-information/general-information.ts:159-170 | loading ends, and a SUCCESS with an array sets the rows that normalise and have an id |
| GeneralInformation.GeneralInformationPage.OnInfoLoadError | src/app/sample-registar/general-information/general-information.ts:171-174 | loading ends |
| GeneralInformation.GeneralInformationPage.OnReloaded | src/app/sample-registar/general-information/general-information.ts:261-271 | auto-fill ends, and a SUCCESS sets the loaded rows and announces the auto-fill |
| GeneralInformation.GeneralInformationPage.OnReloadError | src/app/sample-registar/general-information/general-information.ts:272-276 | auto-fill ends and the reload failure is shown |
| GeneralInformation.GeneralInformationPage.AddInformation | src/app/sample-registar/general-information/general-information.ts:280-291 | a blank name or value is refused with a message; otherwise the payload for the current report is sent |
| GeneralInformation.GeneralInformationPage.OnAddResponse | src/app/sample-registar/general-information/general-information.ts:296-310 | a SUCCESS appends `SavedRow` of the reply's own `data` (its value falling back to the one sent) when it normalises, and nothing when `data` is `null` or not a single object, and resets the form; a failure shows the server's message or the default |
| GeneralInformation.GeneralInformationPage.OnAddError | src/app/sample-registar/general-information/general-information.ts:310 | a failed add shows "Failed to add information" and keeps the list and the form |
| GeneralInformation.GeneralInformationPage.UpdateInformation | src/app/sample-registar/general-information/general-information.ts:314-325 | sent exactly when name and value are non-blank and the row has an id; each refusal has its own message |
| GeneralInformation.GeneralInformationPage.OnUpdateResponse | src/app/sample-registar/general-information/general-information.ts:328-341 | on SUCCESS with a reply whose `data` normalises (`SavedRow`), the position the request was sent for receives the normalised row (its value falling back to the one sent), through `Assign`, so a list shortened meanwhile grows with `undefined` holes; otherwise the list is unchanged; the message is "Updated ✓" or `message ?? 'Update failed'`; every remaining row keeps a trimmed non-empty name |
| GeneralInformation.GeneralInformationPage.OnUpdateError | src/app/sample-registar/general-information/general-information.ts:341 | a failed update shows "Update failed" and keeps the list |
| GeneralInformation.GeneralInformationPage.RemoveInformation | src/app/sample-registar/general-information/general-information.ts:345-353 | a row without an id is removed at once; a saved row is deleted only after confirmation |
| GeneralInformation.GeneralInformationPage.OnDeleteResponse | src/app/sample-registar/general-information/general-information.ts:356-366 | an accepted reply removes the row; otherwise the server's message or the default |
| GeneralInformation.GeneralInformationPage.OnDeleteError | src/app/sample-registar/general-information/general-information.ts:367 | a failed delete shows "Delete failed" and keeps the row |
| GeneralInformation.GeneralInformationPage.OnParameterSelect | src/app/sample-registar/general-information/general-information.ts:371-376 | the parameter is selected and the form takes its name and value, or blanks for none |
| GeneralInformation.GeneralInformationPage.OnMasterCategoryChange | src/app/sample-registar/general-information/general-information.ts:397-402 | the lower levels clear, and the subcategories of a chosen category start loading |
| GeneralInformation.GeneralInformationPage.OnSubCategoryChange | src/app/sample-registar/general-information/general-information.ts:421-426 | the lower levels clear, and the groups of a chosen subcategory start loading |
| GeneralInformation.GeneralInformationPage.OnParameterGroupChange | src/app/sample-registar/general-information/general-information.ts:445-449 | the result parameters clear, and those of a chosen group start loading |
| GeneralInformation.GeneralInformationPage.LoadMasterCategories | src/app/sample-registar/general-information/general-information.ts:380-381 | loading starts |
| GeneralInformation.GeneralInformationPage.LoadSubCategories | src/app/sample-registar/general-information/general-information.ts:404-406 | loading starts for that category |
| GeneralInformation.GeneralInformationPage.LoadParameterGroups | src/app/sample-registar/general-information/general-information.ts:428-430 | loading starts for that subcategory |
| GeneralInformation.GeneralInformationPage.LoadResultParameters | src/app/sample-registar/general-information/general-information.ts:451-453 | loading starts for that group |
| GeneralInformation.GeneralInformationPage.OnMasterCategoriesLoaded | src/app/sample-registar/general-information/general-information.ts:385-388 | loading ends and the list is read from the reply |
| GeneralInformation.GeneralInformationPage.OnMasterCategoriesError | src/app/sample-registar/general-information/general-information.ts:389-393 | loading ends and the failure is shown |
| GeneralInformation.GeneralInformationPage.OnSubCategoriesLoaded | src/app/sample-registar/general-information/general-information.ts:409-412 | loading ends and the list is read from the reply |
| GeneralInformation.GeneralInformationPage.OnSubCategoriesError | src/app/sample-registar/general-information/general-information.ts:413-417 | loading ends and the failure is shown |
| GeneralInformation.GeneralInformationPage.OnParameterGroupsLoaded | src/app/sample-registar/general-information/general-information.ts:433-436 | loading ends and the list is read from the reply |
| GeneralInformation.GeneralInformationPage.OnParameterGroupsError | src/app/sample-registar/general-information/general-information.ts:437-441 | loading ends and the failure is shown |
| GeneralInformation.GeneralInformationPage.OnResultParametersLoaded | src/app/sample-registar/general-information/general-information.ts:456-459 | loading ends and the list is read from the reply |
| GeneralInformation.GeneralInformationPage.OnResultParametersError | src/app/sample-registar/general-information/general-information.ts:460-463 | loading ends |
| GeneralInformation.GeneralInformationPage.OnSampleResultsLoaded | src/app/sample-registar/general-information/general-information.ts:478-483 | loading ends, and a SUCCESS replaces the chosen results |
| GeneralInformation.GeneralInformationPage.OnSampleResultsError | src/app/sample-registar/general-information/general-information.ts:484-488 | a failed load ends the loading, keeps the list and shows "Failed to load selected parameters" |
| GeneralInformation.GeneralInformationPage.UpdateSampleResult | src/app/sample-registar/general-information/general-information.ts:510-514 | sent exactly when the name is non-blank and the record has an id; each refusal has its own message |
| GeneralInformation.GeneralInformationPage.OnSampleResultUpdated | src/app/sample-registar/general-information/general-information.ts:515-524 | a reply whose `res?.data ?? res` has a name puts that record at the position the request was sent for, through `Assign` (past the end when the list has shrunk); any other reply keeps the list; "Updated ✓" either way |
| GeneralInformation.GeneralInformationPage.OnSampleResultUpdateError | src/app/sample-registar/general-information/general-information.ts:525 | a failed result update shows "Update failed" and keeps the list |
| GeneralInformation.GeneralInformationPage.DeleteSampleResult | src/app/sample-registar/general-information/general-information.ts:529-533 | a record without an id is refused; otherwise it is deleted only after confirmation |
| GeneralInformation.GeneralInformationPage.OnSampleResultDeleted | src/app/sample-registar/general-information/general-information.ts:536-540 | the entry is spliced out and "Removed ✓" is shown |
| GeneralInformation.GeneralInformationPage.OnSampleResultDeleteError | src/app/sample-registar/general-information/general-information.ts:541 | a failed result delete shows "Delete failed" and keeps the record |
| QualityLogin.Precheck | src/app/components/quality-login/quality-login.ts:41-60 | the checks in order: both fields filled, trimmed username of at least 3, password of at least 6, lengths in UTF-16 code units as `.length` counts them; it passes exactly when all hold |
| QualityLogin.PrecheckPassedNotBlank | src/app/components/quality-login/quality-login.ts:46-55 | credentials that pass have a non-blank username and a password |
| QualityLogin.ErrorMessage | src/app/components/quality-login/quality-login.ts:101-117 | a fixed message for 401, 403, 500 and 0; any other status shows the server's message or the default |
| QualityLogin.ReplyMessage | src/app/components/quality-login/quality-login.ts:73-99 | a SUCCESS without a token gives the token message; any other refused reply gives the server's message or the default |
| QualityLogin.Accepted | src/app/components/quality-login/quality-login.ts:73-77 | definition of a reply that lets the officer in: SUCCESS, code `'0'` and a token |
| QualityLogin.QualityLoginForm.constructor | src/app/components/quality-login/quality-login.ts:16-23 | empty fields, no error, password hidden, not loading |
| QualityLogin.QualityLoginForm.TogglePasswordVisibility | src/app/components/quality-login/quality-login.ts:31-38 | visibility flips and the input type follows it |
| QualityLogin.QualityLoginForm.Login | src/app/components/quality-login/quality-login.ts:41-63 | the request is sent exactly when the checks pass; otherwise the first failing check's message is shown |
| QualityLogin.QualityLoginForm.OnLoginResponse | src/app/components/quality-login/quality-login.ts:69-100 | loading ends; the dashboard opens exactly for a SUCCESS with code 0 and a token; otherwise the reply's message is shown |
| QualityLogin.QualityLoginForm.OnLoginError | src/app/components/quality-login/quality-login.ts:101-117 | loading ends and the status's message is shown |
| QualityLogin.QualityLoginForm.OnInputChange | src/app/components/quality-login/quality-login.ts:141-145 | typing clears the error |
| Drawer.InitialMenu | src/app/sample-registar/drawer-component/drawer-component.ts:21-32 | the menu has ten entries |
| Drawer.InitialMenuActive | src/app/sample-registar/drawer-component/drawer-component.ts:21-32 | the dashboard entry is the only one highlighted at first |
| Drawer.OnlyActiveUnique | src/app/sample-registar/drawer-component/drawer-component.ts:50-54 | at most one entry can be the only highlighted one |
| Drawer.DrawerComponent.constructor | src/app/sample-registar/drawer-component/drawer-component.ts:19-39 | the drawer subscribes to the shared flag and is open exactly when the sidebar is not collapsed |
| Drawer.DrawerComponent.OnCollapsed | src/app/sample-registar/drawer-component/drawer-component.ts:36-38 | each emission sets the drawer open exactly when not collapsed |
| Drawer.DrawerComponent.ToggleDrawer | src/app/sample-registar/drawer-component/drawer-component.ts:41-43 | the shared flag flips and the drawer follows it |
| Drawer.DrawerComponent.CloseDrawer | src/app/sample-registar/drawer-component/drawer-component.ts:45-48 | the drawer closes and the sidebar is collapsed |
| Drawer.DrawerComponent.OnMenuItemClick | src/app/sample-registar/drawer-component/drawer-component.ts:50-54 | only the clicked entry is highlighted, the other entry fields are unchanged, and the drawer closes |
| UiState.UiStateService.constructor | src/app/services/ui-state-service.ts:9 | the sidebar starts expanded |
| UiState.UiStateService.Next | src/app/services/ui-state-service.ts:9-13 | an emission sets the current value |
| UiState.UiStateService.ToggleSidebar | src/app/services/ui-state-service.ts:11-13 | the flag flips |
| UiState.UiStateService.ToggleTwice | src/app/services/ui-state-service.ts:11-13 | toggling twice restores the flag |

## Left out

- Browser storage: `localStorage`, the user profile and `logout`/`clearAndRedirect` on every dashboard are left out. The analyst name the job cards load with (`getAnalystName`) is a parameter of `JobCard.JobCard.BeginLoad`.
- RxJS: the observables, `takeUntil`, `switchMap`/`forkJoin` and `finalize` are not modelled as such. Each HTTP call is a method returning its request, and each callback is a method taking the reply. `finalize` is folded into both callbacks.
- The 500 ms debounce and `distinctUntilChanged` on the all-samples search are left out: `OnSearchTerm` is the emission after them. The 30-second auto-refresh of the sample dashboard is left out: each tick is a call of `LoadSamples`.
- Timers: `setTimeout` is modelled as an explicit later call: `OnSuccessTimeout`, and `AutoFillDue` for the 500 ms auto-fill delay. The 3-second clearing of the general-information message is left out.
- Dates: `new Date(...).getTime()` becomes an `int` timestamp, and an unparsable date (`NaN`, which makes the sort comparator inconsistent) is not modelled. "Updated today" (`toDateString()` against the clock) is a parameter `isToday`. `formatDate` and `getTodayDate` read the clock and the locale, so they are left out.
- Printing: `printJobCard`, `generatePrintableReport` and `generateBasicReport` build HTML for a print window, so they are left out. `QualityDashboard.QualityDashboardPage.PrintReport` models only the two guards, with the window's opening as a parameter.
- DOM and dialogs: `alert` is not modelled. `confirm` is a boolean parameter (`RemoveInformation`, `DeleteSampleResult`, `OnCancel`). `document.querySelector` is modelled only as the input type `TogglePasswordVisibility` returns. Navigation (`router.navigate`, `navigateTo`, `goBack`, `editSample`, `addNewSample`, `viewSample`, `registerNewSample`) becomes a returned flag, or is left out where nothing decides it.
- `exportToExcel` only logs, and the three social-login placeholders only set a fixed message, so they are left out. Console logging is left out throughout.
- Job-card view helpers `statusLabel`, `statusIcon`, `trackByReport` and `trackById` are left out. So are the job card's drawer flag, active route and search tab: they are plain assignments that no other member reads.
- `selectResultParameter` on the general-information screen is left out: it builds a request from a result parameter and then reloads the list, which `OnSampleResultsLoaded` models.
- `GeneralInformation.GeneralInformationPage.AutoFillFromTestParameters`: the completion counter (`++completed === total`) is not modelled. The reload is the separate callback `OnReloaded`, and the per-entry error path that ends auto-fill early is left out.
- `GeneralInformation.GeneralInformationPage.OnSampleResultsLoaded` reads the reply's data through `Normalise`. The code stores `res.data ?? []` as it is, so a page or single object would be stored unwrapped; the model does not capture that ill-typed case.
- The general-information lists hold `undefined` holes (`None`) after an update reply is written past the end of a list that shrank in the meantime. What the template then does with such a row (reading a field of `undefined`) is not modelled.
- `GeneralInformation.UpdatedRecord` treats a reply whose `name` is `null` as having no record; the code writes it, since `null !== undefined`. The model's records always carry a string name.
- `GeneralInformation.ToInfoModel` keeps `id` as given. `Number(raw.id)` on a non-numeric id (which yields `NaN`) is not modelled.
- `SampleRegistration.Label` looks a name up among the nine fields. The code indexes a plain object, so a name such as `constructor` would reach `Object.prototype`; that is not modelled.
- Sample registration: `Input` and `Blur` stand for Angular's own form behaviour (typing makes a control dirty, leaving it makes it touched). The form has no nested groups, so the recursive step of `markFormGroupTouched` never runs and is left out.
- Strings: `toLowerCase` is modelled on ASCII letters only; other letters keep their case. `trim` removes the ECMAScript white space and line terminators listed in `Text.IsWhite`. Lengths are counted in UTF-16 code units (`Text.Utf16Length`), as `.length` and Angular's `minLength` count them. Numbers are unbounded integers.
- The services (`*-service.ts`) and the HTTP layer are not part of this model, except `getJobCardStatus` and the reply shapes.

Behaviours of the code that a reader might not expect, which the model keeps as written:

- The job-card sample number is patched from the FIRST card with the group's report number (`find`), not from any enriched card.
- The default lab name differs: `'EPA Labs Private Limited'` in the enrichment and `'EPA Labs Private Limited '` (with a trailing space) in the group header. Both are kept as written.
- Two tests are JavaScript truthiness, not white-space checks: job-card report numbers (`filter(Boolean)`, `JobCardEnrich.NonEmpty`) and the login's first check of username and password refuse `''` but let `'  '` through. Every other "non-blank" test in this model trims first, as the code does, so `'  '` is refused there.
- Job-card data that is not an array is reported through the error message of the reply, and no separate invalid-input error is raised.
- The technician dashboard's `sentBackToAnalyst` counts samples that are forwarded to the technician and also not forwarded, which is always 0. `TechnicianDashboard.StatsOf` states this.
