/** The sample registrar's general-information screen: free-form
    name/value rows saved per report number, a cascade of category
    dropdowns, and the list of result parameters chosen for the sample's
    description. */
module GeneralInformation {
  import opened Api
  import opened Text
  import opened Samples

  /** A row as the backend returns it, before normalisation: anything that
      is not an object, or an object whose fields may be missing. */
  datatype Raw =
    | NonObject
    | Object(id: Option<int>, name: Option<string>, parameterName: Option<string>,
             value: Option<string>, reportNumber: Option<string>, sampleDescription: Option<string>)

  /** `GeneralInformationModel`: a normalised row; `id` is present once the
      row is stored. */
  datatype Info = Info(id: Option<int>, name: string, value: string, reportNumber: string, sampleDescription: Option<string>)

  datatype TestParameter = TestParameter(id: int, parameterName: string, values: Option<string>, defaultValues: Option<string>)

  /** A master category, subcategory or parameter group: the dropdowns only
      use the id and the name. */
  datatype Category = Category(id: int, name: string)

  datatype ResultParameter = ResultParameter(id: int, parameterName: string)

  datatype SampleResult = SampleResult(id: Option<int>, name: string, result: string)

  datatype MessageType = NoMessage | Success | Error

  /** A category list reply: a bare array, an envelope whose `data` may be
      missing, or nothing usable. */
  datatype ListReply<T> = Bare(items: seq<T>) | Enveloped(data: Option<seq<T>>) | NoBody

  /** The reply to a delete: `null`, an envelope, or a plain string. */
  datatype DeleteReply = NullReply | StatusReply(status: Status, message: Option<string>) | TextReply(text: string)

  /** An object in a result-update reply, as `x?.name !== undefined` sees
      it: a record with a name, or anything without one. */
  datatype ResultObject = Named(record: SampleResult) | Unnamed

  /** The reply to a result update: no body, or a body whose `data` may be
      missing and which may itself be the record. */
  datatype ResultReply = NoResultBody | ResultBody(data: Option<ResultObject>, self: ResultObject)

  /** `const updated = res?.data ?? res`, kept when `updated?.name !== undefined`. */
  function UpdatedRecord(reply: ResultReply): (r: Option<SampleResult>)
    ensures reply.NoResultBody? ==> r.None?
    ensures reply.ResultBody? && reply.data.Some? ==>
      (r.Some? <==> reply.data.value.Named?) && (r.Some? ==> r.value == reply.data.value.record)
    ensures reply.ResultBody? && reply.data.None? ==>
      (r.Some? <==> reply.self.Named?) && (r.Some? ==> r.value == reply.self.record)
  {
    match reply
    case NoResultBody => None
    case ResultBody(data, self) =>
      var o := Coalesce(data, self);
      if o.Named? then Some(o.record) else None
  }

  /** A present `data` decides alone; a bare record and a wrapped one are
      read alike. */
  lemma UpdatedRecordEnvelope(o: ResultObject, self: ResultObject, x: SampleResult)
    ensures UpdatedRecord(ResultBody(Some(o), self)) == UpdatedRecord(ResultBody(Some(o), Unnamed))
    ensures UpdatedRecord(ResultBody(None, Named(x))) == UpdatedRecord(ResultBody(Some(Named(x)), Unnamed)) == Some(x)
  {
  }

  /** `raw.name ?? raw.parameterName ?? ''` */
  function RawName(raw: Raw): string
    requires raw.Object?
  {
    Coalesce(raw.name, Coalesce(raw.parameterName, ""))
  }

  /** A row fit for display: its name is trimmed and not empty. */
  predicate IsRow(m: Info) {
    m.name != [] && Trim(m.name) == m.name
  }

  /** `toInfoModel`: rejects non-objects and rows without a name; otherwise
      trims the name and the value and falls back to the given report
      number. */
  function ToInfoModel(raw: Raw, fallbackReport: string): (r: Option<Info>)
    ensures r.None? <==> raw.NonObject? || Trim(RawName(raw)) == []
    ensures r.Some? ==> IsRow(r.value) && Trim(r.value.value) == r.value.value
    ensures r.Some? ==> r.value.name == Trim(RawName(raw)) && r.value.id == raw.id
    ensures r.Some? ==> r.value.value == (if raw.value.Some? then Trim(raw.value.value) else "")
    ensures r.Some? ==> r.value.reportNumber == Coalesce(raw.reportNumber, fallbackReport)
  {
    if raw.NonObject? then None
    else
      var name := Trim(RawName(raw));
      if name == [] then None
      else
        TrimIdempotent(RawName(raw));
        TrimIdempotent(if raw.value.Some? then raw.value.value else "");
        Some(Info(raw.id, name,
          if raw.value.Some? then Trim(raw.value.value) else "",
          Coalesce(raw.reportNumber, fallbackReport),
          Some(Coalesce(raw.sampleDescription, ""))))
  }

  /** `toInfoModel(res.data, report)` for the data of a save reply: only a
      single object can carry a name, so `null`, a primitive, an array and a
      page object all give no row. */
  function SavedRow(data: Payload<Raw>, report: string): (r: Option<Info>)
    ensures data.Single? ==> r == ToInfoModel(data.item, report)
    ensures r.Some? ==> data.Single? && data.item.Object? && IsRow(r.value)
  {
    if data.Single? then ToInfoModel(data.item, report) else None
  }

  /** The object a stored row is sent back as. */
  function ToRaw(m: Info): Raw {
    Object(m.id, Some(m.name), None, Some(m.value), Some(m.reportNumber), m.sampleDescription)
  }

  /** Normalising a row the normaliser produced gives the same row back,
      whatever the fallback report number. */
  lemma NormaliseRoundTrip(raw: Raw, fallback: string, otherFallback: string)
    requires ToInfoModel(raw, fallback).Some?
    ensures ToInfoModel(ToRaw(ToInfoModel(raw, fallback).value), otherFallback) == ToInfoModel(raw, fallback)
  {
    var m := ToInfoModel(raw, fallback).value;
    assert RawName(ToRaw(m)) == m.name;
  }

  /** The rows kept after a load: normalised, and only those with an id. */
  function LoadedRows(raws: seq<Raw>, report: string): (r: seq<Info>)
    ensures |r| <= |raws|
    ensures forall i :: 0 <= i < |r| ==> IsRow(r[i]) && r[i].id.Some?
  {
    if raws == [] then []
    else
      var m := ToInfoModel(raws[0], report);
      (if m.Some? && m.value.id.Some? then [m.value] else []) + LoadedRows(raws[1..], report)
  }

  /** A row is kept exactly when some raw entry normalises to it and it has
      an id. */
  lemma {:induction false} LoadedRowsMembers(raws: seq<Raw>, report: string, m: Info)
    ensures m in LoadedRows(raws, report) <==>
      m.id.Some? && exists i :: 0 <= i < |raws| && ToInfoModel(raws[i], report) == Some(m)
  {
    if raws != [] {
      LoadedRowsMembers(raws[1..], report, m);
      if m.id.Some? && ToInfoModel(raws[0], report) != Some(m) &&
         (exists i :: 0 <= i < |raws| && ToInfoModel(raws[i], report) == Some(m)) {
        var i :| 0 <= i < |raws| && ToInfoModel(raws[i], report) == Some(m);
        assert raws[1..][i - 1] == raws[i];
      }
    }
  }

  /** `splice(index, 1)`: removes the element at `index`, or nothing when
      there is none. */
  function RemoveAt<T>(s: seq<T>, index: nat): (r: seq<T>)
    ensures index < |s| ==> |r| == |s| - 1
    ensures index >= |s| ==> r == s
    ensures forall j :: 0 <= j < index && j < |r| ==> r[j] == s[j]
    ensures forall j :: index <= j < |r| ==> r[j] == s[j + 1]
  {
    if index < |s| then s[..index] + s[index + 1..] else s
  }

  /** Removing loses exactly the removed element. */
  lemma RemoveAtMultiset<T>(s: seq<T>, index: nat)
    requires index < |s|
    ensures multiset(RemoveAt(s, index)) + multiset{s[index]} == multiset(s)
  {
    assert s == s[..index] + [s[index]] + s[index + 1..];
  }

  /** A list as the screen holds it after a load: every position filled. */
  function Present<T>(s: seq<T>): (r: seq<Option<T>>)
    ensures |r| == |s|
    ensures forall i :: 0 <= i < |s| ==> r[i] == Some(s[i])
  {
    seq(|s|, i requires 0 <= i < |s| => Some(s[i]))
  }

  /** `a[index] = x` on a JavaScript array, then the copy `[...a]`: inside
      the array one position changes; past the end the array grows to
      `index + 1`, and the positions skipped over read as `undefined`
      (`None`). */
  function Assign<T>(s: seq<Option<T>>, index: nat, x: T): (r: seq<Option<T>>)
    ensures |r| == if index < |s| then |s| else index + 1
    ensures r[index] == Some(x)
    ensures forall j :: 0 <= j < |s| && j != index ==> r[j] == s[j]
    ensures forall j :: |s| <= j < index ==> r[j].None?
  {
    if index < |s| then s[index := Some(x)] else s + seq(index - |s|, _ => None) + [Some(x)]
  }

  /** `updated.value || fallback` for a row just normalised. */
  function WithValue(m: Info, fallback: string): (r: Info)
    ensures r.value == (if m.value == [] then fallback else m.value)
    ensures r.(value := m.value) == m
  {
    if m.value == [] then m.(value := fallback) else m
  }

  /** `compareById`: two selections are the same when both are present with
      the same id, or both are absent. */
  function CompareById(a: Option<Category>, b: Option<Category>): (r: bool)
    ensures r <==> (a.None? && b.None?) || (a.Some? && b.Some? && a.value.id == b.value.id)
  {
    if a.Some? && b.Some? then a.value.id == b.value.id else a == b
  }

  /** `compareById` is an equivalence, as the dropdown binding needs. */
  lemma CompareByIdEquivalence(a: Option<Category>, b: Option<Category>, c: Option<Category>)
    ensures CompareById(a, a)
    ensures CompareById(a, b) == CompareById(b, a)
    ensures CompareById(a, b) && CompareById(b, c) ==> CompareById(a, c)
  {
  }

  /** `Array.isArray(res) ? res : (res?.data ?? [])` */
  function ListOf<T>(reply: ListReply<T>): (r: seq<T>)
    ensures reply.Bare? ==> r == reply.items
    ensures reply.Enveloped? && reply.data.Some? ==> r == reply.data.value
    ensures reply.NoBody? || (reply.Enveloped? && reply.data.None?) ==> r == []
  {
    match reply
    case Bare(items) => items
    case Enveloped(data) => Coalesce(data, [])
    case NoBody => []
  }

  /** Whether a delete reply counts as success: `null`, a SUCCESS envelope,
      or a non-empty string. */
  predicate DeleteOk(reply: DeleteReply) {
    reply.NullReply? || (reply.StatusReply? && reply.status == SUCCESS) || (reply.TextReply? && reply.text != [])
  }

  /** `param?.values ?? param?.defaultValues ?? ''` */
  function ParameterValue(param: Option<TestParameter>): string {
    if param.None? then "" else Coalesce(param.value.values, Coalesce(param.value.defaultValues, ""))
  }

  /** `sample?.sampleDescription ?? ''`: only an object has the field; an
      array, a page or a primitive kept as the sample reads as `undefined`. */
  function DescriptionOf(sample: Option<Payload<Sample>>): string {
    if sample.Some? && sample.value.Single? then Coalesce(sample.value.item.sampleDescription, "") else ""
  }

  /** The row auto-fill saves for one test parameter. */
  function AutoFillEntry(param: TestParameter, report: string, sample: Option<Payload<Sample>>): Info {
    Info(None, param.parameterName, ParameterValue(Some(param)), report, Some(DescriptionOf(sample)))
  }

  class GeneralInformationPage {
    var reportNumber: string
    /** Whatever `data` the sample reply carried; `None` is `null`. */
    var sample: Option<Payload<Sample>>
    /** The rows; `None` is an `undefined` hole left by a write past the end. */
    var informations: seq<Option<Info>>
    var isLoadingInfo: bool
    var isAutoFillingInfo: bool
    var newInfo: Info
    var selectedParameter: Option<TestParameter>
    var testParameters: seq<TestParameter>
    var isLoadingParams: bool

    var masterCategories: seq<Category>
    var subCategories: seq<Category>
    var parameterGroups: seq<Category>
    var resultParameters: seq<ResultParameter>
    var selectedMasterCategory: Option<Category>
    var selectedSubCategory: Option<Category>
    var selectedParameterGroup: Option<Category>
    var isLoadingMasterCategories: bool
    var isLoadingSubCategories: bool
    var isLoadingParameterGroups: bool
    var isLoadingResultParameters: bool

    var selectedSampleResults: seq<Option<SampleResult>>
    var isLoadingSampleResults: bool

    var uiMessage: string
    var uiMessageType: MessageType

    /** Every row on screen has a trimmed, non-empty name. */
    ghost predicate Valid()
      reads this`informations
    {
      forall i :: 0 <= i < |informations| && informations[i].Some? ==> IsRow(informations[i].value)
    }

    constructor()
      ensures Valid()
      ensures reportNumber == [] && sample.None? && informations == []
      ensures newInfo == Info(None, "", "", "", None) && selectedParameter.None?
      ensures testParameters == [] && !isLoadingParams
      ensures !isLoadingInfo && !isAutoFillingInfo
      ensures masterCategories == [] && subCategories == [] && parameterGroups == [] && resultParameters == []
      ensures selectedMasterCategory.None? && selectedSubCategory.None? && selectedParameterGroup.None?
      ensures !isLoadingMasterCategories && !isLoadingSubCategories
      ensures !isLoadingParameterGroups && !isLoadingResultParameters
      ensures selectedSampleResults == [] && !isLoadingSampleResults
      ensures uiMessage == [] && uiMessageType == NoMessage
    {
      reportNumber := "";
      sample := None;
      informations := [];
      isLoadingInfo := false;
      isAutoFillingInfo := false;
      newInfo := Info(None, "", "", "", None);
      selectedParameter := None;
      testParameters := [];
      isLoadingParams := false;
      masterCategories := [];
      subCategories := [];
      parameterGroups := [];
      resultParameters := [];
      selectedMasterCategory := None;
      selectedSubCategory := None;
      selectedParameterGroup := None;
      isLoadingMasterCategories := false;
      isLoadingSubCategories := false;
      isLoadingParameterGroups := false;
      isLoadingResultParameters := false;
      selectedSampleResults := [];
      isLoadingSampleResults := false;
      uiMessage := "";
      uiMessageType := NoMessage;
    }

    method ShowMessage(message: string, kind: MessageType)
      modifies this`uiMessage, this`uiMessageType
      ensures uiMessage == message && uiMessageType == kind
    {
      uiMessage := message;
      uiMessageType := kind;
    }

    // ---- the route and the sample ----

    /** The route's report number: without one only an error is shown;
        with one the sample and the master categories start loading. */
    method OnRouteParams(param: Option<string>) returns (proceed: bool)
      modifies this`reportNumber, this`newInfo, this`uiMessage, this`uiMessageType, this`isLoadingMasterCategories
      ensures reportNumber == Coalesce(param, "") && newInfo == old(newInfo).(reportNumber := reportNumber)
      ensures proceed <==> reportNumber != []
      ensures !proceed ==> uiMessage == "Report number missing from route" && uiMessageType == Error
      ensures !proceed ==> isLoadingMasterCategories == old(isLoadingMasterCategories)
      ensures proceed ==> isLoadingMasterCategories && uiMessage == old(uiMessage) && uiMessageType == old(uiMessageType)
    {
      reportNumber := Coalesce(param, "");
      newInfo := newInfo.(reportNumber := reportNumber);
      if reportNumber == [] {
        ShowMessage("Report number missing from route", Error);
        return false;
      }
      LoadMasterCategories();
      proceed := true;
    }

    /** The reply to `loadSample(report)`: any truthy `data` is kept as the
        sample and its rows start loading; its test parameters and its
        chosen result parameters load only when it has a description,
        which only an object can have. */
    method OnSampleLoaded(report: string, reply: Response<Sample>)
      requires Valid()
      modifies this`sample, this`isLoadingInfo, this`informations, this`isLoadingParams
      modifies this`isLoadingSampleResults, this`uiMessage, this`uiMessageType
      ensures Valid()
      ensures reply.status == SUCCESS && TruthyData(reply.data) ==>
        sample == Some(reply.data)
        && (report != [] ==> isLoadingInfo && informations == [])
        && (report == [] ==> isLoadingInfo == old(isLoadingInfo) && informations == old(informations))
        && isLoadingParams == (DescriptionOf(sample) != [] || old(isLoadingParams))
        && isLoadingSampleResults == (DescriptionOf(sample) != [] || old(isLoadingSampleResults))
        && uiMessage == old(uiMessage) && uiMessageType == old(uiMessageType)
      ensures reply.status == SUCCESS && TruthyData(reply.data) && !reply.data.Single? ==>
        isLoadingParams == old(isLoadingParams) && isLoadingSampleResults == old(isLoadingSampleResults)
      ensures !(reply.status == SUCCESS && TruthyData(reply.data)) ==>
        sample == old(sample) && isLoadingInfo == old(isLoadingInfo) && informations == old(informations)
        && isLoadingParams == old(isLoadingParams) && isLoadingSampleResults == old(isLoadingSampleResults)
        && uiMessage == "Sample not found" && uiMessageType == Error
    {
      if reply.status == SUCCESS && TruthyData(reply.data) {
        sample := Some(reply.data);
        LoadInfoByReport(report);
        if DescriptionOf(sample) != [] {
          isLoadingParams := true;
          isLoadingSampleResults := true;
        }
      } else {
        ShowMessage("Sample not found", Error);
      }
    }

    method OnSampleLoadError()
      modifies this`uiMessage, this`uiMessageType
      ensures uiMessage == "Failed to load sample" && uiMessageType == Error
    {
      ShowMessage("Failed to load sample", Error);
    }

    /** The test-parameter templates for the sample's description. */
    method OnTestParametersLoaded(reply: Response<TestParameter>)
      modifies this`testParameters, this`isLoadingParams
      ensures !isLoadingParams
      ensures reply.status == SUCCESS && reply.data.Items? ==> testParameters == reply.data.items
      ensures !(reply.status == SUCCESS && reply.data.Items?) ==> testParameters == old(testParameters)
    {
      isLoadingParams := false;
      if reply.status == SUCCESS && reply.data.Items? {
        testParameters := reply.data.items;
      }
    }

    /** A failed template load only ends the loading. */
    method OnTestParametersError()
      modifies this`isLoadingParams
      ensures !isLoadingParams
    {
      isLoadingParams := false;
    }

    /** The delayed check after the templates arrive: auto-fill runs only
        when no row is saved yet and there are templates. */
    method AutoFillDue() returns (due: bool)
      ensures due <==> informations == [] && testParameters != []
    {
      due := |informations| == 0 && |testParameters| > 0;
    }

    /** `autoFillFromTestParameters` up to the requests: one row per
        template, in template order, each with the template's name and
        value for this report and sample. */
    method AutoFillFromTestParameters() returns (entries: seq<Info>)
      modifies this`isAutoFillingInfo
      ensures |entries| == |testParameters|
      ensures forall i :: 0 <= i < |entries| ==> entries[i] == AutoFillEntry(testParameters[i], reportNumber, sample)
      ensures isAutoFillingInfo == (testParameters != [] || old(isAutoFillingInfo))
    {
      entries := [];
      if |testParameters| == 0 {
        return;
      }
      isAutoFillingInfo := true;
      for i := 0 to |testParameters|
        invariant |entries| == i
        invariant forall j :: 0 <= j < i ==> entries[j] == AutoFillEntry(testParameters[j], reportNumber, sample)
      {
        var param := testParameters[i];
        var entry := Info(None, param.parameterName,
          Coalesce(param.values, Coalesce(param.defaultValues, "")), reportNumber, Some(DescriptionOf(sample)));
        entries := entries + [entry];
      }
    }

    // ---- the name/value rows ----

    /** The synchronous part of `loadGeneralInfoByReport`: nothing for an
        empty report number, otherwise the list is emptied while loading. */
    method LoadInfoByReport(report: string)
      requires Valid()
      modifies this`isLoadingInfo, this`informations
      ensures Valid()
      ensures report == [] ==> isLoadingInfo == old(isLoadingInfo) && informations == old(informations)
      ensures report != [] ==> isLoadingInfo && informations == []
    {
      if report != [] {
        isLoadingInfo := true;
        informations := [];
      }
    }

    /** The rows loaded for `report`: a SUCCESS reply with an array replaces
        the list with its normalised rows that have an id. */
    method OnInfoLoaded(report: string, reply: Response<Raw>)
      requires Valid()
      modifies this`isLoadingInfo, this`informations
      ensures Valid()
      ensures !isLoadingInfo
      ensures reply.status == SUCCESS && reply.data.Items? ==> informations == Present(LoadedRows(reply.data.items, report))
      ensures !(reply.status == SUCCESS && reply.data.Items?) ==> informations == old(informations)
    {
      isLoadingInfo := false;
      if reply.status == SUCCESS && reply.data.Items? {
        informations := Present(LoadedRows(reply.data.items, report));
      }
    }

    method OnInfoLoadError()
      modifies this`isLoadingInfo
      ensures !isLoadingInfo
    {
      isLoadingInfo := false;
    }

    /** The reload after auto-fill: the same row filter, for the current
        report number. */
    method OnReloaded(reply: Response<Raw>)
      requires Valid()
      modifies this`isAutoFillingInfo, this`informations, this`uiMessage, this`uiMessageType
      ensures Valid()
      ensures !isAutoFillingInfo
      ensures reply.status == SUCCESS && reply.data.Items? ==>
        informations == Present(LoadedRows(reply.data.items, reportNumber)) &&
        uiMessage == "General information auto-filled ✓" && uiMessageType == Success
      ensures !(reply.status == SUCCESS && reply.data.Items?) ==>
        informations == old(informations) && uiMessage == old(uiMessage) && uiMessageType == old(uiMessageType)
    {
      isAutoFillingInfo := false;
      if reply.status == SUCCESS && reply.data.Items? {
        informations := Present(LoadedRows(reply.data.items, reportNumber));
        ShowMessage("General information auto-filled ✓", Success);
      }
    }

    method OnReloadError()
      modifies this`isAutoFillingInfo, this`uiMessage, this`uiMessageType
      ensures !isAutoFillingInfo
      ensures uiMessage == "Auto-fill saved but reload failed — please refresh" && uiMessageType == Error
    {
      isAutoFillingInfo := false;
      ShowMessage("Auto-fill saved but reload failed — please refresh", Error);
    }

    /** `addInformation` up to the request: a blank name or value is
        refused and nothing is sent; otherwise the payload for the current
        report is returned. */
    method AddInformation() returns (payload: Option<Info>)
      modifies this`uiMessage, this`uiMessageType
      ensures IsBlank(newInfo.name) || IsBlank(newInfo.value) ==>
        payload.None? && uiMessage == "Please fill all fields" && uiMessageType == Error
      ensures !IsBlank(newInfo.name) && !IsBlank(newInfo.value) ==>
        payload == Some(Info(None, newInfo.name, newInfo.value, reportNumber,
                             Some(DescriptionOf(sample))))
        && uiMessage == old(uiMessage) && uiMessageType == old(uiMessageType)
    {
      TrimEmptyIffBlank(newInfo.name);
      TrimEmptyIffBlank(newInfo.value);
      if Trim(newInfo.name) == [] || Trim(newInfo.value) == [] {
        ShowMessage("Please fill all fields", Error);
        return None;
      }
      payload := Some(Info(None, newInfo.name, newInfo.value, reportNumber,
        Some(DescriptionOf(sample))));
    }

    /** The reply to an add: on SUCCESS the saved row (its value falling back
        to the one sent) is appended when it normalises, and the form is
        reset; otherwise only a message. */
    method OnAddResponse(payload: Info, reply: Response<Raw>)
      requires Valid()
      modifies this`informations, this`newInfo, this`selectedParameter, this`uiMessage, this`uiMessageType
      ensures Valid()
      ensures reply.status == SUCCESS ==>
        (var saved := SavedRow(reply.data, reportNumber);
         informations == old(informations) + (if saved.Some? then [Some(WithValue(saved.value, payload.value))] else []))
        && newInfo == Info(None, "", "", reportNumber, None) && selectedParameter.None?
        && uiMessage == "Information added ✓" && uiMessageType == Success
      ensures reply.status != SUCCESS ==>
        informations == old(informations) && newInfo == old(newInfo) && selectedParameter == old(selectedParameter)
        && uiMessage == Coalesce(reply.message, "Failed to add") && uiMessageType == Error
    {
      if reply.status == SUCCESS {
        var saved := SavedRow(reply.data, reportNumber);
        if saved.Some? {
          informations := informations + [Some(WithValue(saved.value, payload.value))];
        }
        newInfo := Info(None, "", "", reportNumber, None);
        selectedParameter := None;
        ShowMessage("Information added ✓", Success);
      } else {
        ShowMessage(Coalesce(reply.message, "Failed to add"), Error);
      }
    }

    /** A failed add request keeps the list and the form. */
    method OnAddError()
      modifies this`uiMessage, this`uiMessageType
      ensures uiMessage == "Failed to add information" && uiMessageType == Error
    {
      ShowMessage("Failed to add information", Error);
    }

    /** `updateInformation` up to the request: refuses a blank name or value,
        then a row without an id; otherwise the row is sent as it is. */
    method UpdateInformation(info: Info) returns (send: bool)
      modifies this`uiMessage, this`uiMessageType
      ensures send <==> !IsBlank(info.name) && !IsBlank(info.value) && info.id.Some?
      ensures IsBlank(info.name) || IsBlank(info.value) ==>
        uiMessage == "Name & Value cannot be empty" && uiMessageType == Error
      ensures !IsBlank(info.name) && !IsBlank(info.value) && info.id.None? ==>
        uiMessage == "Cannot update: row has no database id" && uiMessageType == Error
      ensures send ==> uiMessage == old(uiMessage) && uiMessageType == old(uiMessageType)
    {
      TrimEmptyIffBlank(info.name);
      TrimEmptyIffBlank(info.value);
      if Trim(info.name) == [] || Trim(info.value) == [] {
        ShowMessage("Name & Value cannot be empty", Error);
        return false;
      }
      if info.id.None? {
        ShowMessage("Cannot update: row has no database id", Error);
        return false;
      }
      send := true;
    }

    /** The reply to an update of the row that was at `index` when the
        request went out: on SUCCESS that position alone receives the
        normalised reply, when it normalises. A delete or a reload in the
        meantime may have shortened the list; the write then lands past
        the end, as `Assign` describes. */
    method OnUpdateResponse(info: Info, index: nat, reply: Response<Raw>)
      requires Valid()
      modifies this`informations, this`uiMessage, this`uiMessageType
      ensures Valid()
      ensures reply.status == SUCCESS && SavedRow(reply.data, reportNumber).Some? ==>
        informations == Assign(old(informations), index, WithValue(SavedRow(reply.data, reportNumber).value, info.value))
      ensures !(reply.status == SUCCESS && SavedRow(reply.data, reportNumber).Some?) ==> informations == old(informations)
      ensures reply.status == SUCCESS ==> uiMessage == "Updated ✓" && uiMessageType == Success
      ensures reply.status != SUCCESS ==> uiMessage == Coalesce(reply.message, "Update failed") && uiMessageType == Error
    {
      if reply.status == SUCCESS {
        var updated := SavedRow(reply.data, reportNumber);
        if updated.Some? {
          informations := Assign(informations, index, WithValue(updated.value, info.value));
        }
        ShowMessage("Updated ✓", Success);
      } else {
        ShowMessage(Coalesce(reply.message, "Update failed"), Error);
      }
    }

    /** A failed update request keeps the list. */
    method OnUpdateError()
      modifies this`uiMessage, this`uiMessageType
      ensures uiMessage == "Update failed" && uiMessageType == Error
    {
      ShowMessage("Update failed", Error);
    }

    /** `removeInformation` up to the request: a row without an id is
        removed at once; a stored row is deleted only after the user
        confirms, and the id to delete is returned. */
    method RemoveInformation(info: Info, index: nat, confirmed: bool) returns (deleteId: Option<int>)
      requires Valid()
      modifies this`informations
      ensures Valid()
      ensures info.id.None? ==> informations == RemoveAt(old(informations), index) && deleteId.None?
      ensures info.id.Some? ==> informations == old(informations)
      ensures info.id.Some? ==> deleteId == (if confirmed then info.id else None)
    {
      if info.id.None? {
        informations := RemoveAt(informations, index);
        return None;
      }
      if !confirmed {
        return None;
      }
      deleteId := info.id;
    }

    /** The reply to a delete of the row at `index`. */
    method OnDeleteResponse(index: nat, reply: DeleteReply)
      requires Valid()
      modifies this`informations, this`uiMessage, this`uiMessageType
      ensures Valid()
      ensures DeleteOk(reply) ==>
        informations == RemoveAt(old(informations), index) && uiMessage == "Deleted ✓" && uiMessageType == Success
      ensures !DeleteOk(reply) ==>
        informations == old(informations) && uiMessageType == Error &&
        uiMessage == (if reply.StatusReply? then Coalesce(reply.message, "Delete failed") else "Delete failed")
    {
      if DeleteOk(reply) {
        informations := RemoveAt(informations, index);
        ShowMessage("Deleted ✓", Success);
      } else {
        ShowMessage(if reply.StatusReply? then Coalesce(reply.message, "Delete failed") else "Delete failed", Error);
      }
    }

    /** A failed delete request keeps the row. */
    method OnDeleteError()
      modifies this`uiMessage, this`uiMessageType
      ensures uiMessage == "Delete failed" && uiMessageType == Error
    {
      ShowMessage("Delete failed", Error);
    }

    /** Choosing a test parameter (or none) fills the form from it. */
    method OnParameterSelect(param: Option<TestParameter>)
      modifies this`selectedParameter, this`newInfo
      ensures selectedParameter == param
      ensures newInfo == old(newInfo).(name := if param.Some? then param.value.parameterName else "",
                                       value := ParameterValue(param), reportNumber := reportNumber)
    {
      selectedParameter := param;
      newInfo := newInfo.(name := if param.Some? then param.value.parameterName else "");
      newInfo := newInfo.(value := ParameterValue(param));
      newInfo := newInfo.(reportNumber := reportNumber);
    }

    // ---- the category cascade ----

    /** A new master category clears everything below it; a chosen one
        starts loading its subcategories, whose parent id is returned. */
    method OnMasterCategoryChange(mc: Option<Category>) returns (load: Option<int>)
      modifies this`selectedMasterCategory, this`selectedSubCategory, this`selectedParameterGroup
      modifies this`subCategories, this`parameterGroups, this`resultParameters, this`isLoadingSubCategories
      ensures selectedMasterCategory == mc && selectedSubCategory.None? && selectedParameterGroup.None?
      ensures subCategories == [] && parameterGroups == [] && resultParameters == []
      ensures isLoadingSubCategories == (mc.Some? || old(isLoadingSubCategories))
      ensures load == (if mc.Some? then Some(mc.value.id) else None)
    {
      selectedMasterCategory := mc;
      selectedSubCategory := None;
      selectedParameterGroup := None;
      subCategories := [];
      parameterGroups := [];
      resultParameters := [];
      load := None;
      if mc.Some? {
        load := LoadSubCategories(mc.value.id);
      }
    }

    /** A new subcategory clears the groups and results below it; the
        master category stays. */
    method OnSubCategoryChange(sc: Option<Category>) returns (load: Option<int>)
      modifies this`selectedSubCategory, this`selectedParameterGroup
      modifies this`parameterGroups, this`resultParameters, this`isLoadingParameterGroups
      ensures selectedSubCategory == sc && selectedParameterGroup.None?
      ensures parameterGroups == [] && resultParameters == []
      ensures isLoadingParameterGroups == (sc.Some? || old(isLoadingParameterGroups))
      ensures load == (if sc.Some? then Some(sc.value.id) else None)
    {
      selectedSubCategory := sc;
      selectedParameterGroup := None;
      parameterGroups := [];
      resultParameters := [];
      load := None;
      if sc.Some? {
        load := LoadParameterGroups(sc.value.id);
      }
    }

    /** A new parameter group clears only the result parameters. */
    method OnParameterGroupChange(pg: Option<Category>) returns (load: Option<int>)
      modifies this`selectedParameterGroup, this`resultParameters, this`isLoadingResultParameters
      ensures selectedParameterGroup == pg && resultParameters == []
      ensures isLoadingResultParameters == (pg.Some? || old(isLoadingResultParameters))
      ensures load == (if pg.Some? then Some(pg.value.id) else None)
    {
      selectedParameterGroup := pg;
      resultParameters := [];
      load := None;
      if pg.Some? {
        load := LoadResultParameters(pg.value.id);
      }
    }

    /** The synchronous part of `loadMasterCategories`. */
    method LoadMasterCategories()
      modifies this`isLoadingMasterCategories
      ensures isLoadingMasterCategories
    {
      isLoadingMasterCategories := true;
    }

    /** The synchronous part of `loadSubCategories`: the level is marked as
        loading and the parent id to request is returned. */
    method LoadSubCategories(masterCategoryId: int) returns (load: Option<int>)
      modifies this`isLoadingSubCategories
      ensures isLoadingSubCategories && load == Some(masterCategoryId)
    {
      isLoadingSubCategories := true;
      load := Some(masterCategoryId);
    }

    method LoadParameterGroups(subCategoryId: int) returns (load: Option<int>)
      modifies this`isLoadingParameterGroups
      ensures isLoadingParameterGroups && load == Some(subCategoryId)
    {
      isLoadingParameterGroups := true;
      load := Some(subCategoryId);
    }

    method LoadResultParameters(parameterGroupId: int) returns (load: Option<int>)
      modifies this`isLoadingResultParameters
      ensures isLoadingResultParameters && load == Some(parameterGroupId)
    {
      isLoadingResultParameters := true;
      load := Some(parameterGroupId);
    }

    /** Each list reply fills its own level only; no selection changes. */
    method OnMasterCategoriesLoaded(reply: ListReply<Category>)
      modifies this`isLoadingMasterCategories, this`masterCategories
      ensures !isLoadingMasterCategories && masterCategories == ListOf(reply)
    {
      isLoadingMasterCategories := false;
      masterCategories := ListOf(reply);
    }

    method OnMasterCategoriesError()
      modifies this`isLoadingMasterCategories, this`uiMessage, this`uiMessageType
      ensures !isLoadingMasterCategories
      ensures uiMessage == "Failed to load master categories" && uiMessageType == Error
    {
      isLoadingMasterCategories := false;
      ShowMessage("Failed to load master categories", Error);
    }

    method OnSubCategoriesLoaded(reply: ListReply<Category>)
      modifies this`isLoadingSubCategories, this`subCategories
      ensures !isLoadingSubCategories && subCategories == ListOf(reply)
    {
      isLoadingSubCategories := false;
      subCategories := ListOf(reply);
    }

    method OnSubCategoriesError()
      modifies this`isLoadingSubCategories, this`uiMessage, this`uiMessageType
      ensures !isLoadingSubCategories
      ensures uiMessage == "Failed to load subcategories" && uiMessageType == Error
    {
      isLoadingSubCategories := false;
      ShowMessage("Failed to load subcategories", Error);
    }

    method OnParameterGroupsLoaded(reply: ListReply<Category>)
      modifies this`isLoadingParameterGroups, this`parameterGroups
      ensures !isLoadingParameterGroups && parameterGroups == ListOf(reply)
    {
      isLoadingParameterGroups := false;
      parameterGroups := ListOf(reply);
    }

    method OnParameterGroupsError()
      modifies this`isLoadingParameterGroups, this`uiMessage, this`uiMessageType
      ensures !isLoadingParameterGroups
      ensures uiMessage == "Failed to load parameter groups" && uiMessageType == Error
    {
      isLoadingParameterGroups := false;
      ShowMessage("Failed to load parameter groups", Error);
    }

    method OnResultParametersLoaded(reply: ListReply<ResultParameter>)
      modifies this`isLoadingResultParameters, this`resultParameters
      ensures !isLoadingResultParameters && resultParameters == ListOf(reply)
    {
      isLoadingResultParameters := false;
      resultParameters := ListOf(reply);
    }

    /** A failed result-parameter load shows no message. */
    method OnResultParametersError()
      modifies this`isLoadingResultParameters
      ensures !isLoadingResultParameters
    {
      isLoadingResultParameters := false;
    }

    // ---- the chosen result parameters ----

    /** The reply listing the result parameters chosen for the sample:
        `res.data ?? []` on SUCCESS. */
    method OnSampleResultsLoaded(reply: Response<SampleResult>)
      modifies this`selectedSampleResults, this`isLoadingSampleResults
      ensures !isLoadingSampleResults
      ensures reply.status == SUCCESS ==> selectedSampleResults == Present(Normalise(reply.data))
      ensures reply.status != SUCCESS ==> selectedSampleResults == old(selectedSampleResults)
    {
      if reply.status == SUCCESS {
        selectedSampleResults := Present(Normalise(reply.data));
      }
      isLoadingSampleResults := false;
    }

    /** A failed load keeps the list, ends the loading and says so. */
    method OnSampleResultsError()
      modifies this`isLoadingSampleResults, this`uiMessage, this`uiMessageType
      ensures !isLoadingSampleResults
      ensures uiMessage == "Failed to load selected parameters" && uiMessageType == Error
    {
      isLoadingSampleResults := false;
      ShowMessage("Failed to load selected parameters", Error);
    }

    /** `updateSampleResult` up to the request: a blank name is refused,
        then a record without an id. */
    method UpdateSampleResult(r: SampleResult) returns (send: bool)
      modifies this`uiMessage, this`uiMessageType
      ensures send <==> !IsBlank(r.name) && r.id.Some?
      ensures IsBlank(r.name) ==> uiMessage == "Name cannot be empty" && uiMessageType == Error
      ensures !IsBlank(r.name) && r.id.None? ==> uiMessage == "Cannot update: record has no id" && uiMessageType == Error
      ensures send ==> uiMessage == old(uiMessage) && uiMessageType == old(uiMessageType)
    {
      TrimEmptyIffBlank(r.name);
      if Trim(r.name) == [] {
        ShowMessage("Name cannot be empty", Error);
        return false;
      }
      if r.id.None? {
        ShowMessage("Cannot update: record has no id", Error);
        return false;
      }
      send := true;
    }

    /** The reply to an update of the record that was at `index` when the
        request went out: a reply carrying a record puts it at that
        position, past the end when the list has shrunk meanwhile. */
    method OnSampleResultUpdated(index: nat, reply: ResultReply)
      modifies this`selectedSampleResults, this`uiMessage, this`uiMessageType
      ensures UpdatedRecord(reply).Some? ==>
        selectedSampleResults == Assign(old(selectedSampleResults), index, UpdatedRecord(reply).value)
      ensures UpdatedRecord(reply).None? ==> selectedSampleResults == old(selectedSampleResults)
      ensures uiMessage == "Updated ✓" && uiMessageType == Success
    {
      var updated := UpdatedRecord(reply);
      if updated.Some? {
        selectedSampleResults := Assign(selectedSampleResults, index, updated.value);
      }
      ShowMessage("Updated ✓", Success);
    }

    /** A failed result update keeps the list. */
    method OnSampleResultUpdateError()
      modifies this`uiMessage, this`uiMessageType
      ensures uiMessage == "Update failed" && uiMessageType == Error
    {
      ShowMessage("Update failed", Error);
    }

    /** `deleteSampleResult` up to the request: a record without an id is
        refused; otherwise the id is returned once the user confirms. */
    method DeleteSampleResult(r: SampleResult, confirmed: bool) returns (deleteId: Option<int>)
      modifies this`uiMessage, this`uiMessageType
      ensures deleteId == (if r.id.Some? && confirmed then r.id else None)
      ensures r.id.None? ==> uiMessage == "Invalid id" && uiMessageType == Error
      ensures r.id.Some? ==> uiMessage == old(uiMessage) && uiMessageType == old(uiMessageType)
    {
      if r.id.None? {
        ShowMessage("Invalid id", Error);
        return None;
      }
      deleteId := if confirmed then r.id else None;
    }

    /** A successful delete removes the record at `index`. */
    method OnSampleResultDeleted(index: nat)
      modifies this`selectedSampleResults, this`uiMessage, this`uiMessageType
      ensures selectedSampleResults == RemoveAt(old(selectedSampleResults), index)
      ensures uiMessage == "Removed ✓" && uiMessageType == Success
    {
      selectedSampleResults := RemoveAt(selectedSampleResults, index);
      ShowMessage("Removed ✓", Success);
    }

    /** A failed result delete keeps the record. */
    method OnSampleResultDeleteError()
      modifies this`uiMessage, this`uiMessageType
      ensures uiMessage == "Delete failed" && uiMessageType == Error
    {
      ShowMessage("Delete failed", Error);
    }
  }
}
