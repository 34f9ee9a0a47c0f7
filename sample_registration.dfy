/** The sample registration form: nine fields under Angular's `required`
    and `minLength` validators, the submit guard, the per-field error
    message and label, and the reset. */
module SampleRegistration {
  import opened Api
  import opened Text

  /** The form's nine controls. */
  datatype Field = ProjectName | Address | SampleDescription | SamplingAndAnalysisProtocol
                 | FormatNumber | PartyReferenceNumber | ReportingDate | PeriodOfAnalysis | DateOfReceiving

  /** The controls in declaration order. */
  const FIELDS: seq<Field> := [ProjectName, Address, SampleDescription, SamplingAndAnalysisProtocol,
    FormatNumber, PartyReferenceNumber, ReportingDate, PeriodOfAnalysis, DateOfReceiving]

  /** The key under which the form group holds a control. */
  function NameOf(f: Field): string {
    match f
    case ProjectName => "projectName"
    case Address => "address"
    case SampleDescription => "sampleDescription"
    case SamplingAndAnalysisProtocol => "samplingAndAnalysisProtocol"
    case FormatNumber => "formatNumber"
    case PartyReferenceNumber => "partyReferenceNumber"
    case ReportingDate => "reportingDate"
    case PeriodOfAnalysis => "periodOfAnalysis"
    case DateOfReceiving => "dateOfReceiving"
  }

  /** `sampleForm.get(name)`: the control under a key, if the form has one. */
  function FieldNamed(name: string): (r: Option<Field>)
    ensures r.Some? ==> NameOf(r.value) == name
    ensures r.None? ==> forall f :: NameOf(f) != name
  {
    if name == "projectName" then Some(ProjectName)
    else if name == "address" then Some(Address)
    else if name == "sampleDescription" then Some(SampleDescription)
    else if name == "samplingAndAnalysisProtocol" then Some(SamplingAndAnalysisProtocol)
    else if name == "formatNumber" then Some(FormatNumber)
    else if name == "partyReferenceNumber" then Some(PartyReferenceNumber)
    else if name == "reportingDate" then Some(ReportingDate)
    else if name == "periodOfAnalysis" then Some(PeriodOfAnalysis)
    else if name == "dateOfReceiving" then Some(DateOfReceiving)
    else None
  }

  /** Every control is found under its own key. */
  lemma FieldNamedRoundTrip(f: Field)
    ensures FieldNamed(NameOf(f)) == Some(f)
  {
  }

  /** The list of controls leaves none out. */
  lemma FieldsComplete(f: Field)
    ensures f in FIELDS
  {
    match f
    case ProjectName => assert FIELDS[0] == f;
    case Address => assert FIELDS[1] == f;
    case SampleDescription => assert FIELDS[2] == f;
    case SamplingAndAnalysisProtocol => assert FIELDS[3] == f;
    case FormatNumber => assert FIELDS[4] == f;
    case PartyReferenceNumber => assert FIELDS[5] == f;
    case ReportingDate => assert FIELDS[6] == f;
    case PeriodOfAnalysis => assert FIELDS[7] == f;
    case DateOfReceiving => assert FIELDS[8] == f;
  }

  const IS_REQUIRED := " is required"
  const MUST_BE_AT_LEAST := " must be at least "
  const CHARACTERS := " characters"
  const REGISTERED := "Sample registered successfully!"
  const REGISTER_FAILED := "Failed to register sample. Please try again."

  /** The validators on one control: `Validators.required` or not, and the
      length `Validators.minLength` asks for (0 when there is none, which
      no value can fall short of). */
  datatype Rule = Rule(required: bool, minLength: nat)

  /** The validators declared for each control. */
  function RuleOf(f: Field): Rule {
    match f
    case ProjectName => Rule(true, 3)
    case Address => Rule(true, 5)
    case SampleDescription => Rule(true, 10)
    case ReportingDate => Rule(true, 0)
    case DateOfReceiving => Rule(true, 0)
    case _ => Rule(false, 0)
  }

  /** A control's value: `None` is `null`, which `reset()` leaves behind. */
  datatype Control = Control(value: Option<string>, touched: bool, dirty: bool)

  /** Angular's test for an empty input: `null` or the empty string. */
  predicate EmptyInput(value: Option<string>) {
    value.None? || value.value == []
  }

  /** The `errors` object of a control: the `required` key, and the
      `minlength` key with its `requiredLength`. */
  datatype Errors = Errors(required: bool, minLength: Option<nat>)

  /** `required` fails on an empty input; `minLength` skips an empty input
      and fails on a shorter one. */
  function ErrorsOf(f: Field, value: Option<string>): (e: Errors)
    ensures e.required ==> EmptyInput(value)
    ensures e.minLength.Some? ==> !EmptyInput(value) && Utf16Length(value.value) < e.minLength.value
  {
    var rule := RuleOf(f);
    Errors(rule.required && EmptyInput(value),
           if !EmptyInput(value) && Utf16Length(value.value) < rule.minLength then Some(rule.minLength) else None)
  }

  predicate ControlValid(f: Field, value: Option<string>) {
    var e := ErrorsOf(f, value);
    !e.required && e.minLength.None?
  }

  /** A non-empty value of at least `n` characters. */
  predicate AtLeast(value: Option<string>, n: nat) {
    value.Some? && value.value != [] && Utf16Length(value.value) >= n
  }

  /** A control never reports both errors at once. */
  lemma ErrorsExclusive(f: Field, value: Option<string>)
    ensures !(ErrorsOf(f, value).required && ErrorsOf(f, value).minLength.Some?)
  {
  }

  /** The field rules: what each control accepts. */
  lemma FieldRules(value: Option<string>)
    ensures ControlValid(ProjectName, value) <==> AtLeast(value, 3)
    ensures ControlValid(Address, value) <==> AtLeast(value, 5)
    ensures ControlValid(SampleDescription, value) <==> AtLeast(value, 10)
    ensures ControlValid(ReportingDate, value) <==> AtLeast(value, 1)
    ensures ControlValid(DateOfReceiving, value) <==> AtLeast(value, 1)
    ensures ControlValid(SamplingAndAnalysisProtocol, value) && ControlValid(FormatNumber, value) &&
            ControlValid(PartyReferenceNumber, value) && ControlValid(PeriodOfAnalysis, value)
  {
  }

  /** The controls hold all nine fields. */
  predicate HasFields(controls: map<Field, Control>) {
    forall f: Field :: f in controls
  }

  /** `sampleForm.invalid` is false: every control passes its validators. */
  predicate FormValid(controls: map<Field, Control>) {
    forall f :: f in controls ==> ControlValid(f, controls[f].value)
  }

  /** The form is valid exactly when the five constrained fields are filled
      in far enough; the other four never stop a submission. */
  lemma FormValidIff(controls: map<Field, Control>)
    requires HasFields(controls)
    ensures FormValid(controls) <==>
      AtLeast(controls[ProjectName].value, 3) && AtLeast(controls[Address].value, 5) &&
      AtLeast(controls[SampleDescription].value, 10) && AtLeast(controls[ReportingDate].value, 1) &&
      AtLeast(controls[DateOfReceiving].value, 1)
  {
    forall f | f in controls ensures ControlValid(f, controls[f].value) <==>
      (f == ProjectName ==> AtLeast(controls[f].value, 3)) && (f == Address ==> AtLeast(controls[f].value, 5)) &&
      (f == SampleDescription ==> AtLeast(controls[f].value, 10)) &&
      (f == ReportingDate || f == DateOfReceiving ==> AtLeast(controls[f].value, 1))
    {
      FieldRules(controls[f].value);
    }
  }

  /** The label of each field as the form shows it. */
  function FieldLabel(f: Field): (r: string)
    ensures r != []
  {
    match f
    case ProjectName => "Project Name"
    case Address => "Address"
    case SampleDescription => "Sample Description"
    case SamplingAndAnalysisProtocol => "Sampling & Analysis Protocol"
    case FormatNumber => "Format Number"
    case PartyReferenceNumber => "Party Reference Number"
    case ReportingDate => "Reporting Date"
    case PeriodOfAnalysis => "Period of Analysis"
    case DateOfReceiving => "Date of Receiving"
  }

  /** `getFieldLabel`: the label of a known field, or the name itself when
      the form has no such field. */
  function Label(name: string): string {
    match FieldNamed(name)
    case Some(f) => FieldLabel(f)
    case None => name
  }

  /** A field's key gives that field's label. */
  lemma LabelOfField(f: Field)
    ensures Label(NameOf(f)) == FieldLabel(f)
  {
    FieldNamedRoundTrip(f);
  }

  /** A key the form does not have is returned unchanged. */
  lemma LabelOfUnknown(name: string)
    requires forall f :: NameOf(f) != name
    ensures Label(name) == name
  {
  }

  /** No two fields share a label, so a message names its field. */
  lemma LabelsDistinct(a: Field, b: Field)
    requires FieldLabel(a) == FieldLabel(b)
    ensures a == b
  {
    assert FieldLabel(a)[..|FieldLabel(a)|] == FieldLabel(b)[..|FieldLabel(b)|];
  }

  function DigitChar(d: nat): (c: char)
    requires d < 10
    ensures '0' <= c <= '9'
  {
    ('0' as int + d) as char
  }

  predicate IsDigits(s: string) {
    forall i :: 0 <= i < |s| ==> '0' <= s[i] <= '9'
  }

  /** A number as a template literal writes it: decimal, no leading zero. */
  function Decimal(n: nat): (r: string)
    ensures r != [] && IsDigits(r)
    ensures r[0] == '0' ==> n == 0
  {
    if n < 10 then [DigitChar(n)] else Decimal(n / 10) + [DigitChar(n % 10)]
  }

  /** The number a string of decimal digits denotes. */
  function DigitsValue(s: string): nat
    requires IsDigits(s)
  {
    if s == [] then 0 else 10 * DigitsValue(s[..|s| - 1]) + (s[|s| - 1] as int - '0' as int)
  }

  /** The minimum length written into a message reads back as that length. */
  lemma {:induction false} DecimalRoundTrip(n: nat)
    ensures DigitsValue(Decimal(n)) == n
  {
    if n >= 10 {
      DecimalRoundTrip(n / 10);
      assert Decimal(n)[..|Decimal(n)| - 1] == Decimal(n / 10);
    }
  }

  /** `isFieldInvalid`: the field exists, fails a validator, and the user
      has edited or left it. */
  predicate FieldInvalid(controls: map<Field, Control>, name: string) {
    match FieldNamed(name)
    case None => false
    case Some(f) =>
      f in controls && !ControlValid(f, controls[f].value) && (controls[f].dirty || controls[f].touched)
  }

  /** `getFieldError`: the required message first, then the minimum-length
      message, and `''` for a valid or unknown field. */
  function FieldError(controls: map<Field, Control>, name: string): (r: string)
    ensures FieldNamed(name).None? ==> r == []
    ensures FieldNamed(name).Some? && FieldNamed(name).value in controls ==>
      var f := FieldNamed(name).value;
      var value := controls[f].value;
      (r == [] <==> ControlValid(f, value)) &&
      (EmptyInput(value) && RuleOf(f).required ==> r == FieldLabel(f) + IS_REQUIRED) &&
      (!EmptyInput(value) && Utf16Length(value.value) < RuleOf(f).minLength ==>
         r == FieldLabel(f) + MUST_BE_AT_LEAST + Decimal(RuleOf(f).minLength) + CHARACTERS)
  {
    match FieldNamed(name)
    case None => []
    case Some(f) =>
      if f !in controls then []
      else
        var e := ErrorsOf(f, controls[f].value);
        if e.required then Label(name) + IS_REQUIRED
        else if e.minLength.Some? then Label(name) + MUST_BE_AT_LEAST + Decimal(e.minLength.value) + CHARACTERS
        else []
  }

  /** Every control marked touched, as `markFormGroupTouched` leaves it. */
  function AllTouched(controls: map<Field, Control>): map<Field, Control> {
    map f | f in controls :: controls[f].(touched := true)
  }

  /** `reset()`: every value `null`, every control pristine and untouched. */
  function Reset(controls: map<Field, Control>): map<Field, Control> {
    map f | f in controls :: Control(None, false, false)
  }

  /** The form as the constructor builds it: nine empty strings. */
  function Initial(): map<Field, Control> {
    map f | f in FIELDS :: Control(Some(""), false, false)
  }

  /** The message for a field, looked up by its key. */
  lemma FieldErrorOf(controls: map<Field, Control>, f: Field)
    requires f in controls
    ensures var value := controls[f].value;
      (FieldError(controls, NameOf(f)) == [] <==> ControlValid(f, value)) &&
      (EmptyInput(value) && RuleOf(f).required ==> FieldError(controls, NameOf(f)) == FieldLabel(f) + IS_REQUIRED) &&
      (!EmptyInput(value) && Utf16Length(value.value) < RuleOf(f).minLength ==>
         FieldError(controls, NameOf(f)) == FieldLabel(f) + MUST_BE_AT_LEAST + Decimal(RuleOf(f).minLength) + CHARACTERS)
  {
    FieldNamedRoundTrip(f);
  }

  /** Once every control is touched, a field shows as invalid exactly when
      it fails a validator: a refused submission reveals every error. */
  lemma TouchedRevealsErrors(controls: map<Field, Control>, f: Field)
    requires f in controls
    ensures FieldInvalid(AllTouched(controls), NameOf(f)) <==> !ControlValid(f, controls[f].value)
  {
    FieldNamedRoundTrip(f);
  }

  /** A fresh or reset form cannot be submitted, yet shows no field as
      invalid until the user edits or leaves one. */
  lemma UneditedFormQuiet(controls: map<Field, Control>, name: string)
    requires HasFields(controls)
    ensures !FormValid(Initial()) && !FormValid(Reset(controls))
    ensures !FieldInvalid(Initial(), name) && !FieldInvalid(Reset(controls), name)
  {
    FieldsComplete(ProjectName);
    assert ProjectName in Initial() && !ControlValid(ProjectName, Initial()[ProjectName].value);
    assert ProjectName in Reset(controls) && !ControlValid(ProjectName, Reset(controls)[ProjectName].value);
  }

  /** `sampleForm.dirty`: some control has been edited. */
  predicate FormDirty(controls: map<Field, Control>) {
    exists f :: f in controls && controls[f].dirty
  }

  /** The request body: `sampleForm.value`, every field under its key with
      its value. */
  function Values(controls: map<Field, Control>): map<Field, Option<string>> {
    map f | f in controls :: controls[f].value
  }

  class SampleRegistrationPage {
    var controls: map<Field, Control>
    var isSubmitting: bool
    var submitSuccess: bool
    var submitError: bool
    var errorMessage: string
    var successMessage: string

    /** The form keeps its nine controls. */
    ghost predicate Valid()
      reads this`controls
    {
      HasFields(controls)
    }

    constructor ()
      ensures Valid()
      ensures controls == Initial()
      ensures !isSubmitting && !submitSuccess && !submitError && errorMessage == [] && successMessage == []
    {
      forall f: Field {
        FieldsComplete(f);
      }
      controls := Initial();
      isSubmitting := false;
      submitSuccess := false;
      submitError := false;
      errorMessage := [];
      successMessage := [];
    }

    /** The user types `text` into a field: its value changes and it turns dirty. */
    method Input(f: Field, text: string)
      requires Valid()
      modifies this`controls
      ensures Valid()
      ensures controls == old(controls)[f := old(controls)[f].(value := Some(text), dirty := true)]
    {
      controls := controls[f := controls[f].(value := Some(text), dirty := true)];
    }

    /** The user leaves a field: it turns touched. */
    method Blur(f: Field)
      requires Valid()
      modifies this`controls
      ensures Valid()
      ensures controls == old(controls)[f := old(controls)[f].(touched := true)]
    {
      controls := controls[f := controls[f].(touched := true)];
    }

    /** `markFormGroupTouched`: every control, one after another, marked
        touched; the form has no nested groups to descend into. */
    method MarkFormGroupTouched()
      requires Valid()
      modifies this`controls
      ensures Valid()
      ensures controls == AllTouched(old(controls))
    {
      for i := 0 to |FIELDS|
        invariant controls.Keys == old(controls).Keys
        invariant forall f :: f in controls ==>
          controls[f] == if f in FIELDS[..i] then old(controls)[f].(touched := true) else old(controls)[f]
      {
        var f := FIELDS[i];
        controls := controls[f := controls[f].(touched := true)];
        assert FIELDS[..i + 1] == FIELDS[..i] + [f];
      }
      assert FIELDS[..|FIELDS|] == FIELDS;
      forall f: Field {
        FieldsComplete(f);
      }
    }

    /** `onSubmit`: an invalid form is only marked touched and nothing is
        sent; a valid one sends its values with the status flags cleared. */
    method OnSubmit() returns (request: Option<map<Field, Option<string>>>)
      requires Valid()
      modifies this`controls, this`isSubmitting, this`submitSuccess, this`submitError, this`errorMessage
      ensures Valid()
      ensures request.None? <==> !FormValid(old(controls))
      ensures !FormValid(old(controls)) ==>
        controls == AllTouched(old(controls)) && isSubmitting == old(isSubmitting) &&
        submitSuccess == old(submitSuccess) && submitError == old(submitError) && errorMessage == old(errorMessage)
      ensures FormValid(old(controls)) ==>
        controls == old(controls) && request == Some(Values(controls)) &&
        isSubmitting && !submitSuccess && !submitError && errorMessage == []
    {
      if !FormValid(controls) {
        MarkFormGroupTouched();
        return None;
      }
      isSubmitting := true;
      submitSuccess := false;
      submitError := false;
      errorMessage := [];
      request := Some(Values(controls));
    }

    /** The registration succeeded: the server's message or the default is
        shown and the form is reset. */
    method OnSubmitResponse(message: Option<string>)
      requires Valid()
      modifies this`controls, this`isSubmitting, this`submitSuccess, this`successMessage
      ensures Valid()
      ensures !isSubmitting && submitSuccess && successMessage == Or(message, REGISTERED)
      ensures controls == Reset(old(controls))
    {
      isSubmitting := false;
      submitSuccess := true;
      successMessage := Or(message, REGISTERED);
      controls := Reset(controls);
    }

    /** Five seconds after a success the message is hidden. */
    method OnSuccessTimeout()
      modifies this`submitSuccess
      ensures !submitSuccess
    {
      submitSuccess := false;
    }

    /** The registration failed: the form stays as it was. */
    method OnSubmitError(message: Option<string>)
      modifies this`isSubmitting, this`submitError, this`errorMessage
      ensures !isSubmitting && submitError && errorMessage == Or(message, REGISTER_FAILED)
    {
      isSubmitting := false;
      submitError := true;
      errorMessage := Or(message, REGISTER_FAILED);
    }

    /** `onReset`: the form reset and every message and status flag cleared. */
    method OnReset()
      requires Valid()
      modifies this`controls, this`submitSuccess, this`submitError, this`errorMessage, this`successMessage
      ensures Valid()
      ensures controls == Reset(old(controls))
      ensures !submitSuccess && !submitError && errorMessage == [] && successMessage == []
    {
      controls := Reset(controls);
      submitSuccess := false;
      submitError := false;
      errorMessage := [];
      successMessage := [];
    }

    /** `onCancel`: leave at once from an untouched form, and from an edited
        one only when the user confirms. */
    method OnCancel(confirmed: bool) returns (navigate: bool)
      ensures navigate <==> !FormDirty(controls) || confirmed
    {
      navigate := !FormDirty(controls) || confirmed;
    }
  }
}
