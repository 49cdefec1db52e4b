/** The patient registration form of the NeuroMed front end
    (healthcare-frontend/NeuroMed-2f/components/auth/patient-registration-form.tsx):
    its form state, the error map `validateForm` rebuilds, field edits that
    clear one error, and the submit sequence around the register call.

    `Number(...)` and `Number.parseInt(...)` are parameters (`None` is NaN);
    the register call's outcome and `JSON.parse` of its error message are
    inputs of `Submit`; `localStorage` is the map `storage`. */
module PatientRegistration {
  import opened Js
  import Text
  import Patterns
  import opened RegistrationChecks

  /** The form's inputs, named `fullName`, `email`, `password`,
      `confirmPassword`, `age`, `gender`, `contactNumber` and
      `medicalHistory` in the form state and in the error map. */
  datatype Field = FullName | Email | Password | ConfirmPassword | Age | Gender | ContactNumber | MedicalHistory

  /** The form state starts with every field empty. */
  const EmptyForm: map<Field, string> := map[
    FullName := "", Email := "", Password := "", ConfirmPassword := "",
    Age := "", Gender := "", ContactNumber := "", MedicalHistory := ""]

  /** The body handed to `authAPI.register`. `age` is `None` when
      `parseInt` gives NaN. */
  datatype Payload = Payload(
    email: string, password: string, password2: string, fullName: string, role: string,
    age: Option<int>, gender: string, contactNumber: string, medicalHistory: string)

  /** `isNaN(Number(age)) || Number(age) < 18` is false. */
  predicate Adult(age: string, number: string -> Option<real>) {
    number(age).Some? && number(age).value >= 18.0
  }

  /** The message `validateForm` records for one field, or `None` when the
      field passes. The medical history has no check. */
  function FieldError(f: Field, formData: map<Field, string>, number: string -> Option<real>): Option<Message>
    requires forall g: Field :: g in formData
  {
    match f
    case FullName => FullNameCheck(formData[FullName])
    case Email => EmailCheck(formData[Email])
    case Password => PasswordCheck(formData[Password])
    case ConfirmPassword => ConfirmCheck(formData[Password], formData[ConfirmPassword])
    case Age =>
      if formData[Age] == "" then Some(AgeRequired)
      else if !Adult(formData[Age], number) then Some(Underage)
      else None
    case Gender => if formData[Gender] == "" then Some(GenderRequired) else None
    case ContactNumber => ContactCheck(formData[ContactNumber])
    case MedicalHistory => None
  }

  /** What each field's error means: a blank name, an email the pattern
      rejects, a password under eight UTF-16 units, a missing or differing
      confirmation, a missing or under-18 age, no gender, fewer than ten
      digits in the contact number; the medical history never fails. */
  lemma FieldErrorMeaning(formData: map<Field, string>, number: string -> Option<real>)
    requires forall g: Field :: g in formData
    ensures FieldError(FullName, formData, number).Some? <==> Blank(formData[FullName])
    ensures FieldError(Email, formData, number).Some? <==> !Patterns.EmailRegex(formData[Email])
    ensures FieldError(Password, formData, number).Some? <==> Text.Utf16Len(formData[Password]) < 8
    ensures FieldError(ConfirmPassword, formData, number).Some? <==>
              formData[ConfirmPassword] == "" || formData[ConfirmPassword] != formData[Password]
    ensures FieldError(Age, formData, number).Some? <==> formData[Age] == "" || !Adult(formData[Age], number)
    ensures FieldError(Age, formData, number).Some? ==>
              FieldError(Age, formData, number).value == if formData[Age] == "" then AgeRequired else Underage
    ensures FieldError(Gender, formData, number).Some? <==> formData[Gender] == ""
    ensures FieldError(ContactNumber, formData, number).Some? <==> |Text.DigitsOf(formData[ContactNumber])| < 10
    ensures FieldError(MedicalHistory, formData, number).None?
  {
    assert FieldError(Email, formData, number) == EmailCheck(formData[Email]);
    EmailCheckMeaning(formData[Email]);
    assert FieldError(ContactNumber, formData, number) == ContactCheck(formData[ContactNumber]);
    ContactCheckMeaning(formData[ContactNumber]);
  }

  /** The order in which `validateForm` runs its checks; the medical
      history, which has none, comes last. */
  function Position(f: Field): (i: nat)
    ensures i < 8
  {
    match f
    case FullName => 0
    case Email => 1
    case Password => 2
    case ConfirmPassword => 3
    case Age => 4
    case Gender => 5
    case ContactNumber => 6
    case MedicalHistory => 7
  }

  function FieldAt(i: nat): (f: Field)
    requires i < 8
    ensures Position(f) == i
  {
    if i == 0 then FullName
    else if i == 1 then Email
    else if i == 2 then Password
    else if i == 3 then ConfirmPassword
    else if i == 4 then Age
    else if i == 5 then Gender
    else if i == 6 then ContactNumber
    else MedicalHistory
  }

  /** The `newErrors` object `validateForm` fills in: the checks run in
      order, each failing one setting its field's message; every field's
      entry ends up being its check's verdict. */
  method BuildErrors(formData: map<Field, string>, number: string -> Option<real>)
    returns (newErrors: map<Field, Message>)
    requires forall g: Field :: g in formData
    ensures forall f :: Entry(newErrors, f) == FieldError(f, formData, number)
  {
    newErrors := map[];
    var i := 0;
    while i < 7
      invariant 0 <= i <= 7
      invariant forall f :: Entry(newErrors, f) == if Position(f) < i then FieldError(f, formData, number) else None
    {
      var field := FieldAt(i);
      var error := FieldError(field, formData, number);
      if error.Some? {
        newErrors := newErrors[field := error.value];
      }
      i := i + 1;
    }
  }

  class Form {
    var formData: map<Field, string>
    var errors: map<Field, Message>
    var isLoading: bool
    var submitError: Value
    var storage: map<string, string>

    /** Every form field has a value. */
    predicate Valid()
      reads this
    {
      forall f: Field :: f in formData
    }

    constructor (storage: map<string, string>)
      ensures Valid()
      ensures formData == EmptyForm
      ensures errors == map[] && !isLoading && submitError == Str("")
      ensures this.storage == storage
    {
      formData := EmptyForm;
      forall f: Field ensures f in EmptyForm {
        match f
        case FullName => case Email => case Password => case ConfirmPassword =>
        case Age => case Gender => case ContactNumber => case MedicalHistory =>
      }
      errors := map[];
      isLoading := false;
      submitError := Str("");
      this.storage := storage;
    }

    /** `validateForm`: stores the rebuilt error map and reports whether it
        came out empty, which is exactly when every check passed. */
    method ValidateForm(number: string -> Option<real>) returns (ok: bool)
      requires Valid()
      modifies this`errors
      ensures Valid()
      ensures forall f :: Entry(errors, f) == FieldError(f, formData, number)
      ensures ok <==> errors == map[]
      ensures ok <==> forall f :: FieldError(f, formData, number).None?
    {
      errors := BuildErrors(formData, number);
      ok := errors == map[];
      if !ok {
        var f :| f in errors;
        assert Entry(errors, f).Some?;
      }
    }

    /** `handleChange`: stores the edited value and drops that field's
        error, if it had one. */
    method HandleChange(name: Field, value: string)
      requires Valid()
      modifies this`formData, this`errors
      ensures Valid()
      ensures formData == old(formData)[name := value]
      ensures errors == old(errors) - {name}
    {
      formData := formData[name := value];
      if name in errors && Wording(errors[name]) != "" {
        errors := errors - {name};
      }
    }

    /** `handleSubmit`: clears the banner, validates, and only for a valid
        form sends the payload; it returns what was sent, if anything. */
    method Submit(number: string -> Option<real>, parseInt: string -> Option<int>,
                  outcome: Outcome, parse: string -> Option<Value>)
      returns (sent: Option<Payload>)
      requires Valid()
      modifies this
      ensures Valid()
      ensures formData == old(formData)
      ensures forall f :: Entry(errors, f) == FieldError(f, formData, number)
      ensures sent.Some? <==> errors == map[]
      ensures sent.Some? <==> forall f :: FieldError(f, formData, number).None?
      ensures sent.Some? ==> sent.value == Payload(
                formData[Email], formData[Password], formData[ConfirmPassword], formData[FullName],
                "patient", parseInt(formData[Age]), formData[Gender], formData[ContactNumber],
                formData[MedicalHistory])
      ensures sent.None? ==> submitError == Str("") && storage == old(storage) && isLoading == old(isLoading)
      ensures sent.Some? ==> !isLoading
      ensures sent.Some? && outcome.Registered? ==>
                storage == old(storage)["access_token" := outcome.access]["refresh_token" := outcome.refresh]
                && submitError == Str("")
      ensures sent.Some? && outcome.Threw? ==>
                storage == old(storage)
                && submitError == SubmitErrorText(outcome.message, parse(outcome.message))
    {
      submitError := Str("");
      var ok := ValidateForm(number);
      if !ok {
        return None;
      }
      var payload := Send(parseInt, outcome, parse);
      sent := Some(payload);
    }

    /** The `try`/`catch`/`finally` around `authAPI.register` for a valid
        form: the tokens are stored on success, the banner text is computed
        from the error otherwise, and loading ends either way. */
    method Send(parseInt: string -> Option<int>, outcome: Outcome, parse: string -> Option<Value>)
      returns (payload: Payload)
      requires Valid()
      requires submitError == Str("")
      modifies this`isLoading, this`storage, this`submitError
      ensures payload == Payload(
                formData[Email], formData[Password], formData[ConfirmPassword], formData[FullName],
                "patient", parseInt(formData[Age]), formData[Gender], formData[ContactNumber],
                formData[MedicalHistory])
      ensures !isLoading
      ensures outcome.Registered? ==>
                storage == old(storage)["access_token" := outcome.access]["refresh_token" := outcome.refresh]
                && submitError == Str("")
      ensures outcome.Threw? ==>
                storage == old(storage)
                && submitError == SubmitErrorText(outcome.message, parse(outcome.message))
    {
      isLoading := true;
      payload := Payload(
        formData[Email], formData[Password], formData[ConfirmPassword], formData[FullName],
        "patient", parseInt(formData[Age]), formData[Gender], formData[ContactNumber],
        formData[MedicalHistory]);
      match outcome {
        case Registered(access, refresh) =>
          storage := storage["access_token" := access];
          storage := storage["refresh_token" := refresh];
        case Threw(message) =>
          submitError := SubmitErrorText(message, parse(message));
      }
      isLoading := false;
    }
  }
}
