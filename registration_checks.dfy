/** The field checks shared word for word by the patient and doctor
    registration forms of the NeuroMed front end, and the way both turn a
    failed registration into the text of the error banner
    (healthcare-frontend/NeuroMed-2f/components/auth/patient-registration-form.tsx
    and doctor-registration-form.tsx). Each check answers `None` when the
    field passes, or `Some(message)`. */
module RegistrationChecks {
  import opened Js
  import Text
  import Patterns

  /** What the awaited register call did: resolved with both tokens, or
      threw an error carrying `message` ("" when it has none). */
  datatype Outcome = Registered(access: string, refresh: string) | Threw(message: string)

  /** The error messages the two forms can store, one constructor per
      literal; `Wording` gives the text the form shows. */
  datatype Message =
    | FullNameRequired | EmailRequired | EmailInvalid
    | PasswordRequired | PasswordTooShort | ConfirmRequired | PasswordsDiffer
    | ContactRequired | ContactInvalid
    | AgeRequired | Underage | GenderRequired
    | SpecializationRequired | LicenseRequired | ExperienceRequired | ExperienceInvalid

  /** The text of each message. Every one is non-empty, so `errors[name]`
      is truthy exactly when the field has an error. */
  function Wording(m: Message): (s: string)
    ensures s != ""
  {
    match m
    case FullNameRequired => "Full name is required"
    case EmailRequired => "Email is required"
    case EmailInvalid => "Please enter a valid email"
    case PasswordRequired => "Password is required"
    case PasswordTooShort => "Password must be at least 8 characters"
    case ConfirmRequired => "Please confirm your password"
    case PasswordsDiffer => "Passwords do not match"
    case ContactRequired => "Contact number is required"
    case ContactInvalid => "Please enter a valid contact number"
    case AgeRequired => "Age is required"
    case Underage => "Must be at least 18 years old"
    case GenderRequired => "Gender is required"
    case SpecializationRequired => "Specialization is required"
    case LicenseRequired => "License number is required"
    case ExperienceRequired => "Experience is required"
    case ExperienceInvalid => "Please enter valid years of experience"
  }

  /** `newErrors[key]` of an error map: `None` when the key is absent. */
  function Entry<K>(errors: map<K, Message>, key: K): (e: Option<Message>)
    ensures e.Some? <==> key in errors
    ensures e.Some? ==> e.value == errors[key]
  {
    if key in errors then Some(errors[key]) else None
  }

  predicate Blank(s: string) {
    forall k :: 0 <= k < |s| ==> Text.IsSpace(s[k])
  }

  /** `!s.trim()` is the same as "the field is blank", so the checks below
      test `Blank` where the forms write `!value.trim()`. */
  lemma TrimFalsy(s: string)
    ensures Text.Trim(s) == "" <==> Blank(s)
  {
    Text.TrimEmptyIffAllSpace(s);
  }

  function FullNameCheck(fullName: string): Option<Message> {
    if Blank(fullName) then Some(FullNameRequired) else None
  }

  /** The full name fails exactly when it is blank. */
  lemma FullNameCheckMeaning(fullName: string)
    ensures FullNameCheck(fullName).Some? <==> Blank(fullName)
    ensures FullNameCheck(fullName).Some? ==> FullNameCheck(fullName).value == FullNameRequired
  {
  }

  function EmailCheck(email: string): Option<Message> {
    if Blank(email) then Some(EmailRequired)
    else if !Patterns.EmailRegex(email) then Some(EmailInvalid)
    else None
  }

  /** The email passes exactly when the pattern accepts it; a blank one is
      reported as missing, any other failure as invalid. */
  lemma EmailCheckMeaning(email: string)
    ensures EmailCheck(email).None? <==> Patterns.EmailRegex(email)
    ensures EmailCheck(email).Some? ==>
              EmailCheck(email).value == (if Blank(email) then EmailRequired else EmailInvalid)
  {
    EmailNotBlank(email);
  }

  /** Only a length rule: the character-class rule of these forms is
      commented out in the source. */
  function PasswordCheck(password: string): Option<Message> {
    if password == "" then Some(PasswordRequired)
    else if Text.Utf16Len(password) < 8 then Some(PasswordTooShort)
    else None
  }

  /** The password fails exactly when it is shorter than eight UTF-16 units. */
  lemma PasswordCheckMeaning(password: string)
    ensures PasswordCheck(password).Some? <==> Text.Utf16Len(password) < 8
    ensures PasswordCheck(password).Some? ==>
              PasswordCheck(password).value == (if password == "" then PasswordRequired else PasswordTooShort)
  {
  }

  function ConfirmCheck(password: string, confirmPassword: string): Option<Message> {
    if confirmPassword == "" then Some(ConfirmRequired)
    else if password != confirmPassword then Some(PasswordsDiffer)
    else None
  }

  /** The confirmation passes exactly when it is filled in and equals the
      password. */
  lemma ConfirmCheckMeaning(password: string, confirmPassword: string)
    ensures ConfirmCheck(password, confirmPassword).None? <==> confirmPassword != "" && confirmPassword == password
    ensures ConfirmCheck(password, confirmPassword).Some? ==>
              ConfirmCheck(password, confirmPassword).value ==
                (if confirmPassword == "" then ConfirmRequired else PasswordsDiffer)
  {
  }

  /** The digits left after `replace(/\D/g, "")` must number at least ten. */
  function ContactCheck(contactNumber: string): Option<Message> {
    if Blank(contactNumber) then Some(ContactRequired)
    else if !Patterns.TenOrMoreDigits(Text.DigitsOf(contactNumber)) then Some(ContactInvalid)
    else None
  }

  /** The contact number fails exactly when it holds fewer than ten digits;
      a blank one is reported as missing. */
  lemma ContactCheckMeaning(contactNumber: string)
    ensures ContactCheck(contactNumber).Some? <==> |Text.DigitsOf(contactNumber)| < 10
    ensures ContactCheck(contactNumber).Some? ==>
              ContactCheck(contactNumber).value == (if Blank(contactNumber) then ContactRequired else ContactInvalid)
  {
    BlankHasNoDigits(contactNumber);
    Text.DigitsOfDigits(contactNumber);
  }

  lemma EmailNotBlank(email: string)
    ensures Patterns.EmailRegex(email) ==> !Blank(email)
  {
    if Patterns.EmailRegex(email) {
      Patterns.EmailShapeFacts(email);
      assert email != [] && !Text.IsSpace(email[0]);
    }
  }

  lemma {:induction false} BlankHasNoDigits(s: string)
    ensures Blank(s) ==> Text.DigitsOf(s) == []
  {
    if s != [] && Blank(s) {
      assert Blank(s[1..]) by {
        assert forall k :: 0 <= k < |s[1..]| ==> s[1..][k] == s[k + 1];
      }
      BlankHasNoDigits(s[1..]);
    }
  }

  const DefaultSubmitError := "Registration failed. Please try again."
  const InputSubmitError := "Registration failed. Please check your input."

  /** `errorData[Object.keys(errorData)[0]]` for an array or object. An empty
      one has no first key, and indexing it with `undefined` gives undefined. */
  function FirstEntry(data: Value): (v: Value)
    requires data.Arr? || data.Obj?
    ensures data.Obj? && data.fields != [] ==> v == Get(data.fields, Keys(data.fields)[0])
    ensures data.Arr? && data.items != [] ==> v == data.items[0]
    ensures data == Obj([]) || data == Arr([]) ==> v == Undefined
  {
    match data
    case Arr(items) => if items == [] then Undefined else items[0]
    case Obj(fields) => if fields == [] then Undefined else Get(fields, fields[0].0)
  }

  /** The banner text the catch block computes from `err.message` and from
      what `JSON.parse` made of it (`None` when it throws). The fields of a
      parsed object are in `Object.keys` order. */
  function SubmitErrorText(message: string, parsed: Option<Value>): (r: Value)
    ensures message == "" ==> r == Str(DefaultSubmitError)
    ensures message != "" && parsed.None? ==> r == Str(message)
    ensures message != "" && parsed == Some(Null) ==> r == Str(message)
    ensures message != "" && parsed.Some? && !TypeofObject(parsed.value) ==> r == Str(DefaultSubmitError)
    ensures message != "" && parsed.Some? && (parsed.value.Arr? || parsed.value.Obj?) ==>
              var first := FirstEntry(parsed.value);
              && (first.Str? ==> r == first)
              && (first.Arr? && first.items != [] ==> r == first.items[0])
              && (first.Arr? && first.items == [] ==> r == Undefined)
              && (!first.Str? && !first.Arr? ==> r == Str(InputSubmitError))
    ensures message != "" && parsed.Some? && parsed.value.Obj? && parsed.value.fields != [] ==>
              var first := parsed.value.fields[0].1;
              && (first.Str? ==> r == first)
              && (first.Arr? && first.items != [] ==> r == first.items[0])
              && (!first.Str? && !first.Arr? ==> r == Str(InputSubmitError))
    ensures message != "" && parsed.Some? && parsed.value.Arr? && parsed.value.items != [] ==>
              var first := parsed.value.items[0];
              && (first.Str? ==> r == first)
              && (first.Arr? && first.items != [] ==> r == first.items[0])
              && (!first.Str? && !first.Arr? ==> r == Str(InputSubmitError))
    ensures message != "" && (parsed == Some(Obj([])) || parsed == Some(Arr([]))) ==>
              r == Str(InputSubmitError)
  {
    if message == "" then Str(DefaultSubmitError)
    else match parsed
      case None => Str(message)
      case Some(data) =>
        if !TypeofObject(data) then Str(DefaultSubmitError)
        else if data.Null? then Str(message)
        else
          var firstError := FirstEntry(data);
          if IsArray(firstError) then (if firstError.items == [] then Undefined else firstError.items[0])
          else if firstError.Str? then firstError
          else Str(InputSubmitError)
  }

  /** Once a request has failed with a message, the banner stays hidden
      (its text is falsy) only when the parsed body's first entry is an empty
      string, an empty list or a list whose first element is falsy. */
  lemma SubmitErrorShown(message: string, parsed: Option<Value>)
    requires message != ""
    ensures !Truthy(SubmitErrorText(message, parsed)) ==>
              parsed.Some? && (parsed.value.Arr? || parsed.value.Obj?)
              && var first := FirstEntry(parsed.value);
                 (first.Arr? && (first.items == [] || !Truthy(first.items[0]))) || first == Str("")
  {
  }
}
