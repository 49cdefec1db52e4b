/** The rule table of the admin front end's form validation and the
    first-failure-wins `validateForm` that applies it
    (healthcare_backend/healthcare-frontend/src/utils/validation.js).

    A field value is `Some(text)` or `None` when the form object has no such
    key; both `None` and `Some("")` are falsy. A rule answers `None` (null,
    the value passes) or `Some(message)`. `parseInt` is a parameter: it maps
    a text to `Some(n)` or to `None` for NaN. */
module Validation {
  import opened Js
  import Text
  import Patterns

  function Email(email: Option<string>): (r: Option<string>)
    ensures !Present(email) ==> r == Some("Email is required")
    ensures Present(email) && r.Some? ==> r == Some("Please enter a valid email address")
    ensures r.None? <==> Present(email) && Patterns.EmailShape(email.value)
  {
    if !Present(email) then Some("Email is required")
    else if !Patterns.EmailRegex(email.value) then
      Patterns.EmailRegexIsShape(email.value);
      Some("Please enter a valid email address")
    else
      Patterns.EmailRegexIsShape(email.value);
      None
  }

  const PasswordClassMessage := "Password must contain at least one uppercase letter, one lowercase letter, and one number"

  function Password(password: Option<string>): (r: Option<string>)
    ensures !Present(password) ==> r == Some("Password is required")
    ensures Present(password) && Text.Utf16Len(password.value) < 8 ==>
              r == Some("Password must be at least 8 characters")
    ensures Present(password) && Text.Utf16Len(password.value) >= 8 && r.Some? ==>
              r == Some(PasswordClassMessage)
    ensures r.None? ==> |password.value| >= 4 && Patterns.HasLowerUpperDigit(password.value)
    ensures Present(password) && |password.value| >= 8 && Patterns.SingleLine(password.value) ==>
              (r.None? <==> Patterns.HasLowerUpperDigit(password.value))
  {
    if !Present(password) then Some("Password is required")
    else if Text.Utf16Len(password.value) < 8 then Some("Password must be at least 8 characters")
    else if !Patterns.PasswordClasses(password.value) then
      Patterns.PasswordClassesMeaning(password.value);
      Some(PasswordClassMessage)
    else
      Patterns.PasswordClassesMeaning(password.value);
      None
  }

  function Username(username: Option<string>): (r: Option<string>)
    ensures !Present(username) ==> r == Some("Username is required")
    ensures Present(username) && Text.Utf16Len(username.value) < 3 ==>
              r == Some("Username must be at least 3 characters")
    ensures Present(username) && Text.Utf16Len(username.value) >= 3 && !Patterns.WordChars(username.value) ==>
              r == Some("Username can only contain letters, numbers, and underscores")
    ensures r.None? <==> Present(username) && Text.Utf16Len(username.value) >= 3 && Patterns.WordChars(username.value)
  {
    if !Present(username) then Some("Username is required")
    else if Text.Utf16Len(username.value) < 3 then Some("Username must be at least 3 characters")
    else if !Patterns.WordChars(username.value) then
      Some("Username can only contain letters, numbers, and underscores")
    else None
  }

  /** `validation.name(name, fieldName = 'Name')`. */
  function Name(name: Option<string>, fieldName: string := "Name"): (r: Option<string>)
    ensures !Present(name) ==> r == Some(fieldName + " is required")
    ensures Present(name) && r.Some? ==> r == Some(fieldName + " must be at least 2 characters")
    ensures r.None? <==> Present(name) && Text.Utf16Len(name.value) >= 2
  {
    if !Present(name) then Some(fieldName + " is required")
    else if Text.Utf16Len(name.value) < 2 then Some(fieldName + " must be at least 2 characters")
    else None
  }

  function Age(age: Option<string>, parseInt: string -> Option<int>): (r: Option<string>)
    ensures !Present(age) ==> r == Some("Age is required")
    ensures Present(age) && parseInt(age.value).None? ==> r == Some("Age must be a number")
    ensures Present(age) && parseInt(age.value).Some? && r.Some? ==>
              r == Some("Age must be between 1 and 150")
    ensures r.None? <==> Present(age) && parseInt(age.value).Some? && 1 <= parseInt(age.value).value <= 150
  {
    if !Present(age) then Some("Age is required")
    else
      var ageNum := parseInt(age.value);
      if ageNum.None? then Some("Age must be a number")
      else if ageNum.value < 1 || ageNum.value > 150 then Some("Age must be between 1 and 150")
      else None
  }

  function Contact(contact: Option<string>): (r: Option<string>)
    ensures !Present(contact) ==> r == Some("Contact number is required")
    ensures Present(contact) && !Patterns.AllDigits(contact.value) ==>
              r == Some("Contact must contain only numbers")
    ensures Present(contact) && Patterns.AllDigits(contact.value) && |contact.value| < 10 ==>
              r == Some("Contact must be at least 10 digits")
    ensures r.None? <==> Present(contact) && Patterns.TenOrMoreDigits(contact.value)
  {
    if !Present(contact) then Some("Contact number is required")
    else if !Patterns.AllDigits(contact.value) then Some("Contact must contain only numbers")
    else
      Text.Utf16LenBmp(contact.value);
      if Text.Utf16Len(contact.value) < 10 then Some("Contact must be at least 10 digits")
      else None
  }

  /** `validation.required(value, fieldName)`. */
  function Required(value: Option<string>, fieldName: string): (r: Option<string>)
    ensures r.Some? ==> r == Some(fieldName + " is required")
    ensures r.None? <==> value.Some? && exists k :: 0 <= k < |value.value| && !Text.IsSpace(value.value[k])
  {
    if !Present(value) then Some(fieldName + " is required")
    else if Text.Trim(value.value) == "" then
      Text.TrimEmptyIffAllSpace(value.value);
      Some(fieldName + " is required")
    else
      Text.TrimEmptyIffAllSpace(value.value);
      None
  }

  /** One entry of a field's rule list. */
  datatype Rule =
    | EmailRule
    | PasswordRule
    | UsernameRule
    | NameRule(fieldName: string)
    | AgeRule
    | ContactRule
    | RequiredRule(fieldName: string)

  function Apply(rule: Rule, value: Option<string>, parseInt: string -> Option<int>): (r: Option<string>)
    ensures r.Some? ==> r.value != ""
  {
    match rule
    case EmailRule => Email(value)
    case PasswordRule => Password(value)
    case UsernameRule => Username(value)
    case NameRule(f) => Name(value, f)
    case AgeRule => Age(value, parseInt)
    case ContactRule => Contact(value)
    case RequiredRule(f) => Required(value, f)
  }

  /** `formData[field]`: undefined when the form has no such key. */
  function Lookup(formData: map<string, string>, field: string): (v: Option<string>)
    ensures v.Some? <==> field in formData
    ensures v.Some? ==> v.value == formData[field]
  {
    if field in formData then Some(formData[field]) else None
  }

  /** The first truthy error of `rules` on `value`, or `None` when all pass. */
  function FirstError(rules: seq<Rule>, value: Option<string>, parseInt: string -> Option<int>): (r: Option<string>)
  {
    if rules == [] then None
    else
      var e := Apply(rules[0], value, parseInt);
      if Present(e) then e else FirstError(rules[1..], value, parseInt)
  }

  /** `FirstError` is the message of the earliest failing rule: every rule
      before it passes; and it is `None` exactly when every rule passes. */
  lemma {:induction false} FirstErrorIsEarliest(rules: seq<Rule>, value: Option<string>, parseInt: string -> Option<int>)
    ensures FirstError(rules, value, parseInt).None? <==>
              forall i :: 0 <= i < |rules| ==> Apply(rules[i], value, parseInt).None?
    ensures FirstError(rules, value, parseInt).Some? ==>
              exists i :: 0 <= i < |rules| && FirstError(rules, value, parseInt) == Apply(rules[i], value, parseInt)
                && forall j :: 0 <= j < i ==> Apply(rules[j], value, parseInt).None?
  {
    if rules != [] {
      FirstErrorIsEarliest(rules[1..], value, parseInt);
      var e := Apply(rules[0], value, parseInt);
      if !Present(e) {
        assert forall i :: 1 <= i < |rules| ==> rules[i] == rules[1..][i - 1];
        if FirstError(rules, value, parseInt).Some? {
          var i :| 0 <= i < |rules[1..]| && FirstError(rules[1..], value, parseInt) == Apply(rules[1..][i], value, parseInt)
                && forall j :: 0 <= j < i ==> Apply(rules[1..][j], value, parseInt).None?;
          assert FirstError(rules, value, parseInt) == Apply(rules[i + 1], value, parseInt);
        }
      } else {
        assert FirstError(rules, value, parseInt) == Apply(rules[0], value, parseInt);
      }
    }
  }

  /** `validateForm(formData, rules)`: for each rule key, runs that field's
      rules in order and records the first error, stopping there. */
  method ValidateForm(formData: map<string, string>, rules: map<string, seq<Rule>>, parseInt: string -> Option<int>)
    returns (errors: map<string, string>)
    ensures errors.Keys <= rules.Keys
    ensures forall field :: field in rules ==>
              (field in errors <==> FirstError(rules[field], Lookup(formData, field), parseInt).Some?)
    ensures forall field :: field in errors ==>
              errors[field] == FirstError(rules[field], Lookup(formData, field), parseInt).value
  {
    errors := map[];
    var pending := rules.Keys;
    while pending != {}
      invariant pending <= rules.Keys
      invariant errors.Keys <= rules.Keys - pending
      invariant forall field :: field in rules.Keys - pending ==>
                  (field in errors <==> FirstError(rules[field], Lookup(formData, field), parseInt).Some?)
      invariant forall field :: field in errors ==>
                  errors[field] == FirstError(rules[field], Lookup(formData, field), parseInt).value
      decreases pending
    {
      var field :| field in pending;
      var value := Lookup(formData, field);
      var fieldRules := rules[field];
      var i := 0;
      while i < |fieldRules|
        invariant 0 <= i <= |fieldRules|
        invariant FirstError(fieldRules, value, parseInt) == FirstError(fieldRules[i..], value, parseInt)
      {
        var error := Apply(fieldRules[i], value, parseInt);
        if Present(error) {
          errors := errors[field := error.value];
          break;
        }
        i := i + 1;
      }
      pending := pending - {field};
    }
  }
}
