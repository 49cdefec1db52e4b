/** The settings page of the admin front end
    (healthcare_backend/healthcare-frontend/src/pages/Settings.js): the
    password-change handler, which tabs and sections an admin gets, the
    role buttons of the user table and the profile form filled in from the
    signed-in user.

    The change-password request is an input of the handler (its outcome);
    the five-second timer that clears the banner is not modelled. */
module Settings {
  import opened Js
  import Text

  /** The signed-in user as this page reads it; a property the user object
      lacks is `None`. */
  datatype User = User(id: int, role: Option<string>, firstName: Option<string>,
                       lastName: Option<string>, email: Option<string>)

  datatype ProfileForm = ProfileForm(firstName: string, lastName: string, email: string)

  datatype PasswordForm = PasswordForm(current: string, newPassword: string, confirm: string)

  const EmptyPasswordForm := PasswordForm("", "", "")

  /** The banner: `type` is '', 'success' or 'error'. */
  datatype Banner = Banner(kind: string, text: Value)

  /** The body of `authService.changePassword`. */
  datatype ChangeRequest = ChangeRequest(currentPassword: string, newPassword: string)

  /** What the awaited request did: resolved, or threw with
      `error.response?.data?.error` (undefined when absent). */
  datatype ChangeOutcome = Changed | Failed(error: Value)

  const MismatchText := "New passwords do not match"
  const TooShortText := "Password must be at least 8 characters long"
  const ChangedText := "Password changed successfully!"
  const ChangeFailedText := "Failed to change password"

  /** `user?.role === 'admin'`. */
  predicate IsAdmin(user: Option<User>) {
    user.Some? && user.value.role == Some("admin")
  }

  /** The two checks `handlePasswordChange` makes before sending anything,
      mismatch first. */
  function PasswordFormError(form: PasswordForm): Option<string> {
    if form.newPassword != form.confirm then Some(MismatchText)
    else if Text.Utf16Len(form.newPassword) < 8 then Some(TooShortText)
    else None
  }

  /** The form is sent exactly when the new password equals its confirmation
      and is at least eight UTF-16 units long; a mismatch is reported even
      when the password is also too short. */
  lemma PasswordFormErrorMeaning(form: PasswordForm)
    ensures PasswordFormError(form).None? <==> form.newPassword == form.confirm && Text.Utf16Len(form.newPassword) >= 8
    ensures form.newPassword != form.confirm ==> PasswordFormError(form) == Some(MismatchText)
    ensures form.newPassword == form.confirm && |form.newPassword| < 4 ==> PasswordFormError(form) == Some(TooShortText)
  {
  }

  /** The banner text after a failed change: the server's `error` when it is
      truthy, the fixed text otherwise. */
  function FailureText(error: Value): (t: Value)
    ensures Truthy(t)
    ensures Truthy(error) ==> t == error
  {
    if Truthy(error) then error else Str(ChangeFailedText)
  }

  /** The tabs of the side navigation, in order. */
  datatype Tab = ProfileTab | SecurityTab | SystemTab | UsersTab | AboutTab

  function NavTabs(isAdmin: bool): (tabs: seq<Tab>)
    ensures SystemTab in tabs <==> isAdmin
    ensures UsersTab in tabs <==> isAdmin
    ensures ProfileTab in tabs && SecurityTab in tabs && AboutTab in tabs
    ensures tabs[0] == ProfileTab && tabs[|tabs| - 1] == AboutTab
  {
    [ProfileTab, SecurityTab] + (if isAdmin then [SystemTab, UsersTab] else []) + [AboutTab]
  }

  /** The section rendered for the active tab, if any: the system and user
      sections need an admin even when their tab is active. */
  function Section(activeTab: Tab, isAdmin: bool): (shown: Option<Tab>)
    ensures shown.Some? ==> shown.value == activeTab
    ensures shown.None? <==> (activeTab == SystemTab || activeTab == UsersTab) && !isAdmin
  {
    match activeTab
    case SystemTab => if isAdmin then Some(SystemTab) else None
    case UsersTab => if isAdmin then Some(UsersTab) else None
    case _ => Some(activeTab)
  }

  /** A tab a non-admin can see in the navigation always renders its
      section. */
  lemma OfferedTabsRender(tab: Tab, isAdmin: bool)
    requires tab in NavTabs(isAdmin)
    ensures Section(tab, isAdmin) == Some(tab)
  {
  }

  /** The role buttons of one row of the user table. */
  datatype RoleButtons = RoleButtons(makeAdminDisabled: bool, makeUserDisabled: bool)

  /** `userItem.id !== user?.id`: no buttons on the signed-in user's own row;
      otherwise "Make Admin" is disabled for admins and "Make User" for
      users. */
  function RowButtons(itemId: int, itemRole: Option<string>, current: Option<User>): (b: Option<RoleButtons>)
    ensures b.None? <==> current.Some? && current.value.id == itemId
    ensures b.Some? ==> (b.value.makeAdminDisabled <==> itemRole == Some("admin"))
    ensures b.Some? ==> (b.value.makeUserDisabled <==> itemRole == Some("user"))
  {
    if current.Some? && current.value.id == itemId then None
    else Some(RoleButtons(itemRole == Some("admin"), itemRole == Some("user")))
  }

  /** The effect on `user`: with a user, each field is the user's value or
      '' when missing or empty; without one the form is left as it is. */
  function ProfileFormFor(user: Option<User>, form: ProfileForm): (r: ProfileForm)
    ensures user.None? ==> r == form
    ensures user.Some? && Present(user.value.firstName) ==> r.firstName == user.value.firstName.value
    ensures user.Some? && !Present(user.value.firstName) ==> r.firstName == ""
    ensures user.Some? && Present(user.value.lastName) ==> r.lastName == user.value.lastName.value
    ensures user.Some? && !Present(user.value.lastName) ==> r.lastName == ""
    ensures user.Some? && Present(user.value.email) ==> r.email == user.value.email.value
    ensures user.Some? && !Present(user.value.email) ==> r.email == ""
  {
    match user
    case None => form
    case Some(u) => ProfileForm(Or(u.firstName, ""), Or(u.lastName, ""), Or(u.email, ""))
  }

  class Page {
    var loading: bool
    var banner: Banner
    var passwordForm: PasswordForm

    constructor ()
      ensures !loading && banner == Banner("", Str("")) && passwordForm == EmptyPasswordForm
    {
      loading := false;
      banner := Banner("", Str(""));
      passwordForm := EmptyPasswordForm;
    }

    /** `handlePasswordChange`: a rejected form shows its error and sends
        nothing; an accepted one sends only the current and new passwords,
        then resets the three fields on success or shows the failure text,
        and ends with `loading` false. */
    method HandlePasswordChange(outcome: ChangeOutcome) returns (sent: Option<ChangeRequest>)
      modifies this`loading, this`banner, this`passwordForm
      ensures sent.None? <==> PasswordFormError(old(passwordForm)).Some?
      ensures sent.None? ==>
                banner == Banner("error", Str(PasswordFormError(old(passwordForm)).value))
                && passwordForm == old(passwordForm) && loading == old(loading)
      ensures sent.Some? ==>
                sent.value == ChangeRequest(old(passwordForm).current, old(passwordForm).newPassword) && !loading
      ensures sent.Some? && outcome.Changed? ==>
                passwordForm == EmptyPasswordForm && banner == Banner("success", Str(ChangedText))
      ensures sent.Some? && outcome.Failed? ==>
                passwordForm == old(passwordForm) && banner == Banner("error", FailureText(outcome.error))
    {
      var error := PasswordFormError(passwordForm);
      if error.Some? {
        banner := Banner("error", Str(error.value));
        return None;
      }
      loading := true;
      sent := Some(ChangeRequest(passwordForm.current, passwordForm.newPassword));
      match outcome {
        case Changed =>
          banner := Banner("success", Str(ChangedText));
          passwordForm := EmptyPasswordForm;
        case Failed(e) =>
          banner := Banner("error", FailureText(e));
      }
      loading := false;
    }
  }
}
