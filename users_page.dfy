/** The user page of the admin front end
    (healthcare_backend/healthcare-frontend/src/pages/Users.js): the same
    role, username and email chains as the dashboards, and a display name
    that stops at `username` and ends in 'N/A'. */
module UsersPage {
  import opened Js
  import opened LooseUsers

  /** `getUserDisplayName` of this page: no email step. */
  function DisplayName(user: Option<LooseUser>): (name: string)
    ensures NameChain(user).Some? ==> name == NameChain(user).value
    ensures NameChain(user).None? ==> name == "N/A"
  {
    if NameChain(user).Some? then NameChain(user).value else "N/A"
  }

  /** The email never decides the name here, unlike on the dashboards. */
  lemma EmailIgnored(u: LooseUser, email: Option<string>)
    ensures DisplayName(Some(u)) == DisplayName(Some(u.(email := email)))
  {
  }

  /** Whenever the dashboards fall back to the email, this page shows
      'N/A' instead. */
  lemma EmailFallbackDiffers(user: Option<LooseUser>)
    requires NameChain(user).None? && user.Some? && Present(user.value.email)
    ensures DisplayName(user) == "N/A"
    ensures DashboardDisplayName(user) == LocalPart(user.value.email.value)
  {
  }

  /** Where the dashboards would fall back to the email's local part, this
      page shows 'N/A'. */
  lemma DiffersFromDashboard()
    ensures var u := LooseUser(None, None, None, None, None, Some("ann@example.org"), None, None, None);
            DisplayName(Some(u)) == "N/A" && DashboardDisplayName(Some(u)) == "ann"
  {
    var email := "ann@example.org";
    assert email[3] == '@';
    assert email[..3] == "ann";
  }
}
