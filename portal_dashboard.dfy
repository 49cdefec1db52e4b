/** The dashboard page of the admin front end
    (healthcare_backend/healthcare-frontend/src/pages/Dashboard.js): the
    role badge, the admin banner, the cards and the user information, all
    read from the loosely shaped user object. A card is its link target. */
module PortalDashboard {
  import opened Js
  import opened LooseUsers

  /** `isAdmin`: the resolved role is 'admin'. */
  predicate IsAdmin(user: Option<LooseUser>) {
    UserRole(user) == "admin"
  }

  /** The cards shown: the three for everyone, then the two admin ones. */
  function Cards(user: Option<LooseUser>): (cards: seq<string>)
    ensures |cards| == 3 || |cards| == 5
    ensures cards[..3] == ["/patients", "/doctors", "/mappings"]
    ensures "/users" in cards <==> IsAdmin(user)
    ensures "/reports" in cards <==> IsAdmin(user)
    ensures |cards| == 5 <==> IsAdmin(user)
  {
    ["/patients", "/doctors", "/mappings"] + if IsAdmin(user) then ["/users", "/reports"] else []
  }

  /** The banner "You have administrator privileges" is shown exactly when
      the admin cards are. */
  predicate ShowsBanner(user: Option<LooseUser>) {
    IsAdmin(user)
  }

  /** The information block: username, email, role and display name. */
  datatype Info = Info(username: string, email: string, role: string, name: string)

  function UserInfo(user: Option<LooseUser>): (info: Info)
    ensures info.username == Username(user) && info.email == Email(user)
    ensures info.role == UserRole(user) && info.name == DashboardDisplayName(user)
  {
    Info(Username(user), Email(user), UserRole(user), DashboardDisplayName(user))
  }

  /** Without a user the page still renders: role 'user', no admin cards,
      'N/A' for username and email and 'User' as the name. */
  lemma NoUser()
    ensures UserInfo(None) == Info("N/A", "N/A", "user", "User")
    ensures Cards(None) == ["/patients", "/doctors", "/mappings"] && !ShowsBanner(None)
  {
  }

  /** With neither a last name nor a profile, `name` or `username`, the name
      shown is the email's local part or 'User' — never the first name by
      itself. */
  lemma FirstNameAloneNotShown(u: LooseUser)
    requires !Present(u.lastName) && u.profile.None? && !Present(u.name) && !Present(u.username)
    ensures DashboardDisplayName(Some(u)) == if Present(u.email) then LocalPart(u.email.value) else "User"
  {
  }
}
