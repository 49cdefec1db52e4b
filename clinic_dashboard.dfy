/** The dashboard page of the clinic front end
    (healthcare-frontend/src/pages/Dashboard.js). It reads the user object
    as the admin front end's dashboard does; its admin section has a third
    card, Settings. A card is its link target. */
module ClinicDashboard {
  import opened Js
  import opened LooseUsers

  predicate IsAdmin(user: Option<LooseUser>) {
    UserRole(user) == "admin"
  }

  /** The cards shown: the three for everyone, then Management, System
      Reports and Settings for an admin. */
  function Cards(user: Option<LooseUser>): (cards: seq<string>)
    ensures |cards| == 3 || |cards| == 6
    ensures cards[..3] == ["/patients", "/doctors", "/mappings"]
    ensures "/settings" in cards <==> IsAdmin(user)
    ensures |cards| == 6 <==> IsAdmin(user)
    ensures IsAdmin(user) ==> cards[3..] == ["/users", "/reports", "/settings"]
  {
    ["/patients", "/doctors", "/mappings"] + if IsAdmin(user) then ["/users", "/reports", "/settings"] else []
  }

  /** The name in the welcome line and the information block. */
  function DisplayName(user: Option<LooseUser>): (name: string)
    ensures name == DashboardDisplayName(user)
    ensures NameChain(user).None? && !(user.Some? && Present(user.value.email)) ==> name == "User"
  {
    DashboardDisplayName(user)
  }

  /** The precedence: a complete top-level name beats the profile's, which
      beats `name`, which beats `username`, which beats the email. */
  lemma DisplayNamePrecedence(u: LooseUser)
    ensures Present(u.firstName) && Present(u.lastName) ==> DisplayName(Some(u)) == u.firstName.value + " " + u.lastName.value
    ensures FullName(u.firstName, u.lastName).None? && u.profile.Some?
            && Present(u.profile.value.firstName) && Present(u.profile.value.lastName) ==>
              DisplayName(Some(u)) == u.profile.value.firstName.value + " " + u.profile.value.lastName.value
    ensures FullName(u.firstName, u.lastName).None?
            && (u.profile.None? || FullName(u.profile.value.firstName, u.profile.value.lastName).None?) ==>
              DisplayName(Some(u)) ==
                if Present(u.name) then u.name.value
                else if Present(u.username) then u.username.value
                else if Present(u.email) then LocalPart(u.email.value)
                else "User"
  {
  }
}
