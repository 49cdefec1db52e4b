/** The admin-only route guard of the admin front end
    (healthcare_backend/healthcare-frontend/src/components/common/AdminProtectedRoute.js).
    It looks for 'admin' at each of the three places a role may sit, which
    is wider than the dashboards' first-truthy role. */
module AdminRoute {
  import opened Js
  import opened LooseUsers

  datatype Outcome = Spinner | ToLogin | ToDashboard | Children

  /** `isAdmin` of the guard: any of the three roles is 'admin'. */
  predicate AnyAdminRole(user: Option<LooseUser>) {
    ProfileRole(user) == Some("admin") || TopRole(user) == Some("admin") || NestedRole(user) == Some("admin")
  }

  /** The decision, in the order the component returns. */
  function Guard(loading: bool, user: Option<LooseUser>): (o: Outcome)
    ensures loading <==> o == Spinner
    ensures !loading && user.None? ==> o == ToLogin
    ensures o == Children <==> !loading && user.Some? && AnyAdminRole(user)
    ensures o == ToDashboard <==> !loading && user.Some? && !AnyAdminRole(user)
  {
    if loading then Spinner
    else if user.None? then ToLogin
    else if !AnyAdminRole(user) then ToDashboard
    else Children
  }

  /** Whoever the dashboards call an admin passes the guard. */
  lemma DashboardAdminPasses(user: Option<LooseUser>)
    requires user.Some? && UserRole(user) == "admin"
    ensures Guard(false, user) == Children
  {
  }

  /** A top-level 'admin' role passes the guard whatever the profile says,
      while the dashboards read a present profile role first. */
  lemma TopAdminPasses(user: Option<LooseUser>)
    requires user.Some? && user.value.role == Some("admin")
    ensures Guard(false, user) == Children
    ensures Present(ProfileRole(user)) ==> UserRole(user) == ProfileRole(user).value
  {
  }

  /** The converse fails: a user whose profile says 'user' but whose
      top-level role is 'admin' passes the guard, while the dashboards
      treat them as a plain user. */
  lemma GuardWiderThanDashboard()
    ensures var u := Some(LooseUser(Some("admin"), None, None, None, None, None,
                                    Some(Part(Some("user"), None, None, None, None)), None, None));
            Guard(false, u) == Children && UserRole(u) == "user"
  {
  }
}
