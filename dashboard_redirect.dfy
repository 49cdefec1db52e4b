/** The `/dashboard` entry page of the NeuroMed front end
    (healthcare-frontend/NeuroMed-2f/app/dashboard/page.tsx): once the
    session is known, it sends the user to the dashboard of their role.
    `router.push` is modelled by the route returned; `None` is no push. */
module DashboardRedirect {
  import opened Js
  import AuthContext

  /** The effect's single if/else-if chain. */
  function Redirect(isLoading: bool, user: Option<AuthContext.User>): (route: Option<string>)
    ensures isLoading ==> route.None?
    ensures !isLoading && user.None? ==> route == Some("/login")
    ensures !isLoading && user.Some? && user.value.role == "admin" ==> route == Some("/admin/dashboard")
    ensures !isLoading && user.Some? && user.value.role == "doctor" ==> route == Some("/doctor/dashboard")
    ensures !isLoading && user.Some? && user.value.role == "patient" ==> route == Some("/patient/dashboard")
    ensures !isLoading && user.Some? && user.value.role !in {"admin", "doctor", "patient"} ==> route.None?
  {
    if isLoading then None
    else if user.None? then Some("/login")
    else if user.value.role == "admin" then Some("/admin/dashboard")
    else if user.value.role == "doctor" then Some("/doctor/dashboard")
    else if user.value.role == "patient" then Some("/patient/dashboard")
    else None
  }

  /** A signed-in user is sent to a dashboard exactly when their role is
      one of the three, and each role gets its own target. */
  lemma RedirectTargetsDistinct(u: AuthContext.User, v: AuthContext.User)
    ensures Redirect(false, Some(u)).Some? <==> u.role in {"admin", "doctor", "patient"}
    ensures Redirect(false, Some(u)).Some? && Redirect(false, Some(u)) == Redirect(false, Some(v)) ==> u.role == v.role
    ensures Redirect(false, Some(u)) != Some("/login")
  {
  }
}
