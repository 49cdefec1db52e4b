/** The role guards of the NeuroMed patient and doctor sections
    (healthcare-frontend/NeuroMed-2f/app/patient/layout.tsx and
    healthcare-frontend/NeuroMed-2f/app/doctor/layout.tsx): what each layout
    renders, and where its effect redirects. Without a user neither
    redirects: it renders nothing until the session is known. */
module RoleLayouts {
  import opened Js
  import AuthContext

  datatype View = Nothing | Children

  /** One evaluation of a layout: what it renders and the route its effect
      pushes, if any. */
  datatype Layout = Layout(view: View, redirect: Option<string>)

  /** `PatientLayout`. */
  function PatientLayout(user: Option<AuthContext.User>): (l: Layout)
    ensures l.view == Children <==> user.Some? && user.value.role == "patient"
    ensures l.redirect.Some? <==> user.Some? && user.value.role != "patient"
    ensures l.redirect.Some? ==> l.redirect.value == "/dashboard" && l.view == Nothing
  {
    Layout(if user.Some? && user.value.role == "patient" then Children else Nothing,
           if user.Some? && user.value.role != "patient" then Some("/dashboard") else None)
  }

  /** `DoctorLayout`. */
  function DoctorLayout(user: Option<AuthContext.User>): (l: Layout)
    ensures l.view == Children <==> user.Some? && user.value.role == "doctor"
    ensures l.redirect.Some? <==> user.Some? && user.value.role != "doctor"
    ensures l.redirect.Some? ==> l.redirect.value == "/dashboard" && l.view == Nothing
  {
    Layout(if user.Some? && user.value.role == "doctor" then Children else Nothing,
           if user.Some? && user.value.role != "doctor" then Some("/dashboard") else None)
  }

  /** No signed-in user is let into both sections, and every signed-in user
      is either let into a section or redirected away from it. */
  lemma SectionsExclusive(user: Option<AuthContext.User>)
    ensures !(PatientLayout(user).view == Children && DoctorLayout(user).view == Children)
    ensures user.Some? ==> (PatientLayout(user).view == Children) != PatientLayout(user).redirect.Some?
    ensures user.Some? ==> (DoctorLayout(user).view == Children) != DoctorLayout(user).redirect.Some?
    ensures user.None? ==> PatientLayout(user) == DoctorLayout(user) == Layout(Nothing, None)
  {
  }
}
