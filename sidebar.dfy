/** The navigation sidebar of the NeuroMed front end
    (healthcare-frontend/NeuroMed-2f/components/layout/sidebar.tsx): the
    groups of links, the items offered to the signed-in user's role, and
    which item is highlighted. Icons are not modelled. */
module Sidebar {
  import opened Js
  import AuthContext

  datatype NavItem = NavItem(title: string, href: string, roles: seq<string>)

  const Main: seq<NavItem> := [
    NavItem("Dashboard", "/dashboard", ["patient", "doctor", "admin"]),
    NavItem("Profile", "/profile", ["patient", "doctor", "admin"])]

  const PatientGroup: seq<NavItem> := [
    NavItem("Browse Doctors", "/doctors", ["patient"]),
    NavItem("My Doctors", "/patient/mappings", ["patient"])]

  const DoctorGroup: seq<NavItem> := [
    NavItem("My Patients", "/doctor/patients", ["doctor"]),
    NavItem("My Mappings", "/doctor/mappings", ["doctor"])]

  const AdminGroup: seq<NavItem> := [
    NavItem("Manage Patients", "/admin/patients", ["admin"]),
    NavItem("Manage Doctors", "/admin/doctors", ["admin"]),
    NavItem("View Mappings", "/admin/mappings", ["admin"]),
    NavItem("Reports", "/reports", ["admin"]),
    NavItem("Settings", "/settings", ["admin"])]

  /** `user?.role`, or '' when there is no user (`user?.role || ""`). */
  function RoleOf(user: Option<AuthContext.User>): string {
    if user.Some? then user.value.role else ""
  }

  /** `allItems`: the main group, then the group of the user's role. */
  function AllItems(user: Option<AuthContext.User>): seq<NavItem> {
    Main
    + (if RoleOf(user) == "patient" then PatientGroup else [])
    + (if RoleOf(user) == "doctor" then DoctorGroup else [])
    + (if RoleOf(user) == "admin" then AdminGroup else [])
  }

  /** `items.filter(item => item.roles.includes(role))`: the items listing
      `role`, in their order. */
  function Keep(items: seq<NavItem>, role: string): (r: seq<NavItem>)
    ensures |r| <= |items|
  {
    if items == [] then []
    else (if role in items[0].roles then [items[0]] else []) + Keep(items[1..], role)
  }

  /** Filtering a concatenation filters each part. */
  lemma {:induction false} KeepAppend(a: seq<NavItem>, b: seq<NavItem>, role: string)
    ensures Keep(a + b, role) == Keep(a, role) + Keep(b, role)
    decreases |a|
  {
    if a == [] {
      assert a + b == b;
    } else {
      var head := if role in a[0].roles then [a[0]] else [];
      assert (a + b)[0] == a[0];
      assert (a + b)[1..] == a[1..] + b;
      assert Keep(a + b, role) == head + Keep(a[1..] + b, role);
      KeepAppend(a[1..], b, role);
      assert Keep(a, role) == head + Keep(a[1..], role);
    }
  }

  /** A group none of whose items lists `role` disappears. */
  lemma {:induction false} KeepNone(items: seq<NavItem>, role: string)
    requires forall i :: 0 <= i < |items| ==> role !in items[i].roles
    ensures Keep(items, role) == []
    decreases |items|
  {
    if items != [] {
      KeepNone(items[1..], role);
    }
  }

  /** `filteredItems`. */
  function FilteredItems(user: Option<AuthContext.User>): seq<NavItem> {
    Keep(AllItems(user), RoleOf(user))
  }

  /** Every offered item lists the user's role. */
  lemma OfferedItemsListRole(user: Option<AuthContext.User>)
    ensures forall x :: x in FilteredItems(user) ==> RoleOf(user) in x.roles
  {
    KeepMembers(AllItems(user), RoleOf(user));
  }

  /** The kept items are exactly the items listing `role`. */
  lemma {:induction false} KeepMembers(items: seq<NavItem>, role: string)
    ensures forall x :: x in Keep(items, role) <==> x in items && role in x.roles
    decreases |items|
  {
    if items != [] {
      KeepMembers(items[1..], role);
      assert forall x :: x in items <==> x == items[0] || x in items[1..];
    }
  }

  /** An item list all of whose items list `role` is kept whole. */
  lemma {:induction false} KeepAll(items: seq<NavItem>, role: string)
    requires forall i :: 0 <= i < |items| ==> role in items[i].roles
    ensures Keep(items, role) == items
    decreases |items|
  {
    if items != [] {
      KeepAll(items[1..], role);
    }
  }

  /** A patient gets Dashboard, Profile, Browse Doctors and My Doctors. */
  lemma PatientItems(user: Option<AuthContext.User>)
    requires RoleOf(user) == "patient"
    ensures FilteredItems(user) == Main + PatientGroup
  {
    assert AllItems(user) == Main + PatientGroup;
    KeepAppend(Main, PatientGroup, "patient");
    KeepAll(Main, "patient");
    KeepAll(PatientGroup, "patient");
  }

  /** A doctor gets Dashboard, Profile, My Patients and My Mappings. */
  lemma DoctorItems(user: Option<AuthContext.User>)
    requires RoleOf(user) == "doctor"
    ensures FilteredItems(user) == Main + DoctorGroup
  {
    assert AllItems(user) == Main + DoctorGroup;
    KeepAppend(Main, DoctorGroup, "doctor");
    KeepAll(Main, "doctor");
    KeepAll(DoctorGroup, "doctor");
  }

  /** An admin gets Dashboard, Profile and the five admin items. */
  lemma AdminItems(user: Option<AuthContext.User>)
    requires RoleOf(user) == "admin"
    ensures FilteredItems(user) == Main + AdminGroup
  {
    assert AllItems(user) == Main + AdminGroup;
    KeepAppend(Main, AdminGroup, "admin");
    KeepAll(Main, "admin");
    KeepAll(AdminGroup, "admin");
  }

  /** Without a user, or for a role outside the three, nothing is offered:
      not even Dashboard and Profile. */
  lemma NoItems(user: Option<AuthContext.User>)
    requires RoleOf(user) != "patient" && RoleOf(user) != "doctor" && RoleOf(user) != "admin"
    ensures FilteredItems(user) == []
  {
    assert AllItems(user) == Main;
    KeepNone(Main, RoleOf(user));
  }

  /** `isActive`: the item's link is exactly the current path. */
  predicate IsActive(pathname: string, item: NavItem) {
    pathname == item.href
  }

  /** No two offered items share a link, so at most one is highlighted. */
  lemma AtMostOneActive(user: Option<AuthContext.User>, pathname: string, i: int, j: int)
    requires 0 <= i < j < |FilteredItems(user)|
    ensures !(IsActive(pathname, FilteredItems(user)[i]) && IsActive(pathname, FilteredItems(user)[j]))
  {
    var role := RoleOf(user);
    if role == "patient" {
      PatientItems(user);
    } else if role == "doctor" {
      DoctorItems(user);
    } else if role == "admin" {
      AdminItems(user);
    } else {
      NoItems(user);
    }
  }
}
