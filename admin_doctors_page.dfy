/** The administrator's doctor list of the NeuroMed front end
    (healthcare-frontend/NeuroMed-2f/app/admin/doctors/page.tsx): the
    search, deletion by id and the active-patient figure. */
module AdminDoctorsPage {
  import opened Js
  import opened Text
  import opened Lists
  import opened AuthContext
  import opened NeuroRecords

  /** The page's effect: anyone but an administrator is sent to
      '/dashboard'. */
  function Redirect(user: Option<User>): (target: Option<string>)
    ensures target.None? <==> user.Some? && user.value.role == "admin"
    ensures target.Some? ==> target.value == DashboardPath
  {
    RoleRedirect(user, "admin")
  }

  /** The term is in the name, the specialization or the email, ignoring
      case. */
  predicate Listed(d: Doctor, term: string) {
    Matches(d.name, term) || Matches(d.specialization, term) || Matches(d.email, term)
  }

  /** `filtered`: the doctors listed, in their order. */
  function Filtered(doctors: seq<Doctor>, term: string): (r: seq<Doctor>)
    ensures forall d :: d in r <==> d in doctors && Listed(d, term)
    ensures Subsequence(r, doctors)
  {
    var keep := (d: Doctor) => Listed(d, term);
    FilterMembers(doctors, keep);
    FilterSubsequence(doctors, keep);
    Filter(doctors, keep)
  }

  /** The empty term lists every doctor. */
  lemma EmptyTermListsAll(doctors: seq<Doctor>)
    ensures Filtered(doctors, "") == doctors
  {
    forall i | 0 <= i < |doctors|
      ensures Listed(doctors[i], "")
    {
      MatchesEmptyTerm(doctors[i].name);
    }
    FilterAll(doctors, (d: Doctor) => Listed(d, ""));
  }

  /** `patients?.length || 0`. */
  function ActivePatients(d: Doctor): (n: nat)
    ensures d.patients.None? ==> n == 0
    ensures d.patients.Some? ==> n == |d.patients.value|
  {
    if d.patients.Some? then |d.patients.value| else 0
  }

  function DoctorId(d: Doctor): int {
    d.id
  }

  /** The page's state: the doctors and the one selected for details. */
  class Page {
    var doctors: seq<Doctor>
    var selected: Option<Doctor>

    constructor (doctors: seq<Doctor>)
      ensures this.doctors == doctors && selected.None?
    {
      this.doctors := doctors;
      selected := None;
    }

    /** `handleDelete`: exactly the doctors with the id go, the others stay
        in their order, and nothing is selected afterwards. */
    method HandleDelete(id: int)
      modifies this
      ensures doctors == RemoveId(old(doctors), DoctorId, id)
      ensures forall d :: d in doctors <==> d in old(doctors) && d.id != id
      ensures selected.None?
    {
      doctors := RemoveId(doctors, DoctorId, id);
      selected := None;
    }
  }
}
