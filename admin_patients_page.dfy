/** The administrator's patient list of the NeuroMed front end
    (healthcare-frontend/NeuroMed-2f/app/admin/patients/page.tsx): the
    search, deletion by id and the assigned-doctors figure. */
module AdminPatientsPage {
  import opened Js
  import opened Text
  import opened Lists
  import opened AuthContext
  import opened NeuroRecords

  /** The page's effect: anyone but an administrator is sent to
      '/dashboard'. */
  function Redirect(user: Option<User>): (target: Option<string>)
    ensures target.None? <==> user.Some? && user.value.role == "admin"
    ensures target.Some? ==> target.value == DashboardPath
  {
    RoleRedirect(user, "admin")
  }

  /** The term is in the name or the email, ignoring case. */
  predicate Listed(p: Patient, term: string) {
    Matches(p.name, term) || Matches(p.email, term)
  }

  /** `filtered`: the patients listed, in their order. */
  function Filtered(patients: seq<Patient>, term: string): (r: seq<Patient>)
    ensures forall p :: p in r <==> p in patients && Listed(p, term)
    ensures Subsequence(r, patients)
  {
    var keep := (p: Patient) => Listed(p, term);
    FilterMembers(patients, keep);
    FilterSubsequence(patients, keep);
    Filter(patients, keep)
  }

  /** The empty term lists every patient. */
  lemma EmptyTermListsAll(patients: seq<Patient>)
    ensures Filtered(patients, "") == patients
  {
    forall i | 0 <= i < |patients|
      ensures Listed(patients[i], "")
    {
      MatchesEmptyTerm(patients[i].name);
    }
    FilterAll(patients, (p: Patient) => Listed(p, ""));
  }

  /** `assignedDoctors?.length || 0`. */
  function AssignedDoctors(p: Patient): (n: nat)
    ensures p.assignedDoctors.None? ==> n == 0
    ensures p.assignedDoctors.Some? ==> n == |p.assignedDoctors.value|
  {
    if p.assignedDoctors.Some? then |p.assignedDoctors.value| else 0
  }

  function PatientId(p: Patient): int {
    p.id
  }

  /** The page's state: the patients and the one selected for details. */
  class Page {
    var patients: seq<Patient>
    var selected: Option<Patient>

    constructor (patients: seq<Patient>)
      ensures this.patients == patients && selected.None?
    {
      this.patients := patients;
      selected := None;
    }

    /** `handleDelete`: exactly the patients with the id go, the others
        stay in their order, and nothing is selected afterwards. */
    method HandleDelete(id: int)
      modifies this
      ensures patients == RemoveId(old(patients), PatientId, id)
      ensures forall p :: p in patients <==> p in old(patients) && p.id != id
      ensures selected.None?
    {
      patients := RemoveId(patients, PatientId, id);
      selected := None;
    }
  }
}
