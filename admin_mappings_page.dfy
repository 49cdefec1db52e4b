/** The administrator's mapping list of the NeuroMed front end
    (healthcare-frontend/NeuroMed-2f/app/admin/mappings/page.tsx): the
    search over the names a mapping refers to and deletion by id. */
module AdminMappingsPage {
  import opened Js
  import opened Text
  import opened Lists
  import opened AuthContext
  import opened NeuroRecords

  /** The page's effect: anyone but an administrator is sent to
      '/dashboard'. */
  function Redirect(user: Option<User>): (target: Option<string>)
    ensures target.None? <==> user.Some? && user.value.role == "admin"
    ensures target.Some? ==> target.value == DashboardPath
  {
    RoleRedirect(user, "admin")
  }

  /** A mapping passes the search when the name of its patient or of its
      doctor contains the term, ignoring case. A missing record reads as
      undefined, which never passes. */
  predicate Listed(m: Mapping, patients: seq<Patient>, doctors: seq<Doctor>, term: string) {
    (PatientOf(patients, m.patientId).Some? && Matches(PatientOf(patients, m.patientId).value.name, term))
    || (DoctorOf(doctors, m.doctorId).Some? && Matches(DoctorOf(doctors, m.doctorId).value.name, term))
  }

  /** `filtered`: the mappings listed, in their order. */
  function Filtered(mappings: seq<Mapping>, patients: seq<Patient>, doctors: seq<Doctor>, term: string): (r: seq<Mapping>)
    ensures forall m :: m in r <==> m in mappings && Listed(m, patients, doctors, term)
    ensures Subsequence(r, mappings)
  {
    var keep := (m: Mapping) => Listed(m, patients, doctors, term);
    FilterMembers(mappings, keep);
    FilterSubsequence(mappings, keep);
    Filter(mappings, keep)
  }

  /** A mapping whose patient and doctor are both unknown is never listed,
      even for the empty term; one with a known patient or doctor is
      listed for the empty term. */
  lemma UnknownNeverListed(m: Mapping, patients: seq<Patient>, doctors: seq<Doctor>, term: string)
    ensures (forall i :: 0 <= i < |patients| ==> patients[i].id != m.patientId)
            && (forall i :: 0 <= i < |doctors| ==> doctors[i].id != m.doctorId) ==>
              !Listed(m, patients, doctors, term)
    ensures (exists i :: 0 <= i < |patients| && patients[i].id == m.patientId) ==> Listed(m, patients, doctors, "")
  {
    FindFirst(patients, (p: Patient) => p.id == m.patientId);
    FindFirst(doctors, (d: Doctor) => d.id == m.doctorId);
    if PatientOf(patients, m.patientId).Some? {
      MatchesEmptyTerm(PatientOf(patients, m.patientId).value.name);
    }
  }

  /** The page's state: the mappings and the one selected for details. */
  class Page {
    var mappings: seq<Mapping>
    var selected: Option<Mapping>

    constructor (mappings: seq<Mapping>)
      ensures this.mappings == mappings && selected.None?
    {
      this.mappings := mappings;
      selected := None;
    }

    /** `handleDelete`: every mapping with the id goes, the others stay in
        their order, and nothing is selected afterwards. */
    method HandleDelete(id: int)
      modifies this
      ensures mappings == RemoveId(old(mappings), MappingId, id)
      ensures forall m :: m in mappings <==> m in old(mappings) && m.id != id
      ensures selected.None?
    {
      mappings := RemoveId(mappings, MappingId, id);
      selected := None;
    }
  }
}
