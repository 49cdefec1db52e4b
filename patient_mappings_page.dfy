/** The patient's list of doctors of the NeuroMed front end
    (healthcare-frontend/NeuroMed-2f/app/patient/mappings/page.tsx): the
    signed-in patient's active mappings, the search over their doctors and
    the details panel. */
module PatientMappingsPage {
  import opened Js
  import opened Text
  import opened Lists
  import opened AuthContext
  import opened NeuroRecords

  /** The page's effect: anyone but a patient is sent to '/dashboard'. */
  function Redirect(user: Option<User>): (target: Option<string>)
    ensures target.None? <==> user.Some? && user.value.role == "patient"
    ensures target.Some? ==> target.value == DashboardPath
  {
    RoleRedirect(user, "patient")
  }

  /** `patientMappings`: the patient's active mappings, in order. */
  function PatientMappings(mappings: seq<Mapping>, patientId: int): (r: seq<Mapping>)
    ensures forall m :: m in r <==> m in mappings && m.patientId == patientId && m.status == ActiveStatus
    ensures Subsequence(r, mappings)
  {
    var keep := (m: Mapping) => m.patientId == patientId && m.status == ActiveStatus;
    FilterMembers(mappings, keep);
    FilterSubsequence(mappings, keep);
    Filter(mappings, keep)
  }

  /** The list the page's effect stores: nothing when it redirects. */
  function Loaded(user: Option<User>, mappings: seq<Mapping>): (r: seq<Mapping>)
    ensures forall m :: m in r <==>
              user.Some? && user.value.role == "patient" && m in mappings
              && m.patientId == user.value.id && m.status == ActiveStatus
  {
    if Redirect(user).Some? then [] else PatientMappings(mappings, user.value.id)
  }

  /** A mapping passes the search when its doctor is known and the term is
      in the doctor's name or specialization, ignoring case. */
  predicate Shown(m: Mapping, doctors: seq<Doctor>, term: string) {
    DoctorOf(doctors, m.doctorId).Some?
    && (Matches(DoctorOf(doctors, m.doctorId).value.name, term)
        || Matches(DoctorOf(doctors, m.doctorId).value.specialization, term))
  }

  /** `filtered`: the mappings shown, in order. */
  function Filtered(mappings: seq<Mapping>, doctors: seq<Doctor>, term: string): (r: seq<Mapping>)
    ensures forall m :: m in r <==> m in mappings && Shown(m, doctors, term)
    ensures Subsequence(r, mappings)
  {
    var keep := (m: Mapping) => Shown(m, doctors, term);
    FilterMembers(mappings, keep);
    FilterSubsequence(mappings, keep);
    Filter(mappings, keep)
  }

  /** A mapping is never shown when no doctor has its doctor id, and always
      shown for the empty term when one does. */
  lemma ShownIffDoctorKnown(m: Mapping, doctors: seq<Doctor>, term: string)
    ensures (forall i :: 0 <= i < |doctors| ==> doctors[i].id != m.doctorId) ==> !Shown(m, doctors, term)
    ensures Shown(m, doctors, "") <==> exists i :: 0 <= i < |doctors| && doctors[i].id == m.doctorId
  {
    FindFirst(doctors, (d: Doctor) => d.id == m.doctorId);
    if DoctorOf(doctors, m.doctorId).Some? {
      MatchesEmptyTerm(DoctorOf(doctors, m.doctorId).value.name);
    }
  }

  /** The details panel renders only for a selected mapping whose doctor
      resolves. */
  predicate DetailsShown(selected: Option<Mapping>, doctors: seq<Doctor>) {
    selected.Some? && DoctorOf(doctors, selected.value.doctorId).Some?
  }

  lemma DetailsNeedDoctor(selected: Option<Mapping>, doctors: seq<Doctor>)
    ensures DetailsShown(selected, doctors) <==>
              selected.Some? && exists i :: 0 <= i < |doctors| && doctors[i].id == selected.value.doctorId
  {
    if selected.Some? {
      FindFirst(doctors, (d: Doctor) => d.id == selected.value.doctorId);
    }
  }
}
