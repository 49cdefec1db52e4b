/** The doctor's mapping list of the NeuroMed front end
    (healthcare-frontend/NeuroMed-2f/app/doctor/mappings/page.tsx): every
    mapping of the signed-in doctor, the search over their patients, and
    the removal handler with its loading flag.

    The handler awaits a 500 ms timer between setting the flag and
    applying the removal; the timer is not modelled, and the handler is
    the two steps on either side of it. */
module DoctorMappingsPage {
  import opened Js
  import opened Text
  import opened Lists
  import opened AuthContext
  import opened NeuroRecords

  /** The page's effect: anyone but a doctor is sent to '/dashboard'. */
  function Redirect(user: Option<User>): (target: Option<string>)
    ensures target.None? <==> user.Some? && user.value.role == "doctor"
    ensures target.Some? ==> target.value == DashboardPath
  {
    RoleRedirect(user, "doctor")
  }

  /** `doctorMappings`: all of the doctor's mappings, whatever their
      status. */
  function DoctorMappings(mappings: seq<Mapping>, doctorId: int): (r: seq<Mapping>)
    ensures forall m :: m in r <==> m in mappings && m.doctorId == doctorId
    ensures Subsequence(r, mappings)
  {
    var keep := (m: Mapping) => m.doctorId == doctorId;
    FilterMembers(mappings, keep);
    FilterSubsequence(mappings, keep);
    Filter(mappings, keep)
  }

  /** The list the page's effect stores: nothing when it redirects. */
  function Loaded(user: Option<User>, mappings: seq<Mapping>): (r: seq<Mapping>)
    ensures forall m :: m in r <==>
              user.Some? && user.value.role == "doctor" && m in mappings && m.doctorId == user.value.id
  {
    if Redirect(user).Some? then [] else DoctorMappings(mappings, user.value.id)
  }

  /** A mapping passes the search when its patient is known and the term
      is in the patient's name, ignoring case. */
  predicate Shown(m: Mapping, patients: seq<Patient>, term: string) {
    PatientOf(patients, m.patientId).Some? && Matches(PatientOf(patients, m.patientId).value.name, term)
  }

  /** `filtered`: the mappings shown, in order; its length is the count
      the page shows. */
  function Filtered(mappings: seq<Mapping>, patients: seq<Patient>, term: string): (r: seq<Mapping>)
    ensures forall m :: m in r <==> m in mappings && Shown(m, patients, term)
    ensures Subsequence(r, mappings)
  {
    var keep := (m: Mapping) => Shown(m, patients, term);
    FilterMembers(mappings, keep);
    FilterSubsequence(mappings, keep);
    Filter(mappings, keep)
  }

  /** A mapping whose patient is unknown is never shown, whatever the
      term. */
  lemma UnknownPatientNeverShown(m: Mapping, patients: seq<Patient>, term: string)
    requires forall i :: 0 <= i < |patients| ==> patients[i].id != m.patientId
    ensures !Shown(m, patients, term)
  {
    FindFirst(patients, (p: Patient) => p.id == m.patientId);
  }

  /** The page labels `filtered.length` as its count of "active mappings",
      but the list is not limited to active mappings: a doctor whose only
      mapping is inactive, with a known patient, is shown a count of one. */
  lemma InactiveCounted(m: Mapping, patients: seq<Patient>)
    requires m.status != ActiveStatus
    requires exists i :: 0 <= i < |patients| && patients[i].id == m.patientId
    ensures |Filtered(DoctorMappings([m], m.doctorId), patients, "")| == 1
    ensures !ActiveFor(m, m.doctorId)
  {
    FindFirst(patients, (p: Patient) => p.id == m.patientId);
    MatchesEmptyTerm(PatientOf(patients, m.patientId).value.name);
    assert DoctorMappings([m], m.doctorId) == [m];
    assert Filtered([m], patients, "") == [m];
  }

  /** The page's state. */
  class Page {
    var mappings: seq<Mapping>
    var selected: Option<Mapping>
    var loading: bool

    constructor (mappings: seq<Mapping>)
      ensures this.mappings == mappings && selected.None? && !loading
    {
      this.mappings := mappings;
      selected := None;
      loading := false;
    }

    /** The remove buttons are enabled iff no removal is in progress. */
    predicate RemoveEnabled()
      reads this
    {
      !loading
    }

    /** `handleRemoveMapping` up to its timer: the flag is raised and
        nothing else changes. */
    method StartRemoval()
      modifies this
      ensures loading && !RemoveEnabled()
      ensures mappings == old(mappings) && selected == old(selected)
    {
      loading := true;
    }

    /** `handleRemoveMapping` after its timer: exactly the mappings with the
        id go, the selection is cleared and the flag is lowered. The source's
        callback filters the list captured at the click, not the current
        one. The two are the same list: `StartRemoval` disables every remove
        button, and nothing else changes the list while the timer runs. */
    method FinishRemoval(id: int)
      modifies this
      ensures mappings == RemoveId(old(mappings), MappingId, id)
      ensures forall m :: m in mappings <==> m in old(mappings) && m.id != id
      ensures selected.None? && !loading && RemoveEnabled()
    {
      mappings := RemoveId(mappings, MappingId, id);
      selected := None;
      loading := false;
    }
  }
}
