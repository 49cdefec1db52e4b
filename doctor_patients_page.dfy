/** The doctor's patient list of the NeuroMed front end
    (healthcare-frontend/NeuroMed-2f/app/doctor/patients/page.tsx): the
    patients an active mapping ties to the signed-in doctor, and the
    search over them. */
module DoctorPatientsPage {
  import opened Js
  import opened Text
  import opened Lists
  import opened AuthContext
  import opened NeuroRecords

  /** The page's effect: anyone but a doctor is sent to '/dashboard'. */
  function Redirect(user: Option<User>): (target: Option<string>)
    ensures target.None? <==> user.Some? && user.value.role == "doctor"
    ensures target.Some? ==> target.value == DashboardPath
  {
    RoleRedirect(user, "doctor")
  }

  /** `mappedPatientIds`: the patient id of each active mapping of the
      doctor, in mapping order. */
  function MappedPatientIds(mappings: seq<Mapping>, doctorId: int): (ids: seq<int>)
    ensures forall id :: id in ids <==> exists m :: m in mappings && ActiveFor(m, doctorId) && m.patientId == id
  {
    var keep := (m: Mapping) => ActiveFor(m, doctorId);
    var mine := Filter(mappings, keep);
    FilterMembers(mappings, keep);
    var ids := seq(|mine|, i requires 0 <= i < |mine| => mine[i].patientId);
    assert forall id :: id in ids ==> exists m :: m in mine && m.patientId == id by {
      forall id | id in ids
        ensures exists m :: m in mine && m.patientId == id
      {
        var i :| 0 <= i < |ids| && ids[i] == id;
        assert mine[i] in mine;
      }
    }
    assert forall m :: m in mine ==> m.patientId in ids by {
      forall m | m in mine
        ensures m.patientId in ids
      {
        var i :| 0 <= i < |mine| && mine[i] == m;
        assert ids[i] == m.patientId;
      }
    }
    ids
  }

  /** `doctorPatients`: the patients whose id is mapped, in the order of
      the patient collection. A patient occurs as often as in the
      collection, however many mappings name it. */
  function DoctorPatients(patients: seq<Patient>, mappings: seq<Mapping>, doctorId: int): (r: seq<Patient>)
    ensures forall p :: p in r <==> p in patients && p.id in MappedPatientIds(mappings, doctorId)
    ensures Subsequence(r, patients)
    ensures forall p :: multiset(r)[p] == if p.id in MappedPatientIds(mappings, doctorId) then multiset(patients)[p] else 0
  {
    var ids := MappedPatientIds(mappings, doctorId);
    var keep := (p: Patient) => p.id in ids;
    FilterMembers(patients, keep);
    FilterSubsequence(patients, keep);
    forall p
      ensures multiset(Filter(patients, keep))[p] == if p.id in ids then multiset(patients)[p] else 0
    {
      FilterMultiplicity(patients, keep, p);
    }
    Filter(patients, keep)
  }

  /** The list the page's effect stores: nothing when it redirects. */
  function Loaded(user: Option<User>, patients: seq<Patient>, mappings: seq<Mapping>): seq<Patient> {
    if Redirect(user).Some? then [] else DoctorPatients(patients, mappings, user.value.id)
  }

  /** A patient is on the list iff the signed-in user is a doctor and an
      active mapping links the patient to them. */
  lemma LoadedMeaning(user: Option<User>, patients: seq<Patient>, mappings: seq<Mapping>, p: Patient)
    ensures p in Loaded(user, patients, mappings) <==>
              user.Some? && user.value.role == "doctor" && p in patients
              && exists m :: m in mappings && ActiveFor(m, user.value.id) && m.patientId == p.id
  {
  }

  /** The term is in the name or the email, ignoring case. */
  predicate Listed(p: Patient, term: string) {
    Matches(p.name, term) || Matches(p.email, term)
  }

  /** `filtered`: the listed patients that pass the search, in order. */
  function Filtered(patients: seq<Patient>, term: string): (r: seq<Patient>)
    ensures forall p :: p in r <==> p in patients && Listed(p, term)
    ensures Subsequence(r, patients)
  {
    var keep := (p: Patient) => Listed(p, term);
    FilterMembers(patients, keep);
    FilterSubsequence(patients, keep);
    Filter(patients, keep)
  }
}
