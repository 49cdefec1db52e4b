/** The doctor directory of the NeuroMed front end
    (healthcare-frontend/NeuroMed-2f/app/doctors/page.tsx): the
    specialization options, the search, each doctor's active-patient count
    and whether the signed-in patient is already connected to a doctor. */
module DoctorsPage {
  import opened Js
  import opened Text
  import opened Lists
  import opened StringOrder
  import opened AuthContext
  import opened NeuroRecords

  const LoginPath: string := "/login"

  /** The page's effect: without a user it sends the browser to '/login';
      any signed-in user stays. */
  function Redirect(user: Option<User>): (target: Option<string>)
    ensures target.None? <==> user.Some?
    ensures target.Some? ==> target.value == LoginPath
  {
    if user.None? then Some(LoginPath) else None
  }

  /** `Array.from(new Set(specializations)).sort()`. */
  function SpecializationOptions(doctors: seq<Doctor>): seq<string> {
    Sort(Distinct(Specializations(doctors)))
  }

  /** The options name every specialization some doctor has, and nothing
      else, each once and in ascending order. */
  lemma SpecializationOptionsMeaning(doctors: seq<Doctor>)
    ensures forall s :: s in SpecializationOptions(doctors) <==>
              exists i :: 0 <= i < |doctors| && doctors[i].specialization == s
    ensures var r := SpecializationOptions(doctors);
            forall i, j :: 0 <= i < j < |r| ==> Leq(r[i], r[j]) && r[i] != r[j]
  {
    var d := Distinct(Specializations(doctors));
    DistinctMeaning(Specializations(doctors));
    SortDistinct(d);
    forall s
      ensures s in SpecializationOptions(doctors) <==> exists i :: 0 <= i < |doctors| && doctors[i].specialization == s
    {
      OptionMember(doctors, s);
    }
  }

  lemma OptionMember(doctors: seq<Doctor>, s: string)
    requires forall x :: x in Distinct(Specializations(doctors)) <==> x in Specializations(doctors)
    ensures s in SpecializationOptions(doctors) <==> exists i :: 0 <= i < |doctors| && doctors[i].specialization == s
  {
    var specs := Specializations(doctors);
    assert s in SpecializationOptions(doctors) <==> s in multiset(Distinct(specs));
    if s in specs {
      var i :| 0 <= i < |specs| && specs[i] == s;
      assert doctors[i].specialization == s;
    }
  }

  /** A doctor passes the search and the specialization filter: the term
      is in the name or the specialization, ignoring case, and a chosen
      specialization must match exactly. */
  predicate Shown(d: Doctor, term: string, specialization: string) {
    (Matches(d.name, term) || Matches(d.specialization, term))
    && (specialization == "" || d.specialization == specialization)
  }

  /** `filtered`: the doctors shown, in their order. */
  function Filtered(doctors: seq<Doctor>, term: string, specialization: string): (r: seq<Doctor>)
    ensures forall d :: d in r <==> d in doctors && Shown(d, term, specialization)
    ensures Subsequence(r, doctors)
  {
    var keep := (d: Doctor) => Shown(d, term, specialization);
    FilterMembers(doctors, keep);
    FilterSubsequence(doctors, keep);
    Filter(doctors, keep)
  }

  /** With an empty term and no specialization chosen every doctor is
      listed. */
  lemma NoCriteriaShowsAll(doctors: seq<Doctor>)
    ensures Filtered(doctors, "", "") == doctors
  {
    forall i | 0 <= i < |doctors|
      ensures Shown(doctors[i], "", "")
    {
      MatchesEmptyTerm(doctors[i].name);
    }
    FilterAll(doctors, (d: Doctor) => Shown(d, "", ""));
  }

  /** `getDoctorPatientCount`: the active mappings naming the doctor. */
  function PatientCount(mappings: seq<Mapping>, doctorId: int): nat {
    |Filter(mappings, (m: Mapping) => ActiveFor(m, doctorId))|
  }

  /** The count grows by one exactly for an appended active mapping of
      the doctor, and is zero iff there is none. */
  lemma PatientCountMeaning(mappings: seq<Mapping>, m: Mapping, doctorId: int)
    ensures PatientCount(mappings + [m], doctorId) == PatientCount(mappings, doctorId) + if ActiveFor(m, doctorId) then 1 else 0
    ensures PatientCount(mappings, doctorId) == 0 <==> forall i :: 0 <= i < |mappings| ==> !ActiveFor(mappings[i], doctorId)
  {
    var keep := (x: Mapping) => ActiveFor(x, doctorId);
    FilterSnoc(mappings, m, keep);
    FilterMembers(mappings, keep);
    var f := Filter(mappings, keep);
    if PatientCount(mappings, doctorId) == 0 {
      assert f == [];
      forall i | 0 <= i < |mappings|
        ensures !ActiveFor(mappings[i], doctorId)
      {
        assert mappings[i] in mappings;
        assert mappings[i] !in f;
      }
    } else {
      assert f[0] in f;
      var i :| 0 <= i < |mappings| && mappings[i] == f[0];
      assert ActiveFor(mappings[i], doctorId);
    }
  }

  /** `isAlreadyMapped`: false unless the user is a patient; for a patient,
      some active mapping links them to the doctor. */
  predicate IsAlreadyMapped(user: Option<User>, mappings: seq<Mapping>, doctorId: int) {
    user.Some? && user.value.role == "patient"
    && exists i :: 0 <= i < |mappings| && mappings[i].patientId == user.value.id && ActiveFor(mappings[i], doctorId)
  }

  /** A doctor a patient is connected to has at least one active patient. */
  lemma MappedDoctorCounted(user: Option<User>, mappings: seq<Mapping>, doctorId: int)
    requires IsAlreadyMapped(user, mappings, doctorId)
    ensures PatientCount(mappings, doctorId) >= 1
  {
    var i :| 0 <= i < |mappings| && mappings[i].patientId == user.value.id && ActiveFor(mappings[i], doctorId);
    PatientCountMeaning(mappings, mappings[i], doctorId);
  }

  /** The details panel offers "Connect with Doctor" to a patient not yet
      connected; the card's button is disabled exactly when connected. */
  predicate ConnectOffered(user: Option<User>, mappings: seq<Mapping>, doctorId: int) {
    user.Some? && user.value.role == "patient" && !IsAlreadyMapped(user, mappings, doctorId)
  }

  predicate ButtonDisabled(user: Option<User>, mappings: seq<Mapping>, doctorId: int) {
    IsAlreadyMapped(user, mappings, doctorId)
  }

  /** Connecting is offered only to patients, never for a doctor whose
      button is disabled, and for every doctor when the patient has no
      active mappings. */
  lemma ConnectRules(user: Option<User>, mappings: seq<Mapping>, doctorId: int)
    ensures ConnectOffered(user, mappings, doctorId) ==> user.value.role == "patient" && !ButtonDisabled(user, mappings, doctorId)
    ensures user.Some? && user.value.role != "patient" ==>
              !ConnectOffered(user, mappings, doctorId) && !ButtonDisabled(user, mappings, doctorId)
    ensures user.Some? && user.value.role == "patient"
            && (forall i :: 0 <= i < |mappings| ==> mappings[i].status != ActiveStatus) ==>
              ConnectOffered(user, mappings, doctorId)
  {
  }
}
