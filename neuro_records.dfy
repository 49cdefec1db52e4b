/** The records the NeuroMed pages read from their mock collections (the
    collections themselves are inputs), and the effect every role-restricted
    page runs first.

    Ids are compared with `===`, against one another and against the
    signed-in user's id. The model gives all of them one type: the mock
    collections are not part of this model, and the pages only work when
    their ids and the user's id have the same type. */
module NeuroRecords {
  import opened Js
  import opened AuthContext
  import opened Lists

  datatype Doctor = Doctor(id: int, name: string, specialization: string, email: string, patients: Option<seq<int>>)

  datatype Patient = Patient(id: int, name: string, email: string, assignedDoctors: Option<seq<int>>)

  datatype Mapping = Mapping(id: int, patientId: int, doctorId: int, status: string)

  const ActiveStatus: string := "active"
  const DashboardPath: string := "/dashboard"

  /** `if (!user || user.role !== role) router.push('/dashboard')`: the
      route the page is sent to, `None` when it stays. */
  function RoleRedirect(user: Option<User>, role: string): (target: Option<string>)
    ensures target.None? <==> user.Some? && user.value.role == role
    ensures target.Some? ==> target.value == DashboardPath
  {
    if user.None? || user.value.role != role then Some(DashboardPath) else None
  }

  /** A signed-in user of one role is kept by that role's pages and sent
      away by the pages of every other role. */
  lemma OneRolePerPage(user: User, role: string, other: string)
    requires user.role == role && other != role
    ensures RoleRedirect(Some(user), role).None?
    ensures RoleRedirect(Some(user), other) == Some(DashboardPath)
    ensures RoleRedirect(None, role) == Some(DashboardPath)
  {
  }

  /** `doctors.map(d => d.specialization)`. */
  function Specializations(doctors: seq<Doctor>): (r: seq<string>)
    ensures |r| == |doctors|
    ensures forall i :: 0 <= i < |doctors| ==> r[i] == doctors[i].specialization
  {
    seq(|doctors|, i requires 0 <= i < |doctors| => doctors[i].specialization)
  }

  /** An active mapping of the doctor: what counts towards the doctor's
      patients. */
  predicate ActiveFor(m: Mapping, doctorId: int) {
    m.doctorId == doctorId && m.status == ActiveStatus
  }

  function MappingId(m: Mapping): int {
    m.id
  }

  /** `find` by id. */
  function PatientOf(patients: seq<Patient>, id: int): Option<Patient> {
    Find(patients, (p: Patient) => p.id == id)
  }

  function DoctorOf(doctors: seq<Doctor>, id: int): Option<Doctor> {
    Find(doctors, (d: Doctor) => d.id == id)
  }

  /** The name shown for a patient id (`getPatientName`): the name of the
      first patient with the id, and 'Unknown' when there is none or its
      name is empty. */
  function PatientName(patients: seq<Patient>, id: int): (name: string)
    ensures (forall i :: 0 <= i < |patients| ==> patients[i].id != id) ==> name == "Unknown"
    ensures forall i :: 0 <= i < |patients| && patients[i].id == id && (forall j :: 0 <= j < i ==> patients[j].id != id) ==>
              name == if patients[i].name != "" then patients[i].name else "Unknown"
  {
    var keep := (p: Patient) => p.id == id;
    FindFirst(patients, keep);
    var found := PatientOf(patients, id);
    if found.Some? && found.value.name != "" then found.value.name else "Unknown"
  }

  /** The name shown for a doctor id (`getDoctorName`): the same lookup
      among the doctors. */
  function DoctorName(doctors: seq<Doctor>, id: int): (name: string)
    ensures (forall i :: 0 <= i < |doctors| ==> doctors[i].id != id) ==> name == "Unknown"
    ensures forall i :: 0 <= i < |doctors| && doctors[i].id == id && (forall j :: 0 <= j < i ==> doctors[j].id != id) ==>
              name == if doctors[i].name != "" then doctors[i].name else "Unknown"
  {
    var keep := (d: Doctor) => d.id == id;
    FindFirst(doctors, keep);
    var found := DoctorOf(doctors, id);
    if found.Some? && found.value.name != "" then found.value.name else "Unknown"
  }
}
