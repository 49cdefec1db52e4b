/** The tables of the Django back end (healthcare_backend/api/models.py) as
    one in-memory database: users, patients, doctors and patient-doctor
    mappings, each a map from primary key to row. The foreign keys, the
    CASCADE deletions, the unique doctor email and the unique
    (patient, doctor) pair are the invariants of the updates below.

    The doctor's `user` link comes from the migration
    healthcare_backend/api/migrations/002_doctor_user.py (a nullable
    one-to-one key); `is_approved` is read by the admin actions but
    declared in no model shown, and is kept here as a plain flag. */
module Store {
  import opened Js

  /** A `CustomUser` row: only what the back end reads or writes. */
  datatype Account = Account(username: string, email: string, role: string, isActive: bool)

  datatype Patient = Patient(owner: int, name: string, age: int, gender: string, address: string, condition: string)

  datatype Doctor = Doctor(
    name: string, specialization: string, contact: string, email: string,
    createdBy: Option<int>, user: Option<int>, isApproved: bool)

  datatype Mapping = Mapping(patient: int, doctor: int)

  /** `role = CharField(choices=..., default='user')`: the stored role when
      the creator gives one or not. Choices are checked by form and
      serializer validation, not on save. */
  function DefaultRole(role: Option<string>): (r: string)
    ensures role.None? ==> r == "user"
    ensures role.Some? ==> r == role.value
  {
    if role.Some? then role.value else "user"
  }

  predicate IsRoleChoice(role: string) {
    role == "user" || role == "admin"
  }

  /** Every patient's owner exists. */
  predicate PatientsOwned(users: map<int, Account>, patients: map<int, Patient>) {
    forall p :: p in patients ==> patients[p].owner in users
  }

  /** Every doctor's creator and linked user exist. */
  predicate DoctorsLinked(users: map<int, Account>, doctors: map<int, Doctor>) {
    forall d :: d in doctors ==>
      (doctors[d].createdBy.Some? ==> doctors[d].createdBy.value in users)
      && (doctors[d].user.Some? ==> doctors[d].user.value in users)
  }

  /** `email = EmailField(unique=True)`. */
  predicate EmailsUnique(doctors: map<int, Doctor>) {
    forall d, e :: d in doctors && e in doctors && d != e ==> doctors[d].email != doctors[e].email
  }

  /** The doctor-user link is one-to-one. */
  predicate UserLinksUnique(doctors: map<int, Doctor>) {
    forall d, e :: d in doctors && e in doctors && d != e && doctors[d].user.Some? ==> doctors[d].user != doctors[e].user
  }

  /** Every mapping's patient and doctor exist. */
  predicate MappingsLinked(patients: map<int, Patient>, doctors: map<int, Doctor>, mappings: map<int, Mapping>) {
    forall m :: m in mappings ==> mappings[m].patient in patients && mappings[m].doctor in doctors
  }

  /** The `unique_patient_doctor` constraint. */
  predicate PairsUnique(mappings: map<int, Mapping>) {
    forall m, n :: m in mappings && n in mappings && m != n ==> mappings[m] != mappings[n]
  }

  /** The mappings that reference neither a removed patient nor a removed
      doctor: what CASCADE leaves. */
  function Surviving(mappings: map<int, Mapping>, patients: set<int>, doctors: set<int>): (r: map<int, Mapping>)
    ensures r.Keys <= mappings.Keys
    ensures forall m :: m in r ==> r[m] == mappings[m]
    ensures forall m :: m in mappings ==> (m in r <==> mappings[m].patient !in patients && mappings[m].doctor !in doctors)
  {
    map m | m in mappings && mappings[m].patient !in patients && mappings[m].doctor !in doctors :: mappings[m]
  }

  /** `str(mapping)`. */
  function MappingLabel(patientName: string, doctorName: string): (s: string)
    ensures |s| == |patientName| + 3 + |doctorName|
    ensures s[..|patientName|] == patientName
    ensures s[|s| - |doctorName|..] == doctorName
    ensures s[|patientName|..|s| - |doctorName|] == " - "
  {
    patientName + " - " + doctorName
  }

  class Database {
    var users: map<int, Account>
    var patients: map<int, Patient>
    var doctors: map<int, Doctor>
    var mappings: map<int, Mapping>
    /** The next primary key handed out: larger than every key in use. */
    var nextId: int

    predicate Valid()
      reads this
    {
      && PatientsOwned(users, patients)
      && DoctorsLinked(users, doctors)
      && EmailsUnique(doctors)
      && UserLinksUnique(doctors)
      && MappingsLinked(patients, doctors, mappings)
      && PairsUnique(mappings)
      && (forall k :: k in users ==> k < nextId)
      && (forall k :: k in patients ==> k < nextId)
      && (forall k :: k in doctors ==> k < nextId)
      && (forall k :: k in mappings ==> k < nextId)
    }

    constructor ()
      ensures Valid()
      ensures users == map[] && patients == map[] && doctors == map[] && mappings == map[]
    {
      users := map[];
      patients := map[];
      doctors := map[];
      mappings := map[];
      nextId := 1;
    }

    /** The label of a stored mapping. */
    function Label(m: int): string
      reads this
      requires Valid() && m in mappings
    {
      MappingLabel(patients[mappings[m].patient].name, doctors[mappings[m].doctor].name)
    }

    /** Saving a new user; the role defaults to 'user'. */
    method CreateUser(username: string, email: string, role: Option<string>) returns (id: int)
      requires Valid()
      modifies this
      ensures Valid()
      ensures id !in old(users) && users == old(users)[id := Account(username, email, DefaultRole(role), true)]
      ensures patients == old(patients) && doctors == old(doctors) && mappings == old(mappings)
    {
      id := nextId;
      nextId := nextId + 1;
      users := users[id := Account(username, email, DefaultRole(role), true)];
    }

    /** Saving a new patient owned by `owner`. */
    method InsertPatient(row: Patient) returns (id: int)
      requires Valid() && row.owner in users
      modifies this
      ensures Valid()
      ensures id !in old(patients) && patients == old(patients)[id := row]
      ensures users == old(users) && doctors == old(doctors) && mappings == old(mappings)
    {
      id := nextId;
      nextId := nextId + 1;
      patients := patients[id := row];
    }

    /** Saving changed fields of a stored patient; the owner is fixed. */
    method UpdatePatient(id: int, row: Patient)
      requires Valid() && id in patients && row.owner == patients[id].owner
      modifies this`patients
      ensures Valid()
      ensures patients == old(patients)[id := row]
    {
      patients := patients[id := row];
    }

    /** Deleting a patient deletes every mapping that references it. */
    method DeletePatient(id: int)
      requires Valid() && id in patients
      modifies this`patients, this`mappings
      ensures Valid()
      ensures patients == old(patients) - {id}
      ensures mappings == Surviving(old(mappings), {id}, {})
    {
      patients := patients - {id};
      mappings := Surviving(mappings, {id}, {});
    }

    /** Saving a new doctor: refused (`None`) when another doctor has the
        same email, or when its creator or linked user is missing or the
        user is already linked. */
    method InsertDoctor(row: Doctor) returns (id: Option<int>)
      requires Valid()
      modifies this
      ensures Valid()
      ensures id.None? <==>
                (exists d :: d in old(doctors) && old(doctors)[d].email == row.email)
                || (row.createdBy.Some? && row.createdBy.value !in old(users))
                || (row.user.Some? && (row.user.value !in old(users) || exists d :: d in old(doctors) && old(doctors)[d].user == row.user))
      ensures id.None? ==> doctors == old(doctors)
      ensures id.Some? ==> id.value !in old(doctors) && doctors == old(doctors)[id.value := row]
      ensures users == old(users) && patients == old(patients) && mappings == old(mappings)
    {
      if (exists d :: d in doctors && doctors[d].email == row.email)
        || (row.createdBy.Some? && row.createdBy.value !in users)
        || (row.user.Some? && (row.user.value !in users || exists d :: d in doctors && doctors[d].user == row.user))
      {
        return None;
      }
      id := Some(nextId);
      doctors := doctors[nextId := row];
      nextId := nextId + 1;
    }

    /** Deleting a doctor deletes every mapping that references it. */
    method DeleteDoctor(id: int)
      requires Valid() && id in doctors
      modifies this`doctors, this`mappings
      ensures Valid()
      ensures doctors == old(doctors) - {id}
      ensures mappings == Surviving(old(mappings), {}, {id})
    {
      doctors := doctors - {id};
      mappings := Surviving(mappings, {}, {id});
    }

    /** Saving a new mapping: refused (`None`) when the patient or the
        doctor is missing or the pair is already mapped. */
    method InsertMapping(patient: int, doctor: int) returns (id: Option<int>)
      requires Valid()
      modifies this
      ensures Valid()
      ensures id.None? <==>
                patient !in old(patients) || doctor !in old(doctors)
                || exists m :: m in old(mappings) && old(mappings)[m] == Mapping(patient, doctor)
      ensures id.None? ==> mappings == old(mappings)
      ensures id.Some? ==> id.value !in old(mappings) && mappings == old(mappings)[id.value := Mapping(patient, doctor)]
      ensures users == old(users) && patients == old(patients) && doctors == old(doctors)
    {
      if patient !in patients || doctor !in doctors
        || exists m :: m in mappings && mappings[m] == Mapping(patient, doctor)
      {
        return None;
      }
      id := Some(nextId);
      mappings := mappings[nextId := Mapping(patient, doctor)];
      nextId := nextId + 1;
    }

    /** Deleting a user deletes the patients they own, the doctors they
        created or are linked to, and every mapping of those. */
    method DeleteUser(id: int)
      requires Valid() && id in users
      modifies this`users, this`patients, this`doctors, this`mappings
      ensures Valid()
      ensures users == old(users) - {id}
      ensures patients == map p | p in old(patients) && old(patients)[p].owner != id :: old(patients)[p]
      ensures doctors == map d | d in old(doctors) && old(doctors)[d].createdBy != Some(id) && old(doctors)[d].user != Some(id) :: old(doctors)[d]
      ensures mappings == Surviving(old(mappings), old(patients).Keys - patients.Keys, old(doctors).Keys - doctors.Keys)
    {
      var gonePatients := set p | p in patients && patients[p].owner == id;
      var goneDoctors := set d | d in doctors && (doctors[d].createdBy == Some(id) || doctors[d].user == Some(id));
      users := users - {id};
      patients := map p | p in patients && patients[p].owner != id :: patients[p];
      doctors := map d | d in doctors && doctors[d].createdBy != Some(id) && doctors[d].user != Some(id) :: doctors[d];
      assert old(patients).Keys - patients.Keys == gonePatients;
      assert old(doctors).Keys - doctors.Keys == goneDoctors;
      mappings := Surviving(mappings, gonePatients, goneDoctors);
    }
  }

  /** After a CASCADE, no surviving mapping references a removed row, and
      every mapping that references none is kept. */
  lemma CascadeComplete(mappings: map<int, Mapping>, patients: set<int>, doctors: set<int>)
    ensures forall m :: m in Surviving(mappings, patients, doctors) ==>
              Surviving(mappings, patients, doctors)[m].patient !in patients
              && Surviving(mappings, patients, doctors)[m].doctor !in doctors
    ensures PairsUnique(mappings) ==> PairsUnique(Surviving(mappings, patients, doctors))
  {
  }
}
