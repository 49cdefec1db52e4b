/** The REST handlers of the Django back end (healthcare_backend/api/views.py):
    registration, and listing, creating, reading, partially updating and
    deleting the requester's own patients. Each handler is one atomic step
    over the `Store.Database`.

    `request.user` is `None` for an unauthenticated request, which the
    `IsAuthenticated` permission of the patient views answers with 401
    before the handler runs. The serializers' per-field validation
    (required fields, lengths, formats) is the parameter `fieldsValid`;
    the JWT pair minted for a new user is the parameter `tokens`. */
module Views {
  import opened Js
  import opened Store

  datatype Body =
    | Tokens(refresh: string, access: string)
    | Errors
    | OnePatient(id: int, row: Patient)
    | PatientList(rows: map<int, Patient>)
    | NotFound
    | NoBody

  datatype Response = Response(status: int, body: Body)

  /** The fields a patient request body may carry; a missing one is `None`. */
  datatype PatientInput = PatientInput(
    name: Option<string>, age: Option<int>, gender: Option<string>,
    address: Option<string>, condition: Option<string>)

  /** A full patient row from a create request owned by `owner`, or `None`
      when a required field is missing. */
  function NewRow(owner: int, input: PatientInput): (r: Option<Patient>)
    ensures r.Some? <==> input.name.Some? && input.age.Some? && input.gender.Some?
                         && input.address.Some? && input.condition.Some?
    ensures r.Some? ==> r.value.owner == owner
  {
    if input.name.Some? && input.age.Some? && input.gender.Some? && input.address.Some? && input.condition.Some?
    then Some(Patient(owner, input.name.value, input.age.value, input.gender.value, input.address.value, input.condition.value))
    else None
  }

  /** `partial=True`: a supplied field replaces the stored one, every other
      field keeps its value; the owner is read-only. */
  function Merge(row: Patient, input: PatientInput): (r: Patient)
    ensures r.owner == row.owner
    ensures r.name == (if input.name.Some? then input.name.value else row.name)
    ensures r.age == (if input.age.Some? then input.age.value else row.age)
    ensures r.gender == (if input.gender.Some? then input.gender.value else row.gender)
    ensures r.address == (if input.address.Some? then input.address.value else row.address)
    ensures r.condition == (if input.condition.Some? then input.condition.value else row.condition)
  {
    Patient(row.owner,
      if input.name.Some? then input.name.value else row.name,
      if input.age.Some? then input.age.value else row.age,
      if input.gender.Some? then input.gender.value else row.gender,
      if input.address.Some? then input.address.value else row.address,
      if input.condition.Some? then input.condition.value else row.condition)
  }

  /** An empty update changes nothing, and updating twice with the same
      body is the same as once. */
  lemma MergeIdempotent(row: Patient, input: PatientInput)
    ensures Merge(row, PatientInput(None, None, None, None, None)) == row
    ensures Merge(Merge(row, input), input) == Merge(row, input)
  {
  }

  /** `get_object`: the patient with key `pk` owned by `user`, if any. */
  function OwnedPatient(patients: map<int, Patient>, pk: int, user: int): (p: Option<Patient>)
    ensures p.Some? <==> pk in patients && patients[pk].owner == user
    ensures p.Some? ==> p.value == patients[pk]
  {
    if pk in patients && patients[pk].owner == user then Some(patients[pk]) else None
  }

  /** The requester's patients. */
  function OwnedBy(patients: map<int, Patient>, user: int): (r: map<int, Patient>)
    ensures forall p :: p in r <==> p in patients && patients[p].owner == user
    ensures forall p :: p in r ==> r[p] == patients[p]
  {
    map p | p in patients && patients[p].owner == user :: patients[p]
  }

  /** `RegisterView.post`: a valid body whose username and email are both
      unused creates exactly one user (role 'user') and answers 201 with the
      token pair; anything else answers 400 and changes nothing. */
  method Register(db: Database, username: string, email: string, fieldsValid: bool, tokens: (string, string))
    returns (r: Response)
    requires db.Valid()
    modifies db
    ensures db.Valid()
    ensures r.status == 201 <==>
              fieldsValid
              && (forall u :: u in old(db.users) ==> old(db.users)[u].username != username)
              && (forall u :: u in old(db.users) ==> old(db.users)[u].email != email)
    ensures r.status == 201 ==>
              r.body == Tokens(tokens.0, tokens.1)
              && exists id :: id !in old(db.users) && db.users == old(db.users)[id := Account(username, email, "user", true)]
    ensures r.status != 201 ==> r == Response(400, Errors) && db.users == old(db.users)
    ensures db.patients == old(db.patients) && db.doctors == old(db.doctors) && db.mappings == old(db.mappings)
  {
    if !fieldsValid
      || (exists u :: u in db.users && db.users[u].username == username)
      || (exists u :: u in db.users && db.users[u].email == email)
    {
      return Response(400, Errors);
    }
    var id := db.CreateUser(username, email, None);
    r := Response(201, Tokens(tokens.0, tokens.1));
  }

  /** `PatientListCreateView.get`: exactly the requester's patients. */
  method ListPatients(db: Database, user: Option<int>) returns (r: Response)
    requires db.Valid()
    ensures user.None? ==> r == Response(401, NoBody)
    ensures user.Some? ==> r == Response(200, PatientList(OwnedBy(db.patients, user.value)))
  {
    if user.None? {
      return Response(401, NoBody);
    }
    r := Response(200, PatientList(OwnedBy(db.patients, user.value)));
  }

  /** `PatientListCreateView.post`: a valid body is saved with the requester
      as owner and answered with 201; an invalid one with 400 and no
      insert. */
  method CreatePatient(db: Database, user: Option<int>, input: PatientInput, fieldsValid: bool)
    returns (r: Response)
    requires db.Valid()
    requires user.Some? ==> user.value in db.users
    modifies db
    ensures db.Valid()
    ensures user.None? ==> r == Response(401, NoBody)
    ensures r.status == 201 <==> user.Some? && fieldsValid && NewRow(user.value, input).Some?
    ensures r.status == 201 ==>
              r.body.OnePatient? && r.body.id !in old(db.patients)
              && r.body.row == NewRow(user.value, input).value
              && db.patients == old(db.patients)[r.body.id := r.body.row]
    ensures r.status != 201 ==> db.patients == old(db.patients)
    ensures user.Some? && r.status != 201 ==> r == Response(400, Errors)
    ensures db.users == old(db.users) && db.doctors == old(db.doctors) && db.mappings == old(db.mappings)
  {
    if user.None? {
      return Response(401, NoBody);
    }
    var row := NewRow(user.value, input);
    if !fieldsValid || row.None? {
      return Response(400, Errors);
    }
    var id := db.InsertPatient(row.value);
    r := Response(201, OnePatient(id, row.value));
  }

  /** `PatientDetailView.get`. */
  method GetPatient(db: Database, user: Option<int>, pk: int) returns (r: Response)
    requires db.Valid()
    ensures user.None? ==> r == Response(401, NoBody)
    ensures user.Some? && OwnedPatient(db.patients, pk, user.value).None? ==> r == Response(404, NotFound)
    ensures user.Some? && OwnedPatient(db.patients, pk, user.value).Some? ==> r == Response(200, OnePatient(pk, db.patients[pk]))
  {
    if user.None? {
      return Response(401, NoBody);
    }
    var patient := OwnedPatient(db.patients, pk, user.value);
    if patient.None? {
      return Response(404, NotFound);
    }
    r := Response(200, OnePatient(pk, patient.value));
  }

  /** `PatientDetailView.put`: only the requester's own patient, and only
      the supplied fields, change. */
  method PutPatient(db: Database, user: Option<int>, pk: int, input: PatientInput, fieldsValid: bool)
    returns (r: Response)
    requires db.Valid()
    modifies db`patients
    ensures db.Valid()
    ensures user.None? ==> r == Response(401, NoBody)
    ensures user.Some? && OwnedPatient(old(db.patients), pk, user.value).None? ==> r == Response(404, NotFound)
    ensures user.Some? && OwnedPatient(old(db.patients), pk, user.value).Some? && !fieldsValid ==> r == Response(400, Errors)
    ensures r.status == 200 <==> user.Some? && OwnedPatient(old(db.patients), pk, user.value).Some? && fieldsValid
    ensures r.status == 200 ==>
              db.patients == old(db.patients)[pk := Merge(old(db.patients)[pk], input)]
              && r == Response(200, OnePatient(pk, db.patients[pk]))
    ensures r.status != 200 ==> db.patients == old(db.patients)
  {
    if user.None? {
      return Response(401, NoBody);
    }
    var patient := OwnedPatient(db.patients, pk, user.value);
    if patient.None? {
      return Response(404, NotFound);
    }
    if !fieldsValid {
      return Response(400, Errors);
    }
    var row := Merge(patient.value, input);
    db.UpdatePatient(pk, row);
    r := Response(200, OnePatient(pk, row));
  }

  /** `PatientDetailView.delete`: removes exactly the requester's own
      patient (and, by CASCADE, its mappings) and answers 204. */
  method DeletePatient(db: Database, user: Option<int>, pk: int) returns (r: Response)
    requires db.Valid()
    modifies db`patients, db`mappings
    ensures db.Valid()
    ensures user.None? ==> r == Response(401, NoBody)
    ensures user.Some? && OwnedPatient(old(db.patients), pk, user.value).None? ==> r == Response(404, NotFound)
    ensures r.status == 204 <==> user.Some? && OwnedPatient(old(db.patients), pk, user.value).Some?
    ensures r.status == 204 ==>
              r.body == NoBody && db.patients == old(db.patients) - {pk}
              && db.mappings == Surviving(old(db.mappings), {pk}, {})
    ensures r.status != 204 ==> db.patients == old(db.patients) && db.mappings == old(db.mappings)
  {
    if user.None? {
      return Response(401, NoBody);
    }
    var patient := OwnedPatient(db.patients, pk, user.value);
    if patient.None? {
      return Response(404, NotFound);
    }
    db.DeletePatient(pk);
    r := Response(204, NoBody);
  }
}
