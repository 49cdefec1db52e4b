/** The name lookups of the clinic's mapping list
    (healthcare-frontend/src/components/mappings/MappingList.js): the
    patient and doctor names each row shows and the patient options of the
    create form. The back end's records may carry a name in several
    places; the lookups try them in a fixed order and fall back to
    'Patient <id>' or 'Doctor <id>'. */
module ClinicMappingList {
  import opened Js
  import opened Text
  import opened Lists
  import opened LooseUsers
  import opened MappingListState

  /** The name found in a patient record, before the fallback: the nested
      user's first and last name, first name, last name and username, then
      the record's own first and last name, first name, last name and
      `name`. */
  function PatientRecordName(p: PatientRecord): Option<string> {
    if p.user.Some? && FullName(p.user.value.firstName, p.user.value.lastName).Some? then
      FullName(p.user.value.firstName, p.user.value.lastName)
    else if p.user.Some? && Present(p.user.value.firstName) then p.user.value.firstName
    else if p.user.Some? && Present(p.user.value.lastName) then p.user.value.lastName
    else if p.user.Some? && Present(p.user.value.username) then p.user.value.username
    else if FullName(p.firstName, p.lastName).Some? then FullName(p.firstName, p.lastName)
    else if Present(p.firstName) then p.firstName
    else if Present(p.lastName) then p.lastName
    else if Present(p.name) then p.name
    else None
  }

  /** `getPatientName`: the name in the first record with the id, or the
      fallback when there is no such record or it names nobody. */
  function PatientName(patients: seq<PatientRecord>, id: int): (name: string)
    ensures (forall i :: 0 <= i < |patients| ==> patients[i].id != id) ==> name == PatientFallback(id)
    ensures forall i :: 0 <= i < |patients| && patients[i].id == id && (forall j :: 0 <= j < i ==> patients[j].id != id) ==>
              name == PatientLabel(patients[i])
  {
    var keep := (p: PatientRecord) => p.id == id;
    FindFirst(patients, keep);
    var found := Find(patients, keep);
    if found.Some? then PatientLabel(found.value) else PatientFallback(id)
  }

  /** The name a found patient record shows: its own, or the fallback for
      its id. */
  function PatientLabel(p: PatientRecord): string {
    var r := PatientRecordName(p);
    if r.Some? then r.value else PatientFallback(p.id)
  }

  /** Every name the chain finds is non-empty, and it is one of the
      record's fields or the joined first and last name of the nested user
      or of the record. */
  lemma PatientRecordNameSources(p: PatientRecord)
    ensures var r := PatientRecordName(p);
            r.Some? ==>
              Present(r)
              && ((p.user.Some? &&
                     (r == FullName(p.user.value.firstName, p.user.value.lastName)
                      || r == p.user.value.firstName || r == p.user.value.lastName || r == p.user.value.username))
                  || r == FullName(p.firstName, p.lastName) || r == p.firstName || r == p.lastName || r == p.name)
    ensures PatientRecordName(p).None? <==>
              (p.user.None? || (!Present(p.user.value.firstName) && !Present(p.user.value.lastName) && !Present(p.user.value.username)))
              && !Present(p.firstName) && !Present(p.lastName) && !Present(p.name)
  {
  }

  /** A nested user with a first name always wins over the record's own
      fields: the name begins with that first name. */
  lemma NestedFirstNameWins(p: PatientRecord)
    requires p.user.Some? && Present(p.user.value.firstName)
    ensures var first := p.user.value.firstName.value;
            var r := PatientRecordName(p).value;
            |first| <= |r| && r[..|first|] == first
  {
    var first := p.user.value.firstName.value;
    if Present(p.user.value.lastName) {
      assert (first + " " + p.user.value.lastName.value)[..|first|] == first;
    }
  }

  /** The name found in a doctor record: `name`, then the first and last
      name, first name and last name. */
  function DoctorRecordName(d: DoctorRecord): Option<string> {
    if Present(d.name) then d.name
    else if FullName(d.firstName, d.lastName).Some? then FullName(d.firstName, d.lastName)
    else if Present(d.firstName) then d.firstName
    else if Present(d.lastName) then d.lastName
    else None
  }

  /** `getDoctorName`: the name in the first record with the id, or the
      fallback. */
  function DoctorName(doctors: seq<DoctorRecord>, id: int): (name: string)
    ensures (forall i :: 0 <= i < |doctors| ==> doctors[i].id != id) ==> name == DoctorFallback(id)
    ensures forall i :: 0 <= i < |doctors| && doctors[i].id == id && (forall j :: 0 <= j < i ==> doctors[j].id != id) ==>
              name == DoctorLabel(doctors[i])
  {
    var keep := (d: DoctorRecord) => d.id == id;
    FindFirst(doctors, keep);
    var found := Find(doctors, keep);
    if found.Some? then DoctorLabel(found.value) else DoctorFallback(id)
  }

  function DoctorLabel(d: DoctorRecord): string {
    var r := DoctorRecordName(d);
    if r.Some? then r.value else DoctorFallback(d.id)
  }

  /** The name found in a doctor record is never empty, and `name` takes
      precedence over the first and last name. */
  lemma DoctorRecordNameSources(d: DoctorRecord)
    ensures DoctorRecordName(d).Some? ==> Present(DoctorRecordName(d))
    ensures Present(d.name) ==> DoctorRecordName(d) == d.name
    ensures DoctorRecordName(d).None? <==> !Present(d.name) && !Present(d.firstName) && !Present(d.lastName)
  {
  }

  /** Neither lookup ever shows an empty name. */
  lemma NamesNeverEmpty(patients: seq<PatientRecord>, doctors: seq<DoctorRecord>, id: int)
    ensures PatientName(patients, id) != ""
    ensures DoctorName(doctors, id) != ""
  {
    var p := Find(patients, (p: PatientRecord) => p.id == id);
    if p.Some? {
      PatientRecordNameSources(p.value);
    }
    var d := Find(doctors, (d: DoctorRecord) => d.id == id);
    if d.Some? {
      DoctorRecordNameSources(d.value);
    }
  }

  /** One option of the patient select. */
  datatype PatientOption = PatientOption(id: int, name: string, display: string)

  function OptionOf(patients: seq<PatientRecord>, p: PatientRecord): PatientOption {
    var name := PatientName(patients, p.id);
    PatientOption(p.id, name,
                  if name == PatientFallback(p.id) then name + " (ID: " + IntToString(p.id) + ")" else name)
  }

  /** `getPatientOptions`: one option per patient, in order. */
  function PatientOptions(patients: seq<PatientRecord>): (r: seq<PatientOption>)
    ensures |r| == |patients|
    ensures forall i :: 0 <= i < |r| ==> r[i] == OptionOf(patients, patients[i])
  {
    seq(|patients|, i requires 0 <= i < |patients| => OptionOf(patients, patients[i]))
  }

  /** An option shows the patient's name, with ' (ID: n)' appended exactly
      when the name is only the fallback; a patient record that names
      nobody is listed as 'Patient n (ID: n)'. */
  lemma PatientOptionDisplay(patients: seq<PatientRecord>, i: int)
    requires 0 <= i < |patients|
    ensures var o := PatientOptions(patients)[i];
            o.id == patients[i].id && o.name == PatientName(patients, patients[i].id)
            && (o.display != o.name <==> o.name == PatientFallback(o.id))
            && |o.name| <= |o.display| && o.display[..|o.name|] == o.name
    ensures (forall j :: 0 <= j < i ==> patients[j].id != patients[i].id) && PatientRecordName(patients[i]).None? ==>
              PatientOptions(patients)[i].display == PatientFallback(patients[i].id) + " (ID: " + IntToString(patients[i].id) + ")"
  {
    var o := PatientOptions(patients)[i];
    if o.name == PatientFallback(o.id) {
      assert (o.name + " (ID: " + IntToString(o.id) + ")")[..|o.name|] == o.name;
    }
  }
}
