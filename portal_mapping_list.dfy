/** The name lookups of the admin portal's mapping list
    (healthcare_backend/healthcare-frontend/src/components/mappings/MappingList.js):
    only a patient record's nested `user` is consulted, and a known
    doctor's `name` is shown as it is, even when missing. */
module PortalMappingList {
  import opened Js
  import opened Text
  import opened Lists
  import opened MappingListState

  /** `` `${first || ''} ${last || ''}`.trim() `` of a nested user. */
  function JoinedName(u: UserPart): string {
    Trim(Or(u.firstName, "") + " " + Or(u.lastName, ""))
  }

  /** The row label of a found patient record: the joined name, then the
      username, then the fallback; a record without a nested user always
      reads as the fallback. */
  function PatientLabel(p: PatientRecord): string {
    if p.user.Some? then
      var joined := JoinedName(p.user.value);
      if joined != "" then joined else Or(p.user.value.username, PatientFallback(p.id))
    else PatientFallback(p.id)
  }

  /** `getPatientName`: the label of the first record with the id, or the
      fallback. */
  function PatientName(patients: seq<PatientRecord>, id: int): (name: string)
    ensures (forall i :: 0 <= i < |patients| ==> patients[i].id != id) ==> name == PatientFallback(id)
    ensures forall i :: 0 <= i < |patients| && patients[i].id == id && (forall j :: 0 <= j < i ==> patients[j].id != id) ==>
              name == PatientLabel(patients[i])
  {
    var keep := (p: PatientRecord) => p.id == id;
    FindFirst(patients, keep);
    var found := Find(patients, keep);
    if found.Some? then PatientLabel(found.value) else PatientFallback(id)
  }

  /** The label is never empty; without a nested user the record's own
      name fields are ignored; a nested user without first or last name is
      shown by username, or by the fallback. */
  lemma PatientLabelMeaning(p: PatientRecord)
    ensures PatientLabel(p) != ""
    ensures p.user.None? ==> PatientLabel(p) == PatientFallback(p.id)
    ensures p.user.Some? && !Present(p.user.value.firstName) && !Present(p.user.value.lastName) ==>
              PatientLabel(p) == Or(p.user.value.username, PatientFallback(p.id))
  {
    if p.user.Some? && !Present(p.user.value.firstName) && !Present(p.user.value.lastName) {
      var u := p.user.value;
      assert Or(u.firstName, "") + " " + Or(u.lastName, "") == " ";
      TrimEmptyIffAllSpace(" ");
    }
  }

  /** The label of the patient select (`patient.user ? ... : 'Patient n'`):
      the same chain without the last fallback, so it may be undefined or
      empty. */
  function OptionLabel(p: PatientRecord): Option<string> {
    if p.user.Some? then
      var joined := JoinedName(p.user.value);
      if joined != "" then Some(joined) else p.user.value.username
    else Some(PatientFallback(p.id))
  }

  /** The select shows the same name as the row, except that a patient
      whose nested user has no name and no username is a blank option
      while the rows show the fallback. */
  lemma OptionLabelAgrees(p: PatientRecord)
    ensures Present(OptionLabel(p)) ==> OptionLabel(p).value == PatientLabel(p)
    ensures !Present(OptionLabel(p)) <==>
              p.user.Some? && JoinedName(p.user.value) == "" && !Present(p.user.value.username)
    ensures !Present(OptionLabel(p)) ==> PatientLabel(p) == PatientFallback(p.id)
  {
  }

  /** `getDoctorName`: `doctor.name` of the first record with the id, as
      it is, or the fallback. `None` is undefined, which renders as
      nothing. */
  function DoctorName(doctors: seq<DoctorRecord>, id: int): (name: Option<string>)
    ensures (forall i :: 0 <= i < |doctors| ==> doctors[i].id != id) ==> name == Some(DoctorFallback(id))
    ensures forall i :: 0 <= i < |doctors| && doctors[i].id == id && (forall j :: 0 <= j < i ==> doctors[j].id != id) ==>
              name == doctors[i].name
  {
    var keep := (d: DoctorRecord) => d.id == id;
    FindFirst(doctors, keep);
    var found := Find(doctors, keep);
    if found.Some? then found.value.name else Some(DoctorFallback(id))
  }

  /** Unlike the patient lookup, a known doctor without a name shows no
      name at all: the fallback is only for unknown ids. */
  lemma NamelessDoctorBlank(d: DoctorRecord, others: seq<DoctorRecord>)
    requires !Present(d.name)
    ensures !Present(DoctorName([d] + others, d.id))
    ensures DoctorName([d] + others, d.id) != Some(DoctorFallback(d.id))
  {
    FindAt([d] + others, (x: DoctorRecord) => x.id == d.id, 0);
    assert "Doctor " <= DoctorFallback(d.id);
  }
}
