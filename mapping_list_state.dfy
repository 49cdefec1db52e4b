/** The state and handlers the two `MappingList` components share line for
    line (healthcare-frontend/src/components/mappings/MappingList.js and
    healthcare_backend/healthcare-frontend/src/components/mappings/MappingList.js):
    fetching the mappings, the create form, deletion after confirmation and
    the admin-only controls, together with the records the back end
    answers with.

    The service calls are not made: each awaited call is a parameter
    holding its outcome. A handler that awaits a refetch is one step that
    ends in the state the refetch leaves. */
module MappingListState {
  import opened Js
  import opened Text
  import opened LooseUsers
  import opened Requests

  /** `patient.user` of a patient record. */
  datatype UserPart = UserPart(firstName: Option<string>, lastName: Option<string>, username: Option<string>)

  datatype PatientRecord = PatientRecord(
    id: int, user: Option<UserPart>,
    firstName: Option<string>, lastName: Option<string>, name: Option<string>)

  datatype DoctorRecord = DoctorRecord(
    id: int, name: Option<string>, firstName: Option<string>, lastName: Option<string>,
    specialization: Option<string>)

  /** A mapping as listed: its id and the ids of its patient and doctor. */
  datatype MappingRecord = MappingRecord(id: int, patient: int, doctor: int)

  /** The two selects of the create form, by their `name`. */
  datatype FormField = PatientField | DoctorField

  const FetchFailed: string := "Failed to fetch mappings"
  const CreateFailed: string := "Failed to create mapping"
  const DeleteFailed: string := "Failed to delete mapping"

  /** What a name lookup shows for an id it cannot name:
      `Patient ${id}`, `Doctor ${id}`. */
  function PatientFallback(id: int): string {
    "Patient " + IntToString(id)
  }

  function DoctorFallback(id: int): string {
    "Doctor " + IntToString(id)
  }

  /** `user?.role === 'admin'`. */
  predicate IsAdmin(user: Option<LooseUser>) {
    TopRole(user) == Some("admin")
  }

  /** What the list renders besides the table rows: the create button, the
      create form, the Actions column (with its Delete buttons) and the
      hint under an empty list. While `loading` the component returns only
      its "Loading mappings..." block, so none of them is there. */
  datatype Controls = Controls(createButton: bool, createForm: bool, actions: bool, emptyHint: bool)

  const NoControls := Controls(false, false, false, false)

  function ControlsOf(user: Option<LooseUser>, loading: bool, showCreateForm: bool, mappings: seq<MappingRecord>): Controls {
    if loading then NoControls
    else Controls(IsAdmin(user), showCreateForm && IsAdmin(user), IsAdmin(user) && mappings != [],
                  IsAdmin(user) && mappings == [])
  }

  /** Nothing but the loading block shows while loading, and only an
      administrator gets any of the controls, whatever the form flag says.
      Once loaded, an administrator always gets the button, the form
      exactly when it is toggled open, the Actions column exactly when
      there are rows and the hint exactly when there are none. */
  lemma ControlsAdminOnly(user: Option<LooseUser>, loading: bool, showCreateForm: bool, mappings: seq<MappingRecord>)
    ensures loading ==> ControlsOf(user, loading, showCreateForm, mappings) == NoControls
    ensures !IsAdmin(user) ==> ControlsOf(user, loading, showCreateForm, mappings) == NoControls
    ensures IsAdmin(user) && !loading ==>
              var c := ControlsOf(user, loading, showCreateForm, mappings);
              c.createButton && (c.createForm <==> showCreateForm)
              && (c.actions <==> mappings != []) && (c.emptyHint <==> mappings == [])
  {
  }

  /** The component's state. */
  class Page {
    var mappings: seq<MappingRecord>
    var patientField: string
    var doctorField: string
    var showCreateForm: bool
    var error: string
    var loading: bool

    /** The initial state: loading, nothing listed, the form hidden and
        empty. */
    constructor ()
      ensures mappings == [] && patientField == "" && doctorField == ""
      ensures !showCreateForm && error == "" && loading
    {
      mappings := [];
      patientField := "";
      doctorField := "";
      showCreateForm := false;
      error := "";
      loading := true;
    }

    /** `fetchMappings`: on success the answer replaces the list and the
        error is cleared; on failure the list stays and the fetch error is
        shown. Either way loading ends and the form is untouched. */
    method FetchMappings(response: Response<seq<MappingRecord>>)
      modifies this
      ensures response.Ok? ==> mappings == response.data && error == ""
      ensures response.Failed? ==> mappings == old(mappings) && error == FetchFailed
      ensures !loading
      ensures patientField == old(patientField) && doctorField == old(doctorField)
      ensures showCreateForm == old(showCreateForm)
    {
      loading := true;
      if response.Ok? {
        mappings := response.data;
        error := "";
      } else {
        error := FetchFailed;
      }
      loading := false;
    }

    /** `handleFormChange`: the select named by the event takes its value,
        the other keeps its own. */
    method HandleFormChange(field: FormField, value: string)
      modifies this
      ensures field == PatientField ==> patientField == value && doctorField == old(doctorField)
      ensures field == DoctorField ==> doctorField == value && patientField == old(patientField)
      ensures mappings == old(mappings) && showCreateForm == old(showCreateForm)
      ensures error == old(error) && loading == old(loading)
    {
      if field == PatientField {
        patientField := value;
      } else {
        doctorField := value;
      }
    }

    /** The create button: 'Create New Mapping' opens the form, 'Cancel'
        closes it, and the fields are kept. */
    method ToggleCreateForm()
      modifies this
      ensures showCreateForm == !old(showCreateForm)
      ensures mappings == old(mappings) && patientField == old(patientField) && doctorField == old(doctorField)
      ensures error == old(error) && loading == old(loading)
    {
      showCreateForm := !showCreateForm;
    }

    /** `handleCreateMapping`: after a successful create the form is hidden
        and emptied, the list is refetched and no error is shown, not even
        when the refetch failed, since the create handler clears the fetch
        error afterwards. A failed create keeps the form as it was and
        shows the server's error or the default message. */
    method HandleCreate(created: Response<()>, refetch: Response<seq<MappingRecord>>)
      modifies this
      ensures created.Ok? ==>
                !showCreateForm && patientField == "" && doctorField == "" && error == "" && !loading
                && mappings == (if refetch.Ok? then refetch.data else old(mappings))
      ensures created.Failed? ==>
                error == Or(created.serverError, CreateFailed)
                && mappings == old(mappings) && showCreateForm == old(showCreateForm)
                && patientField == old(patientField) && doctorField == old(doctorField)
                && loading == old(loading)
    {
      if created.Ok? {
        showCreateForm := false;
        patientField := "";
        doctorField := "";
        FetchMappings(refetch);
        error := "";
      } else {
        error := Or(created.serverError, CreateFailed);
      }
    }

    /** `handleDeleteMapping`: nothing at all happens unless the user
        confirms; then a successful delete refetches and clears the error,
        and a failed one shows the delete error. */
    method HandleDelete(confirmed: bool, deleted: Response<()>, refetch: Response<seq<MappingRecord>>)
      modifies this
      ensures !confirmed ==>
                mappings == old(mappings) && error == old(error) && loading == old(loading)
      ensures confirmed && deleted.Ok? ==>
                error == "" && !loading && mappings == (if refetch.Ok? then refetch.data else old(mappings))
      ensures confirmed && deleted.Failed? ==>
                error == DeleteFailed && mappings == old(mappings) && loading == old(loading)
      ensures patientField == old(patientField) && doctorField == old(doctorField)
      ensures showCreateForm == old(showCreateForm)
    {
      if !confirmed {
        return;
      }
      if deleted.Ok? {
        FetchMappings(refetch);
        error := "";
      } else {
        error := DeleteFailed;
      }
    }
  }
}
