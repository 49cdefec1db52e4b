/** The patient management list of the clinic front end
    (healthcare-frontend/src/components/patients/PatientList.js): loading a
    page of patients, the create, edit, delete and submit handlers, and the
    search over the loaded page.

    The service calls are not made; each awaited call's outcome is a
    parameter. `loadPatients`, which the handlers start without awaiting, is
    taken to finish before the next event. */
module PatientList {
  import opened Js
  import opened Text
  import opened Lists
  import opened Requests

  datatype ListedPatient = ListedPatient(id: int, name: string, condition: string, gender: string)

  const LoadFailed: string := "Failed to load patients"
  const DeleteFailed: string := "Failed to delete patient"
  const Deleted: string := "Patient deleted successfully"
  const Updated: string := "Patient updated successfully"
  const Created: string := "Patient created successfully"

  /** The term is in the name, the condition or the gender, ignoring
      case. */
  predicate Kept(p: ListedPatient, searchTerm: string) {
    Matches(p.name, searchTerm) || Matches(p.condition, searchTerm) || Matches(p.gender, searchTerm)
  }

  /** `filteredPatients`: the patients kept, in their order. */
  function FilteredPatients(patients: seq<ListedPatient>, searchTerm: string): (r: seq<ListedPatient>)
    ensures forall p :: p in r <==> p in patients && Kept(p, searchTerm)
    ensures Subsequence(r, patients)
    ensures |r| <= |patients|
  {
    var keep := (p: ListedPatient) => Kept(p, searchTerm);
    FilterMembers(patients, keep);
    FilterSubsequence(patients, keep);
    Filter(patients, keep)
  }

  /** The empty term keeps every patient. */
  lemma EmptyTermKeepsAll(patients: seq<ListedPatient>)
    ensures FilteredPatients(patients, "") == patients
  {
    forall i | 0 <= i < |patients|
      ensures Kept(patients[i], "")
    {
      MatchesEmptyTerm(patients[i].name);
    }
    FilterAll(patients, (p: ListedPatient) => Kept(p, ""));
  }

  /** The component's state. */
  class List {
    var patients: seq<ListedPatient>
    var loading: bool
    var showForm: bool
    var editing: Option<ListedPatient>
    var currentPage: int
    var totalPages: nat
    var searchTerm: string
    var notice: Option<Notice>

    constructor ()
      ensures patients == [] && loading && !showForm && editing.None?
      ensures currentPage == 1 && totalPages == 1 && searchTerm == "" && notice.None?
    {
      patients := [];
      loading := true;
      showForm := false;
      editing := None;
      currentPage := 1;
      totalPages := 1;
      searchTerm := "";
      notice := None;
    }

    /** `loadPatients`: the answer replaces the list and the page count is
        the pages it fills, at least one; a failure keeps both and says so.
        Loading ends either way. */
    method LoadPatients(response: Response<seq<ListedPatient>>)
      modifies this
      ensures response.Ok? ==> patients == response.data && totalPages == PageCount(|response.data|) && notice == old(notice)
      ensures response.Failed? ==>
                patients == old(patients) && totalPages == old(totalPages) && notice == Some(Notice(LoadFailed, Error))
      ensures !loading
      ensures showForm == old(showForm) && editing == old(editing) && currentPage == old(currentPage)
      ensures searchTerm == old(searchTerm)
    {
      loading := true;
      if response.Ok? {
        patients := response.data;
        totalPages := PageCount(|response.data|);
      } else {
        notice := Some(Notice(LoadFailed, Error));
      }
      loading := false;
    }

    /** `handleCreate`: the form opens empty. */
    method HandleCreate()
      modifies this`showForm, this`editing
      ensures showForm && editing.None?
      ensures patients == old(patients) && notice == old(notice) && currentPage == old(currentPage)
      ensures loading == old(loading)
    {
      editing := None;
      showForm := true;
    }

    /** `handleEdit`: the form opens on the patient. */
    method HandleEdit(p: ListedPatient)
      modifies this`showForm, this`editing
      ensures showForm && editing == Some(p)
      ensures patients == old(patients) && notice == old(notice) && currentPage == old(currentPage)
      ensures loading == old(loading)
    {
      editing := Some(p);
      showForm := true;
    }

    /** `handleDelete`: nothing happens unless the user confirms; a
        successful delete is announced and the list reloaded, a failed one
        is reported. */
    method HandleDelete(confirmed: bool, deleted: Response<()>, reload: Response<seq<ListedPatient>>)
      modifies this
      ensures !confirmed ==>
                notice == old(notice) && patients == old(patients) && loading == old(loading) && totalPages == old(totalPages)
      ensures confirmed && deleted.Ok? ==>
                !loading
                && (reload.Ok? ==>
                      patients == reload.data && totalPages == PageCount(|reload.data|)
                      && notice == Some(Notice(Deleted, Success)))
                && (reload.Failed? ==>
                      patients == old(patients) && totalPages == old(totalPages) && notice == Some(Notice(LoadFailed, Error)))
      ensures confirmed && deleted.Failed? ==>
                notice == Some(Notice(DeleteFailed, Error)) && patients == old(patients) && loading == old(loading)
                && totalPages == old(totalPages)
      ensures showForm == old(showForm) && editing == old(editing) && currentPage == old(currentPage)
      ensures searchTerm == old(searchTerm)
    {
      if confirmed {
        if deleted.Ok? {
          notice := Some(Notice(Deleted, Success));
          LoadPatients(reload);
        } else {
          notice := Some(Notice(DeleteFailed, Error));
        }
      }
    }

    /** `handleFormClose`. */
    method HandleFormClose()
      modifies this`showForm, this`editing
      ensures !showForm && editing.None?
      ensures patients == old(patients) && notice == old(notice) && currentPage == old(currentPage)
      ensures loading == old(loading)
    {
      showForm := false;
      editing := None;
    }

    /** `handleFormSubmit`: the patient being edited is updated, otherwise
        a new one is created. On success the form closes, editing ends and
        the list reloads; on failure the form stays open and
        `failureText`, the stringified server answer, is shown. */
    method HandleFormSubmit(saved: Response<()>, failureText: string, reload: Response<seq<ListedPatient>>)
      returns (call: SaveCall)
      modifies this
      ensures call == if old(editing).Some? then Update(old(editing).value.id) else Create
      ensures saved.Ok? ==>
                !showForm && editing.None? && !loading
                && (reload.Ok? ==>
                      patients == reload.data && totalPages == PageCount(|reload.data|)
                      && notice == Some(Notice(if call.Update? then Updated else Created, Success)))
                && (reload.Failed? ==>
                      patients == old(patients) && totalPages == old(totalPages) && notice == Some(Notice(LoadFailed, Error)))
      ensures saved.Failed? ==>
                notice == Some(Notice(failureText, Error)) && showForm == old(showForm) && editing == old(editing)
                && patients == old(patients) && totalPages == old(totalPages) && loading == old(loading)
      ensures currentPage == old(currentPage) && searchTerm == old(searchTerm)
    {
      if editing.Some? {
        call := Update(editing.value.id);
      } else {
        call := Create;
      }
      if saved.Failed? {
        notice := Some(Notice(failureText, Error));
        return;
      }
      notice := Some(Notice(if call.Update? then Updated else Created, Success));
      showForm := false;
      editing := None;
      LoadPatients(reload);
    }

    /** `handlePageChange`: the page is shown and loaded. */
    method HandlePageChange(page: int, reload: Response<seq<ListedPatient>>)
      modifies this
      ensures currentPage == page && !loading
      ensures reload.Ok? ==> patients == reload.data && totalPages == PageCount(|reload.data|) && notice == old(notice)
      ensures reload.Failed? ==>
                patients == old(patients) && totalPages == old(totalPages) && notice == Some(Notice(LoadFailed, Error))
      ensures editing == old(editing)
      ensures searchTerm == old(searchTerm) && showForm == old(showForm)
    {
      currentPage := page;
      LoadPatients(reload);
    }

    /** `handleSearch`: the term is stored and the list goes back to the
        first page. */
    method HandleSearch(value: string)
      modifies this
      ensures searchTerm == value && currentPage == 1
      ensures patients == old(patients) && showForm == old(showForm) && editing == old(editing)
      ensures notice == old(notice) && totalPages == old(totalPages) && loading == old(loading)
    {
      searchTerm := value;
      currentPage := 1;
    }
  }
}
