/** The doctor management list of the admin portal
    (healthcare_backend/healthcare-frontend/src/components/doctors/DoctorList.js):
    who may create, edit and delete doctors, the search and specialization
    filter over the loaded page, and the page count.

    The service calls are not made; each awaited call's outcome is a
    parameter. `loadDoctors`, which the handlers start without awaiting, is
    taken to finish before the next event. The page and search arguments it
    passes to the service only shape the answer, which is an input here. */
module DoctorList {
  import opened Js
  import opened Text
  import opened Lists
  import opened LooseUsers
  import opened Requests

  /** A doctor as the list receives it. `createdBy` is the serialized
      `created_by`: a user id, or null. */
  datatype ListedDoctor = ListedDoctor(id: int, name: string, specialization: string, email: string, createdBy: Option<int>)

  const LoadFailed: string := "Failed to load doctors"
  const CreateRefused: string := "Only administrators can create doctors"
  const EditRefused: string := "You can only edit doctors you created"
  const DeleteRefused: string := "Only administrators can delete doctors"
  const DeleteFailed: string := "Failed to delete doctor"
  const Deleted: string := "Doctor deleted successfully"
  const Updated: string := "Doctor updated successfully"
  const Created: string := "Doctor created successfully"

  /** `user?.profile?.role === 'admin'`: only the profile's role counts. */
  predicate IsAdmin(user: Option<LooseUser>) {
    ProfileRole(user) == Some("admin")
  }

  /** `user?.id`. */
  function UserId(user: Option<LooseUser>): Option<int> {
    if user.Some? then user.value.id else None
  }

  /** `doctor.created_by === user?.id`: a null creator equals no id, so
      only a recorded creator with the same id matches. */
  predicate IsCreator(user: Option<LooseUser>, d: ListedDoctor) {
    d.createdBy.Some? && UserId(user) == d.createdBy
  }

  /** The Edit and Delete buttons of a card are enabled for an
      administrator and for the doctor's creator; `handleEdit` lets the
      same users through. */
  predicate ButtonsEnabled(user: Option<LooseUser>, d: ListedDoctor) {
    IsAdmin(user) || IsCreator(user, d)
  }

  /** What `handleDelete` lets through. */
  predicate DeleteAllowed(user: Option<LooseUser>) {
    IsAdmin(user)
  }

  /** Whoever may delete sees the Delete button enabled, but not the
      converse: a creator who is not an administrator sees it enabled and
      is refused. A role of 'admin' outside the profile does not make an
      administrator, and no one is the creator of a doctor whose creator
      is null. */
  lemma DeleteButtonWiderThanHandler(user: Option<LooseUser>, d: ListedDoctor)
    ensures DeleteAllowed(user) ==> ButtonsEnabled(user, d)
    ensures IsCreator(user, d) && !IsAdmin(user) ==> ButtonsEnabled(user, d) && !DeleteAllowed(user)
    ensures user.Some? && user.value.role == Some("admin") && user.value.profile.None? ==> !IsAdmin(user)
    ensures d.createdBy.None? ==> (ButtonsEnabled(user, d) <==> IsAdmin(user))
  {
  }

  /** `filters.specialization`, when set to a non-empty value. */
  function SpecializationFilter(filters: map<string, string>): Option<string> {
    if "specialization" in filters && filters["specialization"] != "" then Some(filters["specialization"]) else None
  }

  /** A doctor passes the search and the specialization filter. */
  predicate Kept(d: ListedDoctor, searchTerm: string, filters: map<string, string>) {
    (searchTerm == "" || Matches(d.name, searchTerm) || Matches(d.specialization, searchTerm) || Matches(d.email, searchTerm))
    && (SpecializationFilter(filters).None? || d.specialization == SpecializationFilter(filters).value)
  }

  /** `filteredDoctors`: the doctors kept, in their order. */
  function FilteredDoctors(doctors: seq<ListedDoctor>, searchTerm: string, filters: map<string, string>): (r: seq<ListedDoctor>)
    ensures forall d :: d in r <==> d in doctors && Kept(d, searchTerm, filters)
    ensures Subsequence(r, doctors)
  {
    var keep := (d: ListedDoctor) => Kept(d, searchTerm, filters);
    FilterMembers(doctors, keep);
    FilterSubsequence(doctors, keep);
    Filter(doctors, keep)
  }

  /** With no term and no specialization every doctor is listed; a set
      specialization keeps only that specialization. */
  lemma FilteredDoctorsCriteria(doctors: seq<ListedDoctor>, searchTerm: string, filters: map<string, string>)
    ensures SpecializationFilter(filters).None? ==> FilteredDoctors(doctors, "", filters) == doctors
    ensures SpecializationFilter(filters).Some? ==>
              forall d :: d in FilteredDoctors(doctors, searchTerm, filters) ==>
                d.specialization == SpecializationFilter(filters).value
  {
    if SpecializationFilter(filters).None? {
      FilterAll(doctors, (d: ListedDoctor) => Kept(d, "", filters));
    }
  }

  /** The component's state. */
  class List {
    const user: Option<LooseUser>
    var doctors: seq<ListedDoctor>
    var loading: bool
    var showForm: bool
    var editing: Option<ListedDoctor>
    var currentPage: int
    var totalPages: nat
    var searchTerm: string
    var filters: map<string, string>
    var notice: Option<Notice>

    constructor (user: Option<LooseUser>)
      ensures this.user == user && doctors == [] && loading && !showForm && editing.None?
      ensures currentPage == 1 && totalPages == 1 && searchTerm == "" && filters == map[] && notice.None?
    {
      this.user := user;
      doctors := [];
      loading := true;
      showForm := false;
      editing := None;
      currentPage := 1;
      totalPages := 1;
      searchTerm := "";
      filters := map[];
      notice := None;
    }

    /** `loadDoctors`: the answer replaces the list and the page count is
        the pages it fills, at least one; a failure keeps both and says so.
        Loading ends either way. */
    method LoadDoctors(response: Response<seq<ListedDoctor>>)
      modifies this
      ensures response.Ok? ==> doctors == response.data && totalPages == PageCount(|response.data|) && notice == old(notice)
      ensures response.Failed? ==>
                doctors == old(doctors) && totalPages == old(totalPages) && notice == Some(Notice(LoadFailed, Error))
      ensures !loading
      ensures showForm == old(showForm) && editing == old(editing) && currentPage == old(currentPage)
      ensures searchTerm == old(searchTerm) && filters == old(filters)
    {
      loading := true;
      if response.Ok? {
        doctors := response.data;
        totalPages := PageCount(|response.data|);
      } else {
        notice := Some(Notice(LoadFailed, Error));
      }
      loading := false;
    }

    /** `handleSearch` and `handleFilter`: the new criteria take effect
        from the first page. */
    method HandleSearch(search: string)
      modifies this
      ensures searchTerm == search && currentPage == 1
      ensures doctors == old(doctors) && filters == old(filters) && showForm == old(showForm)
      ensures editing == old(editing) && notice == old(notice) && totalPages == old(totalPages)
      ensures loading == old(loading)
    {
      searchTerm := search;
      currentPage := 1;
    }

    method HandleFilter(filterParams: map<string, string>)
      modifies this
      ensures filters == filterParams && currentPage == 1
      ensures doctors == old(doctors) && searchTerm == old(searchTerm) && showForm == old(showForm)
      ensures editing == old(editing) && notice == old(notice) && totalPages == old(totalPages)
      ensures loading == old(loading)
    {
      filters := filterParams;
      currentPage := 1;
    }

    /** `handleCreate`: only an administrator opens the empty form; anyone
        else is told so and nothing else changes. */
    method HandleCreate()
      modifies this`showForm, this`editing, this`notice
      ensures IsAdmin(user) ==> showForm && editing.None? && notice == old(notice)
      ensures !IsAdmin(user) ==>
                notice == Some(Notice(CreateRefused, Error)) && showForm == old(showForm) && editing == old(editing)
      ensures doctors == old(doctors) && currentPage == old(currentPage) && loading == old(loading)
    {
      if !IsAdmin(user) {
        notice := Some(Notice(CreateRefused, Error));
        return;
      }
      editing := None;
      showForm := true;
    }

    /** `handleEdit`: an administrator or the doctor's creator opens the
        form on the doctor; anyone else signed in is told so. Without a
        user a non-administrator's `user.id` throws: `threw` is set and
        nothing changes. */
    method HandleEdit(d: ListedDoctor) returns (threw: bool)
      modifies this`showForm, this`editing, this`notice
      ensures threw <==> !IsAdmin(user) && user.None?
      ensures !threw && ButtonsEnabled(user, d) ==> showForm && editing == Some(d) && notice == old(notice)
      ensures !threw && !ButtonsEnabled(user, d) ==>
                notice == Some(Notice(EditRefused, Error)) && showForm == old(showForm) && editing == old(editing)
      ensures threw ==> notice == old(notice) && showForm == old(showForm) && editing == old(editing)
      ensures doctors == old(doctors) && currentPage == old(currentPage) && loading == old(loading)
    {
      threw := false;
      if !IsAdmin(user) {
        if user.None? {
          threw := true;
          return;
        }
        if d.createdBy != user.value.id || d.createdBy.None? {
          notice := Some(Notice(EditRefused, Error));
          return;
        }
      }
      editing := Some(d);
      showForm := true;
    }

    /** `handleDelete`: refused to everyone but an administrator, and then
        only done after confirmation. A successful delete is announced and
        the list reloaded; a failed one shows the server's error or the
        default message. */
    method HandleDelete(confirmed: bool, deleted: Response<()>, reload: Response<seq<ListedDoctor>>)
      modifies this
      ensures !DeleteAllowed(user) ==>
                notice == Some(Notice(DeleteRefused, Error)) && doctors == old(doctors) && loading == old(loading)
                && totalPages == old(totalPages)
      ensures DeleteAllowed(user) && !confirmed ==>
                notice == old(notice) && doctors == old(doctors) && loading == old(loading)
                && totalPages == old(totalPages)
      ensures DeleteAllowed(user) && confirmed && deleted.Ok? ==>
                !loading
                && (reload.Ok? ==>
                      doctors == reload.data && totalPages == PageCount(|reload.data|)
                      && notice == Some(Notice(Deleted, Success)))
                && (reload.Failed? ==>
                      doctors == old(doctors) && totalPages == old(totalPages) && notice == Some(Notice(LoadFailed, Error)))
      ensures DeleteAllowed(user) && confirmed && deleted.Failed? ==>
                notice == Some(Notice(Or(deleted.serverError, DeleteFailed), Error))
                && doctors == old(doctors) && loading == old(loading) && totalPages == old(totalPages)
      ensures showForm == old(showForm) && editing == old(editing) && currentPage == old(currentPage)
      ensures searchTerm == old(searchTerm) && filters == old(filters)
    {
      if !IsAdmin(user) {
        notice := Some(Notice(DeleteRefused, Error));
        return;
      }
      if confirmed {
        if deleted.Ok? {
          notice := Some(Notice(Deleted, Success));
          LoadDoctors(reload);
        } else {
          notice := Some(Notice(Or(deleted.serverError, DeleteFailed), Error));
        }
      }
    }

    /** `handleFormClose`. */
    method HandleFormClose()
      modifies this`showForm, this`editing
      ensures !showForm && editing.None?
      ensures doctors == old(doctors) && notice == old(notice) && currentPage == old(currentPage)
      ensures loading == old(loading)
    {
      showForm := false;
      editing := None;
    }

    /** `handleFormSubmit`: the doctor being edited is updated, otherwise a
        new one is created. On success the form closes, editing ends and
        the list reloads; on failure the form stays open and
        `failureText`, the stringified server answer, is shown. */
    method HandleFormSubmit(saved: Response<()>, failureText: string, reload: Response<seq<ListedDoctor>>)
      returns (call: SaveCall)
      modifies this
      ensures call == if old(editing).Some? then Update(old(editing).value.id) else Create
      ensures saved.Ok? ==>
                !showForm && editing.None? && !loading
                && (reload.Ok? ==>
                      doctors == reload.data && totalPages == PageCount(|reload.data|)
                      && notice == Some(Notice(if call.Update? then Updated else Created, Success)))
                && (reload.Failed? ==>
                      doctors == old(doctors) && totalPages == old(totalPages) && notice == Some(Notice(LoadFailed, Error)))
      ensures saved.Failed? ==>
                notice == Some(Notice(failureText, Error)) && showForm == old(showForm) && editing == old(editing)
                && doctors == old(doctors) && totalPages == old(totalPages) && loading == old(loading)
      ensures currentPage == old(currentPage) && searchTerm == old(searchTerm) && filters == old(filters)
    {
      if editing.Some? {
        call := Update(editing.value.id);
      } else {
        call := Create;
      }
      if saved.Failed? {
        notice := Some(Notice(failureText, Error));
        return;
      }
      notice := Some(Notice(if call.Update? then Updated else Created, Success));
      showForm := false;
      editing := None;
      LoadDoctors(reload);
    }

    /** `handlePageChange`: the page is shown and loaded. */
    method HandlePageChange(page: int, reload: Response<seq<ListedDoctor>>)
      modifies this
      ensures currentPage == page && !loading
      ensures reload.Ok? ==> doctors == reload.data && totalPages == PageCount(|reload.data|) && notice == old(notice)
      ensures reload.Failed? ==>
                doctors == old(doctors) && totalPages == old(totalPages) && notice == Some(Notice(LoadFailed, Error))
      ensures editing == old(editing)
      ensures searchTerm == old(searchTerm) && filters == old(filters) && showForm == old(showForm)
    {
      currentPage := page;
      LoadDoctors(reload);
    }
  }
}
