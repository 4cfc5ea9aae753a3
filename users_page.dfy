/**
 * The users page: the grid request it derives from the committed grid form, the text it shows
 * for a failed query, and the add/edit/delete dialog state around the user form.
 */
module UsersPage {
  import opened Optional
  import opened Json
  import opened Grid

  /** The query sent for one page of users. */
  datatype GridRequest = GridRequest(
    start: int, length: int, search: string, sortColumn: string, sortDirection: Direction,
    conditionMatch: Json, isArchived: Json, filters: Json, scoreFilter: Json)

  /** The page's filter panel: one "Show archived" checkbox. */
  const UserFilters: seq<FilterConfig> := [FilterConfig("isArchived", "Show archived", CheckboxFilter, "isArchived")]

  /**
   * `gridRequest`, built from the committed form values alone: the page becomes an offset of
   * whole pages, and the search, the sort and the watched filter fields are passed on unchanged.
   */
  function GridRequestOf(v: GridFormValues): (r: GridRequest)
    ensures r.start == v.pageIndex * v.pageSize && r.length == v.pageSize
    ensures r.search == v.search && r.sortColumn == v.sortColumn && r.sortDirection == v.sortDirection
    ensures r.conditionMatch == Watch(v.fields, "conditionMatch") && r.isArchived == Watch(v.fields, "isArchived")
    ensures r.filters == Watch(v.fields, "filters") && r.scoreFilter == Watch(v.fields, "scoreFilter")
  {
    GridRequest(v.pageIndex * v.pageSize, v.pageSize, v.search, v.sortColumn, v.sortDirection,
                Watch(v.fields, "conditionMatch"), Watch(v.fields, "isArchived"),
                Watch(v.fields, "filters"), Watch(v.fields, "scoreFilter"))
  }

  /** The committed values the request is built from. */
  predicate SameQuery(v: GridFormValues, w: GridFormValues) {
    && v.pageIndex == w.pageIndex && v.pageSize == w.pageSize && v.search == w.search
    && v.sortColumn == w.sortColumn && v.sortDirection == w.sortDirection
    && Watch(v.fields, "conditionMatch") == Watch(w.fields, "conditionMatch")
    && Watch(v.fields, "isArchived") == Watch(w.fields, "isArchived")
    && Watch(v.fields, "filters") == Watch(w.fields, "filters")
    && Watch(v.fields, "scoreFilter") == Watch(w.fields, "scoreFilter")
  }

  lemma MulCancel(a: int, b: int, p: int)
    requires p > 0 && a * p == b * p
    ensures a == b
  {
    if a < b {
      MulMono(a + 1, b, p);
    } else if b < a {
      MulMono(b + 1, a, p);
    }
  }

  /**
   * Two form states give equal requests exactly when they agree on the committed query;
   * the page index is recovered from `start` because the page size is positive.
   */
  lemma RequestDeterminedByQuery(v: GridFormValues, w: GridFormValues)
    requires v.pageSize > 0
    ensures GridRequestOf(v) == GridRequestOf(w) <==> SameQuery(v, w)
  {
    if GridRequestOf(v) == GridRequestOf(w) {
      MulCancel(v.pageIndex, w.pageIndex, v.pageSize);
    }
  }

  /** The first page starts at offset zero and asks for one page of rows. */
  lemma FirstPageRequest(v: GridFormValues)
    requires v.pageIndex == 0
    ensures GridRequestOf(v).start == 0 && GridRequestOf(v).length == v.pageSize
  {
  }

  /** Each next page moves `start` on by exactly one page and changes nothing else. */
  lemma NextPageRequest(v: GridFormValues)
    ensures GridRequestOf(v.(pageIndex := v.pageIndex + 1))
         == GridRequestOf(v).(start := GridRequestOf(v).start + v.pageSize)
  {
    assert (v.pageIndex + 1) * v.pageSize == v.pageIndex * v.pageSize + v.pageSize;
  }

  lemma DivMulExact(k: int, p: int)
    requires p > 0
    ensures (k * p) / p == k && (k * p) % p == 0
  {
    var q := (k * p) / p;
    var r := (k * p) % p;
    assert k * p == q * p + r;
    assert (k - q) * p == r;
    if k - q >= 1 {
      MulMono(1, k - q, p);
    } else if k - q <= -1 {
      MulMono(k - q, -1, p);
    }
  }

  /** A page's request starts at a whole number of pages: the page index times the length. */
  lemma RequestStartsOnPageBoundary(v: GridFormValues)
    requires v.pageSize > 0
    ensures var r := GridRequestOf(v);
            r.start % r.length == 0 && r.start / r.length == v.pageIndex
  {
    DivMulExact(v.pageIndex, v.pageSize);
  }

  const DefaultErrorMessage: string := "An error occurred"

  /**
   * The text shown for a failed query: `String(error.data.message)` when the error carries an
   * object `data` with a `message` key, the default text otherwise. Testing `'data' in error`
   * raises a TypeError when the error is not an object.
   */
  function ErrorMessage(error: Json): (r: Thrown<string>)
    ensures r.TypeError? <==> !(error.Obj? || error.Arr?)
    ensures r.Returned? && error.Obj? && "data" in error.fields
            && error.fields["data"].Obj? && "message" in error.fields["data"].fields
            ==> r.value == ToJsString(error.fields["data"].fields["message"])
    ensures r.Returned? && !(error.Obj? && "data" in error.fields
            && error.fields["data"].Obj? && "message" in error.fields["data"].fields)
            ==> r.value == DefaultErrorMessage
  {
    if !(IsTypeofObject(error) && !error.Null?) then TypeError
    else if HasKey(error, "data") then
      var data := error.fields["data"];
      if IsTypeofObject(data) && !data.Null? && HasKey(data, "message") then
        Returned(ToJsString(data.fields["message"]))
      else
        Returned(DefaultErrorMessage)
    else
      Returned(DefaultErrorMessage)
  }

  /** A server error carrying a text message shows that text unchanged. */
  lemma ErrorMessageOfText(message: string, status: Json)
    ensures ErrorMessage(Obj(map["status" := status, "data" := Obj(map["message" := Str(message)])]))
         == Returned(message)
  {
    var error := Obj(map["status" := status, "data" := Obj(map["message" := Str(message)])]);
    assert "data" in error.fields;
    assert "message" in error.fields["data"].fields;
  }

  // ---------------------------------------------------------------------------------------
  // The add/edit/delete dialogs

  datatype User = User(
    id: int, personalNumber: string, fullName: string, email: string, status: bool,
    role: string, title: string, department: string)

  datatype UserFormValues = UserFormValues(
    id: Option<int>, personalNumber: string, fullName: string, email: string, status: bool,
    role: string, title: string, department: string)

  /** The values the user form is reset to for a new user. */
  const EmptyUserForm: UserFormValues := UserFormValues(None, "", "", "", true, "", "", "")

  /** The values the user form is reset to for editing `user`. */
  function FormOf(user: User): UserFormValues {
    UserFormValues(Some(user.id), user.personalNumber, user.fullName, user.email, user.status,
                   user.role, user.title, user.department)
  }

  /** The user an edited form describes. */
  function UserOf(form: UserFormValues): User
    requires form.id.Some?
  {
    User(form.id.value, form.personalNumber, form.fullName, form.email, form.status,
         form.role, form.title, form.department)
  }

  /** The edit form holds every field of the user: reading it back gives the same user. */
  lemma EditFormRoundTrip(user: User)
    ensures FormOf(user).id.Some? && UserOf(FormOf(user)) == user
  {
  }

  /** A form with an id is the edit form of the user it describes. */
  lemma FormUserRoundTrip(form: UserFormValues)
    requires form.id.Some?
    ensures FormOf(UserOf(form)) == form
  {
  }

  class UsersPageState {
    var isAddEditOpen: bool
    var isDeleteOpen: bool
    var selectedUser: Option<User>
    var isSubmitting: bool
    var userForm: UserFormValues

    /** `selectedUser ? "Edit User" : "Add User"` */
    function DialogTitle(): string
      reads this
    {
      if selectedUser.Some? then "Edit User" else "Add User"
    }

    constructor ()
      ensures !isAddEditOpen && !isDeleteOpen && selectedUser == None && !isSubmitting
      ensures userForm == EmptyUserForm
    {
      isAddEditOpen := false;
      isDeleteOpen := false;
      selectedUser := None;
      isSubmitting := false;
      userForm := EmptyUserForm;
    }

    /** `handleAdd`: no selection, an empty form with status true, the add/edit panel open. */
    method HandleAdd()
      modifies this`selectedUser, this`userForm, this`isAddEditOpen
      ensures selectedUser == None && userForm == EmptyUserForm && isAddEditOpen
      ensures DialogTitle() == "Add User"
    {
      selectedUser := None;
      userForm := EmptyUserForm;
      isAddEditOpen := true;
    }

    /** `handleEdit`: select the user, seed the form with all of its fields, open the panel. */
    method HandleEdit(user: User)
      modifies this`selectedUser, this`userForm, this`isAddEditOpen
      ensures selectedUser == Some(user) && userForm == FormOf(user) && isAddEditOpen
      ensures userForm.id.Some? && UserOf(userForm) == user
      ensures DialogTitle() == "Edit User"
    {
      selectedUser := Some(user);
      userForm := FormOf(user);
      isAddEditOpen := true;
      EditFormRoundTrip(user);
    }

    /** `handleDelete`: select the user and open the confirmation dialog. */
    method HandleDelete(user: User)
      modifies this`selectedUser, this`isDeleteOpen
      ensures selectedUser == Some(user) && isDeleteOpen
    {
      selectedUser := Some(user);
      isDeleteOpen := true;
    }

    /**
     * `handleSubmit`, once its simulated request has finished: the panel is closed and nothing is
     * submitting any more. The submitted values only feed that request, which is not modelled.
     */
    method HandleSubmit()
      modifies this`isAddEditOpen, this`isSubmitting
      ensures !isAddEditOpen && !isSubmitting
    {
      isAddEditOpen := false;
      isSubmitting := false;
    }

    /**
     * `handleConfirmDelete`, once its simulated request has finished: with no user selected
     * nothing happens; otherwise the dialog closes and the selection is cleared.
     */
    method HandleConfirmDelete()
      modifies this`isDeleteOpen, this`selectedUser, this`isSubmitting
      ensures old(selectedUser).None? ==> unchanged(this)
      ensures old(selectedUser).Some? ==> !isDeleteOpen && selectedUser == None && !isSubmitting
    {
      if selectedUser.None? {
        return;
      }
      isDeleteOpen := false;
      selectedUser := None;
      isSubmitting := false;
    }
  }
}
