/**
 * The `Users` page: the user table with its loading flag, and the create, edit and delete flows
 * wired to the user modals. `UsersState` holds the page's hooks; `UsersPageComponent` is the same
 * state as a mutable object.
 */
module UsersPage {
  import opened Wrappers
  import opened Api
  import opened CreateUserModal
  import opened UpdateUserModal

  /** `response.json()` then `json.data`, with no look at the status: any body is taken. */
  datatype UsersResponse = UsersBody(data: seq<User>) | UsersThrew

  datatype Request =
    | FetchUsers
    | CreateUser(created: CreatePayload)
    | UpdateUser(updated: UpdatePayload)
    | DeleteUser(id: string)

  datatype UsersState = UsersState(
    users: seq<User>,
    loading: bool,
    isCreateUserOpen: bool,
    isSuccessDialogOpen: bool,
    isEditUserOpen: bool,
    selectedUser: Option<User>,
    isDeleteModalOpen: bool,
    userIdToDelete: Option<string>,
    requests: seq<Request>)

  /** After mounting: the hooks' defaults and the mount effect's fetch, still loading. */
  const InitialUsers := UsersState([], true, false, false, false, None, false, None, [FetchUsers])

  /** The start of `fetchUsers`: `setLoading(true)` and the GET. */
  function BeginFetch(s: UsersState): (r: UsersState)
    ensures r.loading
    ensures r.requests == s.requests + [FetchUsers]
    ensures r.(loading := s.loading, requests := s.requests) == s
  {
    s.(loading := true, requests := s.requests + [FetchUsers])
  }

  /** The end of `fetchUsers`: the users from any body, and `finally` clears `loading` either way. */
  function CompleteFetch(s: UsersState, response: UsersResponse): (r: UsersState)
    ensures !r.loading
    ensures r.users == (if response.UsersBody? then response.data else s.users)
    ensures r.(loading := s.loading, users := s.users) == s
  {
    match response
    case UsersBody(data) => s.(users := data, loading := false)
    case UsersThrew => s.(loading := false)
  }

  /** `handleSubmitUser`: an ok POST closes the modal, opens the success dialog and refetches. */
  function UserSubmitted(s: UsersState, payload: CreatePayload, postOk: bool): (r: UsersState)
    ensures postOk ==> !r.isCreateUserOpen && r.isSuccessDialogOpen && r.loading
    ensures postOk ==> r.requests == s.requests + [CreateUser(payload), FetchUsers]
    ensures !postOk ==> r == s.(requests := s.requests + [CreateUser(payload)])
    ensures postOk ==> r.(isCreateUserOpen := s.isCreateUserOpen, isSuccessDialogOpen := s.isSuccessDialogOpen,
                          loading := s.loading, requests := s.requests) == s
  {
    var sent := s.(requests := s.requests + [CreateUser(payload)]);
    if postOk then BeginFetch(sent.(isCreateUserOpen := false, isSuccessDialogOpen := true)) else sent
  }

  /**
   * The edit modal's `onSubmit`: the PUT is sent, the modal closes, the selection is cleared and the
   * success dialog opens whatever the PUT's outcome; only an ok PUT refetches.
   */
  function EditSubmitted(s: UsersState, payload: UpdatePayload, putOk: bool): (r: UsersState)
    ensures !r.isEditUserOpen && r.selectedUser.None? && r.isSuccessDialogOpen
    ensures r.requests == s.requests + [UpdateUser(payload)] + (if putOk then [FetchUsers] else [])
    ensures r.loading == (putOk || s.loading)
    ensures r.(isEditUserOpen := s.isEditUserOpen, selectedUser := s.selectedUser,
               isSuccessDialogOpen := s.isSuccessDialogOpen, requests := s.requests, loading := s.loading) == s
  {
    var closed := s.(requests := s.requests + [UpdateUser(payload)], isEditUserOpen := false,
                     selectedUser := None, isSuccessDialogOpen := true);
    if putOk then BeginFetch(closed) else closed
  }

  /**
   * The delete modal's `onConfirm`: the DELETE is sent, the modal closes and the success dialog opens
   * whatever the outcome; the id is kept, and only an ok DELETE refetches.
   */
  function DeleteConfirmed(s: UsersState, id: string, deleteOk: bool): (r: UsersState)
    ensures !r.isDeleteModalOpen && r.isSuccessDialogOpen && r.userIdToDelete == s.userIdToDelete
    ensures r.requests == s.requests + [DeleteUser(id)] + (if deleteOk then [FetchUsers] else [])
    ensures r.loading == (deleteOk || s.loading)
    ensures r.(isDeleteModalOpen := s.isDeleteModalOpen, isSuccessDialogOpen := s.isSuccessDialogOpen,
               requests := s.requests, loading := s.loading) == s
  {
    var closed := s.(requests := s.requests + [DeleteUser(id)], isDeleteModalOpen := false, isSuccessDialogOpen := true);
    if deleteOk then BeginFetch(closed) else closed
  }

  /** `isDeleteModalOpen && userIdToDelete`: the dialog is mounted only with a non-empty id. */
  predicate DeleteDialogRendered(s: UsersState) {
    s.isDeleteModalOpen && s.userIdToDelete.Some? && s.userIdToDelete.value != ""
  }

  predicate EditModalRendered(s: UsersState) {
    s.isEditUserOpen && s.selectedUser.Some?
  }

  datatype Event =
    | UsersArrived(response: UsersResponse)
    | CreateOpened
    | CreateClosed
    | CreateSubmitted(created: CreatePayload, postOk: bool)
    | SuccessDialogClosed
    | EditClicked(row: nat)
    | EditClosed
    | EditSaved(updated: UpdatePayload, putOk: bool)
    | DeleteClicked(row: nat)
    | DeleteConfirmedEvent(deleteOk: bool)
    | DeleteCancelled

  /** The edit and delete buttons of a row exist only while the table shows its rows. */
  predicate RowRendered(s: UsersState, row: nat) {
    !s.loading && row < |s.users|
  }

  /** One event; as on the task page, an event on something not rendered does nothing. */
  function Step(s: UsersState, e: Event): UsersState {
    match e
    case UsersArrived(response) => CompleteFetch(s, response)
    case CreateOpened => s.(isCreateUserOpen := true)
    case CreateClosed => if s.isCreateUserOpen then s.(isCreateUserOpen := false) else s
    case CreateSubmitted(payload, postOk) => if s.isCreateUserOpen then UserSubmitted(s, payload, postOk) else s
    case SuccessDialogClosed => if s.isSuccessDialogOpen then BeginFetch(s.(isSuccessDialogOpen := false)) else s
    case EditClicked(row) =>
      if RowRendered(s, row) then s.(selectedUser := Some(s.users[row]), isEditUserOpen := true) else s
    case EditClosed => if EditModalRendered(s) then s.(isEditUserOpen := false, selectedUser := None) else s
    case EditSaved(payload, putOk) => if EditModalRendered(s) then EditSubmitted(s, payload, putOk) else s
    case DeleteClicked(row) =>
      if RowRendered(s, row) then s.(userIdToDelete := Some(s.users[row].id), isDeleteModalOpen := true) else s
    case DeleteConfirmedEvent(deleteOk) =>
      if DeleteDialogRendered(s) then DeleteConfirmed(s, s.userIdToDelete.value, deleteOk) else s
    case DeleteCancelled => if DeleteDialogRendered(s) then s.(isDeleteModalOpen := false, userIdToDelete := None) else s
  }

  function StepAll(s: UsersState, events: seq<Event>): UsersState
    decreases |events|
  {
    if events == [] then s else StepAll(Step(s, events[0]), events[1..])
  }

  /**
   * What the handlers keep: the edit modal is open exactly when a user is selected, and the delete
   * modal is open only with an id.
   */
  predicate UsersInvariant(s: UsersState) {
    && (s.isEditUserOpen <==> s.selectedUser.Some?)
    && (s.isDeleteModalOpen ==> s.userIdToDelete.Some?)
  }

  // ---------------------------------------------------------------------------------------------
  // What is shown

  /** The role column: 1, 2 and 3 are named, any other id shows nothing. */
  function RoleLabel(roleId: nat): (r: string)
    ensures roleId == 1 ==> r == "PM"
    ensures roleId == 2 ==> r == "Developer"
    ensures roleId == 3 ==> r == "QA"
    ensures roleId != 1 && roleId != 2 && roleId != 3 ==> r == ""
  {
    if roleId == 1 then "PM" else if roleId == 2 then "Developer" else if roleId == 3 then "QA" else ""
  }

  datatype Row = Row(number: nat, email: string, username: string, role: string)

  datatype TableBody = Rows(rows: seq<Row>) | Message(text: string)

  /** Rows only when not loading and there are users; otherwise the loading or the not-found line. */
  function Body(s: UsersState): (b: TableBody)
    ensures b.Rows? <==> !s.loading && |s.users| > 0
    ensures b.Rows? ==> |b.rows| == |s.users| && forall i :: 0 <= i < |s.users| ==>
      b.rows[i] == Row(i + 1, s.users[i].email, s.users[i].username, RoleLabel(s.users[i].roleId))
    ensures b.Message? ==> b.text == (if s.loading then "Loading users..." else "User Not Found")
  {
    if !s.loading && |s.users| > 0 then
      Rows(seq(|s.users|, i requires 0 <= i < |s.users| =>
        Row(i + 1, s.users[i].email, s.users[i].username, RoleLabel(s.users[i].roleId))))
    else Message(if s.loading then "Loading users..." else "User Not Found")
  }

  // ---------------------------------------------------------------------------------------------
  // Lemmas

  /** Only the three known ids get a label, and the three labels differ. */
  lemma RoleLabelsDistinct(a: nat, b: nat)
    requires RoleLabel(a) != "" && RoleLabel(a) == RoleLabel(b)
    ensures a == b && 1 <= a <= 3
  {
  }

  /** A fetch shows the loading line while it runs and ends with `loading` false, on success or failure. */
  lemma FetchLifecycle(s: UsersState, response: UsersResponse)
    ensures Body(BeginFetch(s)) == Message("Loading users...")
    ensures !CompleteFetch(BeginFetch(s), response).loading
    ensures response.UsersBody? && response.data != [] ==> Body(CompleteFetch(BeginFetch(s), response)).Rows?
    ensures response.UsersBody? && response.data == [] ==> Body(CompleteFetch(BeginFetch(s), response)) == Message("User Not Found")
  {
  }

  /**
   * A row's edit and delete buttons can be clicked exactly when the table shows that row; while
   * the users load, or with no row there, both clicks do nothing.
   */
  lemma RowClicksNeedRenderedRows(s: UsersState, row: nat)
    ensures RowRendered(s, row) <==> Body(s).Rows? && row < |Body(s).rows|
    ensures !(Body(s).Rows? && row < |Body(s).rows|) ==>
      Step(s, EditClicked(row)) == s && Step(s, DeleteClicked(row)) == s
    ensures Body(s).Rows? && row < |Body(s).rows| ==>
      Step(s, EditClicked(row)).isEditUserOpen && Step(s, EditClicked(row)).selectedUser == Some(s.users[row])
    ensures Body(s).Rows? && row < |Body(s).rows| ==>
      Step(s, DeleteClicked(row)).isDeleteModalOpen && Step(s, DeleteClicked(row)).userIdToDelete == Some(s.users[row].id)
  {
  }

  /** A failed create changes no flag: the modal stays open for another try. */
  lemma FailedCreateKeepsFlags(s: UsersState, payload: CreatePayload)
    ensures var r := UserSubmitted(s, payload, false);
      r.isCreateUserOpen == s.isCreateUserOpen && r.isSuccessDialogOpen == s.isSuccessDialogOpen &&
      r.loading == s.loading && r.users == s.users
  {
  }

  /** Edit submit and delete confirm look the same to the user whichever way their request went. */
  lemma OutcomeInvisibleToFlags(s: UsersState, updated: UpdatePayload, id: string)
    ensures EditSubmitted(s, updated, true).isSuccessDialogOpen == EditSubmitted(s, updated, false).isSuccessDialogOpen
    ensures EditSubmitted(s, updated, true).isEditUserOpen == EditSubmitted(s, updated, false).isEditUserOpen
    ensures DeleteConfirmed(s, id, true).isSuccessDialogOpen == DeleteConfirmed(s, id, false).isSuccessDialogOpen
    ensures DeleteConfirmed(s, id, true).isDeleteModalOpen == DeleteConfirmed(s, id, false).isDeleteModalOpen
  {
  }

  /** Closing the success dialog refetches. */
  lemma SuccessCloseRefetches(s: UsersState)
    requires s.isSuccessDialogOpen
    ensures var r := Step(s, SuccessDialogClosed);
      !r.isSuccessDialogOpen && r.loading && r.requests == s.requests + [FetchUsers]
  {
  }

  /** A cancelled delete forgets the id; a confirmed one keeps it. */
  lemma DeleteCancelForgetsId(s: UsersState, deleteOk: bool)
    requires DeleteDialogRendered(s)
    ensures Step(s, DeleteCancelled).userIdToDelete.None?
    ensures Step(s, DeleteConfirmedEvent(deleteOk)).userIdToDelete == s.userIdToDelete
  {
  }

  lemma StepKeepsInvariant(s: UsersState, e: Event)
    requires UsersInvariant(s)
    ensures UsersInvariant(Step(s, e))
  {
  }

  lemma {:induction false} StepAllKeepsInvariant(s: UsersState, events: seq<Event>)
    requires UsersInvariant(s)
    ensures UsersInvariant(StepAll(s, events))
    decreases |events|
  {
    if events != [] {
      StepKeepsInvariant(s, events[0]);
      StepAllKeepsInvariant(Step(s, events[0]), events[1..]);
    }
  }

  /** Every state the page reaches from mounting keeps the invariant. */
  lemma ReachableKeepInvariant(events: seq<Event>)
    ensures UsersInvariant(StepAll(InitialUsers, events))
  {
    StepAllKeepsInvariant(InitialUsers, events);
  }

  // ---------------------------------------------------------------------------------------------
  // The component as an object

  class UsersPageComponent {
    var users: seq<User>
    var loading: bool
    var isCreateUserOpen: bool
    var isSuccessDialogOpen: bool
    var isEditUserOpen: bool
    var selectedUser: Option<User>
    var isDeleteModalOpen: bool
    var userIdToDelete: Option<string>
    var requests: seq<Request>

    function State(): UsersState
      reads this
    {
      UsersState(users, loading, isCreateUserOpen, isSuccessDialogOpen, isEditUserOpen, selectedUser,
                 isDeleteModalOpen, userIdToDelete, requests)
    }

    constructor ()
      ensures State() == InitialUsers && UsersInvariant(State())
    {
      users := [];
      loading := true;
      isCreateUserOpen := false;
      isSuccessDialogOpen := false;
      isEditUserOpen := false;
      selectedUser := None;
      isDeleteModalOpen := false;
      userIdToDelete := None;
      requests := [Request.FetchUsers];
    }

    /** `fetchUsers` up to its `await`. */
    method FetchUsers()
      modifies this
      ensures State() == BeginFetch(old(State()))
    {
      loading := true;
      requests := requests + [Request.FetchUsers];
    }

    method ReceiveUsers(response: UsersResponse)
      modifies this
      ensures State() == Step(old(State()), UsersArrived(response))
    {
      if response.UsersBody? {
        users := response.data;
      }
      loading := false;
    }

    method HandleOpenCreateUser()
      modifies this
      ensures State() == Step(old(State()), CreateOpened)
    {
      isCreateUserOpen := true;
    }

    method HandleCloseModalCreateUser()
      modifies this
      ensures State() == Step(old(State()), CreateClosed)
    {
      if isCreateUserOpen {
        isCreateUserOpen := false;
      }
    }

    method HandleSubmitUser(payload: CreatePayload, postOk: bool)
      modifies this
      ensures State() == Step(old(State()), CreateSubmitted(payload, postOk))
    {
      if isCreateUserOpen {
        requests := requests + [CreateUser(payload)];
        if postOk {
          isCreateUserOpen := false;
          isSuccessDialogOpen := true;
          FetchUsers();
        }
      }
    }

    method HandleCloseSuccessDialog()
      modifies this
      ensures State() == Step(old(State()), SuccessDialogClosed)
    {
      if isSuccessDialogOpen {
        isSuccessDialogOpen := false;
        FetchUsers();
      }
    }

    method HandleOpenEditUser(row: nat)
      modifies this
      ensures State() == Step(old(State()), EditClicked(row))
    {
      if !loading && row < |users| {
        selectedUser := Some(users[row]);
        isEditUserOpen := true;
      }
    }

    method CloseEditUser()
      modifies this
      ensures State() == Step(old(State()), EditClosed)
    {
      if isEditUserOpen && selectedUser.Some? {
        isEditUserOpen := false;
        selectedUser := None;
      }
    }

    /** The edit modal's `onSubmit`, with `handleEditUser` and its PUT's outcome. */
    method HandleEditUser(payload: UpdatePayload, putOk: bool)
      modifies this
      ensures State() == Step(old(State()), EditSaved(payload, putOk))
    {
      if isEditUserOpen && selectedUser.Some? {
        requests := requests + [UpdateUser(payload)];
        isEditUserOpen := false;
        selectedUser := None;
        isSuccessDialogOpen := true;
        if putOk {
          FetchUsers();
        }
      }
    }

    method HandleOpenDeleteModal(row: nat)
      modifies this
      ensures State() == Step(old(State()), DeleteClicked(row))
    {
      if !loading && row < |users| {
        userIdToDelete := Some(users[row].id);
        isDeleteModalOpen := true;
      }
    }

    /** The delete modal's `onConfirm`, with `handleDeleteUser` and its DELETE's outcome. */
    method HandleDeleteUser(deleteOk: bool)
      modifies this
      ensures State() == Step(old(State()), DeleteConfirmedEvent(deleteOk))
    {
      if isDeleteModalOpen && userIdToDelete.Some? && userIdToDelete.value != "" {
        requests := requests + [DeleteUser(userIdToDelete.value)];
        isDeleteModalOpen := false;
        isSuccessDialogOpen := true;
        if deleteOk {
          FetchUsers();
        }
      }
    }

    method CancelDelete()
      modifies this
      ensures State() == Step(old(State()), DeleteCancelled)
    {
      if isDeleteModalOpen && userIdToDelete.Some? && userIdToDelete.value != "" {
        isDeleteModalOpen := false;
        userIdToDelete := None;
      }
    }
  }
}
