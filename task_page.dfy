/**
 * The `Task` page: the paged task table, its search, and the create, edit and delete flows wired to
 * the modals. The page's `useState` hooks become the fields of `PageState`; every handler is a step
 * function over it, and `TaskPage` is the same state as a mutable object.
 */
module TaskPage {
  import opened Wrappers
  import opened Api
  import opened TaskForm

  /** Rows per page, as the server pages them and as the row numbers assume. */
  const PageSize := 10

  /** `localStorage.getItem('role') === 'pm'`. */
  predicate IsPM(role: Option<string>) {
    role == Some("pm")
  }

  // ---------------------------------------------------------------------------------------------
  // Decoding a list response

  function WithContributors(raw: RawTask, contributors: seq<string>): Task {
    Task(raw.id, raw.startDate, raw.endDate, raw.title, raw.description, raw.status, contributors)
  }

  /**
   * `data.data.map(task => ({...task, contributors: JSON.parse(task.contributors)}))`: every item
   * keeps its own fields and gets its contributors decoded; one item that does not parse throws, and
   * then there is no list at all.
   */
  function DecodeTasks(raws: seq<RawTask>, parse: string -> Option<seq<string>>): (r: Option<seq<Task>>)
    ensures r.Some? <==> forall i :: 0 <= i < |raws| ==> parse(raws[i].contributors).Some?
    ensures r.Some? ==> |r.value| == |raws|
    ensures r.Some? ==> forall i :: 0 <= i < |raws| ==>
      r.value[i] == WithContributors(raws[i], parse(raws[i].contributors).value)
    decreases |raws|
  {
    if raws == [] then Some([])
    else
      var c := parse(raws[0].contributors);
      var rest := DecodeTasks(raws[1..], parse);
      if c.None? then None
      else if rest.None? then None
      else Some([WithContributors(raws[0], c.value)] + rest.value)
  }

  /** A list or search response: an ok body with its items and page count, or anything that failed. */
  datatype ListResponse = ListOk(data: seq<RawTask>, totalPages: int) | ListFailed

  // ---------------------------------------------------------------------------------------------
  // Page state

  /** The requests the page issues, in the order it issues them. */
  datatype Request =
    | FetchTasks(page: int)
    | SearchTasks(keyword: string, page: int)
    | CreateTask(draft: TaskDraft)
    | DeleteTask(id: string)

  datatype PageState = PageState(
    tasks: seq<Task>,
    searchKeyword: string,
    isModalOpen: bool,
    isSuccessDialogOpen: bool,
    isEditModalOpen: bool,
    taskToEdit: Option<Task>,
    showDeleteModal: bool,
    taskIdToDelete: Option<string>,
    currentPage: int,
    totalPages: int,
    requests: seq<Request>)

  /** The state after mounting: the defaults of every hook, and the effect's first fetch of page 1. */
  const InitialPage := PageState([], "", false, false, false, None, false, None, 1, 1, [FetchTasks(1)])

  /** `setTasks` and `setTotalPages` from a response, or nothing when it failed or did not decode. */
  function ListArrived(s: PageState, response: ListResponse, parse: string -> Option<seq<string>>): (r: PageState)
    ensures response.ListOk? && DecodeTasks(response.data, parse).Some? ==>
      r == s.(tasks := DecodeTasks(response.data, parse).value, totalPages := response.totalPages)
    ensures !(response.ListOk? && DecodeTasks(response.data, parse).Some?) ==> r == s
  {
    if response.ListOk? then
      match DecodeTasks(response.data, parse)
      case Some(tasks) => s.(tasks := tasks, totalPages := response.totalPages)
      case None => s
    else s
  }

  /** `fetchTasks` always asks for the current page, without the keyword. */
  function Fetch(s: PageState): (r: PageState)
    ensures r.requests == s.requests + [FetchTasks(s.currentPage)]
    ensures r.(requests := s.requests) == s
  {
    s.(requests := s.requests + [FetchTasks(s.currentPage)])
  }

  /** Enter in the search box: the keyword and the current page. */
  function Search(s: PageState): (r: PageState)
    ensures r.requests == s.requests + [SearchTasks(s.searchKeyword, s.currentPage)]
    ensures r.(requests := s.requests) == s
  {
    s.(requests := s.requests + [SearchTasks(s.searchKeyword, s.currentPage)])
  }

  /**
   * `handlePageChange`: the page is set, and the effect on `currentPage` then fetches the unfiltered
   * list; setting the page it already has re-renders nothing and fetches nothing.
   */
  function PageChanged(s: PageState, page: int): (r: PageState)
    ensures r.currentPage == page
    ensures page != s.currentPage ==> r.requests == s.requests + [FetchTasks(page)]
    ensures page == s.currentPage ==> r == s
    ensures r.(currentPage := s.currentPage, requests := s.requests) == s
  {
    if page == s.currentPage then s
    else s.(currentPage := page, requests := s.requests + [FetchTasks(page)])
  }

  /**
   * The create modal's `onSubmit` then `onClose`: the POST is sent and the modal closes; only an ok
   * POST opens the success dialog and fetches.
   */
  function TaskSubmitted(s: PageState, draft: TaskDraft, postOk: bool): (r: PageState)
    ensures !r.isModalOpen
    ensures r.isSuccessDialogOpen == (postOk || s.isSuccessDialogOpen)
    ensures r.requests == s.requests + [CreateTask(draft)] + (if postOk then [FetchTasks(s.currentPage)] else [])
    ensures r.(isModalOpen := s.isModalOpen, isSuccessDialogOpen := s.isSuccessDialogOpen, requests := s.requests) == s
  {
    var sent := s.(requests := s.requests + [CreateTask(draft)]);
    var shown := if postOk then Fetch(sent.(isSuccessDialogOpen := true)) else sent;
    shown.(isModalOpen := false)
  }

  /** Closing the success dialog fetches again. */
  function SuccessClosed(s: PageState): (r: PageState)
    ensures !r.isSuccessDialogOpen
    ensures r.requests == s.requests + [FetchTasks(s.currentPage)]
    ensures r.(isSuccessDialogOpen := s.isSuccessDialogOpen, requests := s.requests) == s
  {
    Fetch(s.(isSuccessDialogOpen := false))
  }

  /** The update modal's `onSubmit` (it is only called after an ok PUT), then its `onClose`. */
  function EditSubmitted(s: PageState): (r: PageState)
    ensures !r.isEditModalOpen && r.taskToEdit.None? && r.isSuccessDialogOpen
    ensures r.requests == s.requests + [FetchTasks(s.currentPage)]
    ensures r.(isEditModalOpen := s.isEditModalOpen, taskToEdit := s.taskToEdit,
               isSuccessDialogOpen := s.isSuccessDialogOpen, requests := s.requests) == s
  {
    Fetch(s.(isEditModalOpen := false, taskToEdit := None, isSuccessDialogOpen := true))
  }

  /** `if (taskIdToDelete)`: a missing and an empty id are both falsy. */
  predicate HasIdToDelete(s: PageState) {
    s.taskIdToDelete.Some? && s.taskIdToDelete.value != ""
  }

  /**
   * The delete dialog's `onConfirm`: with an id, the DELETE is sent and the success dialog opens
   * whatever its outcome, and only an ok DELETE fetches; the dialog always closes, and the id is
   * kept.
   */
  function DeleteConfirmed(s: PageState, deleteOk: bool): (r: PageState)
    ensures !r.showDeleteModal
    ensures r.isSuccessDialogOpen == (HasIdToDelete(s) || s.isSuccessDialogOpen)
    ensures HasIdToDelete(s) ==>
      r.requests == s.requests + [DeleteTask(s.taskIdToDelete.value)] + (if deleteOk then [FetchTasks(s.currentPage)] else [])
    ensures !HasIdToDelete(s) ==> r.requests == s.requests
    ensures r.taskIdToDelete == s.taskIdToDelete
    ensures r.(showDeleteModal := s.showDeleteModal, isSuccessDialogOpen := s.isSuccessDialogOpen, requests := s.requests) == s
  {
    var acted :=
      if HasIdToDelete(s) then
        var sent := s.(requests := s.requests + [DeleteTask(s.taskIdToDelete.value)]);
        (if deleteOk then Fetch(sent) else sent).(isSuccessDialogOpen := true)
      else s;
    acted.(showDeleteModal := false)
  }

  // ---------------------------------------------------------------------------------------------
  // Pagination

  /** The "No" column: `index + 1 + (currentPage - 1) * 10`. */
  function RowNumber(index: int, currentPage: int): int {
    index + 1 + (currentPage - 1) * PageSize
  }

  function PreviousTarget(currentPage: int): int {
    if currentPage > 1 then currentPage - 1 else 1
  }

  function NextTarget(currentPage: int, totalPages: int): int {
    if currentPage < totalPages then currentPage + 1 else totalPages
  }

  predicate PreviousDisabled(currentPage: int) {
    currentPage == 1
  }

  predicate NextDisabled(currentPage: int, totalPages: int) {
    currentPage == totalPages
  }

  /** `Array.from({length: totalPages}, (_, i) => i + 1)`; a length below zero makes no buttons. */
  function PageButtons(totalPages: int): (r: seq<int>)
    ensures |r| == if totalPages < 0 then 0 else totalPages
    ensures forall i :: 0 <= i < |r| ==> r[i] == i + 1
    decreases if totalPages < 0 then 0 else totalPages
  {
    if totalPages <= 0 then [] else PageButtons(totalPages - 1) + [totalPages]
  }

  /** The pagination controls, each with the page its click asks for. */
  datatype PageControl = Previous | PageNumber(n: int) | Next

  /** A control fires only when it is rendered and enabled. */
  predicate ControlEnabled(c: PageControl, currentPage: int, totalPages: int) {
    match c
    case Previous => !PreviousDisabled(currentPage)
    case PageNumber(n) => 1 <= n <= totalPages
    case Next => !NextDisabled(currentPage, totalPages)
  }

  function ControlTarget(c: PageControl, currentPage: int, totalPages: int): int {
    match c
    case Previous => PreviousTarget(currentPage)
    case PageNumber(n) => n
    case Next => NextTarget(currentPage, totalPages)
  }

  /** The first figure of "Showing a to b of c". */
  function ShowingStart(currentPage: int): int {
    (currentPage - 1) * PageSize + 1
  }

  /** The second figure as the page computes it: `Math.min(currentPage * 10, tasks.length)`. */
  function ShowingEndAsWritten(currentPage: int, shown: nat): int {
    if currentPage * PageSize <= shown then currentPage * PageSize else shown
  }

  /** The second figure as intended: the row number of the last row shown. */
  function ShowingEnd(currentPage: int, shown: nat): int {
    (currentPage - 1) * PageSize + shown
  }

  /** The third figure: `totalPages * 10`. */
  function ShowingTotal(totalPages: int): int {
    totalPages * PageSize
  }

  // ---------------------------------------------------------------------------------------------
  // Events

  datatype Event =
    | KeywordTyped(keyword: string)
    | SearchEntered
    | ListReceived(response: ListResponse)
    | PageClicked(control: PageControl)
    | CreateOpened
    | CreateClosed
    | CreateSubmitted(draft: TaskDraft, postOk: bool)
    | SuccessDialogClosed
    | EditClicked(row: nat)
    | EditClosed
    | EditSaved
    | DeleteClicked(row: nat)
    | DeleteConfirmedEvent(deleteOk: bool)
    | DeleteCancelled

  /**
   * One event. An event on something that is not rendered does nothing: the create button and the
   * delete icon exist only for a PM, each modal only while it is open, a row only while it is listed.
   */
  function Step(s: PageState, e: Event, isPM: bool, parse: string -> Option<seq<string>>): PageState {
    match e
    case KeywordTyped(k) => s.(searchKeyword := k)
    case SearchEntered => Search(s)
    case ListReceived(response) => ListArrived(s, response, parse)
    case PageClicked(c) =>
      if ControlEnabled(c, s.currentPage, s.totalPages) then PageChanged(s, ControlTarget(c, s.currentPage, s.totalPages)) else s
    case CreateOpened => if isPM then s.(isModalOpen := true) else s
    case CreateClosed => s.(isModalOpen := false)
    case CreateSubmitted(draft, postOk) => if s.isModalOpen then TaskSubmitted(s, draft, postOk) else s
    case SuccessDialogClosed => if s.isSuccessDialogOpen then SuccessClosed(s) else s
    case EditClicked(row) =>
      if row < |s.tasks| then s.(taskToEdit := Some(s.tasks[row]), isEditModalOpen := true) else s
    case EditClosed => if s.isEditModalOpen && s.taskToEdit.Some? then s.(isEditModalOpen := false) else s
    case EditSaved => if s.isEditModalOpen && s.taskToEdit.Some? then EditSubmitted(s) else s
    case DeleteClicked(row) =>
      if isPM && row < |s.tasks| then s.(taskIdToDelete := Some(s.tasks[row].id), showDeleteModal := true) else s
    case DeleteConfirmedEvent(deleteOk) => if s.showDeleteModal then DeleteConfirmed(s, deleteOk) else s
    case DeleteCancelled => if s.showDeleteModal then s.(showDeleteModal := false) else s
  }

  function StepAll(s: PageState, events: seq<Event>, isPM: bool, parse: string -> Option<seq<string>>): PageState
    decreases |events|
  {
    if events == [] then s else StepAll(Step(s, events[0], isPM, parse), events[1..], isPM, parse)
  }

  /** Requests only a PM can cause. */
  predicate Privileged(r: Request) {
    r.CreateTask? || r.DeleteTask?
  }

  /**
   * What the gating guarantees: the create modal and the delete dialog are open only for a PM, the
   * delete dialog always has an id, the edit modal always has a task, and a non-PM never sends a
   * create or a delete.
   */
  predicate PageInvariant(s: PageState, isPM: bool) {
    && (s.isModalOpen ==> isPM)
    && (s.showDeleteModal ==> isPM && s.taskIdToDelete.Some?)
    && (s.isEditModalOpen ==> s.taskToEdit.Some?)
    && (!isPM ==> forall i :: 0 <= i < |s.requests| ==> !Privileged(s.requests[i]))
  }

  // ---------------------------------------------------------------------------------------------
  // What is shown

  /** The status dot of a row. */
  function StatusDot(status: string): (c: string)
    ensures status == "done" ==> c == "bg-green-600"
    ensures status == "on progress" ==> c == "bg-yellow-600"
    ensures status != "done" && status != "on progress" ==> c == "bg-gray-200"
  {
    if status == "done" then "bg-green-600" else if status == "on progress" then "bg-yellow-600" else "bg-gray-200"
  }

  datatype Row = Row(number: int, title: string, description: string, status: string, dot: string,
                     contributors: seq<string>, canDelete: bool)

  datatype TableBody = Rows(rows: seq<Row>) | TaskNotFound

  datatype PageView = PageView(
    canCreate: bool,
    body: TableBody,
    showing: (int, int, int),
    previousDisabled: bool,
    buttons: seq<(int, bool)>,
    nextDisabled: bool,
    createModal: bool,
    successDialog: bool,
    editModal: bool,
    deleteDialog: bool)

  /**
   * One table row: its number on the page, the task's title, description, status and contributors,
   * the status dot, and a delete action only for a PM.
   */
  function RowOf(t: Task, index: int, currentPage: int, isPM: bool): (r: Row)
    ensures r.number == RowNumber(index, currentPage)
    ensures r.title == t.title && r.description == t.description && r.status == t.status
    ensures r.dot == StatusDot(t.status) && r.contributors == t.contributors && r.canDelete == isPM
  {
    Row(RowNumber(index, currentPage), t.title, t.description, t.status, StatusDot(t.status), t.contributors, isPM)
  }

  /** The table body: one row per task on the page, or the "Task not found" row for an empty page. */
  function BodyOf(tasks: seq<Task>, currentPage: int, isPM: bool): (b: TableBody)
    ensures b.TaskNotFound? <==> tasks == []
    ensures b.Rows? ==> |b.rows| == |tasks|
    ensures b.Rows? ==> forall i :: 0 <= i < |tasks| ==> b.rows[i] == RowOf(tasks[i], i, currentPage, isPM)
  {
    if tasks == [] then TaskNotFound
    else Rows(seq(|tasks|, i requires 0 <= i < |tasks| => RowOf(tasks[i], i, currentPage, isPM)))
  }

  /** The numbered page buttons, each paired with whether it is the current page. */
  function ButtonsOf(totalPages: int, currentPage: int): (r: seq<(int, bool)>)
    ensures |r| == |PageButtons(totalPages)|
    ensures forall i :: 0 <= i < |r| ==> r[i] == (i + 1, i + 1 == currentPage)
  {
    var pages := PageButtons(totalPages);
    seq(|pages|, i requires 0 <= i < |pages| => (pages[i], pages[i] == currentPage))
  }

  /** The rendered page: every figure above, plus which of the dialogs is mounted. */
  function View(s: PageState, isPM: bool): (v: PageView)
    ensures v.canCreate == isPM
    ensures v.body.TaskNotFound? <==> s.tasks == []
    ensures v.body.Rows? ==> |v.body.rows| == |s.tasks|
    ensures v.body.Rows? ==> forall i :: 0 <= i < |s.tasks| ==> v.body.rows[i] == RowOf(s.tasks[i], i, s.currentPage, isPM)
    ensures v.previousDisabled == PreviousDisabled(s.currentPage)
    ensures v.nextDisabled == NextDisabled(s.currentPage, s.totalPages)
    ensures v.showing == (ShowingStart(s.currentPage), ShowingEnd(s.currentPage, |s.tasks|), ShowingTotal(s.totalPages))
    ensures |v.buttons| == |PageButtons(s.totalPages)|
    ensures forall i :: 0 <= i < |v.buttons| ==> v.buttons[i] == (i + 1, i + 1 == s.currentPage)
    ensures v.createModal == s.isModalOpen && v.successDialog == s.isSuccessDialogOpen
    ensures v.editModal == (s.isEditModalOpen && s.taskToEdit.Some?) && v.deleteDialog == s.showDeleteModal
  {
    PageView(
      isPM,
      BodyOf(s.tasks, s.currentPage, isPM),
      (ShowingStart(s.currentPage), ShowingEnd(s.currentPage, |s.tasks|), ShowingTotal(s.totalPages)),
      PreviousDisabled(s.currentPage),
      ButtonsOf(s.totalPages, s.currentPage),
      NextDisabled(s.currentPage, s.totalPages),
      s.isModalOpen,
      s.isSuccessDialogOpen,
      s.isEditModalOpen && s.taskToEdit.Some?,
      s.showDeleteModal)
  }

  // ---------------------------------------------------------------------------------------------
  // Lemmas

  /** The first row of page 3 is numbered 21. */
  lemma RowNumberOnPageThree()
    ensures RowNumber(0, 3) == 21
  {
  }

  /** Rows of different pages, or different rows of one page, never share a number. */
  lemma RowNumbersDistinct(i: int, p: int, j: int, q: int)
    requires 0 <= i < PageSize && 0 <= j < PageSize
    requires RowNumber(i, p) == RowNumber(j, q)
    ensures i == j && p == q
  {
  }

  /** From a page in 1..totalPages, Previous and Next stay in 1..totalPages. */
  lemma TargetsInRange(currentPage: int, totalPages: int)
    requires 1 <= currentPage <= totalPages
    ensures 1 <= PreviousTarget(currentPage) <= totalPages
    ensures 1 <= NextTarget(currentPage, totalPages) <= totalPages
  {
  }

  /** A button is disabled exactly when its click would not move: the clamp reaches the same page. */
  lemma DisabledIffNoMove(currentPage: int, totalPages: int)
    requires 1 <= currentPage <= totalPages
    ensures PreviousDisabled(currentPage) <==> PreviousTarget(currentPage) == currentPage
    ensures NextDisabled(currentPage, totalPages) <==> NextTarget(currentPage, totalPages) == currentPage
  {
  }

  /** Any click that fires, from a page in range, lands on a page in range. */
  lemma ClicksStayInRange(s: PageState, c: PageControl, isPM: bool, parse: string -> Option<seq<string>>)
    requires 1 <= s.currentPage <= s.totalPages
    ensures 1 <= Step(s, PageClicked(c), isPM, parse).currentPage <= s.totalPages
  {
    if ControlEnabled(c, s.currentPage, s.totalPages) {
      TargetsInRange(s.currentPage, s.totalPages);
    }
  }

  /** With no pages at all, Next stays enabled and asks for page 0, and there are no number buttons. */
  lemma ZeroPagesEdge()
    ensures !NextDisabled(1, 0) && NextTarget(1, 0) == 0
    ensures PageButtons(0) == []
  {
  }

  /** The page buttons are exactly the pages 1..totalPages. */
  lemma {:induction false} PageButtonsAreThePages(totalPages: int, n: int)
    ensures n in PageButtons(totalPages) <==> 1 <= n <= totalPages
  {
    var r := PageButtons(totalPages);
    if 1 <= n <= totalPages {
      assert r[n - 1] == n;
    }
    if n in r {
      var k :| 0 <= k < |r| && r[k] == n;
    }
  }

  /** On every page after the first, the figures as written read "11 to 10" style: end below start. */
  lemma ShowingAsWrittenInverted(currentPage: int, shown: nat)
    requires currentPage >= 2 && shown <= PageSize
    ensures ShowingEndAsWritten(currentPage, shown) < ShowingStart(currentPage)
  {
  }

  /** The concrete case: a full second page of ten tasks. */
  lemma ShowingAsWrittenPageTwo()
    ensures ShowingStart(2) == 11 && ShowingEndAsWritten(2, 10) == 10
  {
  }

  /**
   * The intended figures: for a non-empty page of at most ten rows, the range runs from the first
   * row's number to the last row's number and counts exactly the rows shown.
   */
  lemma ShowingMatchesRows(currentPage: int, shown: nat)
    requires 1 <= shown <= PageSize
    ensures ShowingStart(currentPage) == RowNumber(0, currentPage)
    ensures ShowingEnd(currentPage, shown) == RowNumber(shown - 1, currentPage)
    ensures ShowingEnd(currentPage, shown) - ShowingStart(currentPage) + 1 == shown
  {
  }

  /** On the first page the intended end and the written one agree. */
  lemma ShowingAgreesOnFirstPage(shown: nat)
    requires shown <= PageSize
    ensures ShowingEnd(1, shown) == ShowingEndAsWritten(1, shown)
  {
  }

  /** A page change after a search fetches the unfiltered list of the new page. */
  lemma PageChangeDropsSearch(s: PageState, page: int)
    requires page != s.currentPage
    ensures var r := PageChanged(Search(s), page);
      r.requests == s.requests + [SearchTasks(s.searchKeyword, s.currentPage), FetchTasks(page)]
  {
  }

  /** An ok create fetches once, and closing the success dialog that it opened fetches again. */
  lemma CreateThenCloseFetchesTwice(s: PageState, draft: TaskDraft, isPM: bool, parse: string -> Option<seq<string>>)
    requires s.isModalOpen
    ensures var r := StepAll(s, [CreateSubmitted(draft, true), SuccessDialogClosed], isPM, parse);
      r.requests == s.requests + [CreateTask(draft), FetchTasks(s.currentPage), FetchTasks(s.currentPage)] &&
      !r.isModalOpen && !r.isSuccessDialogOpen
  {
    var s1 := Step(s, CreateSubmitted(draft, true), isPM, parse);
    assert s1.isSuccessDialogOpen;
    assert [CreateSubmitted(draft, true), SuccessDialogClosed][1..] == [SuccessDialogClosed];
    assert StepAll(s1, [SuccessDialogClosed], isPM, parse) == StepAll(Step(s1, SuccessDialogClosed, isPM, parse), [], isPM, parse);
  }

  /** The success dialog opens after a confirmed delete whether or not the DELETE succeeded. */
  lemma DeleteShowsSuccessEitherWay(s: PageState, deleteOk: bool)
    requires HasIdToDelete(s)
    ensures DeleteConfirmed(s, deleteOk).isSuccessDialogOpen
    ensures DeleteConfirmed(s, true).isSuccessDialogOpen == DeleteConfirmed(s, false).isSuccessDialogOpen
  {
  }

  lemma InitialPageInvariant(isPM: bool)
    ensures PageInvariant(InitialPage, isPM)
  {
  }

  /** Every event keeps the invariant. */
  lemma StepKeepsInvariant(s: PageState, e: Event, isPM: bool, parse: string -> Option<seq<string>>)
    requires PageInvariant(s, isPM)
    ensures PageInvariant(Step(s, e, isPM, parse), isPM)
  {
    var r := Step(s, e, isPM, parse);
    if !isPM {
      assert forall i :: 0 <= i < |r.requests| ==> !Privileged(r.requests[i]) by {
        forall i | 0 <= i < |r.requests|
          ensures !Privileged(r.requests[i])
        {
          if i < |s.requests| {
            assert r.requests[..|s.requests|] == s.requests;
            assert r.requests[i] == s.requests[i];
          }
        }
      }
    }
  }

  /** Any run of events from a state that keeps the invariant keeps it. */
  lemma {:induction false} StepAllKeepsInvariant(s: PageState, events: seq<Event>, isPM: bool, parse: string -> Option<seq<string>>)
    requires PageInvariant(s, isPM)
    ensures PageInvariant(StepAll(s, events, isPM, parse), isPM)
    decreases |events|
  {
    if events != [] {
      StepKeepsInvariant(s, events[0], isPM, parse);
      StepAllKeepsInvariant(Step(s, events[0], isPM, parse), events[1..], isPM, parse);
    }
  }

  /** Whatever a non-PM does on the page, no create and no delete request leaves it. */
  lemma NonPMNeverWrites(events: seq<Event>, parse: string -> Option<seq<string>>)
    ensures var r := StepAll(InitialPage, events, false, parse);
      forall i :: 0 <= i < |r.requests| ==> !Privileged(r.requests[i])
  {
    InitialPageInvariant(false);
    StepAllKeepsInvariant(InitialPage, events, false, parse);
  }

  // ---------------------------------------------------------------------------------------------
  // The component as an object

  class TaskPageComponent {
    const isPM: bool
    const parse: string -> Option<seq<string>>
    var tasks: seq<Task>
    var searchKeyword: string
    var isModalOpen: bool
    var isSuccessDialogOpen: bool
    var isEditModalOpen: bool
    var taskToEdit: Option<Task>
    var showDeleteModal: bool
    var taskIdToDelete: Option<string>
    var currentPage: int
    var totalPages: int
    var requests: seq<Request>

    function State(): PageState
      reads this
    {
      PageState(tasks, searchKeyword, isModalOpen, isSuccessDialogOpen, isEditModalOpen, taskToEdit,
                showDeleteModal, taskIdToDelete, currentPage, totalPages, requests)
    }

    predicate Valid()
      reads this
    {
      PageInvariant(State(), isPM)
    }

    /** Mounting: the hooks' defaults, `isPM` from the stored role, and the effect's first fetch. */
    constructor (role: Option<string>, parse: string -> Option<seq<string>>)
      ensures this.isPM == IsPM(role) && this.parse == parse
      ensures State() == InitialPage && Valid()
    {
      this.isPM := role == Some("pm");
      this.parse := parse;
      tasks := [];
      searchKeyword := "";
      isModalOpen := false;
      isSuccessDialogOpen := false;
      isEditModalOpen := false;
      taskToEdit := None;
      showDeleteModal := false;
      taskIdToDelete := None;
      currentPage := 1;
      totalPages := 1;
      requests := [Request.FetchTasks(1)];
    }

    method FetchTasks()
      modifies this
      ensures State() == Fetch(old(State()))
    {
      requests := requests + [Request.FetchTasks(currentPage)];
    }

    /** The tail of `fetchTasks` and `handleSearch`: the response, once it arrives. */
    method ReceiveList(response: ListResponse)
      requires Valid()
      modifies this
      ensures State() == Step(old(State()), ListReceived(response), isPM, parse) && Valid()
    {
      if response.ListOk? {
        var decoded := DecodeTasks(response.data, parse);
        if decoded.Some? {
          tasks := decoded.value;
          totalPages := response.totalPages;
        }
      }
      StepKeepsInvariant(old(State()), ListReceived(response), isPM, parse);
    }

    method TypeKeyword(keyword: string)
      requires Valid()
      modifies this
      ensures State() == Step(old(State()), KeywordTyped(keyword), isPM, parse) && Valid()
    {
      searchKeyword := keyword;
    }

    method HandleSearch()
      requires Valid()
      modifies this
      ensures State() == Step(old(State()), SearchEntered, isPM, parse) && Valid()
    {
      requests := requests + [SearchTasks(searchKeyword, currentPage)];
      StepKeepsInvariant(old(State()), SearchEntered, isPM, parse);
    }

    method HandlePageChange(c: PageControl)
      requires Valid()
      modifies this
      ensures State() == Step(old(State()), PageClicked(c), isPM, parse) && Valid()
    {
      if ControlEnabled(c, currentPage, totalPages) {
        var page := ControlTarget(c, currentPage, totalPages);
        if page != currentPage {
          currentPage := page;
          requests := requests + [Request.FetchTasks(page)];
        }
      }
      StepKeepsInvariant(old(State()), PageClicked(c), isPM, parse);
    }

    method HandleOpenModalCreate()
      requires Valid()
      modifies this
      ensures State() == Step(old(State()), CreateOpened, isPM, parse) && Valid()
    {
      if isPM {
        isModalOpen := true;
      }
    }

    method HandleCloseModalCreate()
      requires Valid()
      modifies this
      ensures State() == Step(old(State()), CreateClosed, isPM, parse) && Valid()
    {
      isModalOpen := false;
    }

    method HandleSubmitTask(draft: TaskDraft, postOk: bool)
      requires Valid()
      modifies this
      ensures State() == Step(old(State()), CreateSubmitted(draft, postOk), isPM, parse) && Valid()
    {
      if isModalOpen {
        requests := requests + [CreateTask(draft)];
        if postOk {
          isSuccessDialogOpen := true;
          FetchTasks();
        }
        isModalOpen := false;
      }
      StepKeepsInvariant(old(State()), CreateSubmitted(draft, postOk), isPM, parse);
    }

    method HandleCloseSuccessDialog()
      requires Valid()
      modifies this
      ensures State() == Step(old(State()), SuccessDialogClosed, isPM, parse) && Valid()
    {
      if isSuccessDialogOpen {
        isSuccessDialogOpen := false;
        FetchTasks();
      }
      StepKeepsInvariant(old(State()), SuccessDialogClosed, isPM, parse);
    }

    method HandleEditClick(row: nat)
      requires Valid()
      modifies this
      ensures State() == Step(old(State()), EditClicked(row), isPM, parse) && Valid()
    {
      if row < |tasks| {
        taskToEdit := Some(tasks[row]);
        isEditModalOpen := true;
      }
    }

    method CloseEditModal()
      requires Valid()
      modifies this
      ensures State() == Step(old(State()), EditClosed, isPM, parse) && Valid()
    {
      if isEditModalOpen && taskToEdit.Some? {
        isEditModalOpen := false;
      }
    }

    method HandleEditSubmit()
      requires Valid()
      modifies this
      ensures State() == Step(old(State()), EditSaved, isPM, parse) && Valid()
    {
      if isEditModalOpen && taskToEdit.Some? {
        isEditModalOpen := false;
        taskToEdit := None;
        isSuccessDialogOpen := true;
        FetchTasks();
      }
      StepKeepsInvariant(old(State()), EditSaved, isPM, parse);
    }

    method HandleDeleteClick(row: nat)
      requires Valid()
      modifies this
      ensures State() == Step(old(State()), DeleteClicked(row), isPM, parse) && Valid()
    {
      if isPM && row < |tasks| {
        taskIdToDelete := Some(tasks[row].id);
        showDeleteModal := true;
      }
    }

    /** `onConfirm`, with `deleteTask` and the response of its DELETE. */
    method HandleDeleteConfirm(deleteOk: bool)
      requires Valid()
      modifies this
      ensures State() == Step(old(State()), DeleteConfirmedEvent(deleteOk), isPM, parse) && Valid()
    {
      if showDeleteModal {
        if taskIdToDelete.Some? && taskIdToDelete.value != "" {
          requests := requests + [DeleteTask(taskIdToDelete.value)];
          if deleteOk {
            FetchTasks();
          }
          isSuccessDialogOpen := true;
        }
        showDeleteModal := false;
      }
      StepKeepsInvariant(old(State()), DeleteConfirmedEvent(deleteOk), isPM, parse);
    }

    method HandleDeleteCancel()
      requires Valid()
      modifies this
      ensures State() == Step(old(State()), DeleteCancelled, isPM, parse) && Valid()
    {
      if showDeleteModal {
        showDeleteModal := false;
      }
    }
  }
}
