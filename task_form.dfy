/** The field state shared by the create-task and update-task modals, and the payload built from it. */
module TaskForm {
  import opened Api

  datatype Form = Form(
    title: string,
    description: string,
    status: string,
    selectedContributors: seq<string>,
    startDate: DateField,
    endDate: DateField)

  datatype Field = Title | Description | Status | Contributors | StartDate | EndDate

  /** One `onChange` of a form control. */
  datatype FieldEdit =
    | SetTitle(title: string)
    | SetDescription(description: string)
    | SetStatus(status: string)
    | SetContributors(usernames: seq<string>)
    | SetStartDate(start: DateField)
    | SetEndDate(end: DateField)

  function FieldOf(e: FieldEdit): Field {
    match e
    case SetTitle(_) => Title
    case SetDescription(_) => Description
    case SetStatus(_) => Status
    case SetContributors(_) => Contributors
    case SetStartDate(_) => StartDate
    case SetEndDate(_) => EndDate
  }

  /** The values of the status `<select>`. */
  predicate IsStatusOption(s: string) {
    s == "todo" || s == "on progress" || s == "done"
  }

  /** An edit changes its own field and no other; the status select only yields its three options. */
  function ApplyEdit(f: Form, e: FieldEdit): (r: Form)
    ensures FieldOf(e) != Title ==> r.title == f.title
    ensures FieldOf(e) != Description ==> r.description == f.description
    ensures FieldOf(e) != Status ==> r.status == f.status
    ensures FieldOf(e) != Contributors ==> r.selectedContributors == f.selectedContributors
    ensures FieldOf(e) != StartDate ==> r.startDate == f.startDate
    ensures FieldOf(e) != EndDate ==> r.endDate == f.endDate
    ensures e.SetTitle? ==> r.title == e.title
    ensures e.SetDescription? ==> r.description == e.description
    ensures e.SetStatus? ==> r.status == (if IsStatusOption(e.status) then e.status else f.status)
    ensures e.SetContributors? ==> r.selectedContributors == e.usernames
    ensures e.SetStartDate? ==> r.startDate == e.start
    ensures e.SetEndDate? ==> r.endDate == e.end
    ensures IsStatusOption(f.status) ==> IsStatusOption(r.status)
  {
    match e
    case SetTitle(t) => f.(title := t)
    case SetDescription(d) => f.(description := d)
    case SetStatus(s) => if IsStatusOption(s) then f.(status := s) else f
    case SetContributors(cs) => f.(selectedContributors := cs)
    case SetStartDate(d) => f.(startDate := d)
    case SetEndDate(d) => f.(endDate := d)
  }

  /** The form after a run of `onChange` events, in order. */
  function ApplyAll(f: Form, edits: seq<FieldEdit>): Form
    decreases |edits|
  {
    if edits == [] then f else ApplyAll(ApplyEdit(f, edits[0]), edits[1..])
  }

  /** A status that starts as one of the select's options stays one, whatever the user does. */
  lemma {:induction false} ApplyAllKeepsStatusOption(f: Form, edits: seq<FieldEdit>)
    requires IsStatusOption(f.status)
    ensures IsStatusOption(ApplyAll(f, edits).status)
    decreases |edits|
  {
    if edits != [] {
      ApplyAllKeepsStatusOption(ApplyEdit(f, edits[0]), edits[1..]);
    }
  }

  /** The task payload: every field copied from the form state. */
  datatype TaskDraft = TaskDraft(
    title: string,
    description: string,
    status: string,
    contributors: seq<string>,
    startDate: DateField,
    endDate: DateField)

  function Draft(f: Form): (d: TaskDraft)
    ensures d.title == f.title && d.description == f.description && d.status == f.status
    ensures d.contributors == f.selectedContributors
    ensures d.startDate == f.startDate && d.endDate == f.endDate
  {
    TaskDraft(f.title, f.description, f.status, f.selectedContributors, f.startDate, f.endDate)
  }
}
