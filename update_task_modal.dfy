/** `UpdateTaskModal`: the form that edits an existing task. */
module UpdateTaskModal {
  import opened Wrappers
  import opened Js
  import opened Api
  import opened TaskForm
  import opened RolesMap

  /** The `initialData` fields the prefill effect reads; any of them may be missing. */
  datatype TaskRecord = TaskRecord(
    title: Option<string>,
    description: Option<string>,
    status: Option<string>,
    contributors: Option<seq<string>>,
    startDate: Option<string>,
    endDate: Option<string>)

  /** A task of the list, as the page hands it over. */
  function RecordOf(t: Task): TaskRecord {
    TaskRecord(Some(t.title), Some(t.description), Some(t.status), Some(t.contributors), Some(t.startDate), Some(t.endDate))
  }

  /** Both dates start as the time the modal was mounted. */
  const InitialForm := Form("", "", "todo", [], Today, Today)

  /**
   * The prefill effect: title and description fall back to `''`, status to `'todo'`, contributors
   * to `[]`; a date is replaced only when the record has one, otherwise the form keeps its own.
   */
  function Prefill(f: Form, d: TaskRecord): (r: Form)
    ensures r.title == Or(d.title, "") && r.description == Or(d.description, "")
    ensures r.status == Or(d.status, "todo")
    ensures r.selectedContributors == (if d.contributors.Some? then d.contributors.value else [])
    ensures r.startDate == (if Truthy(d.startDate) then Picked(d.startDate.value) else f.startDate)
    ensures r.endDate == (if Truthy(d.endDate) then Picked(d.endDate.value) else f.endDate)
  {
    Form(
      Or(d.title, ""),
      Or(d.description, ""),
      Or(d.status, "todo"),
      d.contributors.GetOr([]),
      if Truthy(d.startDate) then Picked(d.startDate.value) else f.startDate,
      if Truthy(d.endDate) then Picked(d.endDate.value) else f.endDate)
  }

  /** A listed task with non-empty fields fills the form with exactly its own values. */
  lemma PrefillFromListedTask(f: Form, t: Task)
    requires t.title != "" && t.description != "" && t.status != "" && t.startDate != "" && t.endDate != ""
    ensures Prefill(f, RecordOf(t)) == Form(t.title, t.description, t.status, t.contributors, Picked(t.startDate), Picked(t.endDate))
  {
  }

  /** Title, contributors and both dates are disabled for anyone but a PM. */
  predicate Disabled(field: Field, isPM: bool) {
    !isPM && (field == Title || field == Contributors || field == StartDate || field == EndDate)
  }

  /** A disabled control fires no `onChange`. */
  function EditAllowed(f: Form, e: FieldEdit, isPM: bool): (r: Form)
    ensures Disabled(FieldOf(e), isPM) ==> r == f
    ensures !Disabled(FieldOf(e), isPM) ==> r == ApplyEdit(f, e)
  {
    if Disabled(FieldOf(e), isPM) then f else ApplyEdit(f, e)
  }

  function EditAll(f: Form, edits: seq<FieldEdit>, isPM: bool): Form
    decreases |edits|
  {
    if edits == [] then f else EditAll(EditAllowed(f, edits[0], isPM), edits[1..], isPM)
  }

  /** Whatever a non-PM user does, title, contributors and dates stay as they were prefilled. */
  lemma {:induction false} NonPMKeepsLockedFields(f: Form, edits: seq<FieldEdit>)
    ensures EditAll(f, edits, false).title == f.title
    ensures EditAll(f, edits, false).selectedContributors == f.selectedContributors
    ensures EditAll(f, edits, false).startDate == f.startDate
    ensures EditAll(f, edits, false).endDate == f.endDate
    decreases |edits|
  {
    if edits != [] {
      NonPMKeepsLockedFields(EditAllowed(f, edits[0], false), edits[1..]);
    }
  }

  /**
   * Description and status stay editable for everyone: a description edit lands, and so does a
   * status chosen from the select. A PM can edit every field, and each edit lands as `ApplyEdit` says.
   */
  lemma EditableFields(isPM: bool, field: Field, f: Form, d: string, st: string, e: FieldEdit)
    ensures !Disabled(Description, isPM) && !Disabled(Status, isPM)
    ensures EditAllowed(f, SetDescription(d), isPM).description == d
    ensures IsStatusOption(st) ==> EditAllowed(f, SetStatus(st), isPM).status == st
    ensures isPM ==> !Disabled(field, isPM) && EditAllowed(f, e, isPM) == ApplyEdit(f, e)
  {
  }

  /** `roles[id] ? roles[id].toUpperCase() : '-'`: a missing id, or an empty name, shows `-`. */
  function RoleBadge(roles: map<nat, string>, id: nat, upper: string -> string): (r: string)
    ensures id in roles && roles[id] != "" ==> r == upper(roles[id])
    ensures !(id in roles && roles[id] != "") ==> r == "-"
  {
    if id in roles && roles[id] != "" then upper(roles[id]) else "-"
  }

  function OptionLabel(c: Collaborator, roles: map<nat, string>, upper: string -> string): string {
    c.username + " - " + RoleBadge(roles, c.roleId, upper)
  }

  /** The browser's check of the `required` controls; a disabled title is exempt from it. */
  predicate RequiredFilled(f: Form, isPM: bool) {
    (Disabled(Title, isPM) || f.title != "") && f.description != ""
  }

  /**
   * Whether both date pickers hold a date. `handleSubmit` calls `toISOString` on each while it
   * builds the payload, before its `try`; a cleared picker holds `null`, and the call throws.
   */
  predicate DatesSet(f: Form) {
    f.startDate != Blank && f.endDate != Blank
  }

  /**
   * The PUT `handleSubmit` sends: none when the browser blocks the submit, none when building the
   * payload throws on a cleared date, and otherwise the form's payload.
   */
  function SubmitRequest(f: Form, isPM: bool): (r: Option<TaskDraft>)
    ensures r.Some? <==> RequiredFilled(f, isPM) && DatesSet(f)
    ensures r.Some? ==> r.value == Draft(f)
  {
    if RequiredFilled(f, isPM) && DatesSet(f) then Some(Draft(f)) else None
  }

  /** A cleared date picker stops the submit even when every required field is filled. */
  lemma ClearedDateSendsNothing(f: Form, isPM: bool)
    requires RequiredFilled(f, isPM)
    requires f.startDate == Blank || f.endDate == Blank
    ensures SubmitRequest(f, isPM).None?
  {
  }

  /**
   * A non-PM cannot clear a date, since both pickers are disabled for them: from the mounted
   * form, after the prefill and any edits, the payload never throws, and a filled form is sent.
   */
  lemma NonPMDatesStaySet(d: TaskRecord, edits: seq<FieldEdit>)
    ensures DatesSet(EditAll(Prefill(InitialForm, d), edits, false))
    ensures RequiredFilled(EditAll(Prefill(InitialForm, d), edits, false), false) ==>
      SubmitRequest(EditAll(Prefill(InitialForm, d), edits, false), false).Some?
  {
    NonPMKeepsLockedFields(Prefill(InitialForm, d), edits);
  }

  /** The callbacks `handleSubmit` makes: `onSubmit` then `onClose` after an ok PUT, none otherwise. */
  datatype Callback = OnSubmit | OnClose

  function SubmitCalls(putOk: bool): (calls: seq<Callback>)
    ensures putOk ==> calls == [OnSubmit, OnClose]
    ensures !putOk ==> calls == []
  {
    if putOk then [OnSubmit, OnClose] else []
  }

  /** What the open modal shows: each control with its disabled flag, and the contributor options. */
  datatype ModalView = ModalView(disabled: seq<(Field, bool)>, options: seq<string>)

  const Fields: seq<Field> := [Title, Description, Status, Contributors, StartDate, EndDate]

  function View(isOpen: bool, isPM: bool, collaborators: seq<Collaborator>, roles: map<nat, string>, upper: string -> string): (r: Option<ModalView>)
    ensures r.None? <==> !isOpen
    ensures r.Some? ==> |r.value.disabled| == |Fields|
    ensures r.Some? ==> forall i :: 0 <= i < |Fields| ==> r.value.disabled[i] == (Fields[i], Disabled(Fields[i], isPM))
    ensures r.Some? ==> |r.value.options| == |collaborators|
    ensures r.Some? ==> forall i :: 0 <= i < |collaborators| ==> r.value.options[i] == OptionLabel(collaborators[i], roles, upper)
  {
    if !isOpen then None
    else Some(ModalView(
      seq(|Fields|, i requires 0 <= i < |Fields| => (Fields[i], Disabled(Fields[i], isPM))),
      seq(|collaborators|, i requires 0 <= i < |collaborators| => OptionLabel(collaborators[i], roles, upper))))
  }

  class UpdateTaskModalState {
    var form: Form
    var collaborators: seq<Collaborator>
    var roles: map<nat, string>

    constructor ()
      ensures form == InitialForm && collaborators == [] && roles == map[]
    {
      form := InitialForm;
      collaborators := [];
      roles := map[];
    }

    /** The effect on `initialData`: one setter per field, the dates only when present. */
    method PrefillFrom(d: TaskRecord)
      modifies this
      ensures form == Prefill(old(form), d)
      ensures collaborators == old(collaborators) && roles == old(roles)
    {
      form := form.(title := Or(d.title, ""));
      form := form.(description := Or(d.description, ""));
      form := form.(status := Or(d.status, "todo"));
      form := form.(selectedContributors := d.contributors.GetOr([]));
      if Truthy(d.startDate) {
        form := form.(startDate := Picked(d.startDate.value));
      }
      if Truthy(d.endDate) {
        form := form.(endDate := Picked(d.endDate.value));
      }
    }

    method ReceiveCollaborators(response: ListBody<Collaborator>)
      modifies this
      ensures collaborators == (if response.ListBody? && response.status == 200 then response.data else old(collaborators))
      ensures form == old(form) && roles == old(roles)
    {
      if response.ListBody? && response.status == 200 {
        collaborators := response.data;
      }
    }

    method ReceiveRoles(response: ListBody<RoleRecord>)
      modifies this
      ensures roles == (if response.ListBody? && response.status == 200 then RolesOf(response.data) else old(roles))
      ensures form == old(form) && collaborators == old(collaborators)
    {
      if response.ListBody? && response.status == 200 {
        roles := BuildRolesMap(response.data);
      }
    }

    method Edit(e: FieldEdit, isPM: bool)
      modifies this
      ensures form == EditAllowed(old(form), e, isPM)
      ensures collaborators == old(collaborators) && roles == old(roles)
    {
      if !Disabled(FieldOf(e), isPM) {
        form := ApplyEdit(form, e);
      }
    }

    /**
     * Submitting: a blocked submit sends nothing, and neither does one whose payload throws on a
     * cleared date; otherwise the PUT carries the form's payload and the callbacks follow its outcome.
     */
    method HandleSubmit(isPM: bool, putOk: bool) returns (request: Option<TaskDraft>, calls: seq<Callback>)
      ensures request.Some? <==> RequiredFilled(form, isPM) && DatesSet(form)
      ensures request.Some? ==> request.value == Draft(form)
      ensures calls == (if request.Some? then SubmitCalls(putOk) else [])
    {
      request := SubmitRequest(form, isPM);
      calls := if request.Some? then SubmitCalls(putOk) else [];
    }
  }
}
