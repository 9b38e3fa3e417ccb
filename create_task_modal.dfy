/** `CreateTaskModal`: the form for a new task. */
module CreateTaskModal {
  import opened Wrappers
  import opened Api
  import opened TaskForm
  import opened RolesMap
  import UpdateTaskModal

  /** Empty title and description, status `todo`, no contributors, no dates. */
  const InitialForm := Form("", "", "todo", [], Blank, Blank)

  /** What `handleSubmit` calls, in order. */
  datatype Callback = OnSubmit(draft: TaskDraft) | OnClose

  /** The browser submits only when the `required` title and description are filled. */
  predicate RequiredFilled(f: Form) {
    f.title != "" && f.description != ""
  }

  /**
   * A submit calls `onSubmit` with the payload and then `onClose`, without waiting for or looking at
   * any outcome; a submit the browser blocks calls nothing.
   */
  function Submit(f: Form): (calls: seq<Callback>)
    ensures RequiredFilled(f) ==> |calls| == 2 && calls[0] == OnSubmit(Draft(f)) && calls[1] == OnClose
    ensures !RequiredFilled(f) ==> calls == []
  {
    if RequiredFilled(f) then [OnSubmit(Draft(f)), OnClose] else []
  }

  /**
   * A form that starts from `InitialForm` submits one of the status select's three options, whatever
   * edits the user makes first.
   */
  lemma SubmittedStatusIsAnOption(edits: seq<FieldEdit>)
    ensures var calls := Submit(ApplyAll(InitialForm, edits));
      calls != [] ==> calls[0].OnSubmit? && IsStatusOption(calls[0].draft.status)
  {
    ApplyAllKeepsStatusOption(InitialForm, edits);
  }

  /**
   * An option's text, `c.username - roles[c.roleId].toUpperCase()`. A role id missing from the map
   * makes `roles[c.roleId]` undefined, and the call throws: None.
   */
  function OptionLabel(c: Collaborator, roles: map<nat, string>, upper: string -> string): (r: Option<string>)
    ensures r.None? <==> c.roleId !in roles
    ensures r.Some? ==> r.value == c.username + " - " + upper(roles[c.roleId])
  {
    if c.roleId in roles then Some(c.username + " - " + upper(roles[c.roleId])) else None
  }

  /** Every collaborator's role id is a key of the roles map. */
  predicate AllRolesKnown(collaborators: seq<Collaborator>, roles: map<nat, string>) {
    forall i :: 0 <= i < |collaborators| ==> collaborators[i].roleId in roles
  }

  /** The outcome of rendering the modal: nothing, an exception, or the contributor options. */
  datatype Render = Closed | Threw | Shown(options: seq<string>)

  /**
   * The render: nothing while closed; open, one option per collaborator in order, unless some
   * collaborator's role id is not in the map, in which case the render throws.
   */
  function View(isOpen: bool, collaborators: seq<Collaborator>, roles: map<nat, string>, upper: string -> string): (r: Render)
    ensures r.Closed? <==> !isOpen
    ensures r.Threw? <==> isOpen && !AllRolesKnown(collaborators, roles)
    ensures r.Shown? ==> |r.options| == |collaborators|
    ensures r.Shown? ==> forall i :: 0 <= i < |collaborators| ==> OptionLabel(collaborators[i], roles, upper) == Some(r.options[i])
  {
    if !isOpen then Closed
    else if AllRolesKnown(collaborators, roles) then
      Shown(seq(|collaborators|, i requires 0 <= i < |collaborators| => collaborators[i].username + " - " + upper(roles[collaborators[i].roleId])))
    else Threw
  }

  /**
   * Both lists are requested together on mount, but the roles map stays empty until its response
   * arrives, and for good when that request fails. An open modal that already holds collaborators
   * then throws.
   */
  lemma EmptyRolesThrow(collaborators: seq<Collaborator>, upper: string -> string)
    requires collaborators != []
    ensures View(true, collaborators, map[], upper) == Threw
  {
    var none: map<nat, string> := map[];
    assert collaborators[0].roleId !in none;
  }

  /**
   * The render with the guard the update-task modal uses, `roles[id] ? roles[id].toUpperCase() : '-'`:
   * a missing or empty role name shows `-`, and the render never throws.
   */
  function CorrectedView(isOpen: bool, collaborators: seq<Collaborator>, roles: map<nat, string>, upper: string -> string): (r: Render)
    ensures r.Closed? <==> !isOpen
    ensures !r.Threw?
    ensures r.Shown? ==> |r.options| == |collaborators|
    ensures r.Shown? ==> forall i :: 0 <= i < |collaborators| ==> r.options[i] == UpdateTaskModal.OptionLabel(collaborators[i], roles, upper)
  {
    if !isOpen then Closed
    else Shown(seq(|collaborators|, i requires 0 <= i < |collaborators| => UpdateTaskModal.OptionLabel(collaborators[i], roles, upper)))
  }

  /** When every role id is mapped to a non-empty name, the guarded render shows what the source shows. */
  lemma CorrectedViewAgrees(isOpen: bool, collaborators: seq<Collaborator>, roles: map<nat, string>, upper: string -> string)
    requires forall i :: 0 <= i < |collaborators| ==> collaborators[i].roleId in roles && roles[collaborators[i].roleId] != ""
    ensures CorrectedView(isOpen, collaborators, roles, upper) == View(isOpen, collaborators, roles, upper)
  {
    if isOpen {
      var a := CorrectedView(isOpen, collaborators, roles, upper);
      var b := View(isOpen, collaborators, roles, upper);
      assert |a.options| == |b.options|;
      forall i | 0 <= i < |collaborators|
        ensures a.options[i] == b.options[i]
      {
        assert UpdateTaskModal.RoleBadge(roles, collaborators[i].roleId, upper) == upper(roles[collaborators[i].roleId]);
      }
    }
  }

  class CreateTaskModalState {
    var form: Form
    var collaborators: seq<Collaborator>
    var roles: map<nat, string>

    constructor ()
      ensures form == InitialForm && collaborators == [] && roles == map[]
    {
      form := InitialForm;
      collaborators := [];
      roles := map[];
    }

    /** `fetchCollaborators`: the list is taken only when the body's status is 200. */
    method ReceiveCollaborators(response: ListBody<Collaborator>)
      modifies this
      ensures collaborators == (if response.ListBody? && response.status == 200 then response.data else old(collaborators))
      ensures form == old(form) && roles == old(roles)
    {
      if response.ListBody? && response.status == 200 {
        collaborators := response.data;
      }
    }

    /** `fetchRoles`: on status 200 the map is rebuilt by the `forEach` loop. */
    method ReceiveRoles(response: ListBody<RoleRecord>)
      modifies this
      ensures roles == (if response.ListBody? && response.status == 200 then RolesOf(response.data) else old(roles))
      ensures form == old(form) && collaborators == old(collaborators)
    {
      if response.ListBody? && response.status == 200 {
        roles := BuildRolesMap(response.data);
      }
    }

    method Edit(e: FieldEdit)
      modifies this
      ensures form == ApplyEdit(old(form), e)
      ensures collaborators == old(collaborators) && roles == old(roles)
    {
      form := ApplyEdit(form, e);
    }

    method HandleSubmit() returns (calls: seq<Callback>)
      ensures calls == Submit(form)
    {
      if form.title != "" && form.description != "" {
        calls := [OnSubmit(TaskDraft(form.title, form.description, form.status, form.selectedContributors, form.startDate, form.endDate)), OnClose];
      } else {
        calls := [];
      }
    }
  }
}
