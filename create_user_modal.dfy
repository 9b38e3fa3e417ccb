/** `CreateUserModal`: the form for a new user. */
module CreateUserModal {
  import opened Wrappers
  import opened Api
  import opened Decimal
  import opened UserForm
  import Html

  /** The payload: the fields as typed, the role as `Number(role)`. */
  datatype CreatePayload = CreatePayload(email: string, username: string, password: string, roleId: nat)

  function Payload(f: Form): (p: CreatePayload)
    requires WellFormed(f)
    ensures p.email == f.email && p.username == f.username && p.password == f.password
    ensures p.roleId == RoleId(f)
  {
    CreatePayload(f.email, f.username, f.password, Number(f.role))
  }

  /** The browser's check: all four controls are `required`, and the email control is `type="email"`. */
  predicate BrowserAccepts(f: Form) {
    Html.ValidEmailAddress(f.email) && f.username != "" && f.password != "" && f.role != ""
  }

  /** The `onSubmit` calls a submit makes: one with the payload, or none when the browser blocks it. */
  function Submit(f: Form): (calls: seq<CreatePayload>)
    requires WellFormed(f)
    ensures BrowserAccepts(f) ==> calls == [Payload(f)]
    ensures !BrowserAccepts(f) ==> calls == []
  {
    if BrowserAccepts(f) then [Payload(f)] else []
  }

  /** A form filled in from scratch sends exactly what was typed and the id that was chosen. */
  lemma FilledFormSends(email: string, username: string, password: string, id: nat)
    requires Html.ValidEmailAddress(email) && username != "" && password != ""
    ensures var f := ApplyEdit(ApplyEdit(ApplyEdit(ApplyEdit(EmptyForm, SetEmail(email)), SetUsername(username)), SetPassword(password)), SetRole(Some(id)));
      WellFormed(f) && Submit(f) == [CreatePayload(email, username, password, id)]
  {
    var f := ApplyEdit(ApplyEdit(ApplyEdit(ApplyEdit(EmptyForm, SetEmail(email)), SetUsername(username)), SetPassword(password)), SetRole(Some(id)));
    ChosenRoleIsSent(ApplyEdit(ApplyEdit(ApplyEdit(EmptyForm, SetEmail(email)), SetUsername(username)), SetPassword(password)), id);
    assert f.role != "";
  }

  /** An email the browser does not accept as an address blocks the form, whatever else is filled in. */
  lemma MalformedEmailBlocks(f: Form)
    requires WellFormed(f) && f.email == "abc"
    ensures Submit(f) == []
  {
    Html.EmailRefusals();
  }

  /** A form whose role is still the placeholder is blocked, so `Number('')` is never sent. */
  lemma PlaceholderRoleBlocks(f: Form)
    requires WellFormed(f) && f.role == ""
    ensures Submit(f) == []
  {
  }

  class CreateUserModalState {
    var form: Form
    var roles: seq<RoleRecord>

    constructor ()
      ensures form == EmptyForm && roles == [] && WellFormed(form)
    {
      form := EmptyForm;
      roles := [];
    }

    /** The effect on `isOpen`: the roles are fetched only when the modal opens. */
    method ReceiveRoles(isOpen: bool, response: ListBody<RoleRecord>)
      modifies this
      ensures roles == (if isOpen then RolesReceived(old(roles), response) else old(roles))
      ensures form == old(form)
    {
      if isOpen && response.ListBody? && response.status == 200 {
        roles := response.data;
      }
    }

    method Edit(e: FieldEdit)
      requires WellFormed(form)
      modifies this
      ensures form == ApplyEdit(old(form), e) && WellFormed(form)
      ensures roles == old(roles)
    {
      form := ApplyEdit(form, e);
    }

    /** `handleSubmit`, reached only when the browser lets the form submit. */
    method HandleSubmit() returns (calls: seq<CreatePayload>)
      requires WellFormed(form)
      ensures calls == Submit(form)
    {
      if Html.ValidEmailAddress(form.email) && form.username != "" && form.password != "" && form.role != "" {
        var payload := CreatePayload(form.email, form.username, form.password, Number(form.role));
        calls := [payload];
      } else {
        calls := [];
      }
    }
  }

  /** Nothing is rendered when the modal is closed; open, it shows the role options. */
  function View(isOpen: bool, roles: seq<RoleRecord>, upper: string -> string): (r: Option<seq<(string, string)>>)
    ensures r.None? <==> !isOpen
    ensures r.Some? ==> r.value == RoleOptions(roles, upper)
  {
    if isOpen then Some(RoleOptions(roles, upper)) else None
  }
}
