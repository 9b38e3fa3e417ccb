/** `UpdateUserModal`: the form that edits an existing user. */
module UpdateUserModal {
  import opened Wrappers
  import opened Js
  import opened Api
  import opened Decimal
  import opened UserForm
  import Html

  /** The `user` prop as the prefill effect reads it; any field but the id may be missing. */
  datatype UserProp = UserProp(id: string, email: Option<string>, username: Option<string>, roleId: Option<nat>)

  /** A user of the list, as the page hands it over. */
  function PropOf(u: User): UserProp {
    UserProp(u.id, Some(u.email), Some(u.username), Some(u.roleId))
  }

  /**
   * The prefill effect: email and username fall back to `''`, the password is cleared, and the role
   * becomes the id's text, or `''` when there is none.
   */
  function Prefill(u: UserProp): (r: Form)
    ensures r.email == Or(u.email, "") && r.username == Or(u.username, "") && r.password == ""
    ensures u.roleId.Some? ==> r.role == ToString(u.roleId.value)
    ensures u.roleId.None? ==> r.role == ""
    ensures WellFormed(r)
  {
    Form(Or(u.email, ""), Or(u.username, ""), "", RoleValue(u.roleId))
  }

  /** The PUT payload; an empty password is left out (`password || undefined`). */
  datatype UpdatePayload = UpdatePayload(id: string, email: string, username: string, password: Option<string>, roleId: nat)

  function Payload(u: UserProp, f: Form): (p: UpdatePayload)
    requires WellFormed(f)
    ensures p.id == u.id && p.email == f.email && p.username == f.username
    ensures p.password.None? <==> f.password == ""
    ensures p.password.Some? ==> p.password.value == f.password
    ensures p.roleId == RoleId(f)
  {
    UpdatePayload(u.id, f.email, f.username, if f.password == "" then None else Some(f.password), Number(f.role))
  }

  /**
   * The browser's check: email, username and role are `required`, the password is not, and the email
   * control is `type="email"`.
   */
  predicate BrowserAccepts(f: Form) {
    Html.ValidEmailAddress(f.email) && f.username != "" && f.role != ""
  }

  /** `if (!isOpen || !user) return null`. */
  predicate Rendered(isOpen: bool, user: Option<UserProp>) {
    isOpen && user.Some?
  }

  /** The `onSubmit` calls of one submit: the payload, or nothing when the browser blocks the form. */
  function Submit(u: UserProp, f: Form): (calls: seq<UpdatePayload>)
    requires WellFormed(f)
    ensures BrowserAccepts(f) ==> calls == [Payload(u, f)]
    ensures !BrowserAccepts(f) ==> calls == []
  {
    if BrowserAccepts(f) then [Payload(u, f)] else []
  }

  /**
   * Opening the modal on a listed user and submitting at once sends that user back unchanged, with
   * no password.
   */
  lemma PrefillRoundTrip(u: User)
    requires Html.ValidEmailAddress(u.email) && u.username != ""
    ensures Submit(PropOf(u), Prefill(PropOf(u))) == [UpdatePayload(u.id, u.email, u.username, None, u.roleId)]
  {
    NumberOfToString(u.roleId);
  }

  /** A user without a role id prefills the placeholder, and the form cannot be submitted as it is. */
  lemma MissingRoleBlocks(u: UserProp)
    requires u.roleId.None?
    ensures Submit(u, Prefill(u)) == []
  {
  }

  class UpdateUserModalState {
    var form: Form
    var roles: seq<RoleRecord>

    constructor ()
      ensures form == EmptyForm && roles == [] && WellFormed(form)
    {
      form := EmptyForm;
      roles := [];
    }

    /** The effect on `user`: it fills the form only when there is a user. */
    method PrefillFrom(user: Option<UserProp>)
      requires WellFormed(form)
      modifies this
      ensures form == (if user.Some? then Prefill(user.value) else old(form)) && WellFormed(form)
      ensures roles == old(roles)
    {
      if user.Some? {
        var u := user.value;
        form := form.(email := Or(u.email, ""));
        form := form.(username := Or(u.username, ""));
        form := form.(password := "");
        form := form.(role := RoleValue(u.roleId));
      }
    }

    method ReceiveRoles(isOpen: bool, response: ListBody<RoleRecord>)
      modifies this
      ensures roles == (if isOpen then RolesReceived(old(roles), response) else old(roles))
      ensures form == old(form)
    {
      if isOpen && response.ListBody? && response.status == 200 {
        roles := response.data;
      }
    }

    method Edit(e: FieldEdit)
      requires WellFormed(form)
      modifies this
      ensures form == ApplyEdit(old(form), e) && WellFormed(form)
      ensures roles == old(roles)
    {
      form := ApplyEdit(form, e);
    }

    method HandleSubmit(u: UserProp) returns (calls: seq<UpdatePayload>)
      requires WellFormed(form)
      ensures calls == Submit(u, form)
    {
      if Html.ValidEmailAddress(form.email) && form.username != "" && form.role != "" {
        var password := if form.password == "" then None else Some(form.password);
        calls := [UpdatePayload(u.id, form.email, form.username, password, Number(form.role))];
      } else {
        calls := [];
      }
    }
  }

  /** Nothing is rendered unless the modal is open and has a user. */
  function View(isOpen: bool, user: Option<UserProp>, roles: seq<RoleRecord>, upper: string -> string): (r: Option<seq<(string, string)>>)
    ensures r.None? <==> !Rendered(isOpen, user)
    ensures r.Some? ==> r.value == RoleOptions(roles, upper)
  {
    if Rendered(isOpen, user) then Some(RoleOptions(roles, upper)) else None
  }
}
