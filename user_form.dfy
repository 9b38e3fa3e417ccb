/** The four fields shared by the create-user and edit-user modals, and their role `<select>`. */
module UserForm {
  import opened Wrappers
  import opened Api
  import opened Decimal

  datatype Form = Form(email: string, username: string, password: string, role: string)

  /** Every field starts as the empty string. */
  const EmptyForm := Form("", "", "", "")

  /** One `onChange`; the role select yields either its placeholder or one role's id. */
  datatype FieldEdit =
    | SetEmail(email: string)
    | SetUsername(username: string)
    | SetPassword(password: string)
    | SetRole(choice: Option<nat>)

  /** An option's `value`: the placeholder's `''`, or the id as text. */
  function RoleValue(choice: Option<nat>): (v: string)
    ensures AllDigits(v)
    ensures v == "" <==> choice.None?
  {
    if choice.Some? then ToString(choice.value) else ""
  }

  /** The role field only ever holds `''` or an id's digits, so `Number(role)` is an id. */
  predicate WellFormed(f: Form) {
    AllDigits(f.role)
  }

  function ApplyEdit(f: Form, e: FieldEdit): (r: Form)
    ensures WellFormed(f) ==> WellFormed(r)
    ensures e.SetEmail? ==> r == f.(email := e.email)
    ensures e.SetUsername? ==> r == f.(username := e.username)
    ensures e.SetPassword? ==> r == f.(password := e.password)
    ensures e.SetRole? ==> r == f.(role := RoleValue(e.choice))
  {
    match e
    case SetEmail(s) => f.(email := s)
    case SetUsername(s) => f.(username := s)
    case SetPassword(s) => f.(password := s)
    case SetRole(choice) => f.(role := RoleValue(choice))
  }

  /** `Number(role)`. */
  function RoleId(f: Form): nat
    requires WellFormed(f)
  {
    Number(f.role)
  }

  /** Choosing a role in the select makes `Number(role)` that role's id. */
  lemma ChosenRoleIsSent(f: Form, id: nat)
    ensures WellFormed(ApplyEdit(f, SetRole(Some(id))))
    ensures RoleId(ApplyEdit(f, SetRole(Some(id)))) == id
  {
    NumberOfToString(id);
  }

  /** The select's options: the placeholder, then one per fetched role with its name uppercased. */
  function RoleOptions(roles: seq<RoleRecord>, upper: string -> string): (r: seq<(string, string)>)
    ensures |r| == |roles| + 1
    ensures r[0] == ("", "-- Pilih Role --")
    ensures forall i :: 0 <= i < |roles| ==> r[i + 1] == (ToString(roles[i].id), upper(roles[i].name))
  {
    [("", "-- Pilih Role --")] + seq(|roles|, i requires 0 <= i < |roles| => (ToString(roles[i].id), upper(roles[i].name)))
  }

  /** The fetched roles are taken only from a body whose own status is 200. */
  function RolesReceived(current: seq<RoleRecord>, response: ListBody<RoleRecord>): (r: seq<RoleRecord>)
    ensures response.ListBody? && response.status == 200 ==> r == response.data
    ensures !(response.ListBody? && response.status == 200) ==> r == current
  {
    if response.ListBody? && response.status == 200 then response.data else current
  }
}
