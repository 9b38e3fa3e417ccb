/** The login page: form schema, and the effects of `onSubmit` on the store, storage and error text. */
module Login {
  import opened Wrappers
  import opened Js
  import opened Storage
  import opened Api
  import opened AuthSlice
  import Decimal
  import Html

  datatype LoginForm = LoginForm(email: string, password: string)

  /** Per-field messages from the schema check; None means the field is accepted. */
  datatype FieldErrors = FieldErrors(email: Option<string>, password: Option<string>)

  const NoErrors := FieldErrors(None, None)

  /** `loginSchema`: both fields are strings of at least one character. */
  function ValidateLogin(f: LoginForm): (e: FieldErrors)
    ensures e == NoErrors <==> f.email != "" && f.password != ""
    ensures e.email.Some? <==> f.email == ""
    ensures e.password.Some? <==> f.password == ""
    ensures e.email.Some? ==> e.email.value == "Email is required"
    ensures e.password.Some? ==> e.password.value == "Password is required"
  {
    FieldErrors(
      if |f.email| < 1 then Some("Email is required") else None,
      if |f.password| < 1 then Some("Password is required") else None)
  }

  /**
   * The browser's check of the form: the email control is `required` and `type="email"`, the
   * password control is `required`. When it fails, `handleSubmit` is never called.
   */
  predicate BrowserAccepts(f: LoginForm) {
    Html.ValidEmailAddress(f.email) && f.password != ""
  }

  /** Whatever the browser lets through also passes the schema, so its two messages never appear. */
  lemma BrowserCheckPassesSchema(f: LoginForm)
    requires BrowserAccepts(f)
    ensures ValidateLogin(f) == NoErrors
  {
    Html.ValidEmailShape(f.email);
  }

  /** How the login request settled: an ok response with its data, a non-ok one with its message, or an exception. */
  datatype LoginResponse = LoginOk(token: string, user: LoginUser) | LoginRejected(message: Option<string>) | LoginThrew

  const LoginFailed := "Login failed"
  const LoginError := "An error occurred during login"
  const DashboardPath := "/dashboard"

  /** The `role` passed to `setCredentials`: `user.role` itself, None when it is `null` or missing. */
  function RoleOf(user: LoginUser): (r: Option<RoleValue>)
    ensures r.Some? <==> user.role.Some?
    ensures user.role.Some? ==> r == Some(RoleObject(user.role.value))
  {
    match user.role
    case Some(role) => Some(RoleObject(role))
    case None => None
  }

  /** `user.role?.id?.toString() ?? ''`. */
  function RoleIdText(user: LoginUser): (r: string)
    ensures r == "" <==> user.role.None? || user.role.value.id.None?
    ensures r != "" ==> r == Decimal.ToString(user.role.value.id.value)
  {
    if user.role.Some? && user.role.value.id.Some? then Decimal.ToString(user.role.value.id.value) else ""
  }

  /** `user.role?.name ?? ''`. */
  function RoleNameText(user: LoginUser): (r: string)
    ensures user.role.Some? ==> r == Coalesce(user.role.value.name, "")
    ensures user.role.None? ==> r == ""
  {
    if user.role.Some? then Coalesce(user.role.value.name, "") else ""
  }

  /** The storage after the five `setItem` calls of a successful login. */
  function PersistLogin(m: map<string, string>, token: string, user: LoginUser): (r: map<string, string>)
    ensures r.Keys == m.Keys + SessionKeys
    ensures r[TokenKey] == token && r[EmailKey] == user.email && r[UsernameKey] == user.username
    ensures r[RoleIdKey] == RoleIdText(user) && r[RoleKey] == RoleNameText(user)
    ensures forall k :: k in m && k !in SessionKeys ==> r[k] == m[k]
  {
    m[TokenKey := token][EmailKey := user.email][UsernameKey := user.username]
     [RoleIdKey := RoleIdText(user)][RoleKey := RoleNameText(user)]
  }

  /** `result.message || 'Login failed'`: never empty. */
  function RejectionMessage(message: Option<string>): (r: string)
    ensures r != ""
    ensures Truthy(message) ==> r == message.value
    ensures !Truthy(message) ==> r == LoginFailed
  {
    Or(message, LoginFailed)
  }

  class LoginPage {
    /** The inline error shown under the form. */
    var error: string

    constructor ()
      ensures error == ""
    {
      error := "";
    }

    /**
     * A submit of the form. The browser's check runs first, and when it fails nothing happens:
     * `errors` is None. Otherwise `handleSubmit(onSubmit)` runs the schema, which then always
     * passes. An ok response dispatches `setCredentials`, writes the five keys and goes to
     * `/dashboard`, leaving the error text as it was. A rejected response or an exception only
     * sets the error text.
     */
    method Submit(form: LoginForm, response: LoginResponse, store: AuthStore, storage: LocalStorage)
      returns (errors: Option<FieldErrors>, navigateTo: Option<string>)
      modifies this, store, storage
      ensures errors.None? <==> !BrowserAccepts(form)
      ensures errors.Some? ==> errors.value == ValidateLogin(form) && errors.value == NoErrors
      ensures !BrowserAccepts(form) ==>
        error == old(error) && store.State() == old(store.State()) && storage.items == old(storage.items) && navigateTo.None?
      ensures BrowserAccepts(form) && response.LoginOk? ==>
        && store.State() == Reduce(old(store.State()), SetCredentials(Credentials(response.user.email, response.token, RoleOf(response.user))))
        && storage.items == PersistLogin(old(storage.items), response.token, response.user)
        && navigateTo == Some(DashboardPath)
        && error == old(error)
      ensures BrowserAccepts(form) && !response.LoginOk? ==>
        && store.State() == old(store.State())
        && storage.items == old(storage.items)
        && navigateTo.None?
        && error == (if response.LoginRejected? then RejectionMessage(response.message) else LoginError)
    {
      navigateTo := None;
      if !BrowserAccepts(form) {
        errors := None;
        return;
      }
      BrowserCheckPassesSchema(form);
      errors := Some(ValidateLogin(form));
      match response
      case LoginOk(token, user) =>
        store.SetCredentials(Credentials(user.email, token, RoleOf(user)));
        storage.SetItem(TokenKey, token);
        storage.SetItem(EmailKey, user.email);
        storage.SetItem(UsernameKey, user.username);
        storage.SetItem(RoleIdKey, RoleIdText(user));
        storage.SetItem(RoleKey, RoleNameText(user));
        navigateTo := Some(DashboardPath);
      case LoginRejected(message) =>
        error := RejectionMessage(message);
      case LoginThrew =>
        error := LoginError;
    }
  }
}
