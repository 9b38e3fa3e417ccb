/** Start-up (`main.tsx`): rehydrate the session from `localStorage`, then render the router. */
module Bootstrap {
  import opened Wrappers
  import opened Js
  import opened Storage
  import opened AuthSlice
  import Routes

  /** The credentials start-up dispatches, if any: only when token, email and role are all truthy. */
  function PersistedCredentials(m: map<string, string>): (r: Option<Credentials>)
    ensures r.Some? <==>
      Truthy(Lookup(m, TokenKey)) && Truthy(Lookup(m, EmailKey)) && Truthy(Lookup(m, RoleKey))
    ensures r.Some? ==> r.value == Credentials(m[EmailKey], m[TokenKey], Some(RoleName(m[RoleKey])))
  {
    var token := Lookup(m, TokenKey);
    var email := Lookup(m, EmailKey);
    var role := Lookup(m, RoleKey);
    if Truthy(token) && Truthy(email) && Truthy(role) then
      Some(Credentials(email.value, token.value, Some(RoleName(role.value))))
    else
      None
  }

  /** The session right after start-up, from the persisted record. */
  function BootState(m: map<string, string>): (s: AuthState)
    ensures Consistent(s)
    ensures s.isAuthenticated <==>
      TokenKey in m && m[TokenKey] != "" && EmailKey in m && m[EmailKey] != "" && RoleKey in m && m[RoleKey] != ""
    ensures s.isAuthenticated ==>
      s.token == Some(m[TokenKey]) && s.email == Some(m[EmailKey]) && s.role == Some(RoleName(m[RoleKey]))
    ensures s.role.Some? <==> s.isAuthenticated
    ensures !s.isAuthenticated ==> s == InitialState
  {
    match PersistedCredentials(m)
    case Some(c) => Reduce(InitialState, SetCredentials(c))
    case None => InitialState
  }

  /** Only the token, email and role keys take part: `username`, `roleId` and any other key do not. */
  lemma BootIgnoresOtherKeys(m: map<string, string>, k: string, v: string)
    requires k != TokenKey && k != EmailKey && k != RoleKey
    ensures BootState(m[k := v]) == BootState(m)
    ensures BootState(m - {k}) == BootState(m)
  {
    assert Lookup(m[k := v], TokenKey) == Lookup(m, TokenKey);
    assert Lookup(m[k := v], EmailKey) == Lookup(m, EmailKey);
    assert Lookup(m[k := v], RoleKey) == Lookup(m, RoleKey);
    assert Lookup(m - {k}, TokenKey) == Lookup(m, TokenKey);
    assert Lookup(m - {k}, EmailKey) == Lookup(m, EmailKey);
    assert Lookup(m - {k}, RoleKey) == Lookup(m, RoleKey);
  }

  /** Lines 11-17: read three keys, dispatch `setCredentials` once if all three are truthy. */
  method Rehydrate(storage: LocalStorage, store: AuthStore)
    modifies store
    ensures store.State() ==
      match PersistedCredentials(storage.items)
      case Some(c) => Reduce(old(store.State()), SetCredentials(c))
      case None => old(store.State())
  {
    var token := storage.GetItem(TokenKey);
    var email := storage.GetItem(EmailKey);
    var role := storage.GetItem(RoleKey);
    if Truthy(token) && Truthy(email) && Truthy(role) {
      store.SetCredentials(Credentials(email.value, token.value, Some(RoleName(role.value))));
    }
  }

  /**
   * The whole start-up: the store is created at its initial state, rehydrated once, and only then
   * is the router rendered, so the first screen for `path` already sees the rehydrated session.
   */
  method StartUp(storage: LocalStorage, path: string) returns (store: AuthStore, screen: Routes.Screen)
    ensures fresh(store)
    ensures store.State() == BootState(storage.items)
    ensures screen == Routes.Render(BootState(storage.items).isAuthenticated, path)
  {
    store := new AuthStore();
    Rehydrate(storage, store);
    screen := Routes.Render(store.isAuthenticated, path);
  }

  /** With nothing persisted, start-up is unauthenticated and `/dashboard` redirects to `/login`. */
  lemma EmptyStorageRedirects()
    ensures BootState(map[]) == InitialState
    ensures Routes.Render(BootState(map[]).isAuthenticated, "/dashboard") == Routes.Redirected("/login", true)
  {
  }
}
