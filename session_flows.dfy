/**
 * How the pieces of the session meet across a reload: what a login leaves in storage, what
 * start-up makes of it, and what logout leaves behind.
 */
module SessionFlows {
  import opened Wrappers
  import opened Storage
  import opened AuthSlice
  import opened Api
  import opened Login
  import opened Bootstrap
  import opened TopMenu
  import Routes
  import TaskPage

  /** The session a successful login dispatches into the store. */
  function LoggedIn(token: string, user: LoginUser): AuthState {
    Reduce(InitialState, SetCredentials(Credentials(user.email, token, RoleOf(user))))
  }

  /**
   * A login with a non-empty token, email and role name survives a reload, but the reloaded role is
   * the stored name, not the role object the login put in the store.
   */
  lemma LoginSurvivesReload(m: map<string, string>, token: string, user: LoginUser)
    requires token != "" && user.email != "" && RoleNameText(user) != ""
    ensures BootState(PersistLogin(m, token, user)).isAuthenticated
    ensures BootState(PersistLogin(m, token, user)) ==
      Reduce(InitialState, SetCredentials(Credentials(user.email, token, Some(RoleName(RoleNameText(user))))))
    ensures BootState(PersistLogin(m, token, user)).role != LoggedIn(token, user).role
  {
    var r := PersistLogin(m, token, user);
    assert Lookup(r, TokenKey) == Some(token);
    assert Lookup(r, EmailKey) == Some(user.email);
    assert Lookup(r, RoleKey) == Some(RoleNameText(user));
  }

  /**
   * A login whose role has no name is authenticated in memory, yet a reload finds an empty role and
   * starts logged out.
   */
  lemma NamelessRoleLostOnReload(m: map<string, string>, token: string, user: LoginUser)
    requires user.role.None? || user.role.value.name.None? || user.role.value.name == Some("")
    ensures LoggedIn(token, user).isAuthenticated
    ensures BootState(PersistLogin(m, token, user)) == InitialState
  {
    var r := PersistLogin(m, token, user);
    assert r[RoleKey] == "";
    assert Lookup(r, RoleKey) == Some("");
  }

  /**
   * A login whose response has a `null` role, or none, authenticates with a null role: the session
   * is consistent but, unlike any session start-up rebuilds, it has no role.
   */
  lemma NullRoleLogin(m: map<string, string>, token: string, email: string, username: string)
    ensures var s := LoggedIn(token, LoginUser(email, username, None));
      s.isAuthenticated && s.role.None? && Consistent(s)
    ensures BootState(m).isAuthenticated ==> BootState(m).role.Some?
  {
  }

  /** After logout's removals, a reload starts logged out, whatever else is stored. */
  lemma LogoutThenReload(m: map<string, string>)
    ensures BootState(ClearSession(m)) == InitialState
  {
    var r := ClearSession(m);
    assert TokenKey !in r;
    assert Lookup(r, TokenKey) == None;
  }

  /** Login, logout, reload: logged out, and the keys the login did not write are as they were. */
  lemma LoginLogoutReload(m: map<string, string>, token: string, user: LoginUser)
    ensures BootState(ClearSession(PersistLogin(m, token, user))) == InitialState
    ensures ClearSession(PersistLogin(m, token, user)) == ClearSession(m)
  {
    LogoutThenReload(PersistLogin(m, token, user));
  }

  /**
   * A project manager's login: the task route renders, the stored role makes the task page a PM's,
   * and after a reload the same holds.
   */
  lemma ProjectManagerLogin(m: map<string, string>, token: string, email: string, id: nat)
    requires token != "" && email != ""
    ensures var user := LoginUser(email, "pm", Some(ServerRole(Some(id), Some("pm"))));
      var stored := PersistLogin(m, token, user);
      && TaskPage.IsPM(Lookup(stored, RoleKey))
      && Routes.Render(LoggedIn(token, user).isAuthenticated, "/task") == Routes.Show(Routes.Task)
      && Routes.Render(BootState(stored).isAuthenticated, "/task") == Routes.Show(Routes.Task)
  {
    var user := LoginUser(email, "pm", Some(ServerRole(Some(id), Some("pm"))));
    var stored := PersistLogin(m, token, user);
    assert Lookup(stored, RoleKey) == Some("pm");
    LoginSurvivesReload(m, token, user);
    Routes.GuardedPaths();
  }

  /**
   * Logging out from the menu clears storage but leaves the store as it was: a logged-in store stays
   * authenticated in memory, while a reload would start logged out.
   */
  method LogoutLeavesStore(storage: LocalStorage, store: AuthStore, requestThrew: bool) returns (navigateTo: string)
    requires store.State().isAuthenticated
    modifies storage
    ensures store.State() == old(store.State()) && store.State().isAuthenticated
    ensures BootState(storage.items) == InitialState
    ensures navigateTo == TopMenu.LoginPath
  {
    navigateTo := HandleLogout(storage, requestThrew);
    LogoutThenReload(old(storage.items));
  }
}
