/** The top menu: logout, the current-user fetch, the two toggles and the navigation links. */
module TopMenu {
  import opened Wrappers
  import opened Js
  import opened Storage
  import Api
  import Routes

  /** The storage after `handleLogout`'s five `removeItem` calls. */
  function ClearSession(m: map<string, string>): (r: map<string, string>)
    ensures r.Keys == m.Keys - SessionKeys
    ensures forall k :: k in r ==> r[k] == m[k]
  {
    m - {TokenKey} - {UsernameKey} - {EmailKey} - {RoleKey} - {RoleIdKey}
  }

  /** Erasing the session twice is the same as erasing it once. */
  lemma ClearSessionIdempotent(m: map<string, string>)
    ensures ClearSession(ClearSession(m)) == ClearSession(m)
  {
  }

  /** The three flags of the menu component. */
  datatype MenuState = MenuState(isMenuOpen: bool, isDropdownOpen: bool, showLogoutModal: bool)

  const InitialMenu := MenuState(false, false, false)

  /** Clicks on the avatar, the hamburger, the "Sign out" item, and the confirm dialog's cancel. */
  datatype MenuEvent = ToggleDropdown | ToggleMenu | SignOutClicked | LogoutCancelled

  /** "Sign out" is an item of the dropdown, so it can be clicked only while the dropdown is open. */
  function Step(s: MenuState, e: MenuEvent): (r: MenuState)
    ensures e.ToggleDropdown? ==> r == s.(isDropdownOpen := !s.isDropdownOpen)
    ensures e.ToggleMenu? ==> r == s.(isMenuOpen := !s.isMenuOpen)
    ensures e.SignOutClicked? ==> r == (if s.isDropdownOpen then s.(showLogoutModal := true) else s)
    ensures e.LogoutCancelled? ==> r == s.(showLogoutModal := false)
  {
    match e
    case ToggleDropdown => s.(isDropdownOpen := !s.isDropdownOpen)
    case ToggleMenu => s.(isMenuOpen := !s.isMenuOpen)
    case SignOutClicked => if s.isDropdownOpen then s.(showLogoutModal := true) else s
    case LogoutCancelled => s.(showLogoutModal := false)
  }

  /** Each toggle flips one flag; toggling twice restores the state. */
  lemma ToggleTwiceRestores(s: MenuState, e: MenuEvent)
    requires e.ToggleDropdown? || e.ToggleMenu?
    ensures Step(s, e) != s
    ensures Step(Step(s, e), e) == s
  {
  }

  /** How the current-user request settled. */
  datatype UserFetch = UserFetchOk(data: seq<Api.User>) | UserFetchNotOk | UserFetchThrew

  const LoginPath := "/login"

  class TopMenuState {
    var isMenuOpen: bool
    var isDropdownOpen: bool
    var showLogoutModal: bool
    var user: Option<seq<Api.User>>

    function Menu(): MenuState
      reads this
    {
      MenuState(isMenuOpen, isDropdownOpen, showLogoutModal)
    }

    constructor ()
      ensures Menu() == InitialMenu && user.None?
    {
      isMenuOpen := false;
      isDropdownOpen := false;
      showLogoutModal := false;
      user := None;
    }

    method Handle(e: MenuEvent)
      modifies this
      ensures Menu() == Step(old(Menu()), e)
      ensures user == old(user)
    {
      match e
      case ToggleDropdown => isDropdownOpen := !isDropdownOpen;
      case ToggleMenu => isMenuOpen := !isMenuOpen;
      case SignOutClicked => if isDropdownOpen { showLogoutModal := true; }
      case LogoutCancelled => showLogoutModal := false;
    }

    /** `fetchUser`: without a stored token no request is made and `user` stays as it was. */
    method FetchUser(storage: LocalStorage, response: UserFetch) returns (requested: bool)
      modifies this
      ensures requested <==> Truthy(Lookup(storage.items, TokenKey))
      ensures user == (if requested && response.UserFetchOk? then Some(response.data) else old(user))
      ensures Menu() == old(Menu())
    {
      var token := storage.GetItem(TokenKey);
      requested := Truthy(token);
      if !requested {
        return;
      }
      if response.UserFetchOk? {
        user := Some(response.data);
      }
    }
  }

  /**
   * `handleLogout`: whether the logout request succeeded or threw, the five session keys are removed
   * and the next screen is `/login`. Only storage changes: the auth store is not touched.
   * `requestThrew` is the logout request's outcome; the body never reads it, and the contract
   * holds for either value, which is the point: the outcome does not matter.
   */
  method HandleLogout(storage: LocalStorage, requestThrew: bool) returns (navigateTo: string)
    modifies storage
    ensures storage.items == ClearSession(old(storage.items))
    ensures navigateTo == LoginPath
  {
    storage.RemoveItem(TokenKey);
    storage.RemoveItem(UsernameKey);
    storage.RemoveItem(EmailKey);
    storage.RemoveItem(RoleKey);
    storage.RemoveItem(RoleIdKey);
    navigateTo := LoginPath;
  }

  const NavItems: seq<string> := ["Dashboard", "Task", "User"]

  /** A menu link's target: `'/' + item.toLowerCase()`. */
  function NavPath(item: string): string {
    "/" + ToLower(item)
  }

  /** A link is highlighted when the current pathname is its target. */
  predicate IsActive(pathname: string, item: string) {
    pathname == NavPath(item)
  }

  lemma NavPaths()
    ensures NavPath(NavItems[0]) == "/dashboard"
    ensures NavPath(NavItems[1]) == "/task"
    ensures NavPath(NavItems[2]) == "/user"
  {
    assert ToLower("Dashboard") == "dashboard";
    assert ToLower("Task") == "task";
    assert ToLower("User") == "user";
  }

  /** At most one link is active for any pathname, and none is active on `/`. */
  lemma AtMostOneActive(pathname: string)
    ensures forall i, j :: 0 <= i < |NavItems| && 0 <= j < |NavItems| && IsActive(pathname, NavItems[i]) && IsActive(pathname, NavItems[j]) ==> i == j
    ensures forall i :: 0 <= i < |NavItems| ==> !IsActive("/", NavItems[i])
  {
    NavPaths();
  }

  /** Every link leads to a guarded route of the table: Dashboard, Task and Users in turn. */
  lemma NavLinksAreGuardedRoutes()
    ensures Routes.Match(Routes.Router, NavPath(NavItems[0])) == Some(Routes.Guarded(Routes.Dashboard))
    ensures Routes.Match(Routes.Router, NavPath(NavItems[1])) == Some(Routes.Guarded(Routes.Task))
    ensures Routes.Match(Routes.Router, NavPath(NavItems[2])) == Some(Routes.Guarded(Routes.Users))
  {
    NavPaths();
    Routes.GuardedPaths();
  }
}
