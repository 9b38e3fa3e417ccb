/** The route table handed to `createBrowserRouter`. */
module Routes {
  import opened Wrappers
  import PrivateRoute
  import Js

  datatype Page = Dashboard | Task | Users | Login

  /** A route's element: a page wrapped in `PrivateRoute`, or a bare page. */
  datatype Element = Guarded(page: Page) | Open(page: Page)

  datatype Route = Route(path: string, element: Element)

  const Router: seq<Route> := [
    Route("/dashboard", Guarded(Dashboard)),
    Route("/task", Guarded(Task)),
    Route("/user", Guarded(Users)),
    Route("/login", Open(Login)),
    Route("/", Guarded(Dashboard))
  ]

  /** What the browser shows for a path. */
  datatype Screen = Show(page: Page) | Redirected(to: string, replace: bool) | NoRoute

  /** `p` without the slashes it ends with: `/task//` becomes `/task` and `/` becomes the empty text. */
  function StripTrailingSlashes(p: string): (r: string)
    ensures |r| <= |p| && r == p[..|r|]
    ensures r == [] || r[|r| - 1] != '/'
    ensures forall i :: |r| <= i < |p| ==> p[i] == '/'
    decreases |p|
  {
    if p == [] then p
    else if p[|p| - 1] == '/' then StripTrailingSlashes(p[..|p| - 1])
    else p
  }

  /**
   * The form in which the router compares paths. `createBrowserRouter` matches a route's path
   * without regard to case and lets any number of trailing slashes follow it.
   */
  function Canonical(p: string): string {
    Js.ToLower(StripTrailingSlashes(p))
  }

  predicate SamePath(routePath: string, path: string) {
    Canonical(routePath) == Canonical(path)
  }

  /** Route `i` matches `path` and no route before it does. */
  predicate FirstMatchAt(routes: seq<Route>, path: string, i: int) {
    && 0 <= i < |routes|
    && SamePath(routes[i].path, path)
    && forall j :: 0 <= j < i ==> !SamePath(routes[j].path, path)
  }

  /** The element of the first route whose path matches `path`, if any. */
  function Match(routes: seq<Route>, path: string): (r: Option<Element>)
    ensures r.Some? <==> exists i :: 0 <= i < |routes| && SamePath(routes[i].path, path)
    ensures r.Some? ==> exists i :: FirstMatchAt(routes, path, i) && routes[i].element == r.value
    decreases |routes|
  {
    if routes == [] then None
    else if SamePath(routes[0].path, path) then
      assert FirstMatchAt(routes, path, 0);
      Some(routes[0].element)
    else
      var r := Match(routes[1..], path);
      if r.Some? then
        var i :| FirstMatchAt(routes[1..], path, i) && routes[1..][i].element == r.value;
        FirstMatchShifts(routes, path, i);
        r
      else
        NoMatchShifts(routes, path);
        r
  }

  /** A first match in the tail is a first match one position later, when the head does not match. */
  lemma FirstMatchShifts(routes: seq<Route>, path: string, i: int)
    requires routes != [] && !SamePath(routes[0].path, path)
    requires FirstMatchAt(routes[1..], path, i)
    ensures FirstMatchAt(routes, path, i + 1)
    ensures routes[i + 1] == routes[1..][i]
  {
    forall j | 0 <= j < i + 1
      ensures !SamePath(routes[j].path, path)
    {
      if j > 0 {
        assert routes[j] == routes[1..][j - 1];
      }
    }
  }

  /** When neither the head nor any route of the tail matches, no route matches. */
  lemma NoMatchShifts(routes: seq<Route>, path: string)
    requires routes != [] && !SamePath(routes[0].path, path)
    requires !exists i :: 0 <= i < |routes| - 1 && SamePath(routes[1..][i].path, path)
    ensures !exists i :: 0 <= i < |routes| && SamePath(routes[i].path, path)
  {
    forall i | 0 < i < |routes|
      ensures !SamePath(routes[i].path, path)
    {
      assert routes[i] == routes[1..][i - 1];
    }
  }

  /** The canonical forms of the five route paths. */
  lemma CanonicalRoutePaths()
    ensures Canonical("/dashboard") == "/dashboard"
    ensures Canonical("/task") == "/task"
    ensures Canonical("/user") == "/user"
    ensures Canonical("/login") == "/login"
    ensures Canonical("/") == ""
  {
    assert StripTrailingSlashes("/") == "";
    assert Js.ToLower("/dashboard") == "/dashboard";
    assert Js.ToLower("/task") == "/task";
    assert Js.ToLower("/user") == "/user";
    assert Js.ToLower("/login") == "/login";
  }

  /** The router's choice for any path, by the path's canonical form. */
  lemma RouterMatch(path: string)
    ensures Match(Router, path) ==
      if Canonical(path) == "/dashboard" then Some(Guarded(Dashboard))
      else if Canonical(path) == "/task" then Some(Guarded(Task))
      else if Canonical(path) == "/user" then Some(Guarded(Users))
      else if Canonical(path) == "/login" then Some(Open(Login))
      else if Canonical(path) == "" then Some(Guarded(Dashboard))
      else None
  {
    CanonicalRoutePaths();
    var t1 := [Route("/task", Guarded(Task)), Route("/user", Guarded(Users)), Route("/login", Open(Login)), Route("/", Guarded(Dashboard))];
    var t2 := [Route("/user", Guarded(Users)), Route("/login", Open(Login)), Route("/", Guarded(Dashboard))];
    var t3 := [Route("/login", Open(Login)), Route("/", Guarded(Dashboard))];
    var t4 := [Route("/", Guarded(Dashboard))];
    assert Router[1..] == t1 && t1[1..] == t2 && t2[1..] == t3 && t3[1..] == t4 && t4[1..] == [];
    assert Match(t4, path) == if Canonical(path) == "" then Some(Guarded(Dashboard)) else None;
    assert Match(t3, path) == if Canonical(path) == "/login" then Some(Open(Login)) else Match(t4, path);
    assert Match(t2, path) == if Canonical(path) == "/user" then Some(Guarded(Users)) else Match(t3, path);
    assert Match(t1, path) == if Canonical(path) == "/task" then Some(Guarded(Task)) else Match(t2, path);
  }

  /**
   * No path matches two routes, so the router's ranking of routes never has to break a tie: the
   * first match is the only one.
   */
  lemma AtMostOneRouteMatches(path: string, i: int, j: int)
    requires 0 <= i < |Router| && 0 <= j < |Router|
    requires SamePath(Router[i].path, path) && SamePath(Router[j].path, path)
    ensures i == j
  {
    var ci := RouteCanonOf(i);
    var cj := RouteCanonOf(j);
  }

  /** The position in the table of the route whose canonical path is `c`. */
  function CanonIndex(c: string): int {
    if c == "/dashboard" then 0 else if c == "/task" then 1 else if c == "/user" then 2
    else if c == "/login" then 3 else if c == "" then 4 else -1
  }

  /** Route `k`'s canonical path leads back to `k`. */
  lemma RouteCanonOf(k: int) returns (c: string)
    requires 0 <= k < |Router|
    ensures c == Canonical(Router[k].path)
    ensures CanonIndex(c) == k
  {
    CanonicalRoutePaths();
    c := Canonical(Router[k].path);
    if k == 0 {
      assert Router[0].path == "/dashboard";
    } else if k == 1 {
      assert Router[1].path == "/task";
    } else if k == 2 {
      assert Router[2].path == "/user";
    } else if k == 3 {
      assert Router[3].path == "/login";
    } else {
      assert Router[4].path == "/";
    }
  }

  lemma CanonicalExamples()
    ensures Canonical("/Task/") == "/task"
    ensures Canonical("/DASHBOARD//") == "/dashboard"
  {
    assert "/Task/"[..5] == "/Task";
    assert StripTrailingSlashes("/Task/") == "/Task";
    assert Js.ToLower("/Task") == "/task";
    assert "/DASHBOARD//"[..11] == "/DASHBOARD/";
    assert "/DASHBOARD/"[..10] == "/DASHBOARD";
    assert StripTrailingSlashes("/DASHBOARD//") == "/DASHBOARD";
    assert Js.ToLower("/DASHBOARD") == "/dashboard";
  }

  /** Two paths of the same canonical form match the same route of any table. */
  lemma {:induction false} MatchCanonical(routes: seq<Route>, p: string, q: string)
    requires Canonical(p) == Canonical(q)
    ensures Match(routes, p) == Match(routes, q)
    decreases |routes|
  {
    if routes != [] {
      MatchCanonical(routes[1..], p, q);
    }
  }

  /** The screen for `path`: open pages render, guarded pages go through `PrivateRoute`. */
  function Render(isAuthenticated: bool, path: string): Screen {
    ScreenFor(isAuthenticated, Match(Router, path))
  }

  /** The screen for the route the router chose, if any. */
  function ScreenFor(isAuthenticated: bool, m: Option<Element>): Screen {
    match m
    case None => NoRoute
    case Some(Open(p)) => Show(p)
    case Some(Guarded(p)) =>
      match PrivateRoute.Guard(isAuthenticated, p)
      case Children(q) => Show(q)
      case Navigate(to, replace) => Redirected(to, replace)
  }

  /** The elements the guarded paths resolve to. */
  lemma GuardedPaths()
    ensures Match(Router, "/dashboard") == Some(Guarded(Dashboard))
    ensures Match(Router, "/task") == Some(Guarded(Task))
    ensures Match(Router, "/user") == Some(Guarded(Users))
  {
    CanonicalRoutePaths();
    RouterMatch("/dashboard");
    RouterMatch("/task");
    RouterMatch("/user");
  }

  /** The table has five distinct paths. */
  lemma FivePaths()
    ensures |Router| == 5
    ensures forall i, j :: 0 <= i < j < |Router| ==> Router[i].path != Router[j].path
  {
  }

  /** `/login` is the only route not wrapped in the guard. */
  lemma OnlyLoginIsOpen()
    ensures forall i :: 0 <= i < |Router| ==> (Router[i].element.Open? <==> Router[i].path == "/login")
  {
  }

  /**
   * `/dashboard`, `/task` and `/user` show Dashboard, Task and Users exactly when authenticated and
   * otherwise redirect to `/login`; `/` behaves as `/dashboard`; `/login` always shows the login page.
   */
  lemma GuardedPages(isAuthenticated: bool)
    ensures Render(isAuthenticated, "/dashboard") == (if isAuthenticated then Show(Dashboard) else Redirected("/login", true))
    ensures Render(isAuthenticated, "/task") == (if isAuthenticated then Show(Task) else Redirected("/login", true))
    ensures Render(isAuthenticated, "/user") == (if isAuthenticated then Show(Users) else Redirected("/login", true))
    ensures Render(isAuthenticated, "/") == Render(isAuthenticated, "/dashboard")
    ensures Render(isAuthenticated, "/login") == Show(Login)
  {
    assert Render(isAuthenticated, "/dashboard") == (if isAuthenticated then Show(Dashboard) else Redirected("/login", true)) by {
      GuardedPaths();
      RenderGuarded(isAuthenticated, "/dashboard", Dashboard);
    }
    assert Render(isAuthenticated, "/task") == (if isAuthenticated then Show(Task) else Redirected("/login", true)) by {
      GuardedPaths();
      RenderGuarded(isAuthenticated, "/task", Task);
    }
    assert Render(isAuthenticated, "/user") == (if isAuthenticated then Show(Users) else Redirected("/login", true)) by {
      GuardedPaths();
      RenderGuarded(isAuthenticated, "/user", Users);
    }
    assert Render(isAuthenticated, "/") == (if isAuthenticated then Show(Dashboard) else Redirected("/login", true)) by {
      CanonicalRoutePaths();
      RouterMatch("/");
      RenderGuarded(isAuthenticated, "/", Dashboard);
    }
    assert Render(isAuthenticated, "/login") == Show(Login) by {
      CanonicalRoutePaths();
      RouterMatch("/login");
    }
  }

  /** A path whose route is guarded shows its page when authenticated and otherwise redirects to `/login`. */
  lemma RenderGuarded(isAuthenticated: bool, path: string, p: Page)
    requires Match(Router, path) == Some(Guarded(p))
    ensures Render(isAuthenticated, path) == if isAuthenticated then Show(p) else Redirected("/login", true)
  {
  }

  /** A redirect always lands on a page that renders without another redirect. */
  lemma RedirectTargetRenders(isAuthenticated: bool, path: string)
    requires Render(isAuthenticated, path).Redirected?
    ensures Render(isAuthenticated, Render(isAuthenticated, path).to) == Show(Login)
  {
    assert Render(isAuthenticated, path).to == "/login";
    CanonicalRoutePaths();
    RouterMatch("/login");
  }

  /** Two paths of the same canonical form get the same screen. */
  lemma RenderCanonical(isAuthenticated: bool, p: string, q: string)
    requires Canonical(p) == Canonical(q)
    ensures Render(isAuthenticated, p) == Render(isAuthenticated, q)
  {
    MatchCanonical(Router, p, q);
  }

  /** Case and trailing slashes do not change the screen: `/Task/` shows what `/task` shows. */
  lemma CaseAndTrailingSlash(isAuthenticated: bool)
    ensures Render(isAuthenticated, "/Task/") == Render(isAuthenticated, "/task")
    ensures Render(isAuthenticated, "/DASHBOARD//") == Render(isAuthenticated, "/dashboard")
  {
    CanonicalExamples();
    CanonicalRoutePaths();
    RenderCanonical(isAuthenticated, "/Task/", "/task");
    RenderCanonical(isAuthenticated, "/DASHBOARD//", "/dashboard");
  }
}
