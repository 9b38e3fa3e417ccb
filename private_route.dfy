/** `PrivateRoute`: the authentication guard around protected pages. */
module PrivateRoute {

  const LoginPath := "/login"

  /** What the guard returns: `<Navigate to replace />` or its children unchanged. */
  datatype Outcome<T> = Navigate(to: string, replace: bool) | Children(children: T)

  function Guard<T>(isAuthenticated: bool, children: T): (r: Outcome<T>)
    ensures r.Children? <==> isAuthenticated
    ensures r.Children? ==> r.children == children
    ensures r.Navigate? ==> r.to == LoginPath && r.replace
  {
    if !isAuthenticated then Navigate(LoginPath, true) else Children(children)
  }

  /**
   * The decision depends on `isAuthenticated` alone: whatever is wrapped, the guard either lets both
   * through or redirects both, and the redirect is the same constant (no return path is kept).
   */
  lemma GuardIgnoresDestination<T>(isAuthenticated: bool, a: T, b: T)
    ensures Guard(isAuthenticated, a).Children? == Guard(isAuthenticated, b).Children?
    ensures !isAuthenticated ==> Guard(isAuthenticated, a) == Navigate(LoginPath, true) == Guard(isAuthenticated, b)
  {
  }
}
