/**
 * The Redux `auth` slice: the session state `{isAuthenticated, email, role, token}` and its two
 * reducers. `null` is None.
 */
module AuthSlice {
  import opened Wrappers
  import Api

  /**
   * A `role` a caller hands to `setCredentials`: start-up passes the persisted role name, the login
   * page the server's role object itself.
   */
  datatype RoleValue = RoleName(name: string) | RoleObject(role: Api.ServerRole)

  /**
   * The payload of `setCredentials`. The login page passes `user.role` as it came, so the role is
   * None when the server sent `null` or no role at all.
   */
  datatype Credentials = Credentials(email: string, token: string, role: Option<RoleValue>)

  datatype Action = SetCredentials(payload: Credentials) | Logout

  /** A snapshot of the slice. */
  datatype AuthState = AuthState(
    isAuthenticated: bool,
    email: Option<string>,
    role: Option<RoleValue>,
    token: Option<string>)

  const InitialState := AuthState(false, None, None, None)

  /** The reducer: each action overwrites all four fields. */
  function Reduce(s: AuthState, a: Action): (r: AuthState)
    ensures r.isAuthenticated <==> a.SetCredentials?
    ensures a.Logout? ==> r == InitialState
    ensures a.SetCredentials? ==>
      r.email == Some(a.payload.email) && r.token == Some(a.payload.token) && r.role == a.payload.role
  {
    match a
    case SetCredentials(p) => AuthState(true, Some(p.email), p.role, Some(p.token))
    case Logout => AuthState(false, None, None, None)
  }

  /** The state after dispatching `actions` in order, starting from `s`. */
  function ReduceAll(s: AuthState, actions: seq<Action>): AuthState
    decreases |actions|
  {
    if actions == [] then s else ReduceAll(Reduce(s, actions[0]), actions[1..])
  }

  /**
   * The session invariant: authenticated exactly when a token is held, email and token set together
   * or both null together, and a role only alongside a token. An authenticated session may still
   * have a null role.
   */
  predicate Consistent(s: AuthState) {
    && (s.isAuthenticated <==> s.token.Some?)
    && (s.email.Some? <==> s.token.Some?)
    && (s.role.Some? ==> s.token.Some?)
  }

  lemma InitialStateUnauthenticated()
    ensures !InitialState.isAuthenticated
    ensures InitialState.email.None? && InitialState.role.None? && InitialState.token.None?
    ensures Consistent(InitialState)
  {
  }

  /** The reducer never reads the prior state: two calls in a row, the last one wins. */
  lemma LastCallWins(s: AuthState, first: Action, second: Action)
    ensures Reduce(Reduce(s, first), second) == Reduce(InitialState, second)
  {
  }

  /** `logout` after `setCredentials` is exactly the initial state, and `logout` is idempotent. */
  lemma LogoutRestoresInitialState(s: AuthState, p: Credentials)
    ensures Reduce(Reduce(s, SetCredentials(p)), Logout) == InitialState
    ensures Reduce(Reduce(s, Logout), Logout) == Reduce(s, Logout)
  {
  }

  /** Every step keeps the session invariant, so any sequence of dispatches does. */
  lemma {:induction false} ReduceAllConsistent(s: AuthState, actions: seq<Action>)
    requires Consistent(s)
    ensures Consistent(ReduceAll(s, actions))
    decreases |actions|
  {
    if actions != [] {
      ReduceAllConsistent(Reduce(s, actions[0]), actions[1..]);
    }
  }

  /** After a non-empty history the state is determined by the last action alone. */
  lemma {:induction false} ReduceAllLastWins(s: AuthState, actions: seq<Action>)
    requires actions != []
    ensures ReduceAll(s, actions) == Reduce(InitialState, actions[|actions| - 1])
    decreases |actions|
  {
    if |actions| > 1 {
      ReduceAllLastWins(Reduce(s, actions[0]), actions[1..]);
    }
  }

  /** Any history of dispatches from start-up leaves the session consistent. */
  lemma ReachableStatesConsistent(actions: seq<Action>)
    ensures Consistent(ReduceAll(InitialState, actions))
  {
    ReduceAllConsistent(InitialState, actions);
  }

  /** The store's `auth` slice, updated in place by the reducers. */
  class AuthStore {
    var isAuthenticated: bool
    var email: Option<string>
    var role: Option<RoleValue>
    var token: Option<string>

    function State(): AuthState
      reads this
    {
      AuthState(isAuthenticated, email, role, token)
    }

    /** The store starts at `initialState`. */
    constructor ()
      ensures State() == InitialState
    {
      isAuthenticated := false;
      email := None;
      role := None;
      token := None;
    }

    method SetCredentials(payload: Credentials)
      modifies this
      ensures email == Some(payload.email) && token == Some(payload.token) && role == payload.role
      ensures isAuthenticated
      ensures State() == Reduce(old(State()), Action.SetCredentials(payload))
    {
      email := Some(payload.email);
      token := Some(payload.token);
      role := payload.role;
      isAuthenticated := true;
    }

    method Logout()
      modifies this
      ensures email.None? && token.None? && role.None? && !isAuthenticated
      ensures State() == Reduce(old(State()), Action.Logout)
    {
      email := None;
      token := None;
      role := None;
      isAuthenticated := false;
    }

    /** `store.dispatch(action)` for the two actions of the slice. */
    method Dispatch(action: Action)
      modifies this
      ensures State() == Reduce(old(State()), action)
      ensures old(Consistent(State())) ==> Consistent(State())
    {
      match action
      case SetCredentials(p) => SetCredentials(p);
      case Logout => Logout();
    }
  }
}
