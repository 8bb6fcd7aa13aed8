/**
 * The session store: who is signed in, with which token and client, and
 * whether the startup restore is still pending.
 */
module AuthSlice {
  import opened Wrappers

  datatype User = User(user_id: string, email: string, client_id: string)

  datatype AuthState = AuthState(
    user: Option<User>,
    token: Option<string>,
    clientId: Option<string>,
    isAuthenticated: bool,
    loading: bool)

  /**
   * The payload of `loginSuccess` / `initializeAuth`. The user is whatever
   * the caller produced; at startup that is the result of parsing stored
   * JSON, which can be `null`.
   */
  datatype Payload = Payload(token: string, clientId: string, user: Option<User>)

  /** The documented invariant: authenticated exactly when a token and a user are held. */
  predicate Consistent(s: AuthState) {
    s.isAuthenticated <==> s.token.Some? && s.user.Some?
  }

  /** `initialState`: nobody signed in, restore pending. */
  function Initial(): (s: AuthState)
    ensures s.user == None && s.token == None && s.clientId == None
    ensures !s.isAuthenticated && s.loading
    ensures Consistent(s)
  {
    AuthState(None, None, None, false, true)
  }

  /** `loginSuccess`: stores exactly the payload and marks the session authenticated. */
  function LoginSuccess(s: AuthState, p: Payload): (r: AuthState)
    ensures r.token == Some(p.token) && r.clientId == Some(p.clientId) && r.user == p.user
    ensures r.isAuthenticated && !r.loading
    ensures p.user.Some? ==> Consistent(r)
  {
    AuthState(p.user, Some(p.token), Some(p.clientId), true, false)
  }

  /** `logout`: forgets the session; the result does not depend on the prior state. */
  function Logout(s: AuthState): (r: AuthState)
    ensures r.user == None && r.token == None && r.clientId == None
    ensures !r.isAuthenticated && !r.loading
    ensures Consistent(r)
  {
    AuthState(None, None, None, false, false)
  }

  /** `setLoading`: changes only `loading`. */
  function SetLoading(s: AuthState, b: bool): (r: AuthState)
    ensures r.loading == b
    ensures r.(loading := s.loading) == s
    ensures Consistent(s) ==> Consistent(r)
  {
    s.(loading := b)
  }

  /** `initializeAuth`: the same transition as `loginSuccess`. */
  function InitializeAuth(s: AuthState, p: Payload): (r: AuthState)
    ensures r == LoginSuccess(s, p)
    ensures r.isAuthenticated && !r.loading
  {
    AuthState(p.user, Some(p.token), Some(p.clientId), true, false)
  }

  /** `initializeAuth` has the same effect from any two states. */
  lemma InitializeAuthIgnoresPriorState(s: AuthState, t: AuthState, p: Payload)
    ensures InitializeAuth(s, p) == InitializeAuth(t, p) == LoginSuccess(t, p)
  {
  }

  /** `logout` is idempotent and forgets everything about the prior state. */
  lemma LogoutIdempotent(s: AuthState, t: AuthState)
    ensures Logout(Logout(s)) == Logout(s) == Logout(t)
  {
  }

  datatype Action =
    | LoginSuccessAction(payload: Payload)
    | LogoutAction
    | SetLoadingAction(loading: bool)
    | InitializeAuthAction(payload: Payload)

  /** The reducer. */
  function Reduce(s: AuthState, a: Action): (r: AuthState)
    ensures Consistent(s) && CarriesUser(a) ==> Consistent(r)
    ensures a.SetLoadingAction? ==> r == s.(loading := a.loading)
    ensures !a.SetLoadingAction? ==> !r.loading
    ensures r.isAuthenticated <==> a.LoginSuccessAction? || a.InitializeAuthAction? || (a.SetLoadingAction? && s.isAuthenticated)
  {
    match a
    case LoginSuccessAction(p) => LoginSuccess(s, p)
    case LogoutAction => Logout(s)
    case SetLoadingAction(b) => SetLoading(s, b)
    case InitializeAuthAction(p) => InitializeAuth(s, p)
  }

  /** Dispatching a sequence of actions in order. */
  function ReduceAll(s: AuthState, actions: seq<Action>): (r: AuthState)
    ensures actions == [] ==> r == s
    ensures |actions| > 0 && actions[|actions| - 1].LogoutAction? ==> r == Logout(s)
    ensures |actions| > 0 && !actions[|actions| - 1].SetLoadingAction? ==> !r.loading
    decreases |actions|
  {
    if actions == [] then s else ReduceAll(Reduce(s, actions[0]), actions[1..])
  }

  /** Dispatching one action is applying the reducer once. */
  lemma ReduceAllSingle(s: AuthState, a: Action)
    ensures ReduceAll(s, [a]) == Reduce(s, a)
  {
    assert [a][1..] == [];
  }

  /** An action whose payload, if any, carries a user. */
  predicate CarriesUser(a: Action) {
    (a.LoginSuccessAction? || a.InitializeAuthAction?) ==> a.payload.user.Some?
  }

  /** Every reducer keeps the invariant, given payloads that carry a user. */
  lemma {:induction false} ReduceAllConsistent(s: AuthState, actions: seq<Action>)
    requires Consistent(s)
    requires forall i :: 0 <= i < |actions| ==> CarriesUser(actions[i])
    ensures Consistent(ReduceAll(s, actions))
    decreases |actions|
  {
    if actions != [] {
      assert CarriesUser(actions[0]);
      ReduceAllConsistent(Reduce(s, actions[0]), actions[1..]);
    }
  }
}
