/**
 * The older context-backed session: the mount-time restore effect,
 * `logout`, and the derived `isAuthenticated`. Only `auth_token` and
 * `user_data` are read or removed here; `client_id` is never touched.
 */
module AuthContext {
  import opened Wrappers
  import opened AuthSlice
  import opened BrowserStorage

  datatype ContextState = ContextState(user: Option<User>, token: Option<string>, loading: bool)

  /** The provider's state before its mount effect runs. */
  const Mounted := ContextState(None, None, true)

  /** `!!token && !!user`: an empty token does not authenticate. */
  function IsAuthenticated(s: ContextState): (b: bool)
    ensures b ==> s.user.Some? && s.token.Some?
    ensures s.token == Some("") ==> !b
    ensures s.user.Some? && s.token.Some? && |s.token.value| > 0 ==> b
  {
    s.token.Some? && s.token.value != "" && s.user.Some?
  }

  /**
   * The mount effect. The token is set before the user is parsed, so a
   * parse failure leaves the token set, the user unset, and both keys removed.
   */
  function Restore(s: ContextState, st: Storage, parse: string -> Parsed): (r: (ContextState, Storage))
    ensures !r.0.loading
    ensures r.1.clientId == st.clientId
    ensures !(Present(st.authToken) && Present(st.userData)) ==> r == (s.(loading := false), st)
    ensures Present(st.authToken) && Present(st.userData) ==>
      && r.0.token == st.authToken
      && (parse(st.userData.value).ParseFailed? ==>
            r.0.user == s.user && r.1 == st.(authToken := None, userData := None))
      && (!parse(st.userData.value).ParseFailed? ==>
            r.0.user == ParsedValue(parse(st.userData.value)) && r.1 == st)
  {
    if Present(st.authToken) && Present(st.userData) then
      var withToken := s.(token := st.authToken);
      var parsed := parse(st.userData.value);
      if parsed.ParseFailed? then
        (withToken.(loading := false), st.(authToken := None, userData := None))
      else
        (withToken.(user := ParsedValue(parsed), loading := false), st)
    else
      (s.(loading := false), st)
  }

  /** `logout`: forgets user and token and removes both keys. */
  function Logout(s: ContextState, st: Storage): (r: (ContextState, Storage))
    ensures r.0.user == None && r.0.token == None && r.0.loading == s.loading
    ensures r.1 == st.(authToken := None, userData := None)
    ensures !IsAuthenticated(r.0)
  {
    (s.(user := None, token := None), st.(authToken := None, userData := None))
  }

  /** On mount, a session is restored exactly when token and user data are stored and the user parses to an object. */
  lemma RestoreAuthenticatesIff(st: Storage, parse: string -> Parsed)
    ensures IsAuthenticated(Restore(Mounted, st, parse).0)
        <==> Present(st.authToken) && Present(st.userData) && parse(st.userData.value).ParsedUser?
  {
  }

  /** A parse failure leaves the token set but the session unauthenticated. */
  lemma RestoreParseFailureKeepsToken(st: Storage, parse: string -> Parsed)
    requires Present(st.authToken) && Present(st.userData) && parse(st.userData.value).ParseFailed?
    ensures Restore(Mounted, st, parse).0.token == st.authToken
    ensures !IsAuthenticated(Restore(Mounted, st, parse).0)
    ensures Restore(Mounted, st, parse).1.authToken == None && Restore(Mounted, st, parse).1.userData == None
  {
  }
}
