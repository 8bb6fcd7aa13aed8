/**
 * The startup decision of the store-backed session: restore the session
 * from storage when all three keys are present and the user parses,
 * otherwise stop loading.
 */
module AuthProvider {
  import opened Wrappers
  import opened AuthSlice
  import opened BrowserStorage

  /** What the startup effect does: the actions it dispatches and the storage it leaves. */
  datatype Effect = Effect(dispatched: seq<Action>, storage: Storage)

  const Cleared := Storage(None, None, None)

  /** The startup effect as written: a `null` parse result is dispatched as the user. */
  function Startup(st: Storage, parse: string -> Parsed): (e: Effect)
    ensures !(Present(st.authToken) && Present(st.clientId) && Present(st.userData)) ==>
      e == Effect([SetLoadingAction(false)], st)
    ensures Present(st.authToken) && Present(st.clientId) && Present(st.userData) ==>
      if parse(st.userData.value).ParseFailed? then
        e == Effect([SetLoadingAction(false)], Cleared)
      else
        && e.storage == st
        && e.dispatched == [InitializeAuthAction(Payload(
             st.authToken.value, st.clientId.value, ParsedValue(parse(st.userData.value))))]
    ensures |e.dispatched| == 1
  {
    if Present(st.authToken) && Present(st.clientId) && Present(st.userData) then
      var parsed := parse(st.userData.value);
      if parsed.ParseFailed? then Effect([SetLoadingAction(false)], Cleared)
      else Effect([InitializeAuthAction(Payload(st.authToken.value, st.clientId.value, ParsedValue(parsed)))], st)
    else
      Effect([SetLoadingAction(false)], st)
  }

  /** The session after startup: the initial state with the startup's actions applied. */
  function AfterStartup(st: Storage, parse: string -> Parsed): AuthState {
    ReduceAll(Initial(), Startup(st, parse).dispatched)
  }

  /** `initializeAuth` is dispatched only when all three keys are present and the user parses. */
  lemma StartupRestoresOnlyWhenValid(st: Storage, parse: string -> Parsed)
    ensures (exists i :: 0 <= i < |Startup(st, parse).dispatched| && Startup(st, parse).dispatched[i].InitializeAuthAction?)
        <==> Present(st.authToken) && Present(st.clientId) && Present(st.userData)
             && !parse(st.userData.value).ParseFailed?
  {
    var e := Startup(st, parse);
    assert e.dispatched[0] in e.dispatched;
  }

  /** Whatever storage holds, loading is over once startup has run. */
  lemma StartupStopsLoading(st: Storage, parse: string -> Parsed)
    ensures !AfterStartup(st, parse).loading
  {
    var e := Startup(st, parse);
    ReduceAllSingle(Initial(), e.dispatched[0]);
  }

  /** A restored session carries the stored token and client id unchanged. */
  lemma StartupKeepsStoredCredentials(st: Storage, parse: string -> Parsed)
    requires Present(st.authToken) && Present(st.clientId) && Present(st.userData)
    requires parse(st.userData.value).ParsedUser?
    ensures AfterStartup(st, parse).token == st.authToken
    ensures AfterStartup(st, parse).clientId == st.clientId
    ensures AfterStartup(st, parse).user == Some(parse(st.userData.value).user)
    ensures AfterStartup(st, parse).isAuthenticated
  {
    var e := Startup(st, parse);
    ReduceAllSingle(Initial(), e.dispatched[0]);
  }

  /**
   * Stored user data that parses to `null` passes the presence check and is
   * dispatched as the user: the session is authenticated with no user.
   */
  lemma StartupNullUserBreaksInvariant()
    ensures
      var st := Storage(Some("t"), Some("c"), Some("null"));
      var parse := (s: string) => if s == "null" then ParsedNull else ParseFailed;
      && AfterStartup(st, parse).isAuthenticated
      && AfterStartup(st, parse).user == None
      && !Consistent(AfterStartup(st, parse))
  {
    var st := Storage(Some("t"), Some("c"), Some("null"));
    var parse := (s: string) => if s == "null" then ParsedNull else ParseFailed;
    assert parse("null") == ParsedNull;
    var e := Startup(st, parse);
    assert e.dispatched == [InitializeAuthAction(Payload("t", "c", None))];
    ReduceAllSingle(Initial(), e.dispatched[0]);
  }

  /** The startup effect with a `null` parse result treated like a parse failure. */
  function StartupChecked(st: Storage, parse: string -> Parsed): (e: Effect)
    ensures forall i :: 0 <= i < |e.dispatched| ==> CarriesUser(e.dispatched[i])
    ensures (Present(st.authToken) && Present(st.clientId) && Present(st.userData)
             && parse(st.userData.value).ParsedUser?) ==> e == Startup(st, parse)
    ensures !(Present(st.authToken) && Present(st.clientId) && Present(st.userData)) ==> e == Startup(st, parse)
    ensures (Present(st.authToken) && Present(st.clientId) && Present(st.userData)
             && !parse(st.userData.value).ParsedUser?) ==> e == Effect([SetLoadingAction(false)], Cleared)
  {
    if Present(st.authToken) && Present(st.clientId) && Present(st.userData) then
      var parsed := parse(st.userData.value);
      if parsed.ParsedUser? then Effect([InitializeAuthAction(Payload(st.authToken.value, st.clientId.value, Some(parsed.user)))], st)
      else Effect([SetLoadingAction(false)], Cleared)
    else
      Effect([SetLoadingAction(false)], st)
  }

  /** With the check, every startup path ends consistent and not loading. */
  lemma StartupCheckedConsistent(st: Storage, parse: string -> Parsed)
    ensures Consistent(ReduceAll(Initial(), StartupChecked(st, parse).dispatched))
    ensures !ReduceAll(Initial(), StartupChecked(st, parse).dispatched).loading
  {
    var e := StartupChecked(st, parse);
    ReduceAllConsistent(Initial(), e.dispatched);
    ReduceAllSingle(Initial(), e.dispatched[0]);
  }
}
