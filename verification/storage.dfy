/**
 * The browser-local key/value store as the session code sees it, and the
 * outcome of `JSON.parse` on the stored user.
 */
module BrowserStorage {
  import opened Wrappers
  import AuthSlice

  /** The three persisted keys: `auth_token`, `client_id`, `user_data`; `None` is a missing key. */
  datatype Storage = Storage(authToken: Option<string>, clientId: Option<string>, userData: Option<string>)

  /** `JSON.parse(userData)`: it throws, yields `null`, or yields a user object. */
  datatype Parsed = ParseFailed | ParsedNull | ParsedUser(user: AuthSlice.User)

  /** `localStorage.getItem(k)` is truthy: the key is present and not empty. */
  predicate Present(v: Option<string>) {
    v.Some? && v.value != ""
  }

  /** The parsed user as a nullable value, when parsing did not throw. */
  function ParsedValue(p: Parsed): Option<AuthSlice.User>
    requires !p.ParseFailed?
  {
    if p.ParsedUser? then Some(p.user) else None
  }
}
