/**
 * The API configuration: the base URL (an environment override or the
 * built-in default), the endpoint paths, and `getApiUrl`.
 */
module ApiConfig {
  import opened Wrappers

  const DefaultBaseUrl := "https://platform.shauryatechnosoft.com/notification-api/api/v1/o"

  /** `VITE_API_BASE_URL || default`: an unset or empty override falls back to the default. */
  function BaseUrl(env: Option<string>): (b: string)
    ensures env.Some? && env.value != "" ==> b == env.value
    ensures env.None? || env.value == "" ==> b == DefaultBaseUrl
    ensures b != ""
  {
    if env.Some? && env.value != "" then env.value else DefaultBaseUrl
  }

  datatype Endpoint = Clients | Projects | Purposes | Sms | Login | Plans | MembershipEndpoint

  /** The `ENDPOINTS` table; every path starts with "/". */
  function Path(e: Endpoint): (p: string)
    ensures |p| > 1 && p[0] == '/'
  {
    match e
    case Clients => "/clients"
    case Projects => "/projects"
    case Purposes => "/purposes"
    case Sms => "/sms"
    case Login => "/users/login"
    case Plans => "/plans"
    case MembershipEndpoint => "/membership"
  }

  /** Distinct endpoints have distinct paths. */
  lemma PathInjective(e1: Endpoint, e2: Endpoint)
    ensures Path(e1) == Path(e2) ==> e1 == e2
  {
  }

  /** `${BASE_URL}${endpoint}`. */
  function GetApiUrl(base: string, endpoint: string): (url: string)
    ensures |url| == |base| + |endpoint|
    ensures base <= url && url[|base|..] == endpoint
  {
    base + endpoint
  }

  /** The endpoint can be read back from the URL, so different endpoints give different URLs. */
  lemma GetApiUrlInjective(base: string, e1: string, e2: string)
    ensures GetApiUrl(base, e1) == GetApiUrl(base, e2) ==> e1 == e2
    ensures GetApiUrl(base, "") == base
  {
    if GetApiUrl(base, e1) == GetApiUrl(base, e2) {
      assert e1 == GetApiUrl(base, e1)[|base|..];
    }
  }
}
