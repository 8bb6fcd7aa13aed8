/**
 * The send-SMS form: whether it is available, which project and purposes
 * the selection resolves to, the request headers it would send, and the
 * project-change and reset transitions. The request itself is not sent.
 */
module SendSMS {
  import opened Wrappers
  import opened Text
  import opened ClientSlice

  datatype FormData = FormData(projectId: string, purposeId: string, mobile: string, message: string)

  /** The server's reply, kept opaque. */
  datatype Response = Response(status: string, message: string)

  datatype SmsForm = SmsForm(data: FormData, response: Option<Response>)

  const EmptyForm := FormData("", "", "", "")

  /** The form is offered only when a client with at least one project is held. */
  function FormAvailable(c: Option<ClientData>): (b: bool)
    ensures c.None? ==> !b
    ensures c.Some? && c.value.Projects != [] ==> b
    ensures b ==>
      && c.Some? && |c.value.Projects| > 0
      && SelectedProject(c.value, c.value.Projects[0].ID) == Some(c.value.Projects[0])
  {
    c.Some? && |c.value.Projects| > 0
  }

  /** `Projects.find(p => p.ID === projectId)`. */
  function SelectedProject(c: ClientData, projectId: string): (r: Option<Project>)
    ensures r.None? <==> !HasId(c.Projects, projectId)
    ensures r.Some? ==> exists k :: IsFirstWithId(c.Projects, projectId, k) && c.Projects[k] == r.value
  {
    match FindIndex(c.Projects, projectId)
    case None => None
    case Some(k) => Some(c.Projects[k])
  }

  /** `selectedProject?.purposes || []`. */
  function AvailablePurposes(c: ClientData, projectId: string): (r: seq<Purpose>)
    ensures !HasId(c.Projects, projectId) ==> r == []
    ensures HasId(c.Projects, projectId) ==> r == SelectedProject(c, projectId).value.purposes
  {
    match SelectedProject(c, projectId)
    case None => []
    case Some(p) => p.purposes
  }

  /** Choosing a project clears the chosen purpose and keeps mobile and message. */
  function ChangeProject(f: FormData, projectId: string): (r: FormData)
    ensures r.projectId == projectId && r.purposeId == ""
    ensures r.mobile == f.mobile && r.message == f.message
  {
    f.(projectId := projectId, purposeId := "")
  }

  /** `resetForm`: every field empty and the response cleared. */
  function ResetForm(s: SmsForm): (r: SmsForm)
    ensures r.data.projectId == "" && r.data.purposeId == "" && r.data.mobile == "" && r.data.message == ""
    ensures r.response == None
  {
    SmsForm(EmptyForm, None)
  }

  /** `X-API-KEY`: the project's key, or "" when it is null or empty. */
  function ApiKeyHeader(p: Project): (h: string)
    ensures h == "" <==> p.APIKey.None? || p.APIKey.value == ""
    ensures h != "" ==> p.APIKey == Some(h)
  {
    if p.APIKey.Some? && p.APIKey.value != "" then p.APIKey.value else ""
  }

  /** `X-PURPOSE-ID`: the chosen purpose, falling back to the project id when none is chosen. */
  function PurposeHeader(f: FormData): (h: string)
    ensures f.purposeId != "" ==> h == f.purposeId
    ensures f.purposeId == "" ==> h == f.projectId
  {
    if f.purposeId != "" then f.purposeId else f.projectId
  }

  /** `Bearer ${token}`: a missing token is written as the text "null". */
  function Authorization(token: Option<string>): (h: string)
    ensures token.Some? ==> h == "Bearer " + token.value
    ensures token.None? ==> h == "Bearer null"
  {
    "Bearer " + token.GetOr("null")
  }

  datatype SmsRequest = SmsRequest(
    clientId: string,
    projectId: string,
    apiKey: string,
    purposeId: string,
    authorization: string,
    mobile: string,
    message: string)

  /** The request a submit would send, or `None` when no project is selected (no request is issued). */
  function Submit(c: ClientData, f: FormData, token: Option<string>): (r: Option<SmsRequest>)
    ensures r.None? <==> !HasId(c.Projects, f.projectId)
    ensures r.Some? ==>
      && r.value.clientId == c.header.ID
      && r.value.projectId == f.projectId
      && r.value.apiKey == ApiKeyHeader(SelectedProject(c, f.projectId).value)
      && r.value.purposeId == PurposeHeader(f)
      && r.value.authorization == Authorization(token)
      && r.value.mobile == f.mobile && r.value.message == f.message
  {
    match SelectedProject(c, f.projectId)
    case None => None
    case Some(p) => Some(SmsRequest(c.header.ID, f.projectId, ApiKeyHeader(p), PurposeHeader(f),
                                     Authorization(token), f.mobile, f.message))
  }

  /** The selected-project panel's key: the first 20 characters and "...", or "Not available". */
  function ApiKeyDisplay(p: Project): (s: string)
    ensures p.APIKey.None? || p.APIKey.value == "" ==> s == "Not available"
    ensures p.APIKey.Some? && p.APIKey.value != "" ==> s == Ellipsize(p.APIKey.value, 20)
  {
    if p.APIKey.Some? && p.APIKey.value != "" then Ellipsize(p.APIKey.value, 20) else "Not available"
  }

  /** Whenever the form is offered, picking any listed project makes submit issue a request. */
  lemma ListedProjectIsSendable(c: Option<ClientData>, f: FormData, i: nat, token: Option<string>)
    requires FormAvailable(c) && i < |c.value.Projects|
    ensures Submit(c.value, ChangeProject(f, c.value.Projects[i].ID), token).Some?
  {
    assert c.value.Projects[i].ID == ChangeProject(f, c.value.Projects[i].ID).projectId;
  }

  /** After a project change the purpose header is the project id itself. */
  lemma ChangeProjectDefaultsPurpose(f: FormData, projectId: string)
    ensures PurposeHeader(ChangeProject(f, projectId)) == projectId
  {
  }
}
