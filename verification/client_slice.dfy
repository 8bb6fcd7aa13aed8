/**
 * The client-data store: the canonical shapes of projects, purposes, plans
 * and memberships, the `withPurposes` normaliser that makes loosely-shaped
 * server project records canonical, and the store's reducers as pure
 * state-to-state functions.
 */
module ClientSlice {
  import opened Wrappers
  import opened Js

  /** A purpose's metadata: a (double-encoded) JSON string, or an object with a medium. */
  datatype PurposeMeta = PurposeMetaString(text: string) | PurposeMetaObject(medium: Js<string>)

  datatype Purpose = Purpose(
    ID: string,
    Name: string,
    Description: string,
    CreatedAt: string,
    IsActive: bool,
    MetaData: Js<PurposeMeta>)

  datatype WhatsAppConfig = WhatsAppConfig(phoneNumberId: Js<string>, accessToken: Js<string>)

  /** A project's free-form metadata: a JSON string, or an object naming mediums and WhatsApp settings. */
  datatype MetaData =
    | MetaString(text: string)
    | MetaObject(mediums: Js<seq<string>>, whatsapp: Js<WhatsAppConfig>)

  datatype Plan = Plan(ID: string, Name: string, Channel: string, Quota: int, Duration: int)

  /** A membership; `ValidTill` is a point in time in milliseconds. */
  datatype Membership = Membership(
    ID: string,
    ClientID: string,
    PlanID: string,
    QuotaUsed: int,
    QuotaTotal: int,
    ValidTill: int,
    Status: string,
    Plan: Option<Plan>)

  /** The API key as the server sends it: absent, `null`, a plain string, or an object with a `Key` field. */
  datatype RawApiKey = KeyUndefined | KeyNull | KeyString(text: string) | KeyObject(Key: Js<string>)

  /** A project record as it arrives from the server or from a page. */
  datatype RawProject = RawProject(
    ID: string,
    ClientID: string,
    APIKey: RawApiKey,
    SenderId: string,
    MetaData: Js<MetaData>,
    Name: string,
    IsActive: Js<bool>,
    CreatedAt: Js<string>,
    UpdatedAt: Js<string>,
    purposes: Js<seq<Purpose>>,
    Purposes: Js<seq<Purpose>>)

  /** A canonical project: plain nullable API key, explicit flags, a purposes list always present. */
  datatype Project = Project(
    ID: string,
    ClientID: string,
    APIKey: Option<string>,
    SenderId: string,
    MetaData: Option<MetaData>,
    Name: string,
    IsActive: bool,
    CreatedAt: Js<string>,
    UpdatedAt: Js<string>,
    purposes: seq<Purpose>)

  /** The client fields the store copies through unchanged. */
  datatype ClientHeader = ClientHeader(
    ID: string,
    Name: string,
    Description: string,
    APIKeys: Js<seq<string>>,
    IsActive: bool,
    CreatedAt: string,
    UpdatedAt: string)

  datatype RawClient = RawClient(header: ClientHeader, Projects: Js<seq<RawProject>>)

  datatype ClientData = ClientData(header: ClientHeader, Projects: seq<Project>)

  datatype ClientState = ClientState(
    clientData: Option<ClientData>,
    memberships: seq<Membership>,
    membershipLoading: bool,
    loading: bool,
    error: Option<string>)

  const InitialState := ClientState(None, [], false, false, None)

  /** Collapses the two API-key shapes to a nullable string (`typeof null` is "object"). */
  function NormalizeApiKey(k: RawApiKey): (r: Option<string>)
    ensures k.KeyString? ==> r == Some(k.text)
    ensures k.KeyObject? && k.Key.Val? ==> r == Some(k.Key.v)
    ensures k.KeyUndefined? || k.KeyNull? || (k.KeyObject? && k.Key.Nullish()) ==> r == None
  {
    match k
    case KeyNull => None
    case KeyObject(key) => if key.Val? then Some(key.v) else None
    case KeyString(s) => Some(s)
    case KeyUndefined => None
  }

  /** `withPurposes`: the canonical form of one raw project. */
  function WithPurposes(p: RawProject): (r: Project)
    ensures r.ID == p.ID && r.ClientID == p.ClientID && r.Name == p.Name
    ensures r.SenderId == p.SenderId && r.CreatedAt == p.CreatedAt
    ensures r.APIKey == NormalizeApiKey(p.APIKey)
    ensures r.MetaData == (if p.MetaData.Val? then Some(p.MetaData.v) else None)
    ensures r.IsActive <==> (p.IsActive.Val? ==> p.IsActive.v)
    ensures p.UpdatedAt.Val? ==> r.UpdatedAt == p.UpdatedAt
    ensures p.UpdatedAt.Nullish() ==> r.UpdatedAt == p.CreatedAt
    ensures p.purposes.Val? ==> r.purposes == p.purposes.v
    ensures p.purposes.Nullish() && p.Purposes.Val? ==> r.purposes == p.Purposes.v
    ensures p.purposes.Nullish() && p.Purposes.Nullish() ==> r.purposes == []
  {
    Project(
      p.ID,
      p.ClientID,
      NormalizeApiKey(p.APIKey),
      p.SenderId,
      if p.MetaData.Val? then Some(p.MetaData.v) else None,
      p.Name,
      p.IsActive.OrElse(true),
      p.CreatedAt,
      if p.UpdatedAt.Val? then p.UpdatedAt else p.CreatedAt,
      if p.purposes.Val? then p.purposes.v else p.Purposes.OrElse([]))
  }

  /** `raws.map(withPurposes)`. */
  function NormalizeAll(raws: seq<RawProject>): (ps: seq<Project>)
    ensures |ps| == |raws|
    ensures forall i :: 0 <= i < |raws| ==> ps[i] == WithPurposes(raws[i])
  {
    if raws == [] then [] else [WithPurposes(raws[0])] + NormalizeAll(raws[1..])
  }

  /** A canonical project written back as a raw record (the shape the create-project page sends). */
  function AsRaw(p: Project): RawProject {
    RawProject(
      p.ID, p.ClientID,
      if p.APIKey.Some? then KeyString(p.APIKey.value) else KeyNull,
      p.SenderId,
      if p.MetaData.Some? then Val(p.MetaData.value) else Null,
      p.Name, Val(p.IsActive), p.CreatedAt, p.UpdatedAt,
      Val(p.purposes), Undefined)
  }

  /** A normalised project's `UpdatedAt` is only nullish when it is its `CreatedAt`. */
  predicate Canonical(p: Project) {
    p.UpdatedAt.Nullish() ==> p.UpdatedAt == p.CreatedAt
  }

  lemma WithPurposesIsCanonical(p: RawProject)
    ensures Canonical(WithPurposes(p))
  {
  }

  /** Normalising an already canonical project changes nothing. */
  lemma WithPurposesIdempotent(p: Project)
    requires Canonical(p)
    ensures WithPurposes(AsRaw(p)) == p
  {
  }

  /** A project the store normalised and a page sent back is stored unchanged the second time. */
  lemma WithPurposesTwice(p: RawProject)
    ensures WithPurposes(AsRaw(WithPurposes(p))) == WithPurposes(p)
  {
    WithPurposesIsCanonical(p);
    WithPurposesIdempotent(WithPurposes(p));
  }

  /** `setClientData`: replaces the client wholesale with the payload, its projects normalised. */
  function SetClientData(s: ClientState, payload: RawClient): (r: ClientState)
    ensures r.clientData.Some? && r.clientData.value.header == payload.header
    ensures payload.Projects.Nullish() ==> r.clientData.value.Projects == []
    ensures payload.Projects.Val? ==>
      var raws := payload.Projects.v;
      && |r.clientData.value.Projects| == |raws|
      && forall i :: 0 <= i < |raws| ==> r.clientData.value.Projects[i] == WithPurposes(raws[i])
    ensures !r.loading && r.error == None
    ensures r.memberships == s.memberships && r.membershipLoading == s.membershipLoading
  {
    var raws := if payload.Projects.Val? then payload.Projects.v else [];
    s.(clientData := Some(ClientData(payload.header, NormalizeAll(raws))), loading := false, error := None)
  }

  /** `setLoading`. */
  function SetLoading(s: ClientState, b: bool): (r: ClientState)
    ensures r.loading == b
    ensures r.(loading := s.loading) == s
  {
    s.(loading := b)
  }

  /** `setError`: records the message and stops loading; the client data is kept. */
  function SetError(s: ClientState, message: string): (r: ClientState)
    ensures r.error == Some(message) && !r.loading
    ensures r.clientData == s.clientData && r.memberships == s.memberships
    ensures r.membershipLoading == s.membershipLoading
  {
    s.(error := Some(message), loading := false)
  }

  /** `clearClientData`. */
  function ClearClientData(s: ClientState): (r: ClientState)
    ensures r.clientData == None && !r.loading && r.error == None
    ensures r.memberships == s.memberships && r.membershipLoading == s.membershipLoading
  {
    s.(clientData := None, loading := false, error := None)
  }

  /** `addProject`: appends the normalised payload; a no-op while no client is held. */
  function AddProject(s: ClientState, payload: RawProject): (r: ClientState)
    ensures s.clientData.None? ==> r == s
    ensures s.clientData.Some? ==>
      var ps := s.clientData.value.Projects;
      && r.clientData.Some?
      && r.clientData.value.header == s.clientData.value.header
      && |r.clientData.value.Projects| == |ps| + 1
      && r.clientData.value.Projects[..|ps|] == ps
      && r.clientData.value.Projects[|ps|] == WithPurposes(payload)
    ensures r.(clientData := s.clientData) == s
  {
    match s.clientData
    case None => s
    case Some(c) => s.(clientData := Some(c.(Projects := c.Projects + [WithPurposes(payload)])))
  }

  /** `k` is the index of the first project whose ID is `id`. */
  predicate IsFirstWithId(ps: seq<Project>, id: string, k: int) {
    0 <= k < |ps| && ps[k].ID == id && forall j :: 0 <= j < k ==> ps[j].ID != id
  }

  predicate HasId(ps: seq<Project>, id: string) {
    exists j :: 0 <= j < |ps| && ps[j].ID == id
  }

  /** `Projects.find(p => p.ID === id)`, as an index. */
  function FindIndex(ps: seq<Project>, id: string): (r: Option<nat>)
    ensures r.Some? ==> IsFirstWithId(ps, id, r.value)
    ensures r.None? <==> !HasId(ps, id)
  {
    if ps == [] then None
    else if ps[0].ID == id then Some(0)
    else match FindIndex(ps[1..], id)
      case None => None
      case Some(k) => Some(k + 1)
  }

  /** `qs` is `ps` with `purpose` appended to project `k`'s list and nothing else changed. */
  predicate AppendedAt(ps: seq<Project>, qs: seq<Project>, k: int, purpose: Purpose) {
    && |qs| == |ps|
    && 0 <= k < |ps|
    && qs[k] == ps[k].(purposes := ps[k].purposes + [purpose])
    && forall j :: 0 <= j < |ps| && j != k ==> qs[j] == ps[j]
  }

  /** `addPurpose`: appends the purpose to the first project with the given ID only. */
  function AddPurpose(s: ClientState, projectId: string, purpose: Purpose): (r: ClientState)
    ensures s.clientData.None? || !HasId(s.clientData.value.Projects, projectId) ==> r == s
    ensures s.clientData.Some? && HasId(s.clientData.value.Projects, projectId) ==>
      && r.clientData.Some?
      && r.clientData.value.header == s.clientData.value.header
      && exists k :: IsFirstWithId(s.clientData.value.Projects, projectId, k)
                && AppendedAt(s.clientData.value.Projects, r.clientData.value.Projects, k, purpose)
    ensures r.(clientData := s.clientData) == s
  {
    match s.clientData
    case None => s
    case Some(c) =>
      match FindIndex(c.Projects, projectId)
      case None => s
      case Some(k) =>
        var p := c.Projects[k];
        s.(clientData := Some(c.(Projects := c.Projects[k := p.(purposes := p.purposes + [purpose])])))
  }

  /** `setMemberships`: replaces the list wholesale. */
  function SetMemberships(s: ClientState, ms: seq<Membership>): (r: ClientState)
    ensures r.memberships == ms && !r.membershipLoading && r.error == None
    ensures r.clientData == s.clientData && r.loading == s.loading
  {
    s.(memberships := ms, membershipLoading := false, error := None)
  }

  /** `setMembershipLoading`. */
  function SetMembershipLoading(s: ClientState, b: bool): (r: ClientState)
    ensures r.membershipLoading == b
    ensures r.(membershipLoading := s.membershipLoading) == s
  {
    s.(membershipLoading := b)
  }

  /** `addMembership`: appends exactly one membership at the end. */
  function AddMembership(s: ClientState, m: Membership): (r: ClientState)
    ensures |r.memberships| == |s.memberships| + 1
    ensures r.memberships[..|s.memberships|] == s.memberships && r.memberships[|s.memberships|] == m
    ensures r.(memberships := s.memberships) == s
  {
    s.(memberships := s.memberships + [m])
  }

  /** The number of purposes held across all projects. */
  function PurposeCount(ps: seq<Project>): (n: nat)
    ensures ps == [] ==> n == 0
  {
    if ps == [] then 0 else |ps[0].purposes| + PurposeCount(ps[1..])
  }

  lemma {:induction false} PurposeCountUpdate(ps: seq<Project>, k: nat, p: Project)
    requires k < |ps|
    ensures PurposeCount(ps[k := p]) == PurposeCount(ps) - |ps[k].purposes| + |p.purposes|
    decreases k
  {
    if k > 0 {
      assert ps[k := p][1..] == ps[1..][k - 1 := p];
      PurposeCountUpdate(ps[1..], k - 1, p);
    }
  }

  /** Appending a purpose to an existing project adds exactly one to that number. */
  lemma AddPurposeCountsOne(s: ClientState, projectId: string, purpose: Purpose)
    requires s.clientData.Some? && HasId(s.clientData.value.Projects, projectId)
    ensures PurposeCount(AddPurpose(s, projectId, purpose).clientData.value.Projects)
         == PurposeCount(s.clientData.value.Projects) + 1
  {
    var c := s.clientData.value;
    var k := FindIndex(c.Projects, projectId).value;
    var p := c.Projects[k];
    PurposeCountUpdate(c.Projects, k, p.(purposes := p.purposes + [purpose]));
  }

  /** The end-to-end example: a client with one project that has an empty `Purposes` list. */
  lemma NormaliserExample()
    ensures
      var header := ClientHeader("c1", "Acme", "", Undefined, true, "", "");
      var raw := RawProject("p1", "", KeyUndefined, "", Undefined, "P", Undefined, Undefined, Undefined, Undefined, Val([]));
      var r := SetClientData(InitialState, RawClient(header, Val([raw])));
      && |r.clientData.value.Projects| == 1
      && r.clientData.value.Projects[0].purposes == []
      && r.clientData.value.Projects[0].APIKey == None
      && r.clientData.value.Projects[0].IsActive
  {
  }
}
