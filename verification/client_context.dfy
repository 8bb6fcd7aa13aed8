/**
 * The older client context: the legacy client shape (snake_case fields,
 * optional purposes list) and its immutable `addProject` / `addPurpose`.
 * Unlike the store, `addPurpose` here updates EVERY project with the ID.
 */
module ClientContext {
  import opened Wrappers
  import ClientSlice

  type Purpose = ClientSlice.Purpose

  datatype Project = Project(
    project_id: string,
    name: string,
    api_key: string,
    created_at: string,
    purposes: Option<seq<Purpose>>)

  datatype Client = Client(client_id: string, name: string, description: string, projects: seq<Project>)

  /** `project.purposes || []`. */
  function PurposesOf(p: Project): seq<Purpose> {
    p.purposes.GetOr([])
  }

  /** `addProject`: appends at the end; a no-op while no client is held. */
  function AddProject(client: Option<Client>, project: Project): (r: Option<Client>)
    ensures client.None? ==> r == None
    ensures client.Some? ==>
      && r.Some?
      && r.value.client_id == client.value.client_id
      && r.value.name == client.value.name
      && r.value.description == client.value.description
      && r.value.projects == client.value.projects + [project]
  {
    match client
    case None => None
    case Some(c) => Some(c.(projects := c.projects + [project]))
  }

  /** One project after `addPurpose`: extended when its ID matches, returned as is otherwise. */
  function AddPurposeTo(p: Project, projectId: string, purpose: Purpose): (q: Project)
    ensures p.project_id == projectId ==> q == p.(purposes := Some(PurposesOf(p) + [purpose]))
    ensures p.project_id != projectId ==> q == p
  {
    if p.project_id == projectId then p.(purposes := Some(PurposesOf(p) + [purpose])) else p
  }

  /** `projects.map(...)` of `addPurpose`. */
  function MapAddPurpose(ps: seq<Project>, projectId: string, purpose: Purpose): (qs: seq<Project>)
    ensures |qs| == |ps|
    ensures forall i :: 0 <= i < |ps| ==> qs[i] == AddPurposeTo(ps[i], projectId, purpose)
  {
    if ps == [] then [] else [AddPurposeTo(ps[0], projectId, purpose)] + MapAddPurpose(ps[1..], projectId, purpose)
  }

  /** `addPurpose`: appends the purpose to every project whose ID matches; a no-op while no client is held. */
  function AddPurpose(client: Option<Client>, projectId: string, purpose: Purpose): (r: Option<Client>)
    ensures client.None? ==> r == None
    ensures client.Some? ==>
      var ps := client.value.projects;
      && r.Some?
      && r.value.(projects := ps) == client.value
      && |r.value.projects| == |ps|
      && (forall i :: 0 <= i < |ps| && ps[i].project_id != projectId ==> r.value.projects[i] == ps[i])
      && (forall i :: 0 <= i < |ps| && ps[i].project_id == projectId ==>
            && r.value.projects[i].(purposes := ps[i].purposes) == ps[i]
            && PurposesOf(r.value.projects[i]) == PurposesOf(ps[i]) + [purpose])
  {
    match client
    case None => None
    case Some(c) => Some(c.(projects := MapAddPurpose(c.projects, projectId, purpose)))
  }

  /** When no project has the ID, `addPurpose` returns a client equal to its input. */
  lemma AddPurposeNoMatch(client: Option<Client>, projectId: string, purpose: Purpose)
    requires client.Some? ==> forall i :: 0 <= i < |client.value.projects| ==> client.value.projects[i].project_id != projectId
    ensures AddPurpose(client, projectId, purpose) == client
  {
    if client.Some? {
      var ps := client.value.projects;
      var qs := AddPurpose(client, projectId, purpose).value.projects;
      assert qs == ps;
    }
  }

  /** The store's project seen through the fields the two `addPurpose`s touch. */
  function SliceView(p: ClientSlice.Project): (string, seq<Purpose>) {
    (p.ID, p.purposes)
  }

  function ContextView(p: Project): (string, seq<Purpose>) {
    (p.project_id, PurposesOf(p))
  }

  predicate SameView(ps: seq<ClientSlice.Project>, qs: seq<Project>) {
    |ps| == |qs| && forall i :: 0 <= i < |ps| ==> SliceView(ps[i]) == ContextView(qs[i])
  }

  predicate UniqueIds(qs: seq<Project>) {
    forall i, j :: 0 <= i < j < |qs| ==> qs[i].project_id != qs[j].project_id
  }

  /**
   * When project IDs are unique, the store's `addPurpose` (first match) and
   * the context's (every match) agree on every project's ID and purposes.
   */
  lemma AddPurposeStoresAgreeOnUniqueIds(
    s: ClientSlice.ClientState, c: Client, projectId: string, purpose: Purpose)
    requires s.clientData.Some? && SameView(s.clientData.value.Projects, c.projects)
    requires UniqueIds(c.projects)
    ensures SameView(ClientSlice.AddPurpose(s, projectId, purpose).clientData.value.Projects,
                     AddPurpose(Some(c), projectId, purpose).value.projects)
  {
    var ps := s.clientData.value.Projects;
    var ps' := ClientSlice.AddPurpose(s, projectId, purpose).clientData.value.Projects;
    var qs' := AddPurpose(Some(c), projectId, purpose).value.projects;
    if ClientSlice.HasId(ps, projectId) {
      var k :| ClientSlice.IsFirstWithId(ps, projectId, k) && ClientSlice.AppendedAt(ps, ps', k, purpose);
      forall i | 0 <= i < |ps|
        ensures SliceView(ps'[i]) == ContextView(qs'[i])
      {
        assert SliceView(ps[i]) == ContextView(c.projects[i]);
      }
    } else {
      forall i | 0 <= i < |ps|
        ensures SliceView(ps'[i]) == ContextView(qs'[i])
      {
        assert SliceView(ps[i]) == ContextView(c.projects[i]);
      }
    }
  }

  /** With two projects sharing an ID, the two stores disagree: only the context extends the second. */
  lemma AddPurposeStoresDisagreeOnDuplicateIds(purpose: Purpose)
    ensures
      var sp := ClientSlice.Project("p", "", None, "", None, "", true, ClientSlice.Js.Undefined, ClientSlice.Js.Undefined, []);
      var cp := Project("p", "", "", "", None);
      var s := ClientSlice.ClientState(
        Some(ClientSlice.ClientData(ClientSlice.ClientHeader("c", "", "", ClientSlice.Js.Undefined, true, "", ""), [sp, sp])),
        [], false, false, None);
      && SameView(s.clientData.value.Projects, [cp, cp])
      && |ClientSlice.AddPurpose(s, "p", purpose).clientData.value.Projects[1].purposes| == 0
      && |PurposesOf(AddPurpose(Some(Client("c", "", "", [cp, cp])), "p", purpose).value.projects[1])| == 1
  {
  }
}
