/**
 * The dashboard's derived numbers over the context's client: the
 * `totalPurposes` fold and the project-count stats.
 */
module Dashboard {
  import opened Wrappers
  import opened ClientContext

  /** `projects.reduce((t, p) => t + (p.purposes?.length || 0), 0)`. */
  function TotalPurposes(ps: seq<Project>): (n: nat)
    ensures forall i :: 0 <= i < |ps| ==> |PurposesOf(ps[i])| <= n
    ensures n == 0 <==> forall i :: 0 <= i < |ps| ==> PurposesOf(ps[i]) == []
  {
    if ps == [] then 0 else |PurposesOf(ps[0])| + TotalPurposes(ps[1..])
  }

  /** The number of projects whose ID is `id`. */
  function CountWithId(ps: seq<Project>, id: string): nat {
    if ps == [] then 0 else (if ps[0].project_id == id then 1 else 0) + CountWithId(ps[1..], id)
  }

  datatype Stats = Stats(totalProjects: nat, totalPurposes: nat, apiKeys: nat)

  /** The three stat cards; there are none while no client is held. */
  function DashboardStats(client: Option<Client>): (r: Option<Stats>)
    ensures client.None? <==> r.None?
    ensures r.Some? ==> r.value.totalProjects == |client.value.projects| && r.value.apiKeys == r.value.totalProjects
    ensures r.Some? && client.value.projects == [] ==> r.value.totalPurposes == 0
    ensures r.Some? ==> r.value.totalPurposes == TotalPurposes(client.value.projects)
  {
    match client
    case None => None
    case Some(c) => Some(Stats(|c.projects|, TotalPurposes(c.projects), |c.projects|))
  }

  lemma {:induction false} TotalPurposesAppend(a: seq<Project>, b: seq<Project>)
    ensures TotalPurposes(a + b) == TotalPurposes(a) + TotalPurposes(b)
  {
    if a != [] {
      assert (a + b)[1..] == a[1..] + b;
      TotalPurposesAppend(a[1..], b);
    } else {
      assert a + b == b;
    }
  }

  /** Taking out the project at `j` takes out exactly its purposes. */
  lemma TotalPurposesRemove(b: seq<Project>, j: nat)
    requires j < |b|
    ensures TotalPurposes(b) == |PurposesOf(b[j])| + TotalPurposes(b[..j] + b[j + 1..])
  {
    assert b == b[..j] + b[j..];
    TotalPurposesAppend(b[..j], b[j..]);
    TotalPurposesAppend(b[..j], b[j + 1..]);
    assert b[j..][1..] == b[j + 1..];
  }

  /** Taking the same element out of two equal multisets leaves equal multisets. */
  lemma MultisetRemoveMatching(a: seq<Project>, b: seq<Project>, j: nat)
    requires multiset(a) == multiset(b) && a != [] && j < |b| && b[j] == a[0]
    ensures multiset(a[1..]) == multiset(b[..j] + b[j + 1..])
  {
    assert b == b[..j] + [b[j]] + b[j + 1..];
    assert multiset(b) == multiset(b[..j]) + multiset{a[0]} + multiset(b[j + 1..]);
    assert a == [a[0]] + a[1..];
    assert multiset(a) == multiset{a[0]} + multiset(a[1..]);
    assert multiset(b[..j] + b[j + 1..]) == multiset(b[..j]) + multiset(b[j + 1..]);
    assert multiset(a[1..]) == multiset(a) - multiset{a[0]};
  }

  /** `totalPurposes` does not depend on the order of the projects. */
  lemma {:induction false} TotalPurposesPermutation(a: seq<Project>, b: seq<Project>)
    requires multiset(a) == multiset(b)
    ensures TotalPurposes(a) == TotalPurposes(b)
    decreases |a|
  {
    if a == [] {
      assert |b| == |multiset(b)| == 0;
    } else {
      assert a[0] in multiset(b);
      var j :| 0 <= j < |b| && b[j] == a[0];
      MultisetRemoveMatching(a, b, j);
      TotalPurposesPermutation(a[1..], b[..j] + b[j + 1..]);
      TotalPurposesRemove(b, j);
    }
  }

  /** The context's `addPurpose` raises `totalPurposes` by the number of matching projects. */
  lemma {:induction false} AddPurposeRaisesTotal(ps: seq<Project>, id: string, purpose: Purpose)
    ensures TotalPurposes(MapAddPurpose(ps, id, purpose)) == TotalPurposes(ps) + CountWithId(ps, id)
  {
    if ps != [] {
      var qs := MapAddPurpose(ps, id, purpose);
      assert qs[1..] == MapAddPurpose(ps[1..], id, purpose);
      AddPurposeRaisesTotal(ps[1..], id, purpose);
    }
  }

  /** The same, stated on whole clients. */
  lemma AddPurposeRaisesClientTotal(c: Client, id: string, purpose: Purpose)
    ensures TotalPurposes(AddPurpose(Some(c), id, purpose).value.projects)
         == TotalPurposes(c.projects) + CountWithId(c.projects, id)
  {
    AddPurposeRaisesTotal(c.projects, id, purpose);
  }

  /** The stat cards do not depend on the order in which the client's projects are listed. */
  lemma DashboardStatsReorder(c: Client, d: Client)
    requires multiset(c.projects) == multiset(d.projects)
    ensures DashboardStats(Some(c)) == DashboardStats(Some(d))
  {
    assert |c.projects| == |multiset(c.projects)| == |multiset(d.projects)| == |d.projects|;
    TotalPurposesPermutation(c.projects, d.projects);
  }

  /** After the context's `addPurpose`, the purpose card rises by the number of matching projects and the other cards stay. */
  lemma DashboardStatsAfterAddPurpose(c: Client, id: string, purpose: Purpose)
    ensures
      var before := DashboardStats(Some(c)).value;
      var after := DashboardStats(AddPurpose(Some(c), id, purpose)).value;
      && after.totalProjects == before.totalProjects
      && after.apiKeys == before.apiKeys
      && after.totalPurposes == before.totalPurposes + CountWithId(c.projects, id)
  {
    AddPurposeRaisesClientTotal(c, id, purpose);
  }
}
