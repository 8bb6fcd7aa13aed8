/**
 * The search boxes of the four admin pages. Each keeps the records whose
 * first or second text field, lower-cased, includes the lower-cased term.
 */
module AdminSearch {
  import opened Text
  import opened Seqs

  /** `lower(a).includes(lower(term)) || lower(b).includes(lower(term))`. */
  predicate MatchesEither(a: string, b: string, term: string) {
    Includes(Lower(a), Lower(term)) || Includes(Lower(b), Lower(term))
  }

  /** Only the lower-cased term matters; in particular, lower-casing the term first changes nothing. */
  lemma MatchesCaseInsensitive(a: string, b: string, t1: string, t2: string)
    ensures Lower(t1) == Lower(t2) ==> MatchesEither(a, b, t1) == MatchesEither(a, b, t2)
    ensures MatchesEither(a, b, Lower(t1)) == MatchesEither(a, b, t1)
  {
    LowerIdempotent(t1);
  }

  /** The empty term matches every record. */
  lemma MatchesEmpty(a: string, b: string)
    ensures MatchesEither(a, b, "")
  {
    IncludesEmpty(Lower(a));
  }

  datatype AdminProject = AdminProject(id: string, name: string, description: string, client_name: string, created_at: string, is_active: bool)
  datatype AdminClient = AdminClient(id: string, name: string, contact_email: string, contact_phone: string, created_at: string, is_active: bool)
  datatype AdminPurpose = AdminPurpose(id: string, name: string, description: string, created_at: string, is_active: bool)
  datatype AdminUser = AdminUser(id: string, username: string, email: string, created_at: string, is_active: bool)

  /** `filteredProjects`: by name or client name. */
  function FilterProjects(xs: seq<AdminProject>, term: string): (r: seq<AdminProject>)
    ensures SubsequenceOf(r, xs)
    ensures forall x :: x in r <==> x in xs && MatchesEither(x.name, x.client_name, term)
    ensures forall x :: multiset(r)[x] == if MatchesEither(x.name, x.client_name, term) then multiset(xs)[x] else 0
  {
    FilterIsSubsequence(xs, (x: AdminProject) => MatchesEither(x.name, x.client_name, term));
    FilterMultisetAll(xs, (x: AdminProject) => MatchesEither(x.name, x.client_name, term));
    Filter(xs, (x: AdminProject) => MatchesEither(x.name, x.client_name, term))
  }

  /** An empty term keeps every project; the term's case does not matter; filtering again changes nothing. */
  lemma FilterProjectsLaws(xs: seq<AdminProject>, term: string, term2: string)
    ensures FilterProjects(xs, "") == xs
    ensures Lower(term) == Lower(term2) ==> FilterProjects(xs, term) == FilterProjects(xs, term2)
    ensures FilterProjects(FilterProjects(xs, term), term) == FilterProjects(xs, term)
  {
    var keep := (x: AdminProject) => MatchesEither(x.name, x.client_name, term);
    forall i | 0 <= i < |xs| ensures MatchesEither(xs[i].name, xs[i].client_name, "") {
      MatchesEmpty(xs[i].name, xs[i].client_name);
    }
    FilterKeepAll(xs, (x: AdminProject) => MatchesEither(x.name, x.client_name, ""));
    if Lower(term) == Lower(term2) {
      FilterAgree(xs, keep, (x: AdminProject) => MatchesEither(x.name, x.client_name, term2));
    }
    FilterIdempotent(xs, keep);
  }

  /** `filteredClients`: by name or contact email; the phone is never searched. */
  function FilterClients(xs: seq<AdminClient>, term: string): (r: seq<AdminClient>)
    ensures SubsequenceOf(r, xs)
    ensures forall x :: x in r <==> x in xs && MatchesEither(x.name, x.contact_email, term)
    ensures forall x :: multiset(r)[x] == if MatchesEither(x.name, x.contact_email, term) then multiset(xs)[x] else 0
  {
    FilterIsSubsequence(xs, (x: AdminClient) => MatchesEither(x.name, x.contact_email, term));
    FilterMultisetAll(xs, (x: AdminClient) => MatchesEither(x.name, x.contact_email, term));
    Filter(xs, (x: AdminClient) => MatchesEither(x.name, x.contact_email, term))
  }

  lemma FilterClientsLaws(xs: seq<AdminClient>, term: string, term2: string)
    ensures FilterClients(xs, "") == xs
    ensures Lower(term) == Lower(term2) ==> FilterClients(xs, term) == FilterClients(xs, term2)
    ensures FilterClients(FilterClients(xs, term), term) == FilterClients(xs, term)
  {
    var keep := (x: AdminClient) => MatchesEither(x.name, x.contact_email, term);
    forall i | 0 <= i < |xs| ensures MatchesEither(xs[i].name, xs[i].contact_email, "") {
      MatchesEmpty(xs[i].name, xs[i].contact_email);
    }
    FilterKeepAll(xs, (x: AdminClient) => MatchesEither(x.name, x.contact_email, ""));
    if Lower(term) == Lower(term2) {
      FilterAgree(xs, keep, (x: AdminClient) => MatchesEither(x.name, x.contact_email, term2));
    }
    FilterIdempotent(xs, keep);
  }

  /** `filteredPurposes`: by name or description. */
  function FilterPurposes(xs: seq<AdminPurpose>, term: string): (r: seq<AdminPurpose>)
    ensures SubsequenceOf(r, xs)
    ensures forall x :: x in r <==> x in xs && MatchesEither(x.name, x.description, term)
    ensures forall x :: multiset(r)[x] == if MatchesEither(x.name, x.description, term) then multiset(xs)[x] else 0
  {
    FilterIsSubsequence(xs, (x: AdminPurpose) => MatchesEither(x.name, x.description, term));
    FilterMultisetAll(xs, (x: AdminPurpose) => MatchesEither(x.name, x.description, term));
    Filter(xs, (x: AdminPurpose) => MatchesEither(x.name, x.description, term))
  }

  lemma FilterPurposesLaws(xs: seq<AdminPurpose>, term: string, term2: string)
    ensures FilterPurposes(xs, "") == xs
    ensures Lower(term) == Lower(term2) ==> FilterPurposes(xs, term) == FilterPurposes(xs, term2)
    ensures FilterPurposes(FilterPurposes(xs, term), term) == FilterPurposes(xs, term)
  {
    var keep := (x: AdminPurpose) => MatchesEither(x.name, x.description, term);
    forall i | 0 <= i < |xs| ensures MatchesEither(xs[i].name, xs[i].description, "") {
      MatchesEmpty(xs[i].name, xs[i].description);
    }
    FilterKeepAll(xs, (x: AdminPurpose) => MatchesEither(x.name, x.description, ""));
    if Lower(term) == Lower(term2) {
      FilterAgree(xs, keep, (x: AdminPurpose) => MatchesEither(x.name, x.description, term2));
    }
    FilterIdempotent(xs, keep);
  }

  /** `filteredUsers`: by username or email. */
  function FilterUsers(xs: seq<AdminUser>, term: string): (r: seq<AdminUser>)
    ensures SubsequenceOf(r, xs)
    ensures forall x :: x in r <==> x in xs && MatchesEither(x.username, x.email, term)
    ensures forall x :: multiset(r)[x] == if MatchesEither(x.username, x.email, term) then multiset(xs)[x] else 0
  {
    FilterIsSubsequence(xs, (x: AdminUser) => MatchesEither(x.username, x.email, term));
    FilterMultisetAll(xs, (x: AdminUser) => MatchesEither(x.username, x.email, term));
    Filter(xs, (x: AdminUser) => MatchesEither(x.username, x.email, term))
  }

  lemma FilterUsersLaws(xs: seq<AdminUser>, term: string, term2: string)
    ensures FilterUsers(xs, "") == xs
    ensures Lower(term) == Lower(term2) ==> FilterUsers(xs, term) == FilterUsers(xs, term2)
    ensures FilterUsers(FilterUsers(xs, term), term) == FilterUsers(xs, term)
  {
    var keep := (x: AdminUser) => MatchesEither(x.username, x.email, term);
    forall i | 0 <= i < |xs| ensures MatchesEither(xs[i].username, xs[i].email, "") {
      MatchesEmpty(xs[i].username, xs[i].email);
    }
    FilterKeepAll(xs, (x: AdminUser) => MatchesEither(x.username, x.email, ""));
    if Lower(term) == Lower(term2) {
      FilterAgree(xs, keep, (x: AdminUser) => MatchesEither(x.username, x.email, term2));
    }
    FilterIdempotent(xs, keep);
  }
}
