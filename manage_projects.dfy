/** The admin project list (client/src/pages/admin/ManageProjects.tsx): the search and status
    filter over the loaded projects, and the form submission that either creates a project or
    updates the one being edited. */
module ManageProjects {
  import opened Options
  import opened Seqs
  import opened Text
  import opened Schema
  import opened ProjectFilters
  import opened Storage
  import opened Http
  import opened Routes

  /** `filteredProjects`: absent while the list is loading, otherwise the projects matching
      both the search and the status filter, in the order they were loaded. */
  function FilteredProjects(projects: Option<seq<Project>>, query: string, statusFilter: string): (r: Option<seq<Project>>)
    ensures r.Some? <==> projects.Some?
    ensures r.Some? ==> IsSubsequence(r.value, projects.value)
    ensures r.Some? ==> forall p :: p in r.value <==>
      p in projects.value && MatchesSearch(p, query) && MatchesStatus(p, statusFilter)
    ensures r.Some? ==>
              forall p :: multiset(r.value)[p] ==
                if MatchesSearch(p, query) && MatchesStatus(p, statusFilter) then multiset(projects.value)[p] else 0
  {
    match projects
    case None => None
    case Some(ps) => Some(Filter(ps, p => MatchesSearch(p, query) && MatchesStatus(p, statusFilter)))
  }

  /** In the page's initial state (empty query, "All Status") the whole list is shown. */
  lemma InitialStateShowsAll(projects: Option<seq<Project>>)
    ensures FilteredProjects(projects, "", AllStatus) == projects
  {
    if projects.Some? {
      forall p | p in projects.value ensures MatchesSearch(p, "") && MatchesStatus(p, AllStatus) {
        InitialFiltersMatch(p);
      }
      FilterKeepsAll(projects.value, p => MatchesSearch(p, "") && MatchesStatus(p, AllStatus));
    }
  }

  /** Two queries that differ only in letter case show the same list. */
  lemma SearchIsCaseInsensitive(projects: Option<seq<Project>>, q1: string, q2: string, statusFilter: string)
    requires Lower(q1) == Lower(q2)
    ensures FilteredProjects(projects, q1, statusFilter) == FilteredProjects(projects, q2, statusFilter)
  {
    if projects.Some? {
      forall p | p in projects.value ensures MatchesSearch(p, q1) == MatchesSearch(p, q2) {
        SearchIgnoresCase(p, q1, q2);
      }
      FilterCongruent(projects.value,
        p => MatchesSearch(p, q1) && MatchesStatus(p, statusFilter),
        p => MatchesSearch(p, q2) && MatchesStatus(p, statusFilter));
    }
  }

  /** The mutation `handleSubmit` fires. */
  datatype Submission = CreateRequest(data: InsertProject) | UpdateRequest(id: Id, data: InsertProject)

  /** `handleSubmit`: an update of the project being edited when there is one, a creation
      otherwise; the form data is passed on untouched either way. */
  function HandleSubmit(editing: Option<Project>, data: InsertProject): (r: Submission)
    ensures r.data == data
    ensures r.UpdateRequest? <==> editing.Some?
    ensures r.UpdateRequest? ==> r.id == editing.value.id
  {
    match editing
    case None => CreateRequest(data)
    case Some(p) => UpdateRequest(p.id, data)
  }

  /** The submission carried through to the server: a creation is `POST /api/projects`, an
      update `PATCH /api/projects/:id`. The form has already been validated against the insert
      schema, so the body always parses. `newId` and `now` are what the store would draw for a
      creation. */
  method Submit(store: MemStorage, session: Session, editing: Option<Project>, data: InsertProject, newId: Id, now: Time)
    returns (resp: Response)
    requires store.Valid()
    modifies store`projects
    ensures store.Valid()
    ensures !IsAuthenticated(store, session) ==> resp == Unauthorized && unchanged(store)
    ensures IsAuthenticated(store, session) && editing.None? ==>
      resp.status == 201 && store.projects == old(store.projects).Set(newId, ProjectOf(data, newId, Some(now)))
    ensures IsAuthenticated(store, session) && editing.Some? && editing.value.id in old(store.projects.entries) ==>
      var id := editing.value.id;
      resp.status == 200 &&
      store.projects == old(store.projects).Set(id, ProjectOf(data, id, old(store.projects.entries[id].createdAt)))
    ensures IsAuthenticated(store, session) && editing.Some? && editing.value.id !in old(store.projects.entries) ==>
      resp == Response(404, ErrorBody("Project not found")) && unchanged(store)
  {
    match HandleSubmit(editing, data)
    case CreateRequest(d) =>
      resp := CreateProjectRoute(store, session, ParseOk(d), newId, now);
    case UpdateRequest(id, d) =>
      resp := UpdateProjectRoute(store, session, id, ParseOk(d));
  }
}
