/** The project filter both project lists share (client/src/pages/admin/ManageProjects.tsx and
    client/src/pages/Projects.tsx), and the status badge colour every project card uses. */
module ProjectFilters {
  import opened Text
  import opened Schema

  /** The status filter's "no filter" choice. */
  const AllStatus: string := "All Status"

  /** `title.toLowerCase().includes(q.toLowerCase()) || description.toLowerCase().includes(...)`. */
  predicate MatchesSearch(p: Project, query: string) {
    Contains(Lower(p.title), Lower(query)) || Contains(Lower(p.description), Lower(query))
  }

  /** `statusFilter === "All Status" || project.status === statusFilter`. */
  predicate MatchesStatus(p: Project, statusFilter: string) {
    statusFilter == AllStatus || p.status == statusFilter
  }

  /** Every project matches the empty query and the "All Status" choice. */
  lemma InitialFiltersMatch(p: Project)
    ensures MatchesSearch(p, "") && MatchesStatus(p, AllStatus)
  {
    assert Lower("") == "";
    ContainsEmpty(Lower(p.title));
  }

  /** The search only sees the query's letters up to case: two queries that agree once lowered
      match the same projects, so in particular the upper-cased query matches what the query does. */
  lemma SearchIgnoresCase(p: Project, q1: string, q2: string)
    requires Lower(q1) == Lower(q2)
    ensures MatchesSearch(p, q1) == MatchesSearch(p, q2)
    ensures MatchesSearch(p, Upper(q1)) == MatchesSearch(p, q1)
  {
    LowerOfUpper(q1);
  }

  const CompletedColor: string := "bg-green-500/10 text-green-700 dark:text-green-400 border-green-500/20"
  const InProgressColor: string := "bg-orange-500/10 text-orange-700 dark:text-orange-400 border-orange-500/20"
  const PlanningColor: string := "bg-blue-500/10 text-blue-700 dark:text-blue-400 border-blue-500/20"

  /** `getStatusColor`: a non-empty class list for exactly the three known statuses, and
      the empty one for everything else. */
  function StatusColor(status: string): (r: string)
    ensures r != "" <==> status == "Completed" || status == "In Progress" || status == "Planning"
    ensures status == "Completed" ==> r == CompletedColor
    ensures status == "In Progress" ==> r == InProgressColor
    ensures status == "Planning" ==> r == PlanningColor
  {
    if status == "Completed" then CompletedColor
    else if status == "In Progress" then InProgressColor
    else if status == "Planning" then PlanningColor
    else ""
  }
}
