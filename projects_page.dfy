/** The public project list (client/src/pages/Projects.tsx): search, status and location
    filters, the location choices, the shown-of-total count and the Clear Filters button. */
module ProjectsPage {
  import opened Options
  import opened Seqs
  import opened Text
  import opened Schema
  import opened ProjectFilters

  /** The location filter's "no filter" choice. */
  const AllLocations: string := "All Locations"

  /** The three filter inputs. */
  datatype Filters = Filters(query: string, status: string, location: string)

  /** The state the page starts in and Clear Filters returns to. */
  const InitialFilters: Filters := Filters("", AllStatus, AllLocations)

  /** `locationFilter === "All Locations" || project.location === locationFilter`. */
  predicate MatchesLocation(p: Project, locationFilter: string) {
    locationFilter == AllLocations || p.location == locationFilter
  }

  /** A project is listed when it passes all three filters. */
  predicate Shows(f: Filters, p: Project) {
    MatchesSearch(p, f.query) && MatchesStatus(p, f.status) && MatchesLocation(p, f.location)
  }

  /** `filteredProjects`: absent while loading, otherwise the projects every filter lets
      through, in their loaded order. */
  function FilteredProjects(projects: Option<seq<Project>>, f: Filters): (r: Option<seq<Project>>)
    ensures r.Some? <==> projects.Some?
    ensures r.Some? ==> IsSubsequence(r.value, projects.value)
    ensures r.Some? ==> forall p :: p in r.value <==>
      p in projects.value && MatchesSearch(p, f.query) && MatchesStatus(p, f.status) && MatchesLocation(p, f.location)
    ensures r.Some? ==> forall p :: multiset(r.value)[p] == if Shows(f, p) then multiset(projects.value)[p] else 0
  {
    match projects
    case None => None
    case Some(ps) => Some(Filter(ps, p => Shows(f, p)))
  }

  /** The text search never looks at the location, although the search box's placeholder
      offers it: a project in "Toronto" whose title and description do not mention the city is
      not found by the query "toronto". */
  lemma SearchSkipsLocation()
    ensures var p := Project("p1", "Office", "Tower", "Toronto", "Planning", None, "", "", None, None);
      FilteredProjects(Some([p]), Filters("toronto", AllStatus, AllLocations)) == Some([])
  {
    var p := Project("p1", "Office", "Tower", "Toronto", "Planning", None, "", "", None, None);
    ContainsTooLong(Lower(p.title), Lower("toronto"));
    ContainsTooLong(Lower(p.description), Lower("toronto"));
    assert !Shows(Filters("toronto", AllStatus, AllLocations), p);
  }

  /** Whether a project matches the search does not depend on its location. */
  lemma SearchIndependentOfLocation(p: Project, query: string, location: string)
    ensures MatchesSearch(p.(location := location), query) == MatchesSearch(p, query)
  {
  }

  /** `projects.map(p => p.location)`. */
  function Locations(ps: seq<Project>): (r: seq<string>)
    ensures |r| == |ps|
    ensures forall i :: 0 <= i < |ps| ==> r[i] == ps[i].location
  {
    if |ps| == 0 then [] else [ps[0].location] + Locations(ps[1..])
  }

  /** `Array.from(new Set(projects.map(p => p.location)))`, empty before the list has loaded:
      every location that occurs, each once. */
  function LocationOptions(projects: Option<seq<Project>>): (r: seq<string>)
    ensures projects.None? ==> r == []
    ensures NoDuplicates(r)
    ensures projects.Some? ==> forall l :: l in r <==> exists i :: 0 <= i < |projects.value| && projects.value[i].location == l
    ensures projects.Some? ==> forall l :: l in r <==> l in Locations(projects.value)
    ensures projects.Some? ==> forall i, j :: 0 <= i < j < |r| ==>
      FirstIndex(Locations(projects.value), r[i]) < FirstIndex(Locations(projects.value), r[j])
  {
    match projects
    case None => []
    case Some(ps) =>
      var r := Distinct(Locations(ps));
      assert forall l :: l in Locations(ps) <==> exists i :: 0 <= i < |ps| && ps[i].location == l by {
        forall l | l in Locations(ps) ensures exists i :: 0 <= i < |ps| && ps[i].location == l {
          var i :| 0 <= i < |Locations(ps)| && Locations(ps)[i] == l;
          assert ps[i].location == l;
        }
      }
      r
  }

  /** "Showing {shown} of {total} projects", rendered once the list has loaded: `shown` is
      `filteredProjects.length` and `total` is `projects?.length || 0`. */
  datatype Counts = Counts(shown: nat, total: nat)

  function Showing(projects: Option<seq<Project>>, f: Filters): (r: Option<Counts>)
    ensures r.Some? <==> projects.Some?
    ensures r.Some? ==> r.value.total == |projects.value| && r.value.shown <= r.value.total
    ensures r.Some? ==> (r.value.shown == r.value.total <==> forall p :: p in projects.value ==> Shows(f, p))
    ensures r.Some? ==> r.value.shown == |FilteredProjects(projects, f).value|
    ensures r.Some? ==> r.value.shown == |set i | 0 <= i < |projects.value| && Shows(f, projects.value[i])|
  {
    match projects
    case None => None
    case Some(ps) =>
      ShownCount(ps, f);
      Some(Counts(|FilteredProjects(projects, f).value|, if |ps| != 0 then |ps| else 0))
  }

  /** The number of projects listed: at most all of them, all of them exactly when every one
      passes, and in general the number of positions whose project passes. */
  lemma ShownCount(ps: seq<Project>, f: Filters)
    ensures var shown := FilteredProjects(Some(ps), f).value;
      |shown| <= |ps| && (|shown| == |ps| <==> forall p :: p in ps ==> Shows(f, p)) &&
      |shown| == |set i | 0 <= i < |ps| && Shows(f, ps[i])|
  {
    var keep := p => Shows(f, p);
    assert FilteredProjects(Some(ps), f).value == Filter(ps, keep);
    FilterLength(ps, keep);
    assert Passing(ps, keep) == set i | 0 <= i < |ps| && Shows(f, ps[i]);
  }

  /** Clear Filters: all three inputs go back to their initial values, whatever they were. */
  function ClearFilters(f: Filters): (r: Filters)
    ensures r == InitialFilters
  {
    Filters("", AllStatus, AllLocations)
  }

  /** After Clear Filters every loaded project is listed again. */
  lemma ClearedFiltersShowAll(projects: Option<seq<Project>>, f: Filters)
    ensures FilteredProjects(projects, ClearFilters(f)) == projects
  {
    if projects.Some? {
      forall p | p in projects.value ensures Shows(InitialFilters, p) {
        InitialFiltersMatch(p);
      }
      FilterKeepsAll(projects.value, p => Shows(InitialFilters, p));
    }
  }
}
