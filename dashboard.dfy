/** The admin overview (client/src/pages/admin/Dashboard.tsx): counts over the loaded projects
    and images and the most recent ones. */
module Dashboard {
  import opened Options
  import opened Seqs
  import opened Ordering
  import opened Schema
  import opened Storage

  /** `list?.length || 0`: the number loaded, 0 while loading (`totalProjects`, `totalImages`). */
  function LoadedCount<T>(list: Option<seq<T>>): (r: nat)
    ensures list.None? ==> r == 0
    ensures list.Some? ==> r == |list.value|
  {
    match list
    case None => 0
    case Some(s) => if |s| != 0 then |s| else 0
  }

  predicate InProgress(p: Project) {
    p.status == "In Progress"
  }

  /** `activeProjects`: how many loaded projects are "In Progress"; never more than the total,
      0 exactly when none is, and the total exactly when all are. */
  function ActiveProjects(projects: Option<seq<Project>>): (r: nat)
    ensures r <= LoadedCount(projects)
    ensures r == 0 <==> projects.None? || forall p :: p in projects.value ==> !InProgress(p)
    ensures projects.Some? ==> (r == LoadedCount(projects) <==> forall p :: p in projects.value ==> InProgress(p))
    ensures projects.Some? ==> r == |set i | 0 <= i < |projects.value| && InProgress(projects.value[i])|
  {
    match projects
    case None => 0
    case Some(ps) =>
      var active := Filter(ps, InProgress);
      FilterLengthCountsPassing(ps, InProgress);
      assert Passing(ps, InProgress) == set i | 0 <= i < |ps| && InProgress(ps[i]);
      assert |active| == |ps| ==> forall p :: p in ps ==> InProgress(p) by {
        if |active| == |ps| { FilterAllKept(ps, InProgress); }
      }
      assert (forall p :: p in ps ==> InProgress(p)) ==> |active| == |ps| by {
        if forall p :: p in ps ==> InProgress(p) { FilterKeepsAll(ps, InProgress); }
      }
      assert |active| == 0 <==> forall p :: p in ps ==> !InProgress(p) by {
        if |active| != 0 { assert active[0] in active; }
      }
      if |active| != 0 then |active| else 0
  }

  const RecentProjectCount: nat := 5
  const RecentImageCount: nat := 6

  /** `list?.slice(0, n) || []`: the first `min(n, length)` entries in order, none while loading. */
  function Recent<T>(list: Option<seq<T>>, n: nat): (r: seq<T>)
    ensures list.None? ==> r == []
    ensures list.Some? ==> |r| == (if n < |list.value| then n else |list.value|)
    ensures list.Some? ==> forall i :: 0 <= i < |r| ==> r[i] == list.value[i]
  {
    match list
    case None => []
    case Some(s) => Take(s, n)
  }

  /** `recentProjects`. */
  function RecentProjects(projects: Option<seq<Project>>): (r: seq<Project>)
    ensures r == Recent(projects, RecentProjectCount)
  {
    Recent(projects, RecentProjectCount)
  }

  /** `recentImages`. */
  function RecentImages(images: Option<seq<GalleryImage>>): (r: seq<GalleryImage>)
    ensures r == Recent(images, RecentImageCount)
  {
    Recent(images, RecentImageCount)
  }

  /** Because the server lists projects newest first, the dashboard's recent projects are the
      newest ones: each is at least as new as every project left off the list. */
  lemma RecentProjectsAreNewest(store: MemStorage)
    requires store.Valid()
    ensures var all := store.GetAllProjects();
      var recent := RecentProjects(Some(all));
      forall i, j :: 0 <= i < |recent| <= j < |all| ==> ProjectStamp(recent[i]) >= ProjectStamp(all[j])
  {
  }

  /** The same for the recent images and the gallery's upload times. */
  lemma RecentImagesAreNewest(store: MemStorage)
    requires store.Valid()
    ensures var all := store.GetAllGalleryImages();
      var recent := RecentImages(Some(all));
      forall i, j :: 0 <= i < |recent| <= j < |all| ==> GalleryImageStamp(recent[i]) >= GalleryImageStamp(all[j])
  {
  }
}
