/** The public gallery (client/src/pages/Gallery.tsx): the project filter over the loaded
    images, the project buttons, and the lightbox's previous / next navigation. */
module GalleryPage {
  import opened Options
  import opened Seqs
  import opened Schema

  /** JavaScript truthiness of the selected project, `string | null`. */
  predicate Selected(selectedProject: Option<Id>) {
    selectedProject.Some? && selectedProject.value != ""
  }

  /** `filteredImages`: with no project selected the loaded list itself, otherwise the images
      of that project, in their loaded order. */
  function FilteredImages(images: Option<seq<GalleryImage>>, selectedProject: Option<Id>): (r: Option<seq<GalleryImage>>)
    ensures r.Some? <==> images.Some?
    ensures !Selected(selectedProject) ==> r == images
    ensures Selected(selectedProject) && r.Some? ==>
      IsSubsequence(r.value, images.value) &&
      forall g :: g in r.value <==> g in images.value && g.projectId == selectedProject
    ensures Selected(selectedProject) && r.Some? ==>
      forall g :: multiset(r.value)[g] == if g.projectId == selectedProject then multiset(images.value)[g] else 0
  {
    if Selected(selectedProject) then
      match images
      case None => None
      case Some(gs) => Some(Filter(gs, (g: GalleryImage) => g.projectId == selectedProject))
    else images
  }

  /** The image belongs to a project: its `projectId` is truthy. */
  predicate HasProject(g: GalleryImage) {
    g.projectId.Some? && g.projectId.value != ""
  }

  /** `images.map(img => img.projectId).filter(Boolean)`: the non-empty project ids, in order. */
  function LinkedProjectIds(images: seq<GalleryImage>): (r: seq<Id>)
    ensures forall x :: x in r <==> x != "" && exists i :: 0 <= i < |images| && images[i].projectId == Some(x)
    ensures var linked := Filter(images, HasProject);
      |r| == |linked| && forall i :: 0 <= i < |r| ==> linked[i].projectId == Some(r[i])
  {
    if |images| == 0 then []
    else
      var rest := LinkedProjectIds(images[1..]);
      ProjectOfSplits(images);
      FilterCons(images, HasProject);
      if HasProject(images[0]) then
        var r := [images[0].projectId.value] + rest;
        LinkedCons(images[0], images[1..], rest);
        r
      else
        rest
  }

  /** Putting a linked image in front of a list puts its project id in front of the ids. */
  lemma LinkedCons(g: GalleryImage, gs: seq<GalleryImage>, ids: seq<Id>)
    requires HasProject(g)
    requires var linked := Filter(gs, HasProject);
      |ids| == |linked| && forall i :: 0 <= i < |ids| ==> linked[i].projectId == Some(ids[i])
    ensures var linked := [g] + Filter(gs, HasProject);
      var r := [g.projectId.value] + ids;
      |r| == |linked| && forall i :: 0 <= i < |r| ==> linked[i].projectId == Some(r[i])
  {
  }

  /** An image of `images` with project `x` is its first image or one of the others. */
  lemma ProjectOfSplits(images: seq<GalleryImage>)
    requires |images| > 0
    ensures forall x :: (exists i :: 0 <= i < |images| && images[i].projectId == Some(x)) <==>
      images[0].projectId == Some(x) || exists i :: 0 <= i < |images[1..]| && images[1..][i].projectId == Some(x)
  {
    forall x | exists i :: 0 <= i < |images| && images[i].projectId == Some(x)
      ensures images[0].projectId == Some(x) || exists i :: 0 <= i < |images[1..]| && images[1..][i].projectId == Some(x)
    {
      var i :| 0 <= i < |images| && images[i].projectId == Some(x);
      if i > 0 { assert images[1..][i - 1] == images[i]; }
    }
    forall x | exists i :: 0 <= i < |images[1..]| && images[1..][i].projectId == Some(x)
      ensures exists i :: 0 <= i < |images| && images[i].projectId == Some(x)
    {
      var i :| 0 <= i < |images[1..]| && images[1..][i].projectId == Some(x);
      assert images[i + 1] == images[1..][i];
    }
  }

  /** `uniqueProjects`: each project some loaded image belongs to, once, and never the empty
      id; empty before the images have loaded. */
  function UniqueProjects(images: Option<seq<GalleryImage>>): (r: seq<Id>)
    ensures images.None? ==> r == []
    ensures NoDuplicates(r)
    ensures "" !in r
    ensures images.Some? ==> forall x :: x in r <==>
      x != "" && exists i :: 0 <= i < |images.value| && images.value[i].projectId == Some(x)
    ensures images.Some? ==> forall i, j :: 0 <= i < j < |r| ==>
      FirstIndex(LinkedProjectIds(images.value), r[i]) < FirstIndex(LinkedProjectIds(images.value), r[j])
  {
    match images
    case None => []
    case Some(gs) => Distinct(LinkedProjectIds(gs))
  }

  /** Choosing one of the project buttons shows a non-empty list: every image of that project. */
  lemma ProjectButtonShowsItsImages(images: seq<GalleryImage>, p: Id)
    requires p in UniqueProjects(Some(images))
    ensures FilteredImages(Some(images), Some(p)).value != []
  {
    var i :| 0 <= i < |images| && images[i].projectId == Some(p);
    assert images[i] in images;
    assert images[i] in FilteredImages(Some(images), Some(p)).value;
  }

  /** JavaScript's `%` by a positive divisor: the remainder of truncating division, which takes
      the dividend's sign; for a dividend that is not negative it is Dafny's own `%`. */
  function JsRemainder(a: int, n: int): (r: int)
    requires n > 0
    ensures a >= 0 ==> r == a % n && 0 <= r < n
    ensures a < 0 ==> -n < r <= 0 && r == -((-a) % n)
  {
    if a >= 0 then a % n else -((-a) % n)
  }

  /** `(i + 1) % n`: the next index, wrapping from the last to the first. */
  function NextIndex(i: nat, n: nat): (r: nat)
    requires i < n
    ensures r < n
    ensures r == if i == n - 1 then 0 else i + 1
  {
    WrapsOnce(i + 1, n);
    JsRemainder(i + 1, n)
  }

  /** `(i - 1 + n) % n`: the previous index, wrapping from the first to the last. */
  function PrevIndex(i: nat, n: nat): (r: nat)
    requires i < n
    ensures r < n
    ensures r == if i == 0 then n - 1 else i - 1
  {
    WrapsOnce(i - 1 + n, n);
    JsRemainder(i - 1 + n, n)
  }

  /** A number in `[0, 2n)` leaves the remainder it has after at most one subtraction of `n`. */
  lemma WrapsOnce(a: int, n: int)
    requires 0 <= a < 2 * n
    ensures a % n == if a < n then a else a - n
  {
  }

  /** `handleNextImage`: moves the lightbox on by one, and does nothing when no image is open or
      the list has not loaded. An open lightbox always shows an index of the filtered list. */
  function HandleNext(selectedIndex: Option<nat>, filtered: Option<seq<GalleryImage>>): (r: Option<nat>)
    requires selectedIndex.Some? && filtered.Some? ==> selectedIndex.value < |filtered.value|
    ensures selectedIndex.None? || filtered.None? ==> r == selectedIndex
    ensures selectedIndex.Some? && filtered.Some? ==> r == Some(NextIndex(selectedIndex.value, |filtered.value|))
  {
    if selectedIndex.Some? && filtered.Some? then Some(NextIndex(selectedIndex.value, |filtered.value|))
    else selectedIndex
  }

  /** `handlePrevImage`: moves the lightbox back by one, under the same conditions. */
  function HandlePrev(selectedIndex: Option<nat>, filtered: Option<seq<GalleryImage>>): (r: Option<nat>)
    requires selectedIndex.Some? && filtered.Some? ==> selectedIndex.value < |filtered.value|
    ensures selectedIndex.None? || filtered.None? ==> r == selectedIndex
    ensures selectedIndex.Some? && filtered.Some? ==> r == Some(PrevIndex(selectedIndex.value, |filtered.value|))
  {
    if selectedIndex.Some? && filtered.Some? then Some(PrevIndex(selectedIndex.value, |filtered.value|))
    else selectedIndex
  }

  /** Previous undoes next and next undoes previous, so the lightbox cycles through the list. */
  lemma NavigationRoundTrip(selectedIndex: Option<nat>, filtered: Option<seq<GalleryImage>>)
    requires selectedIndex.Some? && filtered.Some? ==> selectedIndex.value < |filtered.value|
    ensures HandlePrev(HandleNext(selectedIndex, filtered), filtered) == selectedIndex
    ensures HandleNext(HandlePrev(selectedIndex, filtered), filtered) == selectedIndex
  {
  }

  /** Next from the last image opens the first, previous from the first opens the last. */
  lemma NavigationWraps(filtered: seq<GalleryImage>)
    requires |filtered| >= 1
    ensures HandleNext(Some(|filtered| - 1), Some(filtered)) == Some(0)
    ensures HandlePrev(Some(0), Some(filtered)) == Some(|filtered| - 1)
  {
  }
}
