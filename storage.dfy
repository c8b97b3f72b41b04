/** `MemStorage`: the process-wide in-memory entity store. One JavaScript `Map` per entity kind,
    keyed by id, plus the singleton settings record. `randomUUID()` and `new Date()` are the
    `id` and `now` parameters of the operations that call them; `bcrypt.hash`'s random salt is
    the `salt` parameter. */
module Storage {
  import opened Options
  import opened Seqs
  import opened JsMap
  import opened Ordering
  import opened Schema
  import opened SeedData
  import Bcrypt

  /** The sort keys of the `getAll` operations: `(x.createdAt?.getTime() || 0)` and its
      siblings; a missing time stamp counts as 0. */
  function ProjectStamp(p: Project): int { p.createdAt.GetOr(0) }
  function GalleryImageStamp(g: GalleryImage): int { g.uploadedAt.GetOr(0) }
  function CMSPageStamp(c: CMSPage): int { c.createdAt.GetOr(0) }
  function ContactSubmissionStamp(c: ContactSubmission): int { c.submittedAt.GetOr(0) }

  /** Every record is stored under its own id. */
  ghost predicate KeyedById<T(!new)>(d: Dict<T>, idOf: T -> Id) {
    d.Valid() && forall k :: k in d.entries ==> idOf(d.entries[k]) == k
  }

  function ProjectId(p: Project): Id { p.id }
  function GalleryImageId(g: GalleryImage): Id { g.id }
  function CMSPageId(c: CMSPage): Id { c.id }
  function ContactSubmissionId(c: ContactSubmission): Id { c.id }
  function UserId(u: User): Id { u.id }

  /** The first position of `s` holding a user called `name`. */
  ghost predicate FirstWithUsername(s: seq<User>, name: string, i: int) {
    0 <= i < |s| && s[i].username == name && forall j :: 0 <= j < i ==> s[j].username != name
  }

  /** `users.find(u => u.username === name)`: an exact, case-sensitive comparison that returns
      the first match in map order. */
  function FindByUsername(s: seq<User>, name: string): (r: Option<User>)
    ensures r.None? <==> forall u :: u in s ==> u.username != name
    ensures r.Some? ==> exists i :: FirstWithUsername(s, name, i) && s[i] == r.value
  {
    if |s| == 0 then None
    else if s[0].username == name then
      assert FirstWithUsername(s, name, 0);
      Some(s[0])
    else
      var r := FindByUsername(s[1..], name);
      assert forall u :: u in s ==> u == s[0] || u in s[1..];
      assert r.Some? ==> exists i :: FirstWithUsername(s, name, i) && s[i] == r.value by {
        if r.Some? {
          var i :| FirstWithUsername(s[1..], name, i) && s[1..][i] == r.value;
          assert FirstWithUsername(s, name, i + 1);
        }
      }
      r
  }

  /** A later user with a name already taken is never found by name: since usernames are
      unique only in the schema, a second "admin" cannot log in. */
  lemma {:induction false} FindByUsernameIgnoresLaterDuplicate(s: seq<User>, u: User)
    requires FindByUsername(s, u.username).Some?
    ensures FindByUsername(s + [u], u.username) == FindByUsername(s, u.username)
  {
    if s[0].username != u.username {
      assert (s + [u])[1..] == s[1..] + [u];
      FindByUsernameIgnoresLaterDuplicate(s[1..], u);
    }
  }

  /** Looking a name up after appending a user: an earlier match still wins, and the new user
      is found only when nobody before it has that name. */
  lemma {:induction false} FindByUsernameAppend(s: seq<User>, u: User, name: string)
    ensures FindByUsername(s + [u], name) ==
      if FindByUsername(s, name).Some? then FindByUsername(s, name)
      else if u.username == name then Some(u) else None
  {
    if |s| == 0 {
      assert [u][1..] == [];
    } else if s[0].username != name {
      assert (s + [u])[1..] == s[1..] + [u];
      FindByUsernameAppend(s[1..], u, name);
    }
  }

  /** `FindByUsername` over a user map after a new user is added under a fresh id. */
  lemma LookupAfterAdd(d: Dict<User>, u: User)
    requires d.Valid() && u.id !in d.entries
    ensures forall name ::
              FindByUsername(d.Set(u.id, u).Values(), name) ==
              (if FindByUsername(d.Values(), name).Some? then FindByUsername(d.Values(), name)
               else if name == u.username then Some(u) else None)
  {
    ValuesAfterAdd(d, u.id, u);
    forall name ensures FindByUsername(d.Values() + [u], name) ==
      (if FindByUsername(d.Values(), name).Some? then FindByUsername(d.Values(), name)
       else if name == u.username then Some(u) else None)
    {
      FindByUsernameAppend(d.Values(), u, name);
    }
  }

  /** The settings after a series of `updateSettings` calls. */
  function SettingsAfter(s: Settings, updates: seq<InsertSettings>): Settings
    decreases |updates|
  {
    if |updates| == 0 then s
    else SettingsAfter(SettingsOf(updates[0], s.id), updates[1..])
  }

  /** However many times the settings are replaced, the id stays the one they started with,
      and the record holds exactly the fields of the last replacement. */
  lemma {:induction false} SettingsAfterKeepsId(s: Settings, updates: seq<InsertSettings>)
    ensures SettingsAfter(s, updates).id == s.id
    ensures |updates| > 0 ==> SettingsAfter(s, updates) == SettingsOf(updates[|updates| - 1], s.id)
    decreases |updates|
  {
    if |updates| > 0 {
      SettingsAfterKeepsId(SettingsOf(updates[0], s.id), updates[1..]);
      if |updates| > 1 {
        assert updates[1..][|updates[1..]| - 1] == updates[|updates| - 1];
      }
    }
  }

  class MemStorage {
    var projects: Dict<Project>
    var galleryImages: Dict<GalleryImage>
    var cmsPages: Dict<CMSPage>
    var settings: Settings
    var contactSubmissions: Dict<ContactSubmission>
    var users: Dict<User>

    /** Each map is a well-formed `Map` that stores every record under its own id. */
    ghost predicate Valid()
      reads this
    {
      KeyedById(projects, ProjectId) && KeyedById(galleryImages, GalleryImageId) &&
      KeyedById(cmsPages, CMSPageId) && KeyedById(contactSubmissions, ContactSubmissionId) &&
      KeyedById(users, UserId)
    }

    /** The constructor, after its (unawaited) admin seeding has completed. `uuids` are the
        values `randomUUID()` returns in call order (settings, five projects, six images, the
        administrator) and `stamps` the values of `new Date()` (five projects, six images, the
        administrator). */
    constructor (uuids: seq<Id>, stamps: seq<Time>, adminSalt: nat)
      requires |uuids| == 13 && NoDuplicates(uuids) && |stamps| == 12
      ensures Valid()
      ensures settings == InitialSettings(uuids[0])
      ensures projects.keys == uuids[1..6]
      ensures forall i :: 0 <= i < 5 ==>
        projects.entries[uuids[1 + i]] == ProjectOf(SampleProjects[i], uuids[1 + i], Some(stamps[i]))
      ensures galleryImages.keys == uuids[6..12]
      ensures forall i :: 0 <= i < 6 ==>
        galleryImages.entries[uuids[6 + i]]
          == GalleryImageOf(SampleImages(uuids[1..6])[i], uuids[6 + i], Some(stamps[5 + i]))
      ensures cmsPages == Dict.Empty() && contactSubmissions == Dict.Empty()
      ensures users.keys == [uuids[12]]
      ensures users.entries[uuids[12]] == AdminUser(uuids[12], adminSalt, stamps[11])
    {
      projects := Dict.Empty();
      galleryImages := Dict.Empty();
      cmsPages := Dict.Empty();
      contactSubmissions := Dict.Empty();
      users := Dict.Empty();
      settings := InitialSettings(uuids[0]);
      new;
      assert forall i, j :: 1 <= i < j < 6 ==> uuids[i] != uuids[j];
      assert forall i, j :: 6 <= i < j < 12 ==> uuids[i] != uuids[j];
      SeedSampleData(uuids[1..6], stamps[..5], uuids[6..12], stamps[5..11]);
      SeedAdminUser(uuids[12], adminSalt, stamps[11]);
    }

    /** `seedData()`: inserts the sample projects, then the sample images pointing at them. */
    method SeedSampleData(projectIds: seq<Id>, projectTimes: seq<Time>, imageIds: seq<Id>, imageTimes: seq<Time>)
      requires Valid() && projects == Dict.Empty() && galleryImages == Dict.Empty()
      requires |projectIds| == |projectTimes| == 5 && NoDuplicates(projectIds)
      requires |imageIds| == |imageTimes| == 6 && NoDuplicates(imageIds)
      modifies this`projects, this`galleryImages
      ensures Valid()
      ensures projects.keys == projectIds
      ensures forall i :: 0 <= i < 5 ==>
        projects.entries[projectIds[i]] == ProjectOf(SampleProjects[i], projectIds[i], Some(projectTimes[i]))
      ensures galleryImages.keys == imageIds
      ensures forall i :: 0 <= i < 6 ==>
        galleryImages.entries[imageIds[i]] == GalleryImageOf(SampleImages(projectIds)[i], imageIds[i], Some(imageTimes[i]))
    {
      SeedProjects(projectIds, projectTimes);
      SeedImages(SampleImages(projects.keys), imageIds, imageTimes);
    }

    /** The first loop of `seedData()`: one `projects.set` per sample project. */
    method SeedProjects(ids: seq<Id>, times: seq<Time>)
      requires KeyedById(projects, ProjectId) && projects == Dict.Empty()
      requires |ids| == |times| == 5 && NoDuplicates(ids)
      modifies this`projects
      ensures KeyedById(projects, ProjectId) && projects.keys == ids
      ensures forall i :: 0 <= i < 5 ==>
        projects.entries[ids[i]] == ProjectOf(SampleProjects[i], ids[i], Some(times[i]))
    {
      var samples := SampleProjects;
      var i := 0;
      while i < 5
        invariant 0 <= i <= 5
        invariant KeyedById(projects, ProjectId) && projects.keys == ids[..i]
        invariant forall j :: 0 <= j < i ==>
          projects.entries[ids[j]] == ProjectOf(samples[j], ids[j], Some(times[j]))
      {
        var id := ids[i];
        assert id !in projects.keys;
        projects := projects.Set(id, ProjectOf(samples[i], id, Some(times[i])));
        assert ids[..i + 1] == ids[..i] + [id];
        i := i + 1;
      }
      assert ids[..i] == ids;
    }

    /** The second loop of `seedData()`: one `galleryImages.set` per sample image. */
    method SeedImages(images: seq<InsertGalleryImage>, ids: seq<Id>, times: seq<Time>)
      requires KeyedById(galleryImages, GalleryImageId) && galleryImages == Dict.Empty()
      requires |images| == |ids| == |times| && NoDuplicates(ids)
      modifies this`galleryImages
      ensures KeyedById(galleryImages, GalleryImageId) && galleryImages.keys == ids
      ensures forall i :: 0 <= i < |ids| ==>
        galleryImages.entries[ids[i]] == GalleryImageOf(images[i], ids[i], Some(times[i]))
    {
      var i := 0;
      while i < |images|
        invariant 0 <= i <= |images|
        invariant KeyedById(galleryImages, GalleryImageId) && galleryImages.keys == ids[..i]
        invariant forall j :: 0 <= j < i ==>
          galleryImages.entries[ids[j]] == GalleryImageOf(images[j], ids[j], Some(times[j]))
      {
        var id := ids[i];
        assert id !in galleryImages.keys;
        galleryImages := galleryImages.Set(id, GalleryImageOf(images[i], id, Some(times[i])));
        assert ids[..i + 1] == ids[..i] + [id];
        i := i + 1;
      }
      assert ids[..i] == ids;
    }

    /** `seedAdminUser()`, once its `bcrypt.hash` has resolved. */
    method SeedAdminUser(adminId: Id, salt: nat, now: Time)
      requires Valid() && users == Dict.Empty()
      modifies this`users
      ensures Valid()
      ensures users.keys == [adminId] && users.entries[adminId] == AdminUser(adminId, salt, now)
    {
      users := users.Set(adminId, AdminUser(adminId, salt, now));
    }

    // ------------------------------------------------------------ projects

    /** `getAllProjects()`: every stored project once, newest first, ties in map order. */
    function GetAllProjects(): (r: seq<Project>)
      reads this
      requires Valid()
      ensures |r| == |projects.entries|
      ensures forall p :: p in r <==> p in projects.entries.Values
      ensures multiset(r) == multiset(projects.Values())
      ensures NewestFirstOrder(r, ProjectStamp)
      ensures forall t :: StampedAt(r, ProjectStamp, t) == StampedAt(projects.Values(), ProjectStamp, t)
    {
      var r := NewestFirst(projects.Values(), ProjectStamp);
      NewestFirstStableAll(projects.Values(), ProjectStamp);
      MultisetSameMembers(r, projects.Values());
      r
    }

    /** `getProject(id)`. */
    function GetProject(id: Id): (r: Option<Project>)
      reads this
      requires Valid()
      ensures r.Some? <==> id in projects.entries
      ensures r.Some? ==> r.value == projects.entries[id] && r.value.id == id
    {
      projects.Get(id)
    }

    /** `createProject(insert)`: the insert fields plus a fresh id and the creation time. */
    method CreateProject(ins: InsertProject, id: Id, now: Time) returns (p: Project)
      requires Valid()
      modifies this`projects
      ensures Valid()
      ensures p == ProjectOf(ins, id, Some(now))
      ensures projects == old(projects).Set(id, p)
      ensures GetProject(id) == Some(p)
      ensures forall k :: k != id ==> GetProject(k) == old(GetProject(k))
    {
      p := ProjectOf(ins, id, Some(now));
      projects := projects.Set(id, p);
    }

    /** `updateProject(id, insert)`: replaces every field but `id` and `createdAt`, or returns
        undefined and changes nothing when there is no such project. */
    method UpdateProject(id: Id, ins: InsertProject) returns (r: Option<Project>)
      requires Valid()
      modifies this`projects
      ensures Valid()
      ensures old(GetProject(id)).None? ==> r.None? && projects == old(projects)
      ensures old(GetProject(id)).Some? ==>
        r == Some(ProjectOf(ins, id, old(projects.entries[id].createdAt))) &&
        projects == old(projects).Set(id, r.value)
      ensures forall k :: k != id ==> GetProject(k) == old(GetProject(k))
    {
      var existing := projects.Get(id);
      if existing.None? { return None; }
      var updated := ProjectOf(ins, id, existing.value.createdAt);
      projects := projects.Set(id, updated);
      r := Some(updated);
    }

    /** `deleteProject(id)`: whether the id was present; afterwards it is not. */
    method DeleteProject(id: Id) returns (existed: bool)
      requires Valid()
      modifies this`projects
      ensures Valid()
      ensures existed == old(GetProject(id)).Some?
      ensures projects == old(projects).Delete(id)
      ensures GetProject(id) == None
      ensures forall k :: k != id ==> GetProject(k) == old(GetProject(k))
    {
      existed := projects.Has(id);
      projects := projects.Delete(id);
    }

    // ------------------------------------------------------------ gallery images

    /** `getAllGalleryImages()`: every stored image once, newest upload first. */
    function GetAllGalleryImages(): (r: seq<GalleryImage>)
      reads this
      requires Valid()
      ensures |r| == |galleryImages.entries|
      ensures forall g :: g in r <==> g in galleryImages.entries.Values
      ensures multiset(r) == multiset(galleryImages.Values())
      ensures NewestFirstOrder(r, GalleryImageStamp)
      ensures forall t :: StampedAt(r, GalleryImageStamp, t) == StampedAt(galleryImages.Values(), GalleryImageStamp, t)
    {
      var r := NewestFirst(galleryImages.Values(), GalleryImageStamp);
      NewestFirstStableAll(galleryImages.Values(), GalleryImageStamp);
      MultisetSameMembers(r, galleryImages.Values());
      r
    }

    /** `getGalleryImage(id)`. */
    function GetGalleryImage(id: Id): (r: Option<GalleryImage>)
      reads this
      requires Valid()
      ensures r.Some? <==> id in galleryImages.entries
      ensures r.Some? ==> r.value == galleryImages.entries[id] && r.value.id == id
    {
      galleryImages.Get(id)
    }

    /** `createGalleryImage(insert)`. */
    method CreateGalleryImage(ins: InsertGalleryImage, id: Id, now: Time) returns (g: GalleryImage)
      requires Valid()
      modifies this`galleryImages
      ensures Valid()
      ensures g == GalleryImageOf(ins, id, Some(now))
      ensures galleryImages == old(galleryImages).Set(id, g)
      ensures GetGalleryImage(id) == Some(g)
      ensures forall k :: k != id ==> GetGalleryImage(k) == old(GetGalleryImage(k))
    {
      g := GalleryImageOf(ins, id, Some(now));
      galleryImages := galleryImages.Set(id, g);
    }

    /** `deleteGalleryImage(id)`. */
    method DeleteGalleryImage(id: Id) returns (existed: bool)
      requires Valid()
      modifies this`galleryImages
      ensures Valid()
      ensures existed == old(GetGalleryImage(id)).Some?
      ensures galleryImages == old(galleryImages).Delete(id)
      ensures GetGalleryImage(id) == None
      ensures forall k :: k != id ==> GetGalleryImage(k) == old(GetGalleryImage(k))
    {
      existed := galleryImages.Has(id);
      galleryImages := galleryImages.Delete(id);
    }

    // ------------------------------------------------------------ CMS pages

    /** `getAllCMSPages()`: every stored page once, newest first. */
    function GetAllCMSPages(): (r: seq<CMSPage>)
      reads this
      requires Valid()
      ensures |r| == |cmsPages.entries|
      ensures forall c :: c in r <==> c in cmsPages.entries.Values
      ensures multiset(r) == multiset(cmsPages.Values())
      ensures NewestFirstOrder(r, CMSPageStamp)
      ensures forall t :: StampedAt(r, CMSPageStamp, t) == StampedAt(cmsPages.Values(), CMSPageStamp, t)
    {
      var r := NewestFirst(cmsPages.Values(), CMSPageStamp);
      NewestFirstStableAll(cmsPages.Values(), CMSPageStamp);
      MultisetSameMembers(r, cmsPages.Values());
      r
    }

    /** `getCMSPage(id)`. */
    function GetCMSPage(id: Id): (r: Option<CMSPage>)
      reads this
      requires Valid()
      ensures r.Some? <==> id in cmsPages.entries
      ensures r.Some? ==> r.value == cmsPages.entries[id] && r.value.id == id
    {
      cmsPages.Get(id)
    }

    /** `createCMSPage(insert)`: created and updated at the same instant. */
    method CreateCMSPage(ins: InsertCMSPage, id: Id, now: Time) returns (c: CMSPage)
      requires Valid()
      modifies this`cmsPages
      ensures Valid()
      ensures c == CMSPageOf(ins, id, Some(now), Some(now))
      ensures c.createdAt == c.updatedAt
      ensures cmsPages == old(cmsPages).Set(id, c)
      ensures GetCMSPage(id) == Some(c)
      ensures forall k :: k != id ==> GetCMSPage(k) == old(GetCMSPage(k))
    {
      c := CMSPageOf(ins, id, Some(now), Some(now));
      cmsPages := cmsPages.Set(id, c);
    }

    /** `updateCMSPage(id, insert)`: keeps `id` and `createdAt`, stamps a new `updatedAt`. */
    method UpdateCMSPage(id: Id, ins: InsertCMSPage, now: Time) returns (r: Option<CMSPage>)
      requires Valid()
      modifies this`cmsPages
      ensures Valid()
      ensures old(GetCMSPage(id)).None? ==> r.None? && cmsPages == old(cmsPages)
      ensures old(GetCMSPage(id)).Some? ==>
        r == Some(CMSPageOf(ins, id, old(cmsPages.entries[id].createdAt), Some(now))) &&
        cmsPages == old(cmsPages).Set(id, r.value)
      ensures forall k :: k != id ==> GetCMSPage(k) == old(GetCMSPage(k))
    {
      var existing := cmsPages.Get(id);
      if existing.None? { return None; }
      var updated := CMSPageOf(ins, id, existing.value.createdAt, Some(now));
      cmsPages := cmsPages.Set(id, updated);
      r := Some(updated);
    }

    /** `deleteCMSPage(id)`. */
    method DeleteCMSPage(id: Id) returns (existed: bool)
      requires Valid()
      modifies this`cmsPages
      ensures Valid()
      ensures existed == old(GetCMSPage(id)).Some?
      ensures cmsPages == old(cmsPages).Delete(id)
      ensures GetCMSPage(id) == None
      ensures forall k :: k != id ==> GetCMSPage(k) == old(GetCMSPage(k))
    {
      existed := cmsPages.Has(id);
      cmsPages := cmsPages.Delete(id);
    }

    // ------------------------------------------------------------ settings

    /** `getSettings()`. */
    function GetSettings(): (s: Settings)
      reads this
      ensures s == settings
    {
      settings
    }

    /** `updateSettings(insert)`: replaces every field, keeps the singleton's id. */
    method UpdateSettings(ins: InsertSettings) returns (s: Settings)
      modifies this`settings
      ensures s == SettingsOf(ins, old(settings).id)
      ensures settings == s && s.id == old(settings).id
      ensures settings == SettingsAfter(old(settings), [ins])
    {
      settings := SettingsOf(ins, settings.id);
      s := settings;
    }

    // ------------------------------------------------------------ contact submissions

    /** `createContactSubmission(insert)`. */
    method CreateContactSubmission(ins: InsertContactSubmission, id: Id, now: Time) returns (c: ContactSubmission)
      requires Valid()
      modifies this`contactSubmissions
      ensures Valid()
      ensures c == ContactSubmissionOf(ins, id, Some(now))
      ensures contactSubmissions == old(contactSubmissions).Set(id, c)
    {
      c := ContactSubmissionOf(ins, id, Some(now));
      contactSubmissions := contactSubmissions.Set(id, c);
    }

    /** `getAllContactSubmissions()`: every submission once, newest first. */
    function GetAllContactSubmissions(): (r: seq<ContactSubmission>)
      reads this
      requires Valid()
      ensures |r| == |contactSubmissions.entries|
      ensures forall c :: c in r <==> c in contactSubmissions.entries.Values
      ensures multiset(r) == multiset(contactSubmissions.Values())
      ensures NewestFirstOrder(r, ContactSubmissionStamp)
      ensures forall t :: StampedAt(r, ContactSubmissionStamp, t)
                       == StampedAt(contactSubmissions.Values(), ContactSubmissionStamp, t)
    {
      var r := NewestFirst(contactSubmissions.Values(), ContactSubmissionStamp);
      NewestFirstStableAll(contactSubmissions.Values(), ContactSubmissionStamp);
      MultisetSameMembers(r, contactSubmissions.Values());
      r
    }

    // ------------------------------------------------------------ users

    /** `getUserByUsername(name)`: the first user in map order with exactly that name. */
    function GetUserByUsername(name: string): (r: Option<User>)
      reads this
      requires Valid()
      ensures r.None? <==> forall k :: k in users.entries ==> users.entries[k].username != name
      ensures r.Some? ==> r.value.username == name && r.value.id in users.entries &&
                          users.entries[r.value.id] == r.value
      ensures r.Some? ==> exists i :: FirstWithUsername(users.Values(), name, i) && users.Values()[i] == r.value
    {
      var r := FindByUsername(users.Values(), name);
      assert r.Some? ==> r.value in users.Values();
      assert forall k :: k in users.entries ==> users.entries[k] in users.Values();
      r
    }

    /** `getUserById(id)`. */
    function GetUserById(id: Id): (r: Option<User>)
      reads this
      requires Valid()
      ensures r.Some? <==> id in users.entries
      ensures r.Some? ==> r.value == users.entries[id] && r.value.id == id
    {
      users.Get(id)
    }

    /** `createUser(insert)`: stores the digest of the password, never the password itself. */
    method CreateUser(ins: InsertUser, id: Id, salt: nat, now: Time) returns (u: User)
      requires Valid()
      modifies this`users
      ensures Valid()
      ensures u == User(id, ins.username, Bcrypt.Hash(ins.password, salt), ins.email, ins.role, Some(now))
      ensures users == old(users).Set(id, u)
      ensures forall p :: VerifyPassword(id, p) <==> p == ins.password
      ensures id !in old(users.entries) ==>
              (forall name ::
                 GetUserByUsername(name) ==
                 (if old(GetUserByUsername(name)).Some? then old(GetUserByUsername(name))
                  else if name == ins.username then Some(u) else None))
    {
      u := User(id, ins.username, Bcrypt.Hash(ins.password, salt), ins.email, ins.role, Some(now));
      ghost var before := users;
      users := users.Set(id, u);
      if id !in before.entries {
        LookupAfterAdd(before, u);
      }
    }

    /** `verifyPassword(userId, password)`: false for an unknown id, otherwise what
        `bcrypt.compare` says about the stored digest. */
    function VerifyPassword(userId: Id, password: string): (r: bool)
      reads this
      requires Valid()
      ensures r <==> userId in users.entries && Bcrypt.Compare(password, users.entries[userId].password)
    {
      match GetUserById(userId)
      case None => false
      case Some(u) => Bcrypt.Compare(password, u.password)
    }
  }

  /** Two sequences with the same multiset have the same members. */
  lemma MultisetSameMembers<T>(a: seq<T>, b: seq<T>)
    requires multiset(a) == multiset(b)
    ensures forall x :: x in a <==> x in b
  {
    forall x ensures x in a <==> x in b {
      assert x in a <==> x in multiset(a);
      assert x in b <==> x in multiset(b);
    }
  }
}
