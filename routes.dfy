/** The HTTP routes of server/routes.ts. Each request carries its session; a route that only
    reads is a function of the session and the store, a route that writes is a method that
    calls the store's mutators. */
module Routes {
  import opened Options
  import opened Schema
  import opened Http
  import opened Storage
  import opened Server
  import Bcrypt
  import SeedData

  /** A session either has no principal or records the id of the user who logged in. */
  datatype Session = Anonymous | Authenticated(userId: Id)

  /** `req.user`: the session's id loaded back through `deserializeUser`. */
  function CurrentUser(store: MemStorage, session: Session): (r: Option<User>)
    reads store
    requires store.Valid()
    ensures session.Anonymous? ==> r.None?
    ensures session.Authenticated? ==> r == DeserializeUser(store, session.userId)
  {
    match session
    case Anonymous => None
    case Authenticated(id) => DeserializeUser(store, id)
  }

  /** `req.isAuthenticated()`. */
  predicate IsAuthenticated(store: MemStorage, session: Session)
    reads store
    requires store.Valid()
  {
    CurrentUser(store, session).Some?
  }

  const Unauthorized: Response := Response(401, ErrorBody("Unauthorized"))

  /** `requireAuth`: lets an authenticated request through (`None`), answers any other with
      401 before the handler runs. */
  function RequireAuth(store: MemStorage, session: Session): (r: Option<Response>)
    reads store
    requires store.Valid()
    ensures r.None? <==> session.Authenticated? && session.userId in store.users.entries
    ensures r.Some? ==> r.value == Unauthorized
  {
    if IsAuthenticated(store, session) then None else Some(Unauthorized)
  }

  // ------------------------------------------------------------ authentication routes

  /** A route's reply together with the session it leaves behind. */
  datatype Outcome = Outcome(response: Response, session: Session)

  const InvalidCredentials: string := "Invalid credentials"

  /** `info?.message || "Invalid credentials"`. */
  function FailureMessage(info: string): (r: string)
    ensures r != ""
    ensures info != "" ==> r == info
  {
    if info != "" then info else InvalidCredentials
  }

  /** `POST /api/auth/login`. `loginError` is what the session layer reports to `req.login`'s
      callback; an error goes to the error handler and the session keeps no new principal. */
  function Login(store: MemStorage, session: Session, body: LoginBody, loginError: Option<HttpError>): (r: Outcome)
    reads store
    requires store.Valid()
    ensures ParseLogin(body).None? ==>
      r == Outcome(Response(400, ErrorBody(InvalidCredentials)), session)
    ensures ParseLogin(body).Some? ==>
      var c := ParseLogin(body).value;
      match Authenticate(store, c.username, c.password)
      case AuthFailure(m) => r == Outcome(Response(401, ErrorBody(FailureMessage(m))), session)
      case AuthSuccess(u) =>
        if loginError.Some? then r == Outcome(ErrorResponse(loginError.value), session)
        else r == Outcome(Response(200, UserBody(Some(ToSafeUser(u)))), Authenticated(SerializeUser(u)))
  {
    match ParseLogin(body)
    case None => Outcome(Response(400, ErrorBody(InvalidCredentials)), session)
    case Some(c) =>
      match Authenticate(store, c.username, c.password)
      case AuthFailure(m) => Outcome(Response(401, ErrorBody(FailureMessage(m))), session)
      case AuthSuccess(u) =>
        if loginError.Some? then Outcome(ErrorResponse(loginError.value), session)
        else Outcome(Response(200, UserBody(Some(ToSafeUser(u)))), Authenticated(SerializeUser(u)))
  }

  /** `POST /api/auth/logout`: the principal is dropped; the reply is 500 only when the
      session layer reports an error. */
  function Logout(session: Session, logoutFailed: bool): (r: Outcome)
    ensures r.session == Anonymous
    ensures logoutFailed <==> r.response.status == 500
    ensures logoutFailed ==> r.response.body == ErrorBody("Failed to logout")
    ensures !logoutFailed ==> r.response == Response(200, MessageBody("Logged out successfully"))
  {
    if logoutFailed then Outcome(Response(500, ErrorBody("Failed to logout")), Anonymous)
    else Outcome(Response(200, MessageBody("Logged out successfully")), Anonymous)
  }

  /** `GET /api/auth/user`: the safe projection of the current user, or `user: null`. */
  function AuthUser(store: MemStorage, session: Session): (r: Response)
    reads store
    requires store.Valid()
    ensures r.status == 200 && r.body.UserBody?
    ensures r.body.user.Some? <==> IsAuthenticated(store, session)
    ensures r.body.user.Some? ==> r.body.user.value == ToSafeUser(CurrentUser(store, session).value)
  {
    match CurrentUser(store, session)
    case None => Response(200, UserBody(None))
    case Some(u) => Response(200, UserBody(Some(ToSafeUser(u))))
  }

  /** After a successful login, `/api/auth/user` on the new session answers exactly what the
      login answered. */
  lemma LoginThenAuthUser(store: MemStorage, session: Session, body: LoginBody)
    requires store.Valid()
    requires Login(store, session, body, None).response.status == 200
    ensures AuthUser(store, Login(store, session, body, None).session) == Login(store, session, body, None).response
  {
    var c := ParseLogin(body).value;
    var u := Authenticate(store, c.username, c.password).user;
    AuthenticateSuccess(store, c.username, c.password);
    SessionRoundTrip(store, u);
  }

  /** After a logout, whatever came before, `/api/auth/user` answers `user: null`. */
  lemma LogoutThenAuthUser(store: MemStorage, session: Session, logoutFailed: bool)
    requires store.Valid()
    ensures AuthUser(store, Logout(session, logoutFailed).session) == Response(200, UserBody(None))
  {
  }

  /** The two strategy failures reach the client with different messages: an unknown name
      yields "Incorrect username", a known name with a wrong password "Incorrect password". */
  lemma LoginFailureMessages(store: MemStorage, session: Session, username: string, password: string)
    requires store.Valid() && |username| >= 1 && |password| >= 1
    ensures store.GetUserByUsername(username).None? ==>
      Login(store, session, LoginBody(Some(username), Some(password)), None)
        == Outcome(Response(401, ErrorBody(IncorrectUsername)), session)
    ensures store.GetUserByUsername(username).Some? &&
            !Bcrypt.Compare(password, store.GetUserByUsername(username).value.password) ==>
      Login(store, session, LoginBody(Some(username), Some(password)), None)
        == Outcome(Response(401, ErrorBody(IncorrectPassword)), session)
  {
  }

  /** On the freshly seeded store, whose only user is the administrator, a login succeeds for
      exactly the name "admin" with the password "admin123"; any other name is an unknown
      username and any other password for "admin" a wrong password. */
  lemma SeededAdminLogin(store: MemStorage, session: Session, adminId: Id, salt: nat, createdAt: Time,
                         username: string, password: string)
    requires store.Valid() && store.users.keys == [adminId]
    requires store.users.entries[adminId] == SeedData.AdminUser(adminId, salt, createdAt)
    requires |username| >= 1 && |password| >= 1
    ensures username == "admin" && password == "admin123" ==>
      Login(store, session, LoginBody(Some(username), Some(password)), None)
        == Outcome(Response(200, UserBody(Some(ToSafeUser(SeedData.AdminUser(adminId, salt, createdAt))))),
                   Authenticated(adminId))
    ensures username == "admin" && password != "admin123" ==>
      Login(store, session, LoginBody(Some(username), Some(password)), None)
        == Outcome(Response(401, ErrorBody(IncorrectPassword)), session)
    ensures username != "admin" ==>
      Login(store, session, LoginBody(Some(username), Some(password)), None)
        == Outcome(Response(401, ErrorBody(IncorrectUsername)), session)
  {
    var admin := SeedData.AdminUser(adminId, salt, createdAt);
    assert store.users.entries.Keys == {adminId};
    Bcrypt.CompareHash("admin123", password, salt);
    if username == "admin" {
      assert store.GetUserByUsername(username) == Some(admin);
    }
  }

  // ------------------------------------------------------------ read routes

  /** `GET /api/projects` (public). */
  function GetProjectsRoute(store: MemStorage, session: Session): (r: Response)
    reads store
    requires store.Valid()
    ensures r == Response(200, ProjectsBody(store.GetAllProjects()))
  {
    Response(200, ProjectsBody(store.GetAllProjects()))
  }

  /** `GET /api/projects/:id` (public). */
  function GetProjectRoute(store: MemStorage, session: Session, id: Id): (r: Response)
    reads store
    requires store.Valid()
    ensures r.status == 404 <==> id !in store.projects.entries
    ensures r.status == 404 ==> r.body == ErrorBody("Project not found")
    ensures r.status != 404 ==> r == Response(200, ProjectBody(store.projects.entries[id]))
  {
    match store.GetProject(id)
    case None => Response(404, ErrorBody("Project not found"))
    case Some(p) => Response(200, ProjectBody(p))
  }

  /** `GET /api/gallery` (public). */
  function GetGalleryRoute(store: MemStorage, session: Session): (r: Response)
    reads store
    requires store.Valid()
    ensures r == Response(200, ImagesBody(store.GetAllGalleryImages()))
  {
    Response(200, ImagesBody(store.GetAllGalleryImages()))
  }

  /** `GET /api/gallery/:id` (public). */
  function GetGalleryImageRoute(store: MemStorage, session: Session, id: Id): (r: Response)
    reads store
    requires store.Valid()
    ensures r.status == 404 <==> id !in store.galleryImages.entries
    ensures r.status == 404 ==> r.body == ErrorBody("Image not found")
    ensures r.status != 404 ==> r == Response(200, ImageBody(store.galleryImages.entries[id]))
  {
    match store.GetGalleryImage(id)
    case None => Response(404, ErrorBody("Image not found"))
    case Some(g) => Response(200, ImageBody(g))
  }

  /** `GET /api/cms` (authenticated). */
  function GetCMSPagesRoute(store: MemStorage, session: Session): (r: Response)
    reads store
    requires store.Valid()
    ensures !IsAuthenticated(store, session) ==> r == Unauthorized
    ensures IsAuthenticated(store, session) ==> r == Response(200, PagesBody(store.GetAllCMSPages()))
  {
    match RequireAuth(store, session)
    case Some(reject) => reject
    case None => Response(200, PagesBody(store.GetAllCMSPages()))
  }

  /** `GET /api/cms/:id` (authenticated). */
  function GetCMSPageRoute(store: MemStorage, session: Session, id: Id): (r: Response)
    reads store
    requires store.Valid()
    ensures !IsAuthenticated(store, session) ==> r == Unauthorized
    ensures IsAuthenticated(store, session) && id !in store.cmsPages.entries ==>
      r == Response(404, ErrorBody("Page not found"))
    ensures IsAuthenticated(store, session) && id in store.cmsPages.entries ==>
      r == Response(200, PageBody(store.cmsPages.entries[id]))
  {
    match RequireAuth(store, session)
    case Some(reject) => reject
    case None =>
      match store.GetCMSPage(id)
      case None => Response(404, ErrorBody("Page not found"))
      case Some(c) => Response(200, PageBody(c))
  }

  /** `GET /api/settings` (authenticated). */
  function GetSettingsRoute(store: MemStorage, session: Session): (r: Response)
    reads store
    requires store.Valid()
    ensures !IsAuthenticated(store, session) ==> r == Unauthorized
    ensures IsAuthenticated(store, session) ==> r == Response(200, SettingsBody(store.settings))
  {
    match RequireAuth(store, session)
    case Some(reject) => reject
    case None => Response(200, SettingsBody(store.GetSettings()))
  }

  /** `GET /api/contact`: public, although it lists every submission. */
  function GetContactRoute(store: MemStorage, session: Session): (r: Response)
    reads store
    requires store.Valid()
    ensures r == Response(200, SubmissionsBody(store.GetAllContactSubmissions()))
  {
    Response(200, SubmissionsBody(store.GetAllContactSubmissions()))
  }

  /** Which read routes are public: the project, gallery and contact lists answer the same to
      every session, while the CMS and settings reads turn an anonymous session away. */
  lemma ReadRouteAccess(store: MemStorage, s1: Session, s2: Session, id: Id)
    requires store.Valid()
    ensures GetProjectsRoute(store, s1) == GetProjectsRoute(store, s2)
    ensures GetProjectRoute(store, s1, id) == GetProjectRoute(store, s2, id)
    ensures GetGalleryRoute(store, s1) == GetGalleryRoute(store, s2)
    ensures GetGalleryImageRoute(store, s1, id) == GetGalleryImageRoute(store, s2, id)
    ensures GetContactRoute(store, s1) == GetContactRoute(store, s2)
    ensures GetCMSPagesRoute(store, Anonymous) == Unauthorized
    ensures GetCMSPageRoute(store, Anonymous, id) == Unauthorized
    ensures GetSettingsRoute(store, Anonymous) == Unauthorized
  {
  }

  // ------------------------------------------------------------ write routes

  /** `POST /api/projects` (authenticated). */
  method CreateProjectRoute(store: MemStorage, session: Session, body: Parse<InsertProject>, id: Id, now: Time)
    returns (resp: Response)
    requires store.Valid()
    modifies store`projects
    ensures store.Valid()
    ensures !IsAuthenticated(store, session) ==> resp == Unauthorized && unchanged(store)
    ensures IsAuthenticated(store, session) && body.ParseFailed? ==>
      resp == Response(400, ErrorBody("Invalid project data")) && unchanged(store)
    ensures IsAuthenticated(store, session) && body.ParseOk? ==>
      resp == Response(201, ProjectBody(ProjectOf(body.data, id, Some(now)))) &&
      store.projects == old(store.projects).Set(id, ProjectOf(body.data, id, Some(now)))
  {
    var gate := RequireAuth(store, session);
    if gate.Some? { return gate.value; }
    if body.ParseFailed? { return Response(400, ErrorBody("Invalid project data")); }
    var project := store.CreateProject(body.data, id, now);
    resp := Response(201, ProjectBody(project));
  }

  /** `PATCH /api/projects/:id` (authenticated). */
  method UpdateProjectRoute(store: MemStorage, session: Session, id: Id, body: Parse<InsertProject>)
    returns (resp: Response)
    requires store.Valid()
    modifies store`projects
    ensures store.Valid()
    ensures !IsAuthenticated(store, session) ==> resp == Unauthorized && unchanged(store)
    ensures IsAuthenticated(store, session) && body.ParseFailed? ==>
      resp == Response(400, ErrorBody("Invalid project data")) && unchanged(store)
    ensures IsAuthenticated(store, session) && body.ParseOk? && old(store.GetProject(id)).None? ==>
      resp == Response(404, ErrorBody("Project not found")) && unchanged(store)
    ensures IsAuthenticated(store, session) && body.ParseOk? && old(store.GetProject(id)).Some? ==>
      var updated := ProjectOf(body.data, id, old(store.projects.entries[id].createdAt));
      resp == Response(200, ProjectBody(updated)) && store.projects == old(store.projects).Set(id, updated)
  {
    var gate := RequireAuth(store, session);
    if gate.Some? { return gate.value; }
    if body.ParseFailed? { return Response(400, ErrorBody("Invalid project data")); }
    var project := store.UpdateProject(id, body.data);
    if project.None? { return Response(404, ErrorBody("Project not found")); }
    resp := Response(200, ProjectBody(project.value));
  }

  /** `DELETE /api/projects/:id` (authenticated). */
  method DeleteProjectRoute(store: MemStorage, session: Session, id: Id) returns (resp: Response)
    requires store.Valid()
    modifies store`projects
    ensures store.Valid()
    ensures !IsAuthenticated(store, session) ==> resp == Unauthorized && unchanged(store)
    ensures IsAuthenticated(store, session) && old(store.GetProject(id)).None? ==>
      resp == Response(404, ErrorBody("Project not found")) && unchanged(store)
    ensures IsAuthenticated(store, session) && old(store.GetProject(id)).Some? ==>
      resp == Response(204, NoBody) && store.projects == old(store.projects).Delete(id)
  {
    var gate := RequireAuth(store, session);
    if gate.Some? { return gate.value; }
    var deleted := store.DeleteProject(id);
    if !deleted { return Response(404, ErrorBody("Project not found")); }
    resp := Response(204, NoBody);
  }

  /** `POST /api/gallery` (authenticated). */
  method CreateGalleryImageRoute(store: MemStorage, session: Session, body: Parse<InsertGalleryImage>, id: Id, now: Time)
    returns (resp: Response)
    requires store.Valid()
    modifies store`galleryImages
    ensures store.Valid()
    ensures !IsAuthenticated(store, session) ==> resp == Unauthorized && unchanged(store)
    ensures IsAuthenticated(store, session) && body.ParseFailed? ==>
      resp == Response(400, ErrorBody("Invalid image data")) && unchanged(store)
    ensures IsAuthenticated(store, session) && body.ParseOk? ==>
      resp == Response(201, ImageBody(GalleryImageOf(body.data, id, Some(now)))) &&
      store.galleryImages == old(store.galleryImages).Set(id, GalleryImageOf(body.data, id, Some(now)))
  {
    var gate := RequireAuth(store, session);
    if gate.Some? { return gate.value; }
    if body.ParseFailed? { return Response(400, ErrorBody("Invalid image data")); }
    var image := store.CreateGalleryImage(body.data, id, now);
    resp := Response(201, ImageBody(image));
  }

  /** `DELETE /api/gallery/:id` (authenticated). */
  method DeleteGalleryImageRoute(store: MemStorage, session: Session, id: Id) returns (resp: Response)
    requires store.Valid()
    modifies store`galleryImages
    ensures store.Valid()
    ensures !IsAuthenticated(store, session) ==> resp == Unauthorized && unchanged(store)
    ensures IsAuthenticated(store, session) && old(store.GetGalleryImage(id)).None? ==>
      resp == Response(404, ErrorBody("Image not found")) && unchanged(store)
    ensures IsAuthenticated(store, session) && old(store.GetGalleryImage(id)).Some? ==>
      resp == Response(204, NoBody) && store.galleryImages == old(store.galleryImages).Delete(id)
  {
    var gate := RequireAuth(store, session);
    if gate.Some? { return gate.value; }
    var deleted := store.DeleteGalleryImage(id);
    if !deleted { return Response(404, ErrorBody("Image not found")); }
    resp := Response(204, NoBody);
  }

  /** `POST /api/cms` (authenticated). */
  method CreateCMSPageRoute(store: MemStorage, session: Session, body: Parse<InsertCMSPage>, id: Id, now: Time)
    returns (resp: Response)
    requires store.Valid()
    modifies store`cmsPages
    ensures store.Valid()
    ensures !IsAuthenticated(store, session) ==> resp == Unauthorized && unchanged(store)
    ensures IsAuthenticated(store, session) && body.ParseFailed? ==>
      resp == Response(400, ErrorBody("Invalid page data")) && unchanged(store)
    ensures IsAuthenticated(store, session) && body.ParseOk? ==>
      resp == Response(201, PageBody(CMSPageOf(body.data, id, Some(now), Some(now)))) &&
      store.cmsPages == old(store.cmsPages).Set(id, CMSPageOf(body.data, id, Some(now), Some(now)))
  {
    var gate := RequireAuth(store, session);
    if gate.Some? { return gate.value; }
    if body.ParseFailed? { return Response(400, ErrorBody("Invalid page data")); }
    var page := store.CreateCMSPage(body.data, id, now);
    resp := Response(201, PageBody(page));
  }

  /** `PATCH /api/cms/:id` (authenticated). */
  method UpdateCMSPageRoute(store: MemStorage, session: Session, id: Id, body: Parse<InsertCMSPage>, now: Time)
    returns (resp: Response)
    requires store.Valid()
    modifies store`cmsPages
    ensures store.Valid()
    ensures !IsAuthenticated(store, session) ==> resp == Unauthorized && unchanged(store)
    ensures IsAuthenticated(store, session) && body.ParseFailed? ==>
      resp == Response(400, ErrorBody("Invalid page data")) && unchanged(store)
    ensures IsAuthenticated(store, session) && body.ParseOk? && old(store.GetCMSPage(id)).None? ==>
      resp == Response(404, ErrorBody("Page not found")) && unchanged(store)
    ensures IsAuthenticated(store, session) && body.ParseOk? && old(store.GetCMSPage(id)).Some? ==>
      var updated := CMSPageOf(body.data, id, old(store.cmsPages.entries[id].createdAt), Some(now));
      resp == Response(200, PageBody(updated)) && store.cmsPages == old(store.cmsPages).Set(id, updated)
  {
    var gate := RequireAuth(store, session);
    if gate.Some? { return gate.value; }
    if body.ParseFailed? { return Response(400, ErrorBody("Invalid page data")); }
    var page := store.UpdateCMSPage(id, body.data, now);
    if page.None? { return Response(404, ErrorBody("Page not found")); }
    resp := Response(200, PageBody(page.value));
  }

  /** `DELETE /api/cms/:id` (authenticated). */
  method DeleteCMSPageRoute(store: MemStorage, session: Session, id: Id) returns (resp: Response)
    requires store.Valid()
    modifies store`cmsPages
    ensures store.Valid()
    ensures !IsAuthenticated(store, session) ==> resp == Unauthorized && unchanged(store)
    ensures IsAuthenticated(store, session) && old(store.GetCMSPage(id)).None? ==>
      resp == Response(404, ErrorBody("Page not found")) && unchanged(store)
    ensures IsAuthenticated(store, session) && old(store.GetCMSPage(id)).Some? ==>
      resp == Response(204, NoBody) && store.cmsPages == old(store.cmsPages).Delete(id)
  {
    var gate := RequireAuth(store, session);
    if gate.Some? { return gate.value; }
    var deleted := store.DeleteCMSPage(id);
    if !deleted { return Response(404, ErrorBody("Page not found")); }
    resp := Response(204, NoBody);
  }

  /** `PATCH /api/settings` (authenticated). */
  method UpdateSettingsRoute(store: MemStorage, session: Session, body: Parse<InsertSettings>)
    returns (resp: Response)
    requires store.Valid()
    modifies store`settings
    ensures store.Valid()
    ensures !IsAuthenticated(store, session) ==> resp == Unauthorized && unchanged(store)
    ensures IsAuthenticated(store, session) && body.ParseFailed? ==>
      resp == Response(400, ErrorBody("Invalid settings data")) && unchanged(store)
    ensures IsAuthenticated(store, session) && body.ParseOk? ==>
      store.settings == SettingsOf(body.data, old(store.settings).id) &&
      resp == Response(200, SettingsBody(store.settings))
  {
    var gate := RequireAuth(store, session);
    if gate.Some? { return gate.value; }
    if body.ParseFailed? { return Response(400, ErrorBody("Invalid settings data")); }
    var settings := store.UpdateSettings(body.data);
    resp := Response(200, SettingsBody(settings));
  }

  /** `POST /api/contact` (public). */
  method CreateContactRoute(store: MemStorage, session: Session, body: Parse<InsertContactSubmission>, id: Id, now: Time)
    returns (resp: Response)
    requires store.Valid()
    modifies store`contactSubmissions
    ensures store.Valid()
    ensures body.ParseFailed? ==> resp == Response(400, ErrorBody("Invalid contact data")) && unchanged(store)
    ensures body.ParseOk? ==>
      resp == Response(201, SubmissionBody(ContactSubmissionOf(body.data, id, Some(now)))) &&
      store.contactSubmissions == old(store.contactSubmissions).Set(id, ContactSubmissionOf(body.data, id, Some(now)))
  {
    if body.ParseFailed? { return Response(400, ErrorBody("Invalid contact data")); }
    var submission := store.CreateContactSubmission(body.data, id, now);
    resp := Response(201, SubmissionBody(submission));
  }
}
