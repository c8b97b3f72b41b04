# KVDL Construction: a Dafny model of the store, the API and the list logic

KVDL Construction is a small company website with an admin area. Its Express server keeps
projects, gallery images, CMS pages, contact submissions, users and one settings record in an
in-memory store. The API guards the admin routes with a passport session. The React pages filter,
count and page through the lists they load.

This project models four parts of that system in Dafny and proves properties of them:

- **The store** (`MemStorage`, modules `Storage`, `JsMap`, `Ordering`, `SeedData`, `Bcrypt`).
  - It is a class with one field per JavaScript `Map`, plus the settings record. Its mutators are methods over field frames.
  - A `Map` is a value `Dict` that keeps insertion order: `Array.from(map.values())` and `find` depend on that order.
  - `getAll*` is a stable newest-first insertion sort.
  - `randomUUID()`, `new Date()` and the bcrypt salt are parameters of the operations that draw them.
- **The server's decisions** (modules `Server`, `Routes`, `Http`).
  - The local strategy.
  - What the session keeps.
  - The error handler's status and message.
  - The `/api` log line.
  - Every route's choice of status, body and store call.
  - A session is `Anonymous` or `Authenticated(userId)`.
  - Read routes are functions of the session and the store. Write routes are methods that call the store's mutators.
- **The shared schema** (module `Schema`).
  - Record and insert types.
  - The omitted fields.
  - Column defaults.
  - `SafeUser`.
  - `loginSchema`.
- **The pages' list logic** (modules `ProjectFilters`, `ManageProjects`, `ProjectsPage`, `GalleryPage`, `Dashboard`, with `Seqs` and `Text`).
  - Search and filters.
  - Distinct option lists.
  - Lightbox navigation.
  - Dashboard counts and prefixes.

All `.dfy` files form one program.

Points where the code differs from what one would read off its interface text. The model follows the code in each case:

- The two strategy failures carry different messages, "Incorrect username" and "Incorrect password". The login route forwards whichever one it receives.
- `GET /api/contact` needs no session, although it lists every submission.
- The public project search box invites searching "by title, description, or location". The filter only searches title and description (`ProjectsPage.SearchSkipsLocation`).
- The insert types make every defaulted column optional. `MemStorage` spreads the insert object without filling defaults in, so a defaulted field (`progress`, `published`, `role`, the company columns) may be absent from a stored record. The `With*Defaults` functions state what the database defaults would supply. The store does not apply them.
- `username`, `email` and `slug` are unique only in the table declarations. `MemStorage` never checks them. A second user named like an existing one can be stored but cannot log in (`Storage.MemStorage.CreateUser`, `Storage.FindByUsernameIgnoresLaterDuplicate`).

## Model

| member | source | states |
|---|---|---|
| Storage.MemStorage.constructor | server/storage.ts:63-92 | after construction and seeding: the settings have the start-up values and the first id; the five sample projects are under the next five ids, in order, with their creation times; six images point at project keys 0,1,2,3,0,1; CMS and contact maps are empty; the only user is the administrator |
| Storage.MemStorage.SeedSampleData | server/storage.ts:94-181 | the project map's keys are the given ids in order, each holding its sample project; the image map's keys are the image ids, each holding its sample image linked to the project keys in insertion order |
| Storage.MemStorage.SeedProjects | server/storage.ts:153-156 | the loop inserts the five samples in order, so the map's key order is the id order |
| Storage.MemStorage.SeedImages | server/storage.ts:169-180 | the loop inserts each image under its id, in order |
| Storage.MemStorage.SeedAdminUser | server/storage.ts:321-333 | the user map holds exactly the administrator under its id |
| SeedData.SampleImages | server/storage.ts:158-167 | six images, and image i belongs to project key i mod 4 |
| SeedData.InitialSettings | server/storage.ts:71-86 | the start-up settings keep the id drawn for them |
| SeedData.InitialSettingsUseColumnDefaults | server/storage.ts:71-86 | the start-up settings equal the column defaults plus the four social links, and filling defaults into them changes nothing |
| SeedData.AdminUser | server/storage.ts:324-331 | the administrator is named "admin" and stores the digest of "admin123" |
| Storage.MemStorage.GetAllProjects | server/storage.ts:183-187 | every stored project exactly once (a permutation of the map's values); newest `createdAt` first with a missing time as 0; projects with equal times keep their map order |
| Storage.MemStorage.GetProject | server/storage.ts:189-191 | found exactly when the id is a key, and then the stored record, whose id is that key |
| Storage.MemStorage.CreateProject | server/storage.ts:193-202 | the record is the insert fields plus the new id and creation time; `getProject` then returns it; no other id's project changes |
| Storage.MemStorage.UpdateProject | server/storage.ts:204-215 | an unknown id gives undefined and leaves the map as it was; a known id keeps its id and original `createdAt`, takes every other field from the input, and no other project changes |
| Storage.MemStorage.DeleteProject | server/storage.ts:217-219 | true exactly when the id was present; afterwards `getProject` finds nothing; other projects unchanged |
| Storage.MemStorage.GetAllGalleryImages | server/storage.ts:222-226 | every image exactly once, newest `uploadedAt` first, ties in map order |
| Storage.MemStorage.GetGalleryImage | server/storage.ts:228-230 | found exactly when the id is a key |
| Storage.MemStorage.CreateGalleryImage | server/storage.ts:232-241 | insert fields plus new id and upload time; no other image changes |
| Storage.MemStorage.DeleteGalleryImage | server/storage.ts:243-245 | true exactly when present; absent afterwards; others unchanged |
| Storage.MemStorage.GetAllCMSPages | server/storage.ts:248-252 | every page exactly once, newest `createdAt` first, ties in map order |
| Storage.MemStorage.GetCMSPage | server/storage.ts:254-256 | found exactly when the id is a key |
| Storage.MemStorage.CreateCMSPage | server/storage.ts:258-269 | `createdAt` equals `updatedAt`, both the creation instant; no other page changes |
| Storage.MemStorage.UpdateCMSPage | server/storage.ts:271-283 | unknown id: undefined and no change; known id: keeps id and `createdAt`, sets the new `updatedAt`, takes the rest from the input |
| Storage.MemStorage.DeleteCMSPage | server/storage.ts:285-287 | true exactly when present; absent afterwards; others unchanged |
| Storage.MemStorage.GetSettings | server/storage.ts:290-292 | the current settings record |
| Storage.MemStorage.UpdateSettings | server/storage.ts:294-300 | every field replaced by the input, the singleton's id kept, and the new record is what `getSettings` returns |
| Storage.SettingsAfterKeepsId | server/storage.ts:294-300 | after any number of replacements the id is the original one and the record is the last input |
| Storage.MemStorage.CreateContactSubmission | server/storage.ts:303-312 | insert fields plus new id and submission time |
| Storage.MemStorage.GetAllContactSubmissions | server/storage.ts:314-318 | every submission exactly once, newest `submittedAt` first, ties in map order |
| Storage.MemStorage.GetUserByUsername | server/storage.ts:335-337 | absent exactly when no stored user has that exact name; otherwise the first user with that name in the map's insertion order, stored under its own id |
| Storage.FindByUsername | server/storage.ts:336 | `find`: undefined exactly when no user has the name, otherwise the user at the first such position |
| Storage.FindByUsernameIgnoresLaterDuplicate | server/storage.ts:335-337 | adding a later user with a name already taken does not change which user the name finds |
| Storage.FindByUsernameAppend | server/storage.ts:335-337 | after appending a user, an earlier match still wins; the new user is found only for its name and only when nobody before it has that name |
| Storage.LookupAfterAdd | server/storage.ts:335-354 | the same for a user map that gains a user under a fresh id |
| Storage.MemStorage.GetUserById | server/storage.ts:339-341 | found exactly when the id is a key |
| Storage.MemStorage.CreateUser | server/storage.ts:343-354 | the stored password is the digest of the input; afterwards `verifyPassword` on the new id accepts exactly the input password; under a fresh id, `getUserByUsername` still finds the earlier user for a taken name and finds the new user only for a free one |
| Storage.MemStorage.VerifyPassword | server/storage.ts:356-360 | false for an unknown id; otherwise the result of comparing against the stored digest |
| Bcrypt.CompareHash | server/storage.ts:345-359 | a digest accepts the password it was made from and rejects every other, whatever the salt |
| Ordering.NewestFirst | server/storage.ts:184-186 | the sort result is a permutation of its input and is ordered newest first |
| Ordering.InsertKeepsOrder | server/storage.ts:184-186 | inserting into a newest-first list keeps it newest first |
| Ordering.NewestFirstStable | server/storage.ts:184-186 | the elements with any one time stamp appear in their input order (the sort is stable) |
| Ordering.NewestFirstStableAll | server/storage.ts:184-186 | stability for every time stamp at once |
| Ordering.NewestComesFirst | server/storage.ts:184-186 | an element strictly newer than all others is listed first |
| JsMap.Dict.Set | server/storage.ts:200 | `map.set`: the key then maps to the value; other keys unchanged; a new key is appended to the key order, an existing key keeps its place |
| JsMap.Dict.Delete | server/storage.ts:218 | `map.delete`: the key is gone; other keys unchanged; the remaining keys keep their relative order; deleting an absent key changes nothing |
| JsMap.ValuesAfterDelete | server/storage.ts:184-186 | after `map.delete`, `values()` is a subsequence of what it was: the remaining values keep their order |
| JsMap.Dict.Values | server/storage.ts:184 | `Array.from(map.values())`: one value per key, in key order, and exactly the stored values |
| JsMap.ValuesAfterAdd | server/storage.ts:200 | setting a new key appends its value at the end of `values()` |
| JsMap.ValuesOfUnaffected | server/storage.ts:200 | storing under a key outside a key list leaves the values under that list as they were |
| Server.Authenticate | server/index.ts:39-57 | unknown username: "Incorrect username"; known name: success with that user when the password matches its digest, else "Incorrect password" |
| Server.AuthenticateSuccess | server/index.ts:42-52 | success exactly when some user has the name and the first one's digest accepts the password; the user returned is stored under its id |
| Server.SerializeUser | server/index.ts:59-61 | the session records only the user's id |
| Server.DeserializeUser | server/index.ts:63-70 | the user is restored exactly when the id is still stored, and has that id |
| Server.SessionRoundTrip | server/index.ts:59-70 | a stored user comes back from the session unchanged |
| Server.ErrorStatus | server/index.ts:116 | `err.status` unless missing or 0, then `err.statusCode` unless missing or 0, then 500; never 0 |
| Server.ErrorMessage | server/index.ts:117 | the error's message unless missing or empty, else "Internal Server Error" |
| Server.ErrorResponse | server/index.ts:115-121 | the reply carries that status and `{ message }` |
| Server.LogLine | server/index.ts:93-107 | only paths starting with `/api` are logged; a line is at most 80 characters; a line of at most 80 is kept whole, a longer one becomes its first 79 plus a one-character ellipsis |
| Server.LogLineAsWritten | server/index.ts:101-103 | with the marker as the file spells it, every cut line is 82 characters long |
| Routes.CurrentUser | server/routes.ts:64 | the session's user: none for an anonymous session, otherwise the user its id deserializes to |
| Routes.RequireAuth | server/routes.ts:16-21 | lets a request through exactly when its session's id names a stored user, otherwise answers 401 `{error: "Unauthorized"}` |
| Routes.FailureMessage | server/routes.ts:36 | the strategy's message when non-empty, else "Invalid credentials" |
| Routes.Login | server/routes.ts:25-52 | schema failure: 400 "Invalid credentials", session kept; strategy failure: 401 with its message, session kept; success: 200 with the safe user and the session holds that user's id; a session error goes to the error handler and keeps the session |
| Routes.LoginFailureMessages | server/routes.ts:31-37 | an unknown name reaches the client as 401 "Incorrect username", a wrong password for a known name as 401 "Incorrect password" |
| Routes.SeededAdminLogin | server/storage.ts:321-333 | on the seeded store a login succeeds for exactly "admin" / "admin123"; other passwords give "Incorrect password", other names "Incorrect username" |
| Routes.Logout | server/routes.ts:54-61 | the session becomes anonymous; the reply is 500 "Failed to logout" exactly when the session layer fails, else 200 "Logged out successfully" |
| Routes.AuthUser | server/routes.ts:63-77 | always 200; `user` is present exactly when the session is authenticated, and then is the current user's safe projection |
| Routes.LoginThenAuthUser | server/routes.ts:38-77 | after a successful login, `/api/auth/user` on the new session returns exactly the login's reply |
| Routes.LogoutThenAuthUser | server/routes.ts:54-77 | after a logout `/api/auth/user` returns `user: null` |
| Routes.GetProjectsRoute | server/routes.ts:80-87 | 200 with the newest-first project list |
| Routes.GetProjectRoute | server/routes.ts:89-99 | 404 "Project not found" exactly when the id is not stored, else 200 with the stored project |
| Routes.GetGalleryRoute | server/routes.ts:143-150 | 200 with the newest-first image list |
| Routes.GetGalleryImageRoute | server/routes.ts:152-162 | 404 "Image not found" exactly when the id is not stored, else 200 with the image |
| Routes.GetCMSPagesRoute | server/routes.ts:190-197 | 401 when unauthenticated, else 200 with the newest-first page list |
| Routes.GetCMSPageRoute | server/routes.ts:199-209 | 401 when unauthenticated; 404 "Page not found" when missing; else 200 with the page |
| Routes.GetSettingsRoute | server/routes.ts:253-260 | 401 when unauthenticated, else 200 with the settings |
| Routes.GetContactRoute | server/routes.ts:289-296 | 200 with every submission newest first, whatever the session |
| Routes.ReadRouteAccess | server/routes.ts:80-296 | project, gallery and contact reads answer every session alike; CMS and settings reads turn an anonymous session away with 401 |
| Routes.CreateProjectRoute | server/routes.ts:101-112 | 401 or 400 "Invalid project data" leave the store unchanged; otherwise 201 with the stored record, which was set under the new id |
| Routes.UpdateProjectRoute | server/routes.ts:114-128 | 401, 400 and 404 "Project not found" leave the store unchanged; otherwise 200 with the updated record, which keeps id and `createdAt` |
| Routes.DeleteProjectRoute | server/routes.ts:130-140 | 401 leaves the store unchanged; a missing id gives 404 and no change; a present one 204 with no body, and the project is removed |
| Routes.CreateGalleryImageRoute | server/routes.ts:164-175 | 401 or 400 "Invalid image data" leave the store unchanged; otherwise 201 with the stored image |
| Routes.DeleteGalleryImageRoute | server/routes.ts:177-187 | 401 no change; missing id 404 "Image not found" and no change; else 204 and the image is removed |
| Routes.CreateCMSPageRoute | server/routes.ts:211-222 | 401 or 400 "Invalid page data" leave the store unchanged; otherwise 201 with the stored page |
| Routes.UpdateCMSPageRoute | server/routes.ts:224-238 | 401, 400 and 404 "Page not found" leave the store unchanged; otherwise 200 with the page, `createdAt` kept and `updatedAt` new |
| Routes.DeleteCMSPageRoute | server/routes.ts:240-250 | 401 no change; missing id 404 and no change; else 204 and the page is removed |
| Routes.UpdateSettingsRoute | server/routes.ts:262-273 | 401 or 400 "Invalid settings data" leave the store unchanged; otherwise the settings are replaced, id kept, and returned with 200 |
| Routes.CreateContactRoute | server/routes.ts:276-287 | public; 400 "Invalid contact data" leaves the store unchanged; otherwise 201 with the stored submission |
| Schema.ProjectOmitsIdAndCreatedAt | shared/schema.ts:20-23 | a project is exactly its insert part plus `id` and `createdAt`, and the insert part of a built project is the insert |
| Schema.GalleryImageOmitsIdAndUploadedAt | shared/schema.ts:37-40 | an image is exactly its insert part plus `id` and `uploadedAt` |
| Schema.CMSPageOmitsIdAndTimestamps | shared/schema.ts:56-60 | a page is exactly its insert part plus `id`, `createdAt` and `updatedAt` |
| Schema.SettingsOmitsOnlyId | shared/schema.ts:83-85 | a settings record is exactly its insert part plus `id` |
| Schema.ContactSubmissionOmitsIdAndSubmittedAt | shared/schema.ts:100-103 | a submission is exactly its insert part plus `id` and `submittedAt` |
| Schema.ToSafeUser | shared/schema.ts:134 | the safe user copies id, username, email, role and createdAt |
| Schema.SafeUserIgnoresPassword | shared/schema.ts:134 | the safe projection does not depend on the password digest |
| Schema.WithProjectDefaults | shared/schema.ts:13 | a missing `progress` becomes 0, a present one is kept |
| Schema.WithCMSPageDefaults | shared/schema.ts:51 | a missing `published` becomes false, a present one is kept |
| Schema.WithUserDefaults | shared/schema.ts:114 | a missing `role` becomes "admin", a present one is kept |
| Schema.WithSettingsDefaults | shared/schema.ts:66-81 | each of the six company columns and both map coordinates is kept when given and takes its own column default when missing; the social and logo URLs are left as they are |
| Schema.DefaultsIdempotent | shared/schema.ts:13-114 | filling in defaults twice is the same as once |
| Schema.ParseLogin | shared/schema.ts:124-127 | accepted exactly when both username and password are strings of length at least 1, and then yields them |
| Text.Lower | client/src/pages/admin/ManageProjects.tsx:89 | `toLowerCase`: same length, each character lowered |
| Text.LowerOfUpper | client/src/pages/admin/ManageProjects.tsx:89-90 | lowering forgets an earlier upper-casing |
| Text.Contains | client/src/pages/admin/ManageProjects.tsx:89 | `includes`: true exactly when the needle occurs at some position |
| Text.NatToString | server/index.ts:96 | `String(n)` for the status code and duration: decimal digits that denote `n`, with no leading zero |
| Seqs.Filter | client/src/pages/admin/ManageProjects.tsx:88 | `filter`: an order-preserving subsequence holding exactly the elements that pass, each as many times as in the input |
| Seqs.FilterCons | client/src/pages/admin/ManageProjects.tsx:88 | the first element is kept in front of the filtered rest exactly when it passes |
| Seqs.FilterKeepsAll | client/src/pages/admin/ManageProjects.tsx:88 | a filter every element passes returns the whole list |
| Seqs.FilterAllKept | client/src/pages/admin/Dashboard.tsx:31 | a filter that keeps as many elements as it got kept them all |
| Seqs.Distinct | client/src/pages/Projects.tsx:93 | `Array.from(new Set(...))`: no duplicates, the same members, a subsequence of the input, ordered by each member's first occurrence |
| Seqs.FirstIndex | client/src/pages/Projects.tsx:93 | the position of the first occurrence of an element: it holds the element and no earlier position does |
| Seqs.FirstIndexSnoc | client/src/pages/Projects.tsx:93 | appending an element moves no earlier element's first occurrence |
| Seqs.Take | client/src/pages/admin/Dashboard.tsx:35 | `slice(0, n)`: the first min(n, length) elements |
| Seqs.FilterSnoc | client/src/pages/admin/Dashboard.tsx:31 | filtering a list extended at the end extends the result by that element exactly when it passes |
| Seqs.PassingSnoc | client/src/pages/admin/Dashboard.tsx:31 | the passing positions of a list extended at the end are the old ones plus the new last position when it passes |
| Seqs.FilterLengthCountsPassing | client/src/pages/admin/Dashboard.tsx:31 | `filter(...).length` is the number of positions whose element passes |
| Seqs.FilterLength | client/src/pages/admin/Dashboard.tsx:31 | a filter's length is at most the input's, equal exactly when all pass, and the number of passing positions |
| ProjectFilters.InitialFiltersMatch | client/src/pages/admin/ManageProjects.tsx:21-22 | every project matches the empty query and "All Status" |
| ProjectFilters.SearchIgnoresCase | client/src/pages/admin/ManageProjects.tsx:89-90 | queries equal up to letter case match the same projects |
| ProjectFilters.StatusColor | client/src/pages/admin/ManageProjects.tsx:124-135 | a non-empty class list exactly for "Completed", "In Progress" and "Planning" (the green, orange and blue lists), "" for every other status |
| ManageProjects.FilteredProjects | client/src/pages/admin/ManageProjects.tsx:88-93 | absent while loading; otherwise an order-preserving subsequence holding exactly the projects matching both the search and the status filter, each as many times as it was loaded |
| ManageProjects.InitialStateShowsAll | client/src/pages/admin/ManageProjects.tsx:21-22 | in the initial state every loaded project is shown |
| ManageProjects.SearchIsCaseInsensitive | client/src/pages/admin/ManageProjects.tsx:89-90 | changing the query's letter case does not change the list |
| ManageProjects.HandleSubmit | client/src/pages/admin/ManageProjects.tsx:110-116 | an update of the edited project's id exactly when one is being edited, a creation otherwise, with the form data unchanged |
| ManageProjects.Submit | client/src/pages/admin/ManageProjects.tsx:110-116 | carried to the server: a creation stores a new record under the new id; an edit replaces the edited project keeping its `createdAt`, or is 404 and no change when it has gone |
| ProjectsPage.FilteredProjects | client/src/pages/Projects.tsx:22-28 | exactly the projects matching search, status and location (location "All Locations" or equal), in loaded order, each as many times as it was loaded |
| ProjectsPage.SearchSkipsLocation | client/src/pages/Projects.tsx:23-24 | a project known only by its location is not found by searching for it |
| ProjectsPage.SearchIndependentOfLocation | client/src/pages/Projects.tsx:23-24 | the search result for a project does not depend on its location |
| ProjectsPage.Locations | client/src/pages/Projects.tsx:93 | `map(p => p.location)`: one location per project, in order |
| ProjectsPage.LocationOptions | client/src/pages/Projects.tsx:93 | empty while loading; otherwise each location that occurs, once, in the order of first occurrence |
| ProjectsPage.Showing | client/src/pages/Projects.tsx:100-104 | shown is the length of the filtered list, which is the number of loaded positions whose project passes; total is the number loaded; shown equals total exactly when every project passes |
| ProjectsPage.ShownCount | client/src/pages/Projects.tsx:102 | the filtered list is at most as long as the loaded one, as long exactly when every project passes, and as long as the number of passing positions |
| ProjectsPage.ClearFilters | client/src/pages/Projects.tsx:177-181 | all three filters return to their initial values |
| ProjectsPage.ClearedFiltersShowAll | client/src/pages/Projects.tsx:177-181 | after Clear Filters every loaded project is listed |
| GalleryPage.FilteredImages | client/src/pages/Gallery.tsx:18-20 | no (or an empty) selection shows the loaded list itself; a selection shows exactly its project's images, in order, each as many times as it was loaded |
| GalleryPage.LinkedProjectIds | client/src/pages/Gallery.tsx:23 | `map(projectId).filter(Boolean)`: exactly the non-empty project ids that occur; one id per image with a project, in image order |
| GalleryPage.UniqueProjects | client/src/pages/Gallery.tsx:22-24 | no duplicates, never empty or null, exactly the linked project ids, in the order of their first occurrence (the button order); empty while loading |
| GalleryPage.ProjectButtonShowsItsImages | client/src/pages/Gallery.tsx:18-24 | choosing any offered project shows at least one image |
| GalleryPage.JsRemainder | client/src/pages/Gallery.tsx:28 | JavaScript `%` by a positive length: Dafny's `%` for a non-negative dividend, and non-positive for a negative one |
| GalleryPage.NextIndex | client/src/pages/Gallery.tsx:34 | the next index stays in range and wraps from the last to 0 |
| GalleryPage.PrevIndex | client/src/pages/Gallery.tsx:28 | the previous index stays in range and wraps from 0 to the last |
| GalleryPage.HandleNext | client/src/pages/Gallery.tsx:32-36 | no change when nothing is open or nothing loaded; otherwise the next index |
| GalleryPage.HandlePrev | client/src/pages/Gallery.tsx:26-30 | no change when nothing is open or nothing loaded; otherwise the previous index |
| GalleryPage.NavigationRoundTrip | client/src/pages/Gallery.tsx:26-36 | previous after next, and next after previous, return to the same image |
| GalleryPage.NavigationWraps | client/src/pages/Gallery.tsx:26-36 | next of the last image is the first, previous of the first is the last |
| Dashboard.LoadedCount | client/src/pages/admin/Dashboard.tsx:30-32 | `totalProjects` and `totalImages`, `length \|\| 0`: the number loaded, 0 while loading |
| Dashboard.ActiveProjects | client/src/pages/admin/Dashboard.tsx:31 | the number of loaded positions holding an "In Progress" project; so at most the total, 0 exactly when none is, and the total exactly when all are |
| Dashboard.Recent | client/src/pages/admin/Dashboard.tsx:35-37 | `slice(0, n) \|\| []`: the first min(n, length) entries, none while loading |
| Dashboard.RecentProjects | client/src/pages/admin/Dashboard.tsx:35 | the first five projects |
| Dashboard.RecentImages | client/src/pages/admin/Dashboard.tsx:37 | the first six images |
| Dashboard.RecentProjectsAreNewest | client/src/pages/admin/Dashboard.tsx:35 | over the server's list, each recent project is at least as new as every project left off |
| Dashboard.RecentImagesAreNewest | client/src/pages/admin/Dashboard.tsx:37 | over the server's list, each recent image is at least as new as every image left off |

## Left out

- Password hashing: bcrypt is an ideal salted one-way function. The cost-10 work factor is not modelled, nor bcrypt's truncation of passwords at 72 bytes. A digest accepts exactly the password it was made from.
- `randomUUID()` and `new Date()` are inputs. The constructor requires its thirteen ids to be distinct; the operations take whatever id and time they are given. Times need not increase.
- Dates are integers of milliseconds. An invalid `Date` (whose `getTime()` is `NaN`) is not modelled.
- The constructor is modelled after its un-awaited `seedAdminUser` has finished. The window in which the admin user is not yet stored is not modelled, nor is any other interleaving of the async operations.
- Every `try`/`catch` that answers 500 ("Failed to fetch projects" and the like) is left out. No modelled store operation can throw.
- The strategy's own error path (`done(error)`) is left out for the same reason.
- Routes.Login: `loginError` stands for the error `req.login` may report. The model does not say what the session layer does beyond keeping the old principal.
- Routes.Logout: `logoutFailed` stands for the session layer's error. The principal is dropped in both outcomes, as passport clears it before saving the session.
- Routes.CreateProjectRoute and the other write routes: a zod validation result is an input (`ParseOk(data)` or `ParseFailed`). How drizzle-zod derives each schema is not modelled, and neither is the `details` object in a 400 reply.
- Server.ErrorResponse: after replying, the error handler rethrows the error (`throw err`), handing it to Express's final handler, which logs it. That rethrow and its logging are not modelled; the reply is.
- Express, passport, express-session and memorystore plumbing is left out: middleware order, cookies, the 24-hour expiry and the pruning janitor, `express.json`, static files, Vite, and `listen` with its `reusePort` retry.
- Server.LogLine: `JSON.stringify` of the captured body is an input string, and the duration is an input. Lengths count characters. Every character the line can contain is assumed to be one UTF-16 code unit.
- Text.Lower: `toLowerCase` and `toUpperCase` are modelled for ASCII letters only. Other Unicode case mappings are not.
- GalleryPage.JsRemainder: only positive divisors. Every divisor on the page is a non-empty list's length; `% 0` would give `NaN`.
- GalleryPage.HandleNext and GalleryPage.HandlePrev require an open lightbox's index to lie within the filtered list. The index is always the position of an image the page drew from that list.
- Rendering, toasts, dialogs, react-query caching and invalidation, `handleEdit`'s form reset, `handleDelete`'s confirmation and date formatting are presentation and are left out.
- The hard-coded "website visits" figure on the dashboard is left out.
- `createUser` is modelled, but no route calls it.
- Server.DeserializeUser and Routes.CurrentUser: a session whose user id is no longer stored is modelled as anonymous. On that miss `deserializeUser` calls `done(null, undefined)`, which passport may report as a failed deserialization. It cannot arise here: no operation deletes a user, and sessions do not outlive the process.

## Findings

| source | as written | input that shows it | evidently intended | confidence | as-written member | corrected member |
|---|---|---|---|---|---|---|
| server/index.ts:102 | a cut log line is `slice(0, 79)` plus the literal `"â€¦"`. That literal is three characters: the UTF-8 bytes of an ellipsis read back as Windows-1252. | any `/api` request whose full line exceeds 80 characters, e.g. `GET /api/projects 200 in 3ms :: ` followed by a 60-character JSON body, is logged as 82 characters | the one-character ellipsis `…`, giving at most 80 characters | high that the literal is three characters; not executed | Server.LogLineAsWritten | Server.LogLine |
