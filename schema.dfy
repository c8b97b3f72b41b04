/** The record types of the site (the `$inferSelect` types of shared/schema.ts), their insert
    types (the `createInsertSchema(...).omit(...)` types), the password-free user projection and
    the login form's validation rule.

    A column that has a database default is optional in its insert type, and the in-memory store
    copies the insert object as it is, so such a field is an `Option` in the record type too:
    `None` stands for a field that is absent (or `null`). */
module Schema {
  import opened Options
  import Bcrypt

  type Id = string

  /** `Date#getTime()`: milliseconds since the epoch. */
  type Time = int

  /** The outcome of `someInsertSchema.safeParse(req.body)`; which bodies parse is left abstract. */
  datatype Parse<T> = ParseOk(data: T) | ParseFailed

  // ---------------------------------------------------------------- projects

  datatype InsertProject = InsertProject(
    title: string, description: string, location: string, status: string,
    progress: Option<int>, startDate: string, expectedCompletion: string,
    imageUrl: Option<string>)

  datatype Project = Project(
    id: Id, title: string, description: string, location: string, status: string,
    progress: Option<int>, startDate: string, expectedCompletion: string,
    imageUrl: Option<string>, createdAt: Option<Time>)

  /** `{ ...insert, id, createdAt }`. */
  function ProjectOf(ins: InsertProject, id: Id, createdAt: Option<Time>): Project {
    Project(id, ins.title, ins.description, ins.location, ins.status, ins.progress,
            ins.startDate, ins.expectedCompletion, ins.imageUrl, createdAt)
  }

  /** The insert part of a project: every field but `id` and `createdAt`. */
  function ProjectInsert(p: Project): InsertProject {
    InsertProject(p.title, p.description, p.location, p.status, p.progress, p.startDate,
                  p.expectedCompletion, p.imageUrl)
  }

  /** The project insert type omits exactly `id` and `createdAt`: a project is its insert part
      plus those two, and building a project from an insert part loses nothing. */
  lemma ProjectOmitsIdAndCreatedAt(p: Project, ins: InsertProject, id: Id, t: Option<Time>)
    ensures ProjectOf(ProjectInsert(p), p.id, p.createdAt) == p
    ensures ProjectInsert(ProjectOf(ins, id, t)) == ins
    ensures ProjectOf(ins, id, t).id == id && ProjectOf(ins, id, t).createdAt == t
  {
  }

  // ---------------------------------------------------------------- gallery images

  datatype InsertGalleryImage = InsertGalleryImage(
    imageUrl: string, caption: Option<string>, projectId: Option<Id>)

  datatype GalleryImage = GalleryImage(
    id: Id, imageUrl: string, caption: Option<string>, projectId: Option<Id>,
    uploadedAt: Option<Time>)

  /** `{ ...insert, id, uploadedAt }`. */
  function GalleryImageOf(ins: InsertGalleryImage, id: Id, uploadedAt: Option<Time>): GalleryImage {
    GalleryImage(id, ins.imageUrl, ins.caption, ins.projectId, uploadedAt)
  }

  /** The insert part of an image: every field but `id` and `uploadedAt`. */
  function GalleryImageInsert(g: GalleryImage): InsertGalleryImage {
    InsertGalleryImage(g.imageUrl, g.caption, g.projectId)
  }

  /** The image insert type omits exactly `id` and `uploadedAt`. */
  lemma GalleryImageOmitsIdAndUploadedAt(g: GalleryImage, ins: InsertGalleryImage, id: Id, t: Option<Time>)
    ensures GalleryImageOf(GalleryImageInsert(g), g.id, g.uploadedAt) == g
    ensures GalleryImageInsert(GalleryImageOf(ins, id, t)) == ins
  {
  }

  // ---------------------------------------------------------------- CMS pages

  datatype InsertCMSPage = InsertCMSPage(
    title: string, slug: string, content: string, published: Option<bool>)

  datatype CMSPage = CMSPage(
    id: Id, title: string, slug: string, content: string, published: Option<bool>,
    createdAt: Option<Time>, updatedAt: Option<Time>)

  /** `{ ...insert, id, createdAt, updatedAt }`. */
  function CMSPageOf(ins: InsertCMSPage, id: Id, createdAt: Option<Time>, updatedAt: Option<Time>): CMSPage {
    CMSPage(id, ins.title, ins.slug, ins.content, ins.published, createdAt, updatedAt)
  }

  /** The insert part of a page: every field but `id`, `createdAt` and `updatedAt`. */
  function CMSPageInsert(c: CMSPage): InsertCMSPage {
    InsertCMSPage(c.title, c.slug, c.content, c.published)
  }

  /** The page insert type omits exactly `id`, `createdAt` and `updatedAt`. */
  lemma CMSPageOmitsIdAndTimestamps(c: CMSPage, ins: InsertCMSPage, id: Id, t: Option<Time>, u: Option<Time>)
    ensures CMSPageOf(CMSPageInsert(c), c.id, c.createdAt, c.updatedAt) == c
    ensures CMSPageInsert(CMSPageOf(ins, id, t, u)) == ins
  {
  }

  // ---------------------------------------------------------------- settings

  datatype InsertSettings = InsertSettings(
    companyName: Option<string>, companyAddress: Option<string>, companyEmail: Option<string>,
    companyPhone: Option<string>, emergencyPhone: Option<string>, businessHours: Option<string>,
    facebookUrl: Option<string>, twitterUrl: Option<string>, linkedinUrl: Option<string>,
    instagramUrl: Option<string>, logoUrl: Option<string>,
    mapLatitude: Option<string>, mapLongitude: Option<string>)

  datatype Settings = Settings(
    id: Id,
    companyName: Option<string>, companyAddress: Option<string>, companyEmail: Option<string>,
    companyPhone: Option<string>, emergencyPhone: Option<string>, businessHours: Option<string>,
    facebookUrl: Option<string>, twitterUrl: Option<string>, linkedinUrl: Option<string>,
    instagramUrl: Option<string>, logoUrl: Option<string>,
    mapLatitude: Option<string>, mapLongitude: Option<string>)

  /** `{ ...insert, id }`. */
  function SettingsOf(ins: InsertSettings, id: Id): Settings {
    Settings(id, ins.companyName, ins.companyAddress, ins.companyEmail, ins.companyPhone,
             ins.emergencyPhone, ins.businessHours, ins.facebookUrl, ins.twitterUrl,
             ins.linkedinUrl, ins.instagramUrl, ins.logoUrl, ins.mapLatitude, ins.mapLongitude)
  }

  /** The insert part of the settings: every field but `id`. */
  function SettingsInsert(s: Settings): InsertSettings {
    InsertSettings(s.companyName, s.companyAddress, s.companyEmail, s.companyPhone,
                   s.emergencyPhone, s.businessHours, s.facebookUrl, s.twitterUrl,
                   s.linkedinUrl, s.instagramUrl, s.logoUrl, s.mapLatitude, s.mapLongitude)
  }

  /** The settings insert type omits only `id`. */
  lemma SettingsOmitsOnlyId(s: Settings, ins: InsertSettings, id: Id)
    ensures SettingsOf(SettingsInsert(s), s.id) == s
    ensures SettingsInsert(SettingsOf(ins, id)) == ins
  {
  }

  // ---------------------------------------------------------------- contact submissions

  datatype InsertContactSubmission = InsertContactSubmission(
    name: string, email: string, phone: Option<string>, message: string)

  datatype ContactSubmission = ContactSubmission(
    id: Id, name: string, email: string, phone: Option<string>, message: string,
    submittedAt: Option<Time>)

  /** `{ ...insert, id, submittedAt }`. */
  function ContactSubmissionOf(ins: InsertContactSubmission, id: Id, submittedAt: Option<Time>): ContactSubmission {
    ContactSubmission(id, ins.name, ins.email, ins.phone, ins.message, submittedAt)
  }

  /** The insert part of a submission: every field but `id` and `submittedAt`. */
  function ContactSubmissionInsert(c: ContactSubmission): InsertContactSubmission {
    InsertContactSubmission(c.name, c.email, c.phone, c.message)
  }

  /** The submission insert type omits exactly `id` and `submittedAt`. */
  lemma ContactSubmissionOmitsIdAndSubmittedAt(c: ContactSubmission, ins: InsertContactSubmission, id: Id, t: Option<Time>)
    ensures ContactSubmissionOf(ContactSubmissionInsert(c), c.id, c.submittedAt) == c
    ensures ContactSubmissionInsert(ContactSubmissionOf(ins, id, t)) == ins
  {
  }

  // ---------------------------------------------------------------- users

  /** What a caller hands to `createUser`: the password in plain text. */
  datatype InsertUser = InsertUser(
    username: string, password: string, email: string, role: Option<string>)

  /** A stored user: the password field only ever holds a digest. */
  datatype User = User(
    id: Id, username: string, password: Bcrypt.Digest, email: string, role: Option<string>,
    createdAt: Option<Time>)

  /** `SafeUser = Omit<User, 'password'>`. */
  datatype SafeUser = SafeUser(
    id: Id, username: string, email: string, role: Option<string>, createdAt: Option<Time>)

  /** `{ id, username, email, role, createdAt }` copied from a user. */
  function ToSafeUser(u: User): (s: SafeUser)
    ensures s.id == u.id && s.username == u.username && s.email == u.email
    ensures s.role == u.role && s.createdAt == u.createdAt
  {
    SafeUser(u.id, u.username, u.email, u.role, u.createdAt)
  }

  /** The safe projection does not depend on the password: two users that differ only in their
      digest project to the same value, so nothing about the digest reaches a client. */
  lemma SafeUserIgnoresPassword(u: User, d: Bcrypt.Digest)
    ensures ToSafeUser(u.(password := d)) == ToSafeUser(u)
  {
  }

  // ---------------------------------------------------------------- column defaults

  const DefaultProgress: int := 0
  const DefaultPublished: bool := false
  const DefaultRole: string := "admin"
  const DefaultCompanyName: string := "KVDL Construction"
  const DefaultCompanyAddress: string := "1234 Construction Ave, Seattle, WA 98301"
  const DefaultCompanyEmail: string := "contact@kvdlconstruction.com"
  const DefaultCompanyPhone: string := "(555) 123-4567"
  const DefaultEmergencyPhone: string := "(555) 999-0008"
  const DefaultBusinessHours: string := "Monday - Friday: 8:00 AM - 6:00 PM, Saturday: 9:00 AM - 4:00 PM"
  const DefaultMapLatitude: string := "47.6062"
  const DefaultMapLongitude: string := "-122.3321"

  /** The project row a database insert would produce: `progress` defaults to 0. */
  function WithProjectDefaults(ins: InsertProject): (r: InsertProject)
    ensures r.progress.Some?
    ensures ins.progress.Some? ==> r == ins
    ensures ins.progress.None? ==> r == ins.(progress := Some(DefaultProgress))
  {
    ins.(progress := Some(ins.progress.GetOr(DefaultProgress)))
  }

  /** The page row a database insert would produce: `published` defaults to false. */
  function WithCMSPageDefaults(ins: InsertCMSPage): (r: InsertCMSPage)
    ensures r.published.Some?
    ensures ins.published.Some? ==> r == ins
    ensures ins.published.None? ==> r == ins.(published := Some(DefaultPublished))
  {
    ins.(published := Some(ins.published.GetOr(DefaultPublished)))
  }

  /** The user row a database insert would produce: `role` defaults to "admin". */
  function WithUserDefaults(ins: InsertUser): (r: InsertUser)
    ensures r.role.Some?
    ensures ins.role.Some? ==> r == ins
    ensures ins.role.None? ==> r == ins.(role := Some(DefaultRole))
  {
    ins.(role := Some(ins.role.GetOr(DefaultRole)))
  }

  /** The settings row a database insert would produce: the company columns and the map
      coordinates have defaults, the social and logo URLs do not. */
  function WithSettingsDefaults(ins: InsertSettings): (r: InsertSettings)
    ensures r.companyName.Some? && r.companyAddress.Some? && r.companyEmail.Some?
    ensures r.companyPhone.Some? && r.emergencyPhone.Some? && r.businessHours.Some?
    ensures r.mapLatitude.Some? && r.mapLongitude.Some?
    ensures r.facebookUrl == ins.facebookUrl && r.twitterUrl == ins.twitterUrl
    ensures r.linkedinUrl == ins.linkedinUrl && r.instagramUrl == ins.instagramUrl
    ensures r.logoUrl == ins.logoUrl
    ensures ins.companyName.Some? ==> r.companyName == ins.companyName
    ensures ins.companyName.None? ==> r.companyName == Some(DefaultCompanyName)
    ensures ins.companyAddress.Some? ==> r.companyAddress == ins.companyAddress
    ensures ins.companyAddress.None? ==> r.companyAddress == Some(DefaultCompanyAddress)
    ensures ins.companyEmail.Some? ==> r.companyEmail == ins.companyEmail
    ensures ins.companyEmail.None? ==> r.companyEmail == Some(DefaultCompanyEmail)
    ensures ins.companyPhone.Some? ==> r.companyPhone == ins.companyPhone
    ensures ins.companyPhone.None? ==> r.companyPhone == Some(DefaultCompanyPhone)
    ensures ins.emergencyPhone.Some? ==> r.emergencyPhone == ins.emergencyPhone
    ensures ins.emergencyPhone.None? ==> r.emergencyPhone == Some(DefaultEmergencyPhone)
    ensures ins.businessHours.Some? ==> r.businessHours == ins.businessHours
    ensures ins.businessHours.None? ==> r.businessHours == Some(DefaultBusinessHours)
    ensures ins.mapLatitude.Some? ==> r.mapLatitude == ins.mapLatitude
    ensures ins.mapLatitude.None? ==> r.mapLatitude == Some(DefaultMapLatitude)
    ensures ins.mapLongitude.Some? ==> r.mapLongitude == ins.mapLongitude
    ensures ins.mapLongitude.None? ==> r.mapLongitude == Some(DefaultMapLongitude)
  {
    ins.(companyName := Some(ins.companyName.GetOr(DefaultCompanyName)),
         companyAddress := Some(ins.companyAddress.GetOr(DefaultCompanyAddress)),
         companyEmail := Some(ins.companyEmail.GetOr(DefaultCompanyEmail)),
         companyPhone := Some(ins.companyPhone.GetOr(DefaultCompanyPhone)),
         emergencyPhone := Some(ins.emergencyPhone.GetOr(DefaultEmergencyPhone)),
         businessHours := Some(ins.businessHours.GetOr(DefaultBusinessHours)),
         mapLatitude := Some(ins.mapLatitude.GetOr(DefaultMapLatitude)),
         mapLongitude := Some(ins.mapLongitude.GetOr(DefaultMapLongitude)))
  }

  /** Filling in defaults twice is filling them in once. */
  lemma DefaultsIdempotent(p: InsertProject, c: InsertCMSPage, u: InsertUser, s: InsertSettings)
    ensures WithProjectDefaults(WithProjectDefaults(p)) == WithProjectDefaults(p)
    ensures WithCMSPageDefaults(WithCMSPageDefaults(c)) == WithCMSPageDefaults(c)
    ensures WithUserDefaults(WithUserDefaults(u)) == WithUserDefaults(u)
    ensures WithSettingsDefaults(WithSettingsDefaults(s)) == WithSettingsDefaults(s)
  {
  }

  // ---------------------------------------------------------------- login form

  /** The login request body; a field that is missing or not a string is `None`. */
  datatype LoginBody = LoginBody(username: Option<string>, password: Option<string>)

  datatype Credentials = Credentials(username: string, password: string)

  /** `loginSchema.safeParse(body)`: both fields must be strings of at least one character. */
  function ParseLogin(body: LoginBody): (r: Option<Credentials>)
    ensures r.Some? <==> (body.username.Some? && |body.username.value| >= 1 &&
                          body.password.Some? && |body.password.value| >= 1)
    ensures r.Some? ==> r.value == Credentials(body.username.value, body.password.value)
  {
    match (body.username, body.password)
    case (Some(u), Some(p)) =>
      if |u| >= 1 && |p| >= 1 then Some(Credentials(u, p)) else None
    case _ => None
  }
}
