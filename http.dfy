/** What a route handler sends back: a status code and a JSON body. */
module Http {
  import opened Options
  import opened Schema

  datatype Body =
    | ErrorBody(error: string)                  // { error }; a 400's `details` are not modelled
    | MessageBody(message: string)              // { message }
    | UserBody(user: Option<SafeUser>)          // { user }, `null` when absent
    | ProjectBody(project: Project)
    | ProjectsBody(projects: seq<Project>)
    | ImageBody(image: GalleryImage)
    | ImagesBody(images: seq<GalleryImage>)
    | PageBody(page: CMSPage)
    | PagesBody(pages: seq<CMSPage>)
    | SettingsBody(settings: Settings)
    | SubmissionBody(submission: ContactSubmission)
    | SubmissionsBody(submissions: seq<ContactSubmission>)
    | NoBody                                    // `res.status(204).send()`

  datatype Response = Response(status: int, body: Body)
}
