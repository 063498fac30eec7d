/** The request layer: which call each page makes, with which body. The transport itself is
    not modelled; a request is a value, answered by the server model in `Server`. */
module Api {
  import opened Base
  import opened Entities
  import opened JsNumbers

  /** A value in a multipart body: text, or a file sent as a file part. */
  datatype FormValue = TextPart(text: string) | FilePart(file: FileHandle)

  datatype FormEntry = FormEntry(name: string, value: FormValue)

  /** `fd.append('image', image)`: a `File` goes as a file part, a string as text. */
  function ImagePart(image: Image): FormValue {
    match image
    case Url(u) => TextPart(u)
    case Upload(f) => FilePart(f)
  }

  /** An error thrown on the client before any request leaves it. */
  datatype ClientError = TypeError(message: string)

  /** What `createScreenshot` is handed: an image and, when the caller supplies one, the
      numeric id of the owning project. */
  datatype ScreenshotUpload = ScreenshotUpload(image: Image, project: Option<int>)

  /** The multipart body `createScreenshot` builds: exactly the fields `image` and `project`,
      in that order, the project id written as `project.toString()` does. Without a project,
      `screenshot.project.toString()` throws and no request is made. */
  function ScreenshotForm(s: ScreenshotUpload): (r: Result<seq<FormEntry>, ClientError>)
    ensures r.Failure? <==> s.project.None?
    ensures r.Success? ==>
              && |r.value| == 2
              && r.value[0] == FormEntry("image", ImagePart(s.image))
              && r.value[1].name == "project"
              && r.value[1].value == TextPart(NumberToString(s.project.value))
  {
    match s.project
    case None => Failure(TypeError("Cannot read properties of undefined (reading 'toString')"))
    case Some(p) => Success([FormEntry("image", ImagePart(s.image)), FormEntry("project", TextPart(NumberToString(p)))])
  }

  /** The server reads the owner back from the `project` field: the written id parses to
      the project id. */
  lemma ScreenshotFormOwnerReadsBack(s: ScreenshotUpload)
    requires s.project.Some?
    ensures ScreenshotForm(s).Success?
    ensures ParseInt(ScreenshotForm(s).value[1].value.text) == Int(s.project.value)
  {
    ParseIntInvertsNumberToString(s.project.value);
  }

  /** The body the screenshot upload evidently intends when there is no owner yet: the
      `project` field is left out instead of throwing. */
  function ScreenshotFormOptionalOwner(s: ScreenshotUpload): (r: seq<FormEntry>)
    ensures |r| >= 1 && r[0] == FormEntry("image", ImagePart(s.image))
    ensures s.project.None? ==> |r| == 1
  {
    match s.project
    case None => [FormEntry("image", ImagePart(s.image))]
    case Some(p) => [FormEntry("image", ImagePart(s.image)), FormEntry("project", TextPart(NumberToString(p)))]
  }

  /** Where the owner is known, the lenient body is exactly the one `createScreenshot` builds. */
  lemma OptionalOwnerAgreesWhenOwned(s: ScreenshotUpload)
    requires s.project.Some?
    ensures ScreenshotForm(s) == Success(ScreenshotFormOptionalOwner(s))
  {
  }

  /** The mutating calls the pages make. `Id` is the page's id type. */
  datatype Request<Id> =
    | CreateTechnology(name: string)
    | CreateScreenshot(form: seq<FormEntry>)
    | CreateProject(project: Inputs<Id>)
    | UpdateProject(id: Id, project: Inputs<Id>)
    | DeleteProject(id: Id)
  {
    /** A request that saves the project itself. */
    predicate Persists() {
      CreateProject? || UpdateProject?
    }
  }

  /** Which screenshot body the pages build: the one `createScreenshot` builds, or the one
      that leaves out a missing owner. */
  datatype UploadMode = AsWritten | OptionalOwner

  /** The request a screenshot upload sends, or the error it throws before sending. */
  function ScreenshotRequest<Id>(u: ScreenshotUpload, mode: UploadMode): (r: Result<Request<Id>, ClientError>)
    ensures mode == OptionalOwner ==> r == Success(CreateScreenshot(ScreenshotFormOptionalOwner(u)))
    ensures mode == AsWritten ==> (r.Failure? <==> u.project.None?)
    ensures r.Success? ==> r.value.CreateScreenshot? && |r.value.form| >= 1 && r.value.form[0] == FormEntry("image", ImagePart(u.image))
  {
    match mode
    case OptionalOwner => Success(CreateScreenshot(ScreenshotFormOptionalOwner(u)))
    case AsWritten =>
      match ScreenshotForm(u)
      case Failure(e) => Failure(e)
      case Success(form) => Success(CreateScreenshot(form))
  }

  /** Query parameters of a list request; `None` is a parameter the call does not send. */
  datatype ListParams = ListParams(ids: Option<seq<int>>, ordering: Option<seq<string>>)

  /** A list argument with the `= []` default: an omitted argument is the empty list. */
  function OrEmpty<T>(given: Option<seq<T>>): (r: seq<T>)
    ensures given.None? ==> r == []
    ensures given.Some? ==> r == given.value
  {
    if given.Some? then given.value else []
  }

  /** `getTechnologies(ids = [])`: sends `ids` only. */
  function TechnologiesParams(ids: Option<seq<int>>): (p: ListParams)
    ensures ids.None? ==> p.ids == Some([])
    ensures ids.Some? ==> p.ids == ids
    ensures p.ordering.None?
  {
    ListParams(Some(OrEmpty(ids)), None)
  }

  /** `getCategories(ids = [])`: sends `ids` only. */
  function CategoriesParams(ids: Option<seq<int>>): (p: ListParams)
    ensures ids.None? ==> p.ids == Some([])
    ensures ids.Some? ==> p.ids == ids
    ensures p.ordering.None?
  {
    ListParams(Some(OrEmpty(ids)), None)
  }

  /** `getScreenshots(ids = [], ordering = [])`: sends both. */
  function ScreenshotsParams(ids: Option<seq<int>>, ordering: Option<seq<string>>): (p: ListParams)
    ensures ids.None? ==> p.ids == Some([])
    ensures ids.Some? ==> p.ids == ids
    ensures ordering.None? ==> p.ordering == Some([])
    ensures ordering.Some? ==> p.ordering == ordering
  {
    ListParams(Some(OrEmpty(ids)), Some(OrEmpty(ordering)))
  }

  /** `getProjects(ordering = [])`: sends `ordering` only. */
  function ProjectsParams(ordering: Option<seq<string>>): (p: ListParams)
    ensures ordering.None? ==> p.ordering == Some([])
    ensures ordering.Some? ==> p.ordering == ordering
    ensures p.ids.None?
  {
    ListParams(None, Some(OrEmpty(ordering)))
  }

  /** Leaving a list argument out sends the same request as passing an empty list. */
  lemma OmittedListsAreEmpty()
    ensures TechnologiesParams(None) == TechnologiesParams(Some([]))
    ensures CategoriesParams(None) == CategoriesParams(Some([]))
    ensures ScreenshotsParams(None, None) == ScreenshotsParams(Some([]), Some([]))
    ensures ProjectsParams(None) == ProjectsParams(Some([]))
  {
  }
}
