/** The course form: creates or edits a course, and in edit mode offers a
    delete that reports back with `onSuccess(null)`. */
module CourseAdminForm {
  import opened Http
  import opened Records
  import opened Manager

  /** The five inputs; also the exact request body. */
  datatype Fields = Fields(title: string, description: string, imageUrl: string, requiresPurchase: bool, price: string)

  const Base := "/courses"
  const DefaultPrice := "0.0"

  predicate IsEditing(course: Option<Course>) {
    course.Some?
  }

  /** Inputs start from the course, with "" for missing text, `false` for
      the purchase flag and "0.0" for a missing price. */
  function InitFields(course: Option<Course>): (f: Fields)
    ensures course.None? ==> f == Fields("", "", "", false, DefaultPrice)
    ensures course.Some? ==>
      && f.title == course.value.title
      && f.description == course.value.description
      && f.imageUrl == course.value.imageUrl
      && f.requiresPurchase == course.value.requiresPurchase
    ensures course.Some? && course.value.price != "" ==> f.price == course.value.price
    ensures f.price != ""
  {
    match course
    case Some(c) => Fields(c.title, c.description, c.imageUrl, c.requiresPurchase, if c.price != "" then c.price else DefaultPrice)
    case None => Fields("", "", "", false, DefaultPrice)
  }

  /** `handleSubmit`: `PATCH /courses/{id}` when editing, else `POST /courses`. */
  function SubmitRequest(course: Option<Course>, f: Fields): (req: Request<Fields>)
    ensures IsEditing(course) ==> req.verb == PATCH && req.path == MemberPath(Base, course.value.id)
    ensures !IsEditing(course) ==> req.verb == POST && req.path == CollectionPath(Base)
    ensures req.body == f
  {
    SaveRequest(Base, if course.Some? then Some(course.value.id) else None, f)
  }

  /** Only a 2xx reaches `onSuccess(data, isEditing)`; a failure alerts. */
  function SubmitSettled(course: Option<Course>, resp: Response<Course, ()>): (r: Settled<Course>)
    ensures r.Notify? <==> resp.Ok?
    ensures resp.Ok? ==> r == Notify(Callback(Some(resp.payload), IsEditing(course)))
    ensures resp.Rejected? ==> r == Alert("Error saving course")
    ensures resp.NetworkError? ==> r == Alert(resp.reason)
  {
    match resp
    case Ok(d) => Notify(Callback(Some(d), IsEditing(course)))
    case Rejected(_) => Alert("Error saving course")
    case NetworkError(m) => Alert(m)
  }

  /** The delete request: sent only in edit mode and when confirmed. */
  function DeleteRequest(course: Option<Course>, confirmed: bool): (req: Option<Request<()>>)
    ensures req.Some? <==> IsEditing(course) && confirmed
    ensures req.Some? ==> req.value == Request(DELETE, MemberPath(Base, course.value.id), ())
  {
    if IsEditing(course) && confirmed then Some(Request(DELETE, MemberPath(Base, course.value.id), ())) else None
  }

  /** A 2xx delete calls `onSuccess(null)` with no edit flag; a failure alerts. */
  function DeleteSettled(course: Option<Course>, confirmed: bool, resp: Response<(), ()>): (r: Settled<Course>)
    ensures DeleteRequest(course, confirmed).None? ==> r == Silent
    ensures DeleteRequest(course, confirmed).Some? && resp.Ok? ==> r == Notify(Callback(None, false))
    ensures DeleteRequest(course, confirmed).Some? && resp.Rejected? ==> r == Alert("Error deleting course")
    ensures DeleteRequest(course, confirmed).Some? && resp.NetworkError? ==> r == Alert(resp.reason)
  {
    if !(IsEditing(course) && confirmed) then Silent
    else match resp
      case Ok(_) => Notify(Callback(None, false))
      case Rejected(_) => Alert("Error deleting course")
      case NetworkError(m) => Alert(m)
  }
}
