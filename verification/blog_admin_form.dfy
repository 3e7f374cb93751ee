/** The blog post form: creates or edits a post, and in edit mode offers a
    delete that reports back with `onSuccess(null)`. */
module BlogAdminForm {
  import opened Http
  import opened Records
  import opened Manager

  /** The three inputs; also the exact request body (`image_url` on the wire). */
  datatype Fields = Fields(title: string, imageUrl: string, body: string)

  const Base := "/blog_posts"

  /** Edit mode holds iff a post was passed in. */
  predicate IsEditing(post: Option<Post>) {
    post.Some?
  }

  /** Inputs start from the post's attributes, or "" when creating. */
  function InitFields(post: Option<Post>): (f: Fields)
    ensures post.Some? ==> f == Fields(post.value.title, post.value.imageUrl, post.value.body)
    ensures post.None? ==> f == Fields("", "", "")
  {
    match post
    case Some(p) => Fields(p.title, p.imageUrl, p.body)
    case None => Fields("", "", "")
  }

  /** `handleSubmit`: `PATCH /blog_posts/{id}` when editing, else
      `POST /blog_posts`, with the three fields unwrapped. */
  function SubmitRequest(post: Option<Post>, f: Fields): (req: Request<Fields>)
    ensures IsEditing(post) ==> req.verb == PATCH && req.path == MemberPath(Base, post.value.id)
    ensures !IsEditing(post) ==> req.verb == POST && req.path == CollectionPath(Base)
    ensures req.body == f
  {
    SaveRequest(Base, if post.Some? then Some(post.value.id) else None, f)
  }

  /** The save settles: only a 2xx reaches `onSuccess(data, isEditing)`;
      a failure alerts its message instead. */
  function SubmitSettled(post: Option<Post>, resp: Response<Post, ()>): (r: Settled<Post>)
    ensures r.Notify? <==> resp.Ok?
    ensures resp.Ok? ==> r == Notify(Callback(Some(resp.payload), IsEditing(post)))
    ensures resp.Rejected? ==> r == Alert("Error saving post")
    ensures resp.NetworkError? ==> r == Alert(resp.reason)
  {
    match resp
    case Ok(d) => Notify(Callback(Some(d), IsEditing(post)))
    case Rejected(_) => Alert("Error saving post")
    case NetworkError(m) => Alert(m)
  }

  /** The form's delete request: sent only in edit mode and when confirmed. */
  function DeleteRequest(post: Option<Post>, confirmed: bool): (req: Option<Request<()>>)
    ensures req.Some? <==> IsEditing(post) && confirmed
    ensures req.Some? ==> req.value == Request(DELETE, MemberPath(Base, post.value.id), ())
  {
    if IsEditing(post) && confirmed then Some(Request(DELETE, MemberPath(Base, post.value.id), ())) else None
  }

  /** The form's delete settles: a 2xx calls `onSuccess(null)` with no edit
      flag; a failure alerts. */
  function DeleteSettled(post: Option<Post>, confirmed: bool, resp: Response<(), ()>): (r: Settled<Post>)
    ensures DeleteRequest(post, confirmed).None? ==> r == Silent
    ensures DeleteRequest(post, confirmed).Some? && resp.Ok? ==> r == Notify(Callback(None, false))
    ensures DeleteRequest(post, confirmed).Some? && resp.Rejected? ==> r == Alert("Error deleting post")
    ensures DeleteRequest(post, confirmed).Some? && resp.NetworkError? ==> r == Alert(resp.reason)
  {
    if !(IsEditing(post) && confirmed) then Silent
    else match resp
      case Ok(_) => Notify(Callback(None, false))
      case Rejected(_) => Alert("Error deleting post")
      case NetworkError(m) => Alert(m)
  }

  /** Submitting an untouched edit on a freshly mounted form sends the
      post's own attributes back. */
  lemma UntouchedEditResends(p: Post)
    ensures SubmitRequest(Some(p), InitFields(Some(p))) ==
      Request(PATCH, MemberPath(Base, p.id), Fields(p.title, p.imageUrl, p.body))
  {
  }

  /** The inputs are set only when the form mounts. If the page switches the
      form to post `b` (or to creating) while it is shown, the inputs still
      hold what the first mount gave them, yet the request follows `b`: an
      untouched save writes the earlier record's fields into `b`. */
  lemma StaleInputsOnSwitch(mounted: Option<Post>, b: Post)
    ensures SubmitRequest(Some(b), InitFields(mounted)) ==
      Request(PATCH, MemberPath(Base, b.id), InitFields(mounted))
    ensures mounted.Some? ==> SubmitRequest(Some(b), InitFields(mounted)).body.title == mounted.value.title
  {
  }
}
