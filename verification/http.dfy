/** Values shared by every component: optional values, the outcome of one
    `fetch` as a component observes it, and the requests a component sends. */
module Http {

  /** A value that may be absent (`null` or `undefined` in the client). */
  datatype Option<+T> = None | Some(value: T)

  /** The outcome of one request as the client's promise chain sees it.
      `Ok` is a 2xx status whose body parsed; `Rejected` is a non-2xx status
      (with its parsed body, where the component reads it); `NetworkError`
      is any exception raised before the status branch runs (the request did
      not complete, or the body was not JSON), carrying the error's message. */
  datatype Response<+T, +E> = Ok(payload: T) | Rejected(body: E) | NetworkError(reason: string)

  datatype Method = GET | POST | PATCH | DELETE

  /** Request targets: a collection (`/plants`), one member of it
      (`/plants/7`), or an action on a member (`/users/7/deactivate`). */
  datatype Path =
    | CollectionPath(base: string)
    | MemberPath(base: string, id: int)
    | ActionPath(base: string, id: int, action: string)

  datatype Request<+B> = Request(verb: Method, path: Path, body: B)

  /** The save request every admin form sends: `PATCH base/id` for an
      existing record, `POST base` for a new one. */
  function SaveRequest<B>(base: string, existing: Option<int>, body: B): (req: Request<B>)
    ensures req.verb == PATCH <==> existing.Some?
    ensures req.verb == POST <==> existing.None?
    ensures existing.Some? ==> req.path == MemberPath(base, existing.value)
    ensures existing.None? ==> req.path == CollectionPath(base)
    ensures req.body == body
  {
    match existing
    case Some(id) => Request(PATCH, MemberPath(base, id), body)
    case None => Request(POST, CollectionPath(base), body)
  }

  /** A flash message of the Bootstrap kind (`success`, `danger`). */
  datatype Notice = Notice(kind: string, message: string)

  const NoNotice := Notice("", "")
}
