/** The user form: username, email, admin flag and an optional password,
    submitted wrapped under `user`. */
module UserAdminForm {
  import opened Http
  import opened Records
  import opened Manager

  datatype Fields = Fields(username: string, email: string, admin: bool, password: string, passwordConfirmation: string)

  /** The `user` object sent: the password keys are present or absent. */
  datatype Payload = Payload(
    username: string,
    email: string,
    admin: bool,
    password: Option<string>,
    passwordConfirmation: Option<string>)

  datatype Envelope = Envelope(user: Payload)

  const Base := "/users"

  predicate IsEditing(user: Option<User>) {
    user.Some?
  }

  /** Inputs start from the user; the password inputs always start empty. */
  function InitFields(user: Option<User>): (f: Fields)
    ensures f.password == "" && f.passwordConfirmation == ""
    ensures user.Some? ==> f.username == user.value.username && f.email == user.value.email && f.admin == user.value.admin
    ensures user.None? ==> f.username == "" && f.email == "" && !f.admin
  {
    match user
    case Some(u) => Fields(u.username, u.email, u.admin, "", "")
    case None => Fields("", "", false, "", "")
  }

  /** The payload always has `username`, `email` and `admin`; both password
      keys are added iff the password is non-empty, the confirmation even
      when it is empty. */
  function BuildPayload(f: Fields): (p: Payload)
    ensures p.username == f.username && p.email == f.email && p.admin == f.admin
    ensures p.password.Some? <==> f.password != ""
    ensures p.passwordConfirmation.Some? <==> f.password != ""
    ensures p.password.Some? ==> p.password.value == f.password && p.passwordConfirmation.value == f.passwordConfirmation
  {
    if f.password != "" then Payload(f.username, f.email, f.admin, Some(f.password), Some(f.passwordConfirmation))
    else Payload(f.username, f.email, f.admin, None, None)
  }

  /** `handleSubmit`: `PATCH /users/{id}` when editing, else `POST /users`. */
  function SubmitRequest(user: Option<User>, f: Fields): (req: Request<Envelope>)
    ensures IsEditing(user) ==> req.verb == PATCH && req.path == MemberPath(Base, user.value.id)
    ensures !IsEditing(user) ==> req.verb == POST && req.path == CollectionPath(Base)
    ensures req.body.user == BuildPayload(f)
  {
    SaveRequest(Base, if user.Some? then Some(user.value.id) else None, Envelope(BuildPayload(f)))
  }

  /** Only a 2xx reaches `onSuccess(data, isEditing)`; a failure alerts. */
  function SubmitSettled(user: Option<User>, resp: Response<User, ()>): (r: Settled<User>)
    ensures r.Notify? <==> resp.Ok?
    ensures resp.Ok? ==> r == Notify(Callback(Some(resp.payload), IsEditing(user)))
    ensures resp.Rejected? ==> r == Alert("Failed to save user")
    ensures resp.NetworkError? ==> r == Alert(resp.reason)
  {
    match resp
    case Ok(d) => Notify(Callback(Some(d), IsEditing(user)))
    case Rejected(_) => Alert("Failed to save user")
    case NetworkError(m) => Alert(m)
  }

  /** An edit saved on a freshly mounted form without touching the password
      inputs sends no password. */
  lemma UntouchedEditSendsNoPassword(u: User)
    ensures var p := SubmitRequest(Some(u), InitFields(Some(u))).body.user;
      p.password.None? && p.passwordConfirmation.None?
  {
  }
}
