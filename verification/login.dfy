/** The login form: a submission clears the previous error, sends the
    credentials, and on success installs the whole response body as the
    identity and navigates home. */
module Login {
  import opened Http
  import opened Records
  import Routes

  /** The body of a refused login; `error` may be missing. */
  datatype ErrorBody = ErrorBody(error: Option<string>)

  /** The identity, the error line and the navigation after one submission. */
  datatype Submitted = Submitted(user: Option<User>, error: Option<string>, navigateTo: Option<Routes.Route>)

  const InvalidCredentials := "Invalid credentials"
  const SomethingWentWrong := "Something went wrong"

  /** A logged-in visitor is redirected home instead of seeing the form. */
  function Screen(user: Option<User>): (sc: Routes.Screen)
    ensures sc.Redirect? <==> user.Some?
    ensures user.Some? ==> sc == Routes.Redirect(Routes.Home)
    ensures user.None? ==> sc == Routes.Render(Routes.Login)
  {
    if user.Some? then Routes.Redirect(Routes.Home) else Routes.Render(Routes.Login)
  }

  /** The message shown for a refused login: the body's `error` when it is
      truthy, else the fixed fallback. */
  function RefusalMessage(b: ErrorBody): (m: string)
    ensures b.error.Some? && b.error.value != "" ==> m == b.error.value
    ensures b.error.None? || b.error.value == "" ==> m == InvalidCredentials
    ensures m != ""
  {
    match b.error
    case Some(e) => if e != "" then e else InvalidCredentials
    case None => InvalidCredentials
  }

  /** `handleSubmit` settles with response `resp`, the identity being `user`. */
  function Submit(user: Option<User>, resp: Response<User, ErrorBody>): (r: Submitted)
    ensures resp.Ok? <==> r.error.None?
    ensures resp.Ok? ==> r.user == Some(resp.payload) && r.navigateTo == Some(Routes.Home)
    ensures !resp.Ok? ==> r.user == user && r.navigateTo.None?
    ensures resp.Rejected? ==> r.error == Some(RefusalMessage(resp.body))
    ensures resp.NetworkError? ==> r.error == Some(SomethingWentWrong)
  {
    match resp
    case Ok(u) => Submitted(Some(u), None, Some(Routes.Home))
    case Rejected(b) => Submitted(user, Some(RefusalMessage(b)), None)
    case NetworkError(_) => Submitted(user, Some(SomethingWentWrong), None)
  }

  /** After a successful login the form is gone: the view redirects home. */
  lemma SuccessLeavesForm(user: Option<User>, resp: Response<User, ErrorBody>)
    requires resp.Ok?
    ensures Screen(Submit(user, resp).user) == Routes.Redirect(Routes.Home)
  {
  }
}
