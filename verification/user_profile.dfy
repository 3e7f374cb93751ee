/** The profile page: edit username and email through `PATCH /me`, or
    deactivate the account through `DELETE /deactivate`. */
module UserProfile {
  import opened Http
  import opened Records
  import Routes
  import UserContext

  datatype Form = Form(username: string, email: string)

  /** The update body wraps the inputs under `user`. */
  datatype Envelope = Envelope(user: Form)

  /** What one settled request leaves behind: the identity, the status
      banner, whether a request went out, whether `handleLogout` was
      called, and where the page navigates. */
  datatype Outcome = Outcome(
    user: Option<User>,
    status: Notice,
    sent: bool,
    callsLogout: bool,
    navigateTo: Option<Routes.Route>)

  const Updated := Notice("success", "Profile updated!")
  const UpdateFailed := Notice("danger", "Failed to update profile.")
  const DeactivateFailed := Notice("danger", "Failed to deactivate account.")

  /** The inputs start from the identity's username and email, or "". */
  function InitForm(user: Option<User>): (f: Form)
    ensures user.Some? ==> f.username == user.value.username && f.email == user.value.email
    ensures user.None? ==> f == Form("", "")
  {
    match user
    case Some(u) => Form(u.username, u.email)
    case None => Form("", "")
  }

  /** The body of `PATCH /me`: `{user: {username, email}}`. */
  function UpdateRequest(f: Form): (req: Request<Envelope>)
    ensures req.verb == PATCH && req.path == CollectionPath("/me")
    ensures req.body.user.username == f.username && req.body.user.email == f.email
  {
    Request(PATCH, CollectionPath("/me"), Envelope(f))
  }

  /** `handleUpdate` settles: a 2xx replaces the identity with the response;
      anything else keeps it and shows the danger banner. */
  function Update(user: Option<User>, status: Notice, resp: Response<User, ()>): (r: Outcome)
    ensures resp.Ok? ==> r.user == Some(resp.payload) && r.status == Updated
    ensures !resp.Ok? ==> r.user == user && r.status == UpdateFailed
    ensures r.sent && !r.callsLogout && r.navigateTo.None?
  {
    if resp.Ok? then Outcome(Some(resp.payload), Updated, true, false, None)
    else Outcome(user, UpdateFailed, true, false, None)
  }

  /** `handleDeactivate`: nothing is sent unless confirmed; a 2xx clears the
      identity, calls `handleLogout` and navigates to `/`; a failure keeps
      the identity and shows the danger banner. */
  function Deactivate(user: Option<User>, status: Notice, confirmed: bool, resp: Response<(), ()>): (r: Outcome)
    ensures !confirmed ==> r == Outcome(user, status, false, false, None)
    ensures confirmed && resp.Ok? ==>
      r.user.None? && r.callsLogout && r.navigateTo == Some(Routes.Landing) && r.status == status
    ensures confirmed && !resp.Ok? ==>
      r.user == user && r.status == DeactivateFailed && !r.callsLogout && r.navigateTo.None?
    ensures r.sent == confirmed
  {
    if !confirmed then Outcome(user, status, false, false, None)
    else if resp.Ok? then Outcome(None, status, true, true, Some(Routes.Landing))
    else Outcome(user, DeactivateFailed, true, false, None)
  }

  /** After a successful deactivation the session ends logged out whatever
      the follow-up `/logout` returns, and `/` stays reachable. */
  lemma DeactivateEndsSession(s: UserContext.Session, status: Notice, resp: Response<(), ()>, out: Response<(), ()>)
    requires resp.Ok? && !s.loading
    ensures var d := Deactivate(s.user, status, true, resp);
      var after := UserContext.Logout(UserContext.SetUser(s, d.user), out);
      after.user.None? && Routes.Decide(after, Routes.Landing) == Routes.Render(Routes.Landing)
      && Routes.Decide(after, Routes.Profile) == Routes.Redirect(Routes.Login)
  {
  }
}
