/** The session context: the current identity (`user`, absent when nobody
    is logged in) and the `loading` flag that is true until the start-up
    `/me` probe has settled. */
module UserContext {
  import opened Http
  import opened Records

  datatype Session = Session(user: Option<User>, loading: bool)

  /** The context before the probe has answered. */
  function Init(): (s: Session)
    ensures s.user.None? && s.loading
  {
    Session(None, true)
  }

  /** The `/me` probe settles: a 2xx body becomes the identity; a non-2xx
      status or any failure resolves to "nobody logged in". Either way the
      loading phase ends, so the gate never stays in an error state. */
  function Probe(s: Session, resp: Response<User, ()>): (r: Session)
    ensures !r.loading
    ensures r.user.Some? <==> resp.Ok?
    ensures resp.Ok? ==> r.user == Some(resp.payload)
  {
    match resp
    case Ok(u) => Session(Some(u), false)
    case Rejected(_) => Session(None, false)
    case NetworkError(_) => Session(None, false)
  }

  /** `DELETE /logout`: only a 2xx clears the identity; a refusal or a
      network failure is logged and leaves the session as it was. */
  function Logout(s: Session, resp: Response<(), ()>): (r: Session)
    ensures resp.Ok? ==> r.user.None?
    ensures !resp.Ok? ==> r == s
    ensures r.loading == s.loading
  {
    if resp.Ok? then s.(user := None) else s
  }

  /** `setUser`, handed to consumers through the context: replaces the
      identity wholesale and touches nothing else. */
  function SetUser(s: Session, u: Option<User>): (r: Session)
    ensures r.user == u && r.loading == s.loading
  {
    s.(user := u)
  }

  /** Whatever the probe returns, a logout the server accepts ends logged out. */
  lemma ProbeThenLogout(resp: Response<User, ()>, out: Response<(), ()>)
    ensures var s := Logout(Probe(Init(), resp), out);
      !s.loading && (out.Ok? || resp.Rejected? || resp.NetworkError? ==> s.user.None?)
  {
  }

  /** Logging out twice with accepted responses is the same as once. */
  lemma LogoutIdempotent(s: Session, a: Response<(), ()>, b: Response<(), ()>)
    requires a.Ok?
    ensures Logout(Logout(s, a), b) == Logout(s, a)
  {
  }
}
