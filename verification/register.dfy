/** The registration form: four controlled inputs and a submission whose
    2xx body carries the new identity under `user`. */
module Register {
  import opened Http
  import opened Records
  import Routes

  datatype Field = Username | Email | Password | PasswordConfirmation

  datatype Form = Form(username: string, email: string, password: string, passwordConfirmation: string)

  /** The 2xx body; `user` may be missing. */
  datatype Created = Created(user: Option<User>)

  /** The non-2xx body; `errors` may be missing. */
  datatype Refusal = Refusal(errors: Option<seq<string>>)

  datatype Submitted = Submitted(user: Option<User>, errors: seq<string>)

  const SomethingWentWrong := "Something went wrong"

  const EmptyForm := Form("", "", "", "")

  function Get(f: Form, name: Field): string {
    match name
    case Username => f.username
    case Email => f.email
    case Password => f.password
    case PasswordConfirmation => f.passwordConfirmation
  }

  /** A logged-in visitor is redirected home. */
  function Screen(user: Option<User>): (sc: Routes.Screen)
    ensures sc.Redirect? <==> user.Some?
    ensures user.Some? ==> sc == Routes.Redirect(Routes.Home)
  {
    if user.Some? then Routes.Redirect(Routes.Home) else Routes.Render(Routes.Register)
  }

  /** `handleChange`: the input named `name` takes `value`; the others keep theirs. */
  function HandleChange(f: Form, name: Field, value: string): (r: Form)
    ensures Get(r, name) == value
    ensures forall other: Field :: other != name ==> Get(r, other) == Get(f, other)
  {
    match name
    case Username => f.(username := value)
    case Email => f.(email := value)
    case Password => f.(password := value)
    case PasswordConfirmation => f.(passwordConfirmation := value)
  }

  /** `handleSubmit` settles: errors start empty; a 2xx installs `data.user`
      (which may be absent), a refusal shows `data.errors` (an array is
      truthy even when empty) or the fallback, and any exception shows the
      fallback. */
  function Submit(user: Option<User>, resp: Response<Created, Refusal>): (r: Submitted)
    ensures resp.Ok? ==> r.user == resp.payload.user && r.errors == []
    ensures !resp.Ok? ==> r.user == user
    ensures resp.Rejected? && resp.body.errors.Some? ==> r.errors == resp.body.errors.value
    ensures resp.Rejected? && resp.body.errors.None? ==> r.errors == [SomethingWentWrong]
    ensures resp.NetworkError? ==> r.errors == [SomethingWentWrong]
  {
    match resp
    case Ok(c) => Submitted(c.user, [])
    case Rejected(b) =>
      Submitted(user, match b.errors { case Some(es) => es case None => [SomethingWentWrong] })
    case NetworkError(_) => Submitted(user, [SomethingWentWrong])
  }

  /** Typing into one field and then another reaches the same form in
      either order. */
  lemma ChangesCommute(f: Form, a: Field, va: string, b: Field, vb: string)
    requires a != b
    ensures HandleChange(HandleChange(f, a, va), b, vb) == HandleChange(HandleChange(f, b, vb), a, va)
  {
  }

  /** A 2xx body without `user` leaves the visitor on the form, with no
      error shown: registration looks like it did nothing. */
  lemma MissingUserStaysOnForm(user: Option<User>)
    requires user.None?
    ensures var r := Submit(user, Ok(Created(None)));
      Screen(r.user) == Routes.Render(Routes.Register) && r.errors == []
  {
  }
}
