/** Route admission for the application shell: while the session probe is
    pending only a loading message renders; afterwards each route either
    renders its page or redirects, as a pure function of the identity. */
module Routes {
  import opened Http
  import opened Records
  import opened UserContext

  datatype Route =
    | Landing | Login | Register | Home | About | HealingMoments
    | Plants | PlantDetail(plantId: string)
    | Courses | CourseDetail(courseId: string)
    | Blog | BlogDetail(postId: string)
    | Profile
    | Recipes | RecipeDetail(recipeId: string)
    | AdminDashboard | AdminBlogPosts | AdminPlants | AdminRecipes | AdminCourses | AdminUsers

  datatype Screen = LoadingMessage | Render(page: Route) | Redirect(target: Route)

  /** Routes open to everyone. */
  predicate IsPublic(r: Route) {
    r.Landing? || r.About?
  }

  /** Routes only a visitor who is not logged in sees (`/login`, `/register`). */
  predicate IsGuestOnly(r: Route) {
    r.Login? || r.Register?
  }

  /** The administration routes under `/admin`. */
  predicate IsAdminRoute(r: Route) {
    r.AdminDashboard? || r.AdminBlogPosts? || r.AdminPlants? || r.AdminRecipes?
    || r.AdminCourses? || r.AdminUsers?
  }

  /** Every other route is wrapped in `PrivateRoute`. */
  predicate IsPrivate(r: Route) {
    !IsPublic(r) && !IsGuestOnly(r)
  }

  /** `PrivateRoute`: the child when somebody is logged in, else `/login`. */
  function PrivateRoute(user: Option<User>, r: Route): (sc: Screen)
    ensures sc == Render(r) <==> user.Some?
    ensures user.None? ==> sc == Redirect(Login)
  {
    if user.Some? then Render(r) else Redirect(Login)
  }

  /** What the shell shows for route `r` in session `s`. */
  function Decide(s: Session, r: Route): (sc: Screen)
    ensures s.loading <==> sc == LoadingMessage
    ensures !s.loading && IsPublic(r) ==> sc == Render(r)
    ensures !s.loading && IsGuestOnly(r) ==> (sc == Render(r) <==> s.user.None?)
    ensures !s.loading && IsGuestOnly(r) && s.user.Some? ==> sc == Redirect(Home)
    ensures !s.loading && IsPrivate(r) ==> (sc == Render(r) <==> s.user.Some?)
    ensures !s.loading && IsPrivate(r) && s.user.None? ==> sc == Redirect(Login)
  {
    if s.loading then LoadingMessage
    else if IsPublic(r) then Render(r)
    else if IsGuestOnly(r) then (if s.user.None? then Render(r) else Redirect(Home))
    else PrivateRoute(s.user, r)
  }

  /** The administration routes are gated on "logged in" alone: two
      identities that differ only in their admin flags are admitted alike. */
  lemma AdminRoutesIgnoreAdminFlag(s: Session, u: User, r: Route)
    requires IsAdminRoute(r) && !s.loading
    ensures Decide(s.(user := Some(u)), r) == Render(r)
    ensures Decide(s.(user := Some(u.(admin := !u.admin, isAdmin := !u.isAdmin))), r)
         == Decide(s.(user := Some(u)), r)
  {
  }

  /** A failed start-up probe sends every private route to `/login`. */
  lemma FailedProbeRedirects(resp: Response<User, ()>, r: Route)
    requires !resp.Ok? && IsPrivate(r)
    ensures Decide(Probe(Init(), resp), r) == Redirect(Login)
  {
  }
}
