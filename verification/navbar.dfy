/** The navigation bar: the member links and Log Out for a logged-in
    identity, an Admin Dashboard link for an admin, and Login, Register and
    About for a guest. */
module Navbar {
  import opened Http
  import opened Records

  datatype NavLink =
    | HomeLink | ProfileLink | PlantsLink | CoursesLink | BlogLink | RecipesLink
    | HealingMomentsLink | AboutLink | AdminLink | LogOutButton | LoginLink | RegisterLink

  const MemberLinks := [HomeLink, ProfileLink, PlantsLink, CoursesLink, BlogLink, RecipesLink, HealingMomentsLink, AboutLink]
  const GuestLinks := [LoginLink, RegisterLink, AboutLink]

  /** The entries of the bar, in display order. */
  function Links(user: Option<User>): (r: seq<NavLink>)
    ensures LogOutButton in r <==> user.Some?
    ensures HomeLink in r <==> user.Some?
    ensures AdminLink in r <==> user.Some? && user.value.admin
    ensures user.None? ==> r == GuestLinks
    ensures AboutLink in r
    ensures user.Some? ==> LoginLink !in r && RegisterLink !in r
  {
    match user
    case None => GuestLinks
    case Some(u) => MemberLinks + (if u.admin then [AdminLink] else []) + [LogOutButton]
  }

  /** The admin link reads `admin`, not `is_admin`: the plant lock gate's flag
      has no effect on the bar. */
  lemma AdminLinkIgnoresIsAdmin(u: User)
    ensures Links(Some(u.(isAdmin := !u.isAdmin))) == Links(Some(u))
  {
  }
}
