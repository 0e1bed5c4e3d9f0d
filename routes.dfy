/** The route table of `src/App.tsx` and the redirects it chains: `/` to
    the login page, the auth layout around the login pages, the two
    `ProtectedRoute` groups and the catch-all 404 page. */
module Routes {
  import opened Common
  import opened Auth
  import opened AuthLayout
  import opened NotFound

  datatype Route = Root | AuthPage | StudentPage | AdminPage | Missing

  /** The `/course/:id` pattern: one non-empty segment after `/course/`. */
  predicate IsCourseDetail(path: string)
  {
    |path| > 8 && path[..8] == "/course/" && forall i :: 8 <= i < |path| ==> path[i] != '/'
  }

  function RouteOf(path: string): Route
  {
    if path == "/" then Root
    else if path in {"/login", "/register", "/forgot-password"} then AuthPage
    else if path in {"/dashboard", "/courses", "/my-courses", "/profile", "/certificates"} || IsCourseDetail(path) then StudentPage
    else if path in {"/admin", "/admin/courses", "/admin/users", "/admin/enrollments", "/admin/reports"} then AdminPage
    else Missing
  }

  /** What the router puts on screen for one path. */
  datatype Screen = Loading | Redirect(to: string) | Show

  function FromGuard(g: Guarded): Screen
  {
    match g
    case Placeholder => Loading
    case RedirectTo(p) => Redirect(p)
    case RenderChildren => Show
  }

  function Resolve(s: AuthState, path: string): Screen
  {
    match RouteOf(path)
    case Root => Redirect("/login")
    case AuthPage =>
      (match AuthLayoutRedirect(s.user) case Some(p) => Redirect(p) case None => Show)
    case StudentPage => FromGuard(ProtectedRoute(s.loading, s.user, Some(User)))
    case AdminPage => FromGuard(ProtectedRoute(s.loading, s.user, Some(Admin)))
    case Missing => Show
  }

  datatype Landing = Landing(path: string, screen: Screen)

  /** Follow at most `hops` redirects from `path`. */
  function Follow(s: AuthState, path: string, hops: nat): Landing
    decreases hops
  {
    var sc := Resolve(s, path);
    if sc.Redirect? && hops > 0 then Follow(s, sc.to, hops - 1) else Landing(path, sc)
  }

  /** Once loading is over, every path settles within three redirects on a
      page that is shown, and that page is either the one asked for or the
      home page of whoever is signed in. The longest chain is a student
      asking for an admin page: `/`, then `/login`, then `/dashboard`. */
  lemma {:induction false} RedirectsSettle(s: AuthState, path: string)
    requires !s.loading
    ensures Follow(s, path, 3).screen.Show?
    ensures Follow(s, path, 3).path == path || Follow(s, path, 3).path == HomePath(s.user)
  {
    var home := HomePath(s.user);
    assert RouteOf("/") == Root;
    assert RouteOf("/login") == AuthPage;
    assert "/dashboard"[1] == 'd' && RouteOf("/dashboard") == StudentPage;
    assert !IsCourseDetail("/admin") && RouteOf("/admin") == AdminPage;
    assert Resolve(s, home) == Show;
  }

  /** The literal mismatch redirect: a signed-in student who opens an admin
      page is sent to `/`, not straight to `/dashboard`. */
  lemma StudentOnAdminPage(s: AuthState)
    requires !s.loading && s.user.Some? && s.user.value.role == User
    ensures Resolve(s, "/admin") == Redirect("/")
    ensures Resolve(s, "/") == Redirect("/login")
  {
    assert RouteOf("/admin") == AdminPage;
  }

  /** While the session is loading, guarded pages show a placeholder and
      never redirect. */
  lemma LoadingNeverRedirects(s: AuthState, path: string)
    requires s.loading
    requires RouteOf(path) == StudentPage || RouteOf(path) == AdminPage
    ensures Resolve(s, path) == Loading
  {
  }
}
