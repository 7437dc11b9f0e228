/** The client's route table and its two guards (client/src/App.js). */
module AppRoutes {
  import opened AuthContext

  datatype Page = LoginPage | RegisterPage | DashboardPage | TransactionsPage | AnalyticsPage | ProfilePage

  /** What a route renders: the spinner, a redirect, the access-denied notice, or a page. */
  datatype Screen = Spinner | Redirect(path: string) | AccessDenied | Show(page: Page)

  /** `ProtectedRoute`: its checks in order, then the wrapped element. */
  function ProtectedRoute(s: AuthState, requireEdit: bool, inner: Screen): (r: Screen)
    ensures s.loading ==> r == Spinner
    ensures !s.loading && !s.isAuthenticated ==> r == Redirect("/login")
    ensures r == AccessDenied <==> !s.loading && s.isAuthenticated && ((requireEdit && !CanEdit(s)) || inner == AccessDenied)
    ensures !s.loading && s.isAuthenticated && (!requireEdit || CanEdit(s)) ==> r == inner
  {
    if s.loading then Spinner
    else if !s.isAuthenticated then Redirect("/login")
    else if requireEdit && !CanEdit(s) then AccessDenied
    else inner
  }

  /** `PublicRoute`. */
  function PublicRoute(s: AuthState, inner: Screen): (r: Screen)
    ensures s.loading ==> r == Spinner
    ensures !s.loading && s.isAuthenticated ==> r == Redirect("/dashboard")
    ensures !s.loading && !s.isAuthenticated ==> r == inner
  {
    if s.loading then Spinner
    else if s.isAuthenticated then Redirect("/dashboard")
    else inner
  }

  /** The route table: `/login` and `/register` behind `PublicRoute`; the layout at `/` behind
      `ProtectedRoute` with its index redirecting to `/dashboard`; the transactions page behind a
      second `ProtectedRoute` that does not ask for edit rights; anything else to `/dashboard`. */
  function Resolve(s: AuthState, path: string): Screen {
    if path == "/login" then PublicRoute(s, Show(LoginPage))
    else if path == "/register" then PublicRoute(s, Show(RegisterPage))
    else if path == "/" then ProtectedRoute(s, false, Redirect("/dashboard"))
    else if path == "/dashboard" then ProtectedRoute(s, false, Show(DashboardPage))
    else if path == "/transactions" then ProtectedRoute(s, false, ProtectedRoute(s, false, Show(TransactionsPage)))
    else if path == "/analytics" then ProtectedRoute(s, false, Show(AnalyticsPage))
    else if path == "/profile" then ProtectedRoute(s, false, Show(ProfilePage))
    else Redirect("/dashboard")
  }

  predicate IsPublicPage(p: Page) {
    p == LoginPage || p == RegisterPage
  }

  /** Pages behind the layout appear only to a signed-in user once loading is over; the login
      and register pages only to a signed-out one. */
  lemma PagesNeedTheRightState(s: AuthState, path: string)
    ensures Resolve(s, path).Show? && !IsPublicPage(Resolve(s, path).page) ==> !s.loading && s.isAuthenticated
    ensures Resolve(s, path).Show? && IsPublicPage(Resolve(s, path).page) ==> !s.loading && !s.isAuthenticated
    ensures Resolve(s, path) == Spinner <==> s.loading && path in {"/login", "/register", "/", "/dashboard", "/transactions", "/analytics", "/profile"}
  {
  }

  /** No route asks for edit rights, so no path ever renders the access-denied notice, and a
      read-only user reaches the transactions page. */
  lemma NoRouteDeniesAccess(s: AuthState, path: string)
    ensures Resolve(s, path) != AccessDenied
    ensures !s.loading && s.isAuthenticated ==> Resolve(s, "/transactions") == Show(TransactionsPage)
  {
  }

  /** The index route and every unknown path lead to `/dashboard`. */
  lemma UnknownPathsGoToDashboard(s: AuthState, path: string)
    requires path !in {"/login", "/register", "/", "/dashboard", "/transactions", "/analytics", "/profile"}
    ensures Resolve(s, path) == Redirect("/dashboard")
    ensures !s.loading && s.isAuthenticated ==> Resolve(s, "/") == Redirect("/dashboard")
  {
  }

  /** The screen reached by following at most `hops` redirects. */
  function Follow(s: AuthState, path: string, hops: nat): Screen
    decreases hops
  {
    var r := Resolve(s, path);
    if r.Redirect? && hops > 0 then Follow(s, r.path, hops - 1) else r
  }

  /** Redirects never loop: once loading is over, every path settles on a page within two
      redirects (a signed-in user on the dashboard or the page asked for, a signed-out user on
      the page asked for when it is public and on the login page otherwise). */
  lemma RedirectsSettle(s: AuthState, path: string)
    requires !s.loading
    ensures Follow(s, path, 2).Show?
    ensures s.isAuthenticated ==> !IsPublicPage(Follow(s, path, 2).page)
    ensures !s.isAuthenticated ==> IsPublicPage(Follow(s, path, 2).page)
  {
    var r := Resolve(s, path);
    if r.Redirect? {
      assert r.path == "/login" || r.path == "/dashboard";
    }
  }

  /** After a successful profile update the auth state stays loading, so every guarded page,
      the profile page included, shows the spinner until the app reloads. */
  lemma ProfileUpdateLeavesSpinner(s: AuthState, fields: User, path: string)
    requires path in {"/login", "/register", "/", "/dashboard", "/transactions", "/analytics", "/profile"}
    ensures Resolve(UpdateProfile(s, fields), path) == Spinner
  {
    UpdateProfileStaysLoading(s, fields);
  }

  /** With the corrected reducer, a signed-in user stays on the profile page after the update. */
  lemma CorrectedProfileUpdateShowsProfile(s: AuthState, fields: User)
    requires s.isAuthenticated
    ensures Resolve(UpdateProfileCorrected(s, fields), "/profile") == Show(ProfilePage)
  {
    UpdateProfileCorrectedSettles(s, fields);
  }
}
