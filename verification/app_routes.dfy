/** The browser route table and its two guards. A path resolves to a spinner, a
    redirect or a page; a redirect replaces the location and the new path is resolved
    under the same auth state. Paths match exactly. */
module AppRoutes {
  import opened Wrappers
  import opened Identity
  import opened AuthStore
  import DataService

  datatype Page = LoginPage | RegisterPage | DashboardPage | CoursesPage | CohortsPage | ChatPage | AdminPage | MentorPanel

  datatype View = Spinner | Redirect(to: string) | Render(page: Page)

  /** `ProtectedRoute`: the loading spinner first, then the login redirect, then the
      role check, which only applies when a role list is given and a user is present. */
  function ProtectedRoute(auth: AuthState, roles: Option<seq<Role>>, page: Page): (v: View)
    ensures auth.isLoading ==> v == Spinner
    ensures !auth.isLoading && !auth.isAuthenticated ==> v == Redirect("/login")
    ensures !auth.isLoading && auth.isAuthenticated ==>
      (v == Redirect("/dashboard") <==> roles.Some? && auth.user.Some? && auth.user.value.role !in roles.value)
    ensures v.Redirect? || v.Spinner? || v == Render(page)
  {
    if auth.isLoading then Spinner
    else if !auth.isAuthenticated then Redirect("/login")
    else if roles.Some? && auth.user.Some? && auth.user.value.role !in roles.value then Redirect("/dashboard")
    else Render(page)
  }

  /** `PublicRoute`: the spinner while loading, the dashboard once authenticated,
      the page otherwise. */
  function PublicRoute(auth: AuthState, page: Page): (v: View)
    ensures auth.isLoading ==> v == Spinner
    ensures !auth.isLoading ==> (v == if auth.isAuthenticated then Redirect("/dashboard") else Render(page))
  {
    if auth.isLoading then Spinner
    else if auth.isAuthenticated then Redirect("/dashboard")
    else Render(page)
  }

  const AdminRoles: seq<Role> := [Admin]
  const MentorRoles: seq<Role> := [Mentor, Admin]

  /** The paths the route table lists. */
  const RoutePaths: set<string> :=
    {"/", "/login", "/register", "/dashboard", "/courses", "/cohorts", "/chat", "/admin", "/mentor"}

  /** The route table: every redirect it issues goes to the dashboard or the login
      page, a page is only rendered once the store has loaded, and a path the table
      does not list falls through to the dashboard. */
  function Resolve(auth: AuthState, path: string): (v: View)
    ensures v.Redirect? ==> v.to == "/dashboard" || v.to == "/login"
    ensures v.Render? ==> !auth.isLoading && PageAt(path) == Some(v.page)
    ensures path !in RoutePaths ==> v == Redirect("/dashboard")
  {
    if path == "/" then Redirect("/dashboard")
    else if path == "/login" then PublicRoute(auth, LoginPage)
    else if path == "/register" then PublicRoute(auth, RegisterPage)
    else if path == "/dashboard" then ProtectedRoute(auth, None, DashboardPage)
    else if path == "/courses" then ProtectedRoute(auth, None, CoursesPage)
    else if path == "/cohorts" then ProtectedRoute(auth, None, CohortsPage)
    else if path == "/chat" then ProtectedRoute(auth, None, ChatPage)
    else if path == "/admin" then ProtectedRoute(auth, Some(AdminRoles), AdminPage)
    else if path == "/mentor" then ProtectedRoute(auth, Some(MentorRoles), MentorPanel)
    else Redirect("/dashboard")
  }

  /** Resolve `path`, following at most `hops` redirects. */
  function Follow(auth: AuthState, path: string, hops: nat): View
    decreases hops
  {
    match Resolve(auth, path)
    case Redirect(to) => if hops == 0 then Redirect(to) else Follow(auth, to, hops - 1)
    case v => v
  }

  /** Who may see a page once authenticated and loaded, stated without the guards: the
      admin panel needs the admin role, the mentor panel the mentor or admin role, and
      a missing user passes both. */
  predicate MayView(auth: AuthState, page: Page) {
    match page
    case AdminPage => auth.user.None? || auth.user.value.role == Admin
    case MentorPanel => auth.user.None? || auth.user.value.role in {Mentor, Admin}
    case _ => true
  }

  /** The page a path names, if the table has one. */
  function PageAt(path: string): Option<Page> {
    if path == "/login" then Some(LoginPage)
    else if path == "/register" then Some(RegisterPage)
    else if path == "/dashboard" then Some(DashboardPage)
    else if path == "/courses" then Some(CoursesPage)
    else if path == "/cohorts" then Some(CohortsPage)
    else if path == "/chat" then Some(ChatPage)
    else if path == "/admin" then Some(AdminPage)
    else if path == "/mentor" then Some(MentorPanel)
    else None
  }

  /** Following redirects from any path settles after at most two hops, on: the
      spinner while loading; the login page (or the register page, when asked for)
      when not authenticated; and otherwise the page asked for when it is a protected
      page the user may view, the dashboard in every other case. */
  lemma SettlesWithinTwoRedirects(auth: AuthState, path: string)
    ensures !Follow(auth, path, 2).Redirect?
    ensures auth.isLoading ==> Follow(auth, path, 2) == Spinner
    ensures !auth.isLoading && !auth.isAuthenticated ==>
      Follow(auth, path, 2) == Render(if path == "/register" then RegisterPage else LoginPage)
    ensures !auth.isLoading && auth.isAuthenticated ==>
      Follow(auth, path, 2) ==
        if PageAt(path).Some? && PageAt(path).value !in {LoginPage, RegisterPage} && MayView(auth, PageAt(path).value)
        then Render(PageAt(path).value) else Render(DashboardPage)
  {
  }

  /** The admin panel is shown only to an authenticated admin, or to an authenticated
      store with no user; a mentor asking for it lands on the dashboard. */
  lemma AdminPanelOnlyForAdmins(auth: AuthState)
    ensures Follow(auth, "/admin", 2) == Render(AdminPage) <==>
      !auth.isLoading && auth.isAuthenticated && (auth.user.None? || auth.user.value.role == Admin)
    ensures !auth.isLoading && auth.isAuthenticated && auth.user.Some? && auth.user.value.role == Mentor ==>
      Follow(auth, "/admin", 2) == Render(DashboardPage)
  {
    SettlesWithinTwoRedirects(auth, "/admin");
  }

  /** With the actions the store has, nothing authenticates it, so after a page load
      and any actions and reloads, every path of a loaded store ends on the login or
      register page. */
  lemma NoProtectedPageRenders(st: DataService.Storage, acts: seq<Action>, path: string)
    requires !Run(Loaded(st), acts).state.isLoading
    ensures Follow(Run(Loaded(st), acts).state, path, 2) == Render(LoginPage) ||
      Follow(Run(Loaded(st), acts).state, path, 2) == Render(RegisterPage)
  {
    NeverAuthenticated(Loaded(st), acts);
    SettlesWithinTwoRedirects(Run(Loaded(st), acts).state, path);
  }
}
