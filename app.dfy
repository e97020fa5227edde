/** The application shell: the route table of `AppRoutes` and the `ProtectedRoute`
    wrapper that gates the dashboard pages on the authentication context. */
module App {
  import opened Common
  import Auth

  datatype Page = IndexPage | AuthPage | DashboardPage | FinancesPage | HealthPage
                | AcademicPage | SchedulePage | NotFoundPage

  /** One `<Route>`: its path, the page it shows and whether that page is wrapped in
      `ProtectedRoute`. */
  datatype Route = Route(path: string, page: Page, guarded: bool)

  /** Where an unauthenticated visitor of a guarded page is sent. */
  const AuthPath: string := "/auth"

  /** The explicit routes of `AppRoutes`; every other path falls to the catch-all. */
  const Routes: seq<Route> := [
    Route("/", IndexPage, false),
    Route(AuthPath, AuthPage, false),
    Route("/dashboard", DashboardPage, true),
    Route("/dashboard/finances", FinancesPage, true),
    Route("/dashboard/health", HealthPage, true),
    Route("/dashboard/academic", AcademicPage, true),
    Route("/dashboard/schedule", SchedulePage, true)
  ]

  /** What `ProtectedRoute` returns. */
  datatype Screen = LoadingScreen | Navigate(to: string, replace: bool) | Children

  /** `ProtectedRoute`: the loading screen while the session resolves, a replacing
      redirect to `/auth` without a user, the wrapped page otherwise. */
  function ProtectedRoute(loading: bool, user: Option<Auth.User>): (s: Screen)
    ensures s == LoadingScreen <==> loading
    ensures s == Navigate(AuthPath, true) <==> !loading && user.None?
    ensures s == Children <==> !loading && user.Some?
  {
    if loading then LoadingScreen
    else if user.None? then Navigate(AuthPath, true)
    else Children
  }

  function AtPath(path: string): Route -> bool {
    (r: Route) => r.path == path
  }

  /** The first route of `table` whose path is `path`. */
  function Lookup(table: seq<Route>, path: string): (r: Option<Route>)
    ensures r.Some? <==> exists i :: 0 <= i < |table| && table[i].path == path
    ensures r.Some? ==> r.value in table && r.value.path == path
  {
    FirstWhere(table, AtPath(path))
  }

  /** The page a path shows and whether it is guarded; `path="*"` gives NotFound. */
  function Match(path: string): (Page, bool) {
    match Lookup(Routes, path)
    case Some(r) => (r.page, r.guarded)
    case None => (NotFoundPage, false)
  }

  /** The paths of the five dashboard pages. */
  const DashboardPaths: set<string> :=
    {"/dashboard", "/dashboard/finances", "/dashboard/health", "/dashboard/academic", "/dashboard/schedule"}

  /** The route table read as a case split. */
  function RouteOf(path: string): (Page, bool) {
    if path == "/" then (IndexPage, false)
    else if path == AuthPath then (AuthPage, false)
    else if path == "/dashboard" then (DashboardPage, true)
    else if path == "/dashboard/finances" then (FinancesPage, true)
    else if path == "/dashboard/health" then (HealthPage, true)
    else if path == "/dashboard/academic" then (AcademicPage, true)
    else if path == "/dashboard/schedule" then (SchedulePage, true)
    else (NotFoundPage, false)
  }

  /** Matching against the table agrees with the case split. */
  lemma MatchIsRouteOf(path: string)
    ensures Match(path) == RouteOf(path)
  {
    var t := Routes;
    assert t[0].path == "/" && t[1].path == AuthPath && t[2].path == "/dashboard";
    assert t[3].path == "/dashboard/finances" && t[4].path == "/dashboard/health";
    assert t[5].path == "/dashboard/academic" && t[6].path == "/dashboard/schedule";
    assert |t| == 7;
  }

  /** The route table: `/` and `/auth` are open, exactly the five dashboard paths are
      guarded (and all lie under `/dashboard`), and any other path is NotFound. */
  lemma RouteTable(path: string)
    ensures path == "/" ==> Match(path) == (IndexPage, false)
    ensures path == AuthPath ==> Match(path) == (AuthPage, false)
    ensures Match(path).1 <==> path in DashboardPaths
    ensures Match(path).1 ==> "/dashboard" <= path
    ensures Match(path).0 == NotFoundPage <==> path !in DashboardPaths + {"/", AuthPath}
  {
    MatchIsRouteOf(path);
    if path in DashboardPaths {
      assert path == "/dashboard" || path == "/dashboard/finances" || path == "/dashboard/health"
          || path == "/dashboard/academic" || path == "/dashboard/schedule";
    }
  }

  /** What the browser shows at `path` for a given context value. */
  datatype View = Loading | Redirect(to: string, replace: bool) | Show(page: Page)

  function Render(path: string, context: Auth.AuthContextValue): (v: View)
    ensures Match(path).1 && context.loading ==> v == Loading
    ensures v.Show? && Match(path).1 ==> !context.loading && context.user.Some?
    ensures !Match(path).1 ==> v == Show(Match(path).0)
    ensures Match(path).1 && !context.loading ==>
              v == if context.user.Some? then Show(Match(path).0) else Redirect(AuthPath, true)
  {
    var (page, guarded) := Match(path);
    if !guarded then Show(page)
    else
      match ProtectedRoute(context.loading, context.user)
      case LoadingScreen => Loading
      case Navigate(to, replace) => Redirect(to, replace)
      case Children => Show(page)
  }

  /** One page load: mount the provider, render, validate the token, render again,
      sign out, render a third time. Before validation a guarded page shows the
      loading screen; after it, the page shows exactly when the validation
      authenticated, and the replacing redirect to `/auth` otherwise; after signing
      out it redirects to `/auth` whatever the validation did. */
  method LoadPage(path: string, query: Option<string>, storedAtMount: map<string, string>,
                  currentQuery: Option<string>, store: Auth.Store, fault: Auth.Fault, now: int)
    returns (before: View, after: View, signedOut: View)
    ensures Match(path).1 ==> before == Loading
    ensures var token := Auth.ChooseToken(Auth.CapturedToken(query), currentQuery,
                                          Auth.StoredToken(Auth.MountStorage(query, storedAtMount)));
            var o := Auth.Resolve(token, store, fault, now);
            Match(path).1 ==> after == if o.Authenticated? then Show(Match(path).0) else Redirect(AuthPath, true)
    ensures Match(path).1 ==> signedOut == Redirect(AuthPath, true)
    ensures !Match(path).1 ==> before == after == signedOut == Show(Match(path).0)
  {
    var provider := new Auth.AuthProvider(query, storedAtMount);
    before := Render(path, Auth.AuthContextValue(provider.user, provider.loading));
    var _ := provider.ValidateAccess(currentQuery, store, fault, now);
    after := Render(path, Auth.AuthContextValue(provider.user, provider.loading));
    provider.SignOut();
    signedOut := Render(path, Auth.AuthContextValue(provider.user, provider.loading));
  }
}
