/** The route table of the application (App.tsx): which page each path shows
    and the two guards that send a visitor to the sign-in page or back to the
    dashboard. */
module AppRoutes {
  import opened Common

  datatype Page =
    | LoginPage | RegisterPage | Dashboard | Plants | PlantDetail | Devices | DeviceDetail
    | Alarms | Prices | Schedules | PriceFeeds | Fleet | DispatchLogs | AuditLogs

  /** What a route element produces: the wrapped page, or a redirect. */
  datatype Outcome = Render(page: Page) | Redirect(to: string)

  /** `ProtectedRoute`: the page for a signed-in user, otherwise "/login". */
  function ProtectedRoute(isAuthenticated: bool, page: Page): (r: Outcome)
    ensures r.Render? <==> isAuthenticated
    ensures r.Render? ==> r.page == page
    ensures r.Redirect? ==> r.to == "/login"
  {
    if !isAuthenticated then Redirect("/login") else Render(page)
  }

  /** `AuthRoute`: the page for a signed-out visitor, otherwise "/dashboard". */
  function AuthRoute(isAuthenticated: bool, page: Page): (r: Outcome)
    ensures r.Render? <==> !isAuthenticated
    ensures r.Render? ==> r.page == page
    ensures r.Redirect? ==> r.to == "/dashboard"
  {
    if isAuthenticated then Redirect("/dashboard") else Render(page)
  }

  /** Whatever the authentication state, exactly one of the two guards shows
      its page. */
  lemma ExactlyOneGuardRenders(isAuthenticated: bool, p: Page, q: Page)
    ensures ProtectedRoute(isAuthenticated, p).Render? != AuthRoute(isAuthenticated, q).Render?
  {
  }

  datatype Guard = Protected | AuthOnly

  /** A route path: a fixed path, or a prefix followed by one `:id` segment. */
  datatype Pattern = Exact(path: string) | WithId(prefix: string)

  datatype Route = Route(pattern: Pattern, guard: Guard, page: Page)

  predicate PatternMatches(p: Pattern, path: string) {
    match p
    case Exact(s) => path == s
    case WithId(prefix) =>
      |path| > |prefix| && path[..|prefix|] == prefix && '/' !in path[|prefix|..]
  }

  function Guarded(g: Guard, isAuthenticated: bool, page: Page): Outcome {
    match g
    case Protected => ProtectedRoute(isAuthenticated, page)
    case AuthOnly => AuthRoute(isAuthenticated, page)
  }

  /** `AppContent`'s routes, in their order. */
  const Routes: seq<Route> := [
    Route(Exact("/login"), AuthOnly, LoginPage),
    Route(Exact("/register"), AuthOnly, RegisterPage),
    Route(Exact("/"), Protected, Dashboard),
    Route(Exact("/dashboard"), Protected, Dashboard),
    Route(Exact("/plants"), Protected, Plants),
    Route(WithId("/plants/"), Protected, PlantDetail),
    Route(Exact("/devices"), Protected, Devices),
    Route(WithId("/devices/"), Protected, DeviceDetail),
    Route(Exact("/alarms"), Protected, Alarms),
    Route(Exact("/prices"), Protected, Prices),
    Route(Exact("/schedules"), Protected, Schedules),
    Route(Exact("/price-feeds"), Protected, PriceFeeds),
    Route(Exact("/fleet"), Protected, Fleet),
    Route(Exact("/dispatch-logs"), Protected, DispatchLogs),
    Route(Exact("/audit"), Protected, AuditLogs)]

  /** Only "/login" and "/register" sit behind `AuthRoute`; every other route
      is wrapped in `ProtectedRoute`, and the two auth pages appear nowhere
      else. */
  lemma GuardsOfTheTable()
    ensures forall i :: 0 <= i < |Routes| ==>
              (Routes[i].guard == AuthOnly <==> Routes[i].pattern == Exact("/login") || Routes[i].pattern == Exact("/register"))
    ensures forall i :: 0 <= i < |Routes| ==>
              (Routes[i].guard == AuthOnly <==> Routes[i].page == LoginPage || Routes[i].page == RegisterPage)
  {
  }

  function MatchesPath(path: string): Route -> bool {
    (rt: Route) => PatternMatches(rt.pattern, path)
  }

  /** What the router shows for a path: the first matching route's element,
      or nothing when no route matches. */
  function Resolve(isAuthenticated: bool, path: string): (r: Option<Outcome>)
    ensures r.None? <==> forall i :: 0 <= i < |Routes| ==> !PatternMatches(Routes[i].pattern, path)
    ensures r.Some? ==> exists i :: 0 <= i < |Routes| && PatternMatches(Routes[i].pattern, path)
                                     && r.value == Guarded(Routes[i].guard, isAuthenticated, Routes[i].page)
  {
    match FindIndex(Routes, MatchesPath(path))
    case None => None
    case Some(i) => Some(Guarded(Routes[i].guard, isAuthenticated, Routes[i].page))
  }

  /** A signed-out visitor sees only the sign-in and registration pages;
      every other matched path sends them to "/login". */
  lemma SignedOutSeesOnlyAuthPages(path: string)
    requires Resolve(false, path).Some?
    ensures Resolve(false, path).value.Render? ==>
              Resolve(false, path).value.page in {LoginPage, RegisterPage}
    ensures Resolve(false, path).value.Redirect? ==> Resolve(false, path).value.to == "/login"
  {
    GuardsOfTheTable();
  }

  /** A signed-in user never sees the sign-in or registration page: those
      paths send them to "/dashboard". */
  lemma SignedInNeverSeesAuthPages(path: string)
    requires Resolve(true, path).Some?
    ensures Resolve(true, path).value.Render? ==>
              Resolve(true, path).value.page !in {LoginPage, RegisterPage}
    ensures Resolve(true, path).value.Redirect? ==> Resolve(true, path).value.to == "/dashboard"
  {
    GuardsOfTheTable();
  }

  /** Every "/plants/<id>" path shows the plant page behind `ProtectedRoute`. */
  lemma PlantPageRoute(isAuthenticated: bool, id: string)
    requires id != [] && '/' !in id
    ensures Resolve(isAuthenticated, "/plants/" + id) == Some(ProtectedRoute(isAuthenticated, PlantDetail))
  {
    var path := "/plants/" + id;
    assert path[..8] == "/plants/" && path[8..] == id;
    PlantRouteFirst(path);
    FindIndexAt(Routes, MatchesPath(path), 5);
    assert Routes[5] == Route(WithId("/plants/"), Protected, PlantDetail);
  }

  /** The plant-page route is the first route a "/plants/<id>" path matches. */
  lemma PlantRouteFirst(path: string)
    requires |path| > 8 && path[..8] == "/plants/" && '/' !in path[8..]
    ensures IsFirstMatch(Routes, MatchesPath(path), 5)
  {
    assert path[1] == path[..8][1] == 'p';
    forall j | 0 <= j < 5 ensures !PatternMatches(Routes[j].pattern, path) {
      var s := PatternText(Routes[j].pattern);
      assert Routes[j].pattern == Exact(s) && (|s| < 9 || s[1] != 'p');
      OtherExactMisses(s, path);
    }
    assert PatternMatches(Routes[5].pattern, path);
  }

  /** A fixed path shorter than a plant page's, or differing in its first
      letter, does not match it. */
  lemma OtherExactMisses(s: string, path: string)
    requires |path| > 8 && path[1] == 'p'
    requires |s| < 9 || s[1] != 'p'
    ensures !PatternMatches(Exact(s), path)
  {
  }

  function PatternText(p: Pattern): string {
    match p
    case Exact(s) => s
    case WithId(prefix) => prefix
  }

  /** The pattern is "/" or its first letter is not 'm'. */
  predicate NotM(p: Pattern) {
    (|PatternText(p)| == 1 && p.Exact?) || (|PatternText(p)| >= 2 && PatternText(p)[1] != 'm')
  }

  /** No route's path has 'm' as its first letter. */
  lemma NoRouteStartsWithM()
    ensures forall i :: 0 <= i < |Routes| ==> NotM(Routes[i].pattern)
  {
  }

  /** A path whose first letter is 'm', such as the collapsed sidebar's
      "/monitoring" link, matches no route at all. */
  lemma NoRouteForM(isAuthenticated: bool, path: string)
    requires |path| >= 2 && path[1] == 'm'
    ensures Resolve(isAuthenticated, path).None?
  {
    NoRouteStartsWithM();
    forall i | 0 <= i < |Routes| ensures !PatternMatches(Routes[i].pattern, path) {
      PatternMissesM(Routes[i].pattern, path);
    }
  }

  lemma PatternMissesM(p: Pattern, path: string)
    requires |path| >= 2 && path[1] == 'm'
    requires NotM(p)
    ensures !PatternMatches(p, path)
  {
    var t := PatternText(p);
    if p.WithId? && |path| > |t| && |t| >= 2 {
      assert path[..|t|][1] == path[1];
    }
  }

  lemma MonitoringHasNoRoute()
    ensures Resolve(true, "/monitoring").None?
  {
    NoRouteForM(true, "/monitoring");
  }
}
