/** The route guard (src/components/ProtectedRoute.jsx) and the route table
    (src/App.jsx `AppRoutes`), as functions of the auth state and the path. */
module Routing {
  import opened Wrappers

  datatype Page = DashboardPage | DepositPage | WithdrawPage | ReferralsPage

  /** What a route renders: a loader, a `<Navigate>`, or a page inside `Layout`. */
  datatype Screen = Loader(message: string) | Navigate(to: string, replace: bool) | Show(page: Page)

  const AuthenticatingMessage := "Authenticating..."
  const InitializingMessage := "Initializing..."

  /** `<ProtectedRoute>` wrapped around `page`. */
  function Guard(loading: bool, authenticated: bool, page: Page): (s: Screen)
    ensures loading ==> s == Loader(AuthenticatingMessage)
    ensures !loading && !authenticated ==> s == Navigate("/", true)
    ensures s.Show? <==> !loading && authenticated
    ensures s.Show? ==> s.page == page
  {
    if loading then Loader(AuthenticatingMessage)
    else if !authenticated then Navigate("/", true)
    else Show(page)
  }

  function PathOf(page: Page): string {
    match page
    case DashboardPage => "/dashboard"
    case DepositPage => "/deposit"
    case WithdrawPage => "/withdraw"
    case ReferralsPage => "/referrals"
  }

  /** The protected page mounted at a path, if any. */
  function PageAt(path: string): (r: Option<Page>)
    ensures r.Some? ==> PathOf(r.value) == path
    ensures forall p :: PathOf(p) == path ==> r == Some(p)
  {
    if path == "/dashboard" then Some(DashboardPage)
    else if path == "/deposit" then Some(DepositPage)
    else if path == "/withdraw" then Some(WithdrawPage)
    else if path == "/referrals" then Some(ReferralsPage)
    else None
  }

  /** `AppRoutes` */
  function AppRoutes(loading: bool, authenticated: bool, path: string): (s: Screen)
    ensures loading ==> s == Loader(InitializingMessage)
    ensures !loading && path == "/" ==>
      s == if authenticated then Navigate("/dashboard", true) else Loader(AuthenticatingMessage)
    ensures !loading && PageAt(path).Some? ==> s == Guard(false, authenticated, PageAt(path).value)
    ensures !loading && path != "/" && PageAt(path).None? ==> s == Navigate("/dashboard", true)
    ensures s != Loader(AuthenticatingMessage) || path == "/"
  {
    if loading then Loader(InitializingMessage)
    else if path == "/" then
      if authenticated then Navigate("/dashboard", true) else Loader(AuthenticatingMessage)
    else match PageAt(path)
      case Some(page) => Guard(loading, authenticated, page)
      case None => Navigate("/dashboard", true)
  }

  /** The router following `<Navigate>` elements, at most `fuel` of them, once
      loading is over; the result is the final path and what it renders. */
  function Resolve(authenticated: bool, path: string, fuel: nat): (string, Screen)
    decreases fuel
  {
    var s := AppRoutes(false, authenticated, path);
    if fuel > 0 && s.Navigate? then Resolve(authenticated, s.to, fuel - 1) else (path, s)
  }

  /** Within two redirects every path settles: on its page when authenticated
      (the dashboard for '/' and unknown paths), on the root loader otherwise. */
  lemma {:induction false} EveryPathSettles(authenticated: bool, path: string)
    ensures var (p, s) := Resolve(authenticated, path, 2);
      && (authenticated ==>
            && s.Show? && p == PathOf(s.page)
            && (PageAt(path).Some? ==> s.page == PageAt(path).value)
            && (PageAt(path).None? ==> s.page == DashboardPage))
      && (!authenticated ==> p == "/" && s == Loader(AuthenticatingMessage))
  {
    var s0 := AppRoutes(false, authenticated, path);
    if s0.Navigate? {
      var s1 := AppRoutes(false, authenticated, s0.to);
      assert PageAt("/dashboard") == Some(DashboardPage);
      if s1.Navigate? {
        assert s1.to == "/";
        assert Resolve(authenticated, s1.to, 0) == ("/", AppRoutes(false, authenticated, "/"));
      }
    }
  }
}
