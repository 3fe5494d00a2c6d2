/**
 * The top-level component (src/App.js): offline, only the no-internet screen;
 * online, the router with both routes inside the error boundary.
 */
module App {
  import opened Browser
  import Boundary
  import Dashboard

  datatype Page = LoginPage | DashboardPage

  /** The element tree App returns: the no-internet screen, or the boundary around the matched route. */
  datatype AppTree = NoInternetScreen | BoundedRoutes(route: Option<Page>)

  /** `<Routes>` with '/' for Login and '/dashboard' for Dashboard; any other path matches nothing. */
  function Route(path: string): (p: Option<Page>)
    ensures p == Some(LoginPage) <==> path == "/"
    ensures p == Some(DashboardPage) <==> path == "/dashboard"
    ensures p == None <==> path != "/" && path != "/dashboard"
  {
    if path == "/" then Some(LoginPage)
    else if path == "/dashboard" then Some(DashboardPage)
    else None
  }

  function App(isOnline: bool, path: string): (t: AppTree)
    ensures t == NoInternetScreen <==> !isOnline
    ensures isOnline ==> t == BoundedRoutes(Route(path))
  {
    if !isOnline then NoInternetScreen else BoundedRoutes(Route(path))
  }

  /** What ends up on screen. */
  datatype Shown = ShowNoInternet | ShowFallback | ShowLogin | ShowDashboard | ShowNothing

  /** The tree as rendered, given the boundary's flag. */
  function Display(t: AppTree, hasError: bool): Shown {
    match t
    case NoInternetScreen => ShowNoInternet
    case BoundedRoutes(route) =>
      match Boundary.Select<Option<Page>>(hasError, route)
      case Fallback => ShowFallback
      case Children(None) => ShowNothing
      case Children(Some(LoginPage)) => ShowLogin
      case Children(Some(DashboardPage)) => ShowDashboard
  }

  /** Offline, neither page is rendered, whatever the route or the boundary. */
  lemma OfflineRendersNoPage(path: string, hasError: bool)
    ensures Display(App(false, path), hasError) == ShowNoInternet
  {
  }

  /** Online, '/' shows Login and '/dashboard' shows Dashboard while the boundary holds no error. */
  lemma OnlineRoutes(path: string)
    ensures Display(App(true, path), false) == ShowLogin <==> path == "/"
    ensures Display(App(true, path), false) == ShowDashboard <==> path == "/dashboard"
  {
  }

  /** Both routes sit inside the boundary: a caught error replaces either page with the fallback. */
  lemma BoundaryCoversBothRoutes(path: string)
    ensures Display(App(true, path), true) == ShowFallback
  {
  }

  /**
   * If Dashboard reads the same connectivity value as App, then whenever App
   * shows Dashboard, Dashboard's own offline branch cannot be selected. The two
   * components read connectivity separately; the shared value is an assumption.
   */
  lemma DashboardOfflineBranchUnreachable(isOnline: bool, path: string, hasError: bool, v: Dashboard.View)
    requires Display(App(isOnline, path), hasError) == ShowDashboard
    ensures Dashboard.SelectScreen(isOnline, v) != Dashboard.NoInternet
  {
  }
}
