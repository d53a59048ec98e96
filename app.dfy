/**
 * The route table and `ProtectedRoute`, the guard in front of every page but
 * login and registration. The guard decides in a fixed order: still loading
 * the session, then no user, then a role mismatch.
 */
module App {
  import opened Wrappers
  import opened Rows

  datatype Page = LoginPage | RegisterPage | DashboardPage | ServicesPage | RentalsPage | AdminJobsPage | AdminFleetPage

  /** What the guard returns: the loading view, a redirect, or the wrapped page. */
  datatype Guarded = LoadingView | NavigateTo(path: string) | Children

  /** The session as the authentication context reports it. */
  datatype Session = Session(loading: bool, user: Option<UserId>, userRole: Option<string>)

  /** `requiredRole && ...`: an absent or empty required role asks for nothing. */
  predicate RoleRequired(requiredRole: Option<string>) {
    requiredRole.Some? && requiredRole.value != ""
  }

  /** `ProtectedRoute`. */
  function ProtectedRoute(session: Session, requiredRole: Option<string>): (g: Guarded)
    ensures g == Children <==>
      !session.loading && session.user.Some? && (!RoleRequired(requiredRole) || session.userRole == requiredRole)
    ensures g == LoadingView <==> session.loading
    ensures g.NavigateTo? ==> (g.path == "/login" <==> session.user.None?)
    ensures g.NavigateTo? ==> g.path == "/login" || g.path == "/dashboard"
  {
    if session.loading then LoadingView
    else if session.user.None? then NavigateTo("/login")
    else if RoleRequired(requiredRole) && session.userRole != requiredRole then NavigateTo("/dashboard")
    else Children
  }

  /** One route's element: a page shown as is, a page behind the guard, or a redirect. */
  datatype Element = Open(page: Page) | Guard(page: Page, requiredRole: Option<string>) | Redirect(to: string)

  /** The `<Routes>` table. */
  function RouteTable(path: string): (e: Option<Element>)
    ensures e.Some? && e.value.Guard? && RoleRequired(e.value.requiredRole) <==>
      path == "/admin/jobs" || path == "/admin/fleet"
    ensures e.Some? && e.value.Guard? ==> e.value.requiredRole == None || e.value.requiredRole == Some("admin")
    ensures e.Some? && e.value.Open? <==> path == "/login" || path == "/register"
  {
    match path
    case "/login" => Some(Open(LoginPage))
    case "/register" => Some(Open(RegisterPage))
    case "/dashboard" => Some(Guard(DashboardPage, None))
    case "/customer/services" => Some(Guard(ServicesPage, None))
    case "/customer/rentals" => Some(Guard(RentalsPage, None))
    case "/admin/jobs" => Some(Guard(AdminJobsPage, Some("admin")))
    case "/admin/fleet" => Some(Guard(AdminFleetPage, Some("admin")))
    case "/" => Some(Redirect("/dashboard"))
    case _ => None
  }

  /** What a path displays in a given session. */
  datatype Screen = Show(page: Page) | Loading | GoTo(path: string) | NoMatch

  function Render(path: string, session: Session): Screen {
    match RouteTable(path)
    case None => NoMatch
    case Some(Open(p)) => Show(p)
    case Some(Redirect(to)) => GoTo(to)
    case Some(Guard(p, role)) =>
      match ProtectedRoute(session, role)
      case LoadingView => Loading
      case NavigateTo(to) => GoTo(to)
      case Children => Show(p)
  }

  predicate IsAdminPage(p: Page) {
    p == AdminJobsPage || p == AdminFleetPage
  }

  /** An admin page is shown only to a signed-in admin whose session has loaded, on any path. */
  lemma AdminPagesOnlyForAdmins(path: string, session: Session)
    requires Render(path, session).Show? && IsAdminPage(Render(path, session).page)
    ensures !session.loading && session.user.Some? && session.userRole == Some("admin")
  {
  }

  /** Every signed-in user reaches the dashboard, services and rentals pages, whatever the role. */
  lemma CustomerPagesForAnyUser(session: Session)
    requires !session.loading && session.user.Some?
    ensures Render("/dashboard", session) == Show(DashboardPage)
    ensures Render("/customer/services", session) == Show(ServicesPage)
    ensures Render("/customer/rentals", session) == Show(RentalsPage)
  {
  }

  /** While the session loads, every guarded path shows the loading view, whoever the user is. */
  lemma LoadingComesFirst(path: string, session: Session)
    requires session.loading
    requires RouteTable(path).Some? && RouteTable(path).value.Guard?
    ensures Render(path, session) == Loading
  {
  }

  /** `/` sends everyone to the dashboard. */
  lemma RootGoesToDashboard(session: Session)
    ensures Render("/", session) == GoTo("/dashboard")
  {
  }

  /** Following redirects from any path reaches a screen that is not a redirect within two steps. */
  lemma RedirectsSettle(path: string, session: Session)
    ensures var s1 := Render(path, session);
            s1.GoTo? ==>
              var s2 := Render(s1.path, session);
              s2.GoTo? ==> !Render(s2.path, session).GoTo?
  {
  }
}
