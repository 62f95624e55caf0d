/**
 * The client's router and its role gate: which page a path shows and what
 * a protected page does for the logged-in user (wait, show, or navigate).
 */
module App {
  import opened Wrappers
  import opened Schema

  /** What `ProtectedRoute` does: the spinner, the page, or a navigation. */
  datatype Outcome = Wait | Render | Redirect(path: string)

  /** `ProtectedRoute`, given the auth state: loading, and the role of the user if there is one. */
  function ProtectedRoute(isLoading: bool, user: Option<Role>, allowedRoles: seq<Role>): (o: Outcome)
    ensures isLoading <==> o == Wait
    ensures !isLoading && user.None? ==> o == Redirect("/auth")
    ensures user.Some? && !isLoading ==> (o == Render <==> user.value in allowedRoles)
    ensures user.Some? && !isLoading && user.value !in allowedRoles ==>
      o == Redirect(if user.value == Worker then "/worker-dashboard" else "/dashboard")
  {
    if isLoading then Wait
    else if user.None? then Redirect("/auth")
    else if user.value !in allowedRoles then
      if user.value == Worker then Redirect("/worker-dashboard") else Redirect("/dashboard")
    else Render
  }

  /** The pages of the router; the two dashboards sit behind the role gate. */
  datatype Page = HomePage | AuthScreen | Protected(name: string, allowedRoles: seq<Role>) | NotFoundPage

  const DashboardRoles: seq<Role> := [Customer, Admin]
  const WorkerDashboardRoles: seq<Role> := [Worker, Admin]

  /** The `Switch`: the first route whose path matches, and the not-found page otherwise. */
  function Resolve(path: string): (p: Page)
    ensures p.Protected? <==> path in {"/dashboard", "/worker-dashboard"}
    ensures path == "/dashboard" ==> p.Protected? && p.allowedRoles == DashboardRoles
    ensures path == "/worker-dashboard" ==> p.Protected? && p.allowedRoles == WorkerDashboardRoles
    ensures p == NotFoundPage <==> path !in {"/", "/auth", "/dashboard", "/worker-dashboard"}
  {
    if path == "/" then HomePage
    else if path == "/auth" then AuthScreen
    else if path == "/dashboard" then Protected("UserDashboard", DashboardRoles)
    else if path == "/worker-dashboard" then Protected("WorkerDashboard", WorkerDashboardRoles)
    else NotFoundPage
  }

  /** What visiting `path` does once the auth state is known. */
  function Visit(path: string, user: Option<Role>): Outcome {
    match Resolve(path)
    case Protected(_, roles) => ProtectedRoute(false, user, roles)
    case _ => Render
  }

  /**
   * The gate never loops: a user turned away from a dashboard is sent to a
   * page that shows itself to them.
   */
  lemma RedirectSettles(path: string, role: Role)
    requires Resolve(path).Protected?
    requires Visit(path, Some(role)).Redirect?
    ensures Visit(Visit(path, Some(role)).path, Some(role)) == Render
  {
    var target := Visit(path, Some(role)).path;
    if role == Worker {
      assert target == "/worker-dashboard";
    } else {
      assert target == "/dashboard";
      assert role == Customer;
    }
  }

  /** The admin may open both dashboards; the two other roles may open exactly their own. */
  lemma DashboardAccess(role: Role)
    ensures Visit("/dashboard", Some(role)) == Render <==> role in {Customer, Admin}
    ensures Visit("/worker-dashboard", Some(role)) == Render <==> role in {Worker, Admin}
  {
  }
}
