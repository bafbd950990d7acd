/** Route protection and navigation: the `ProtectedRoute` guard, the role lists the router
    gives it, and the sidebar links that depend on the signed-in user's role. */
module Access {
  import opened JsValues

  /** What `ProtectedRoute` renders. */
  datatype Outcome = RedirectToLogin | RedirectToDashboard | RenderChildren | RenderOutlet

  predicate Admitted(o: Outcome) {
    o == RenderChildren || o == RenderOutlet
  }

  /** `!token || !user`: no session, or an empty token. */
  predicate SignedOut(user: Option<Object>, token: Option<string>) {
    token.None? || token.value == "" || user.None?
  }

  /** `ProtectedRoute({ children, allowedRoles })`: without a session the visitor is sent to
      the login page; with a role list that does not include the user's `role` to the
      dashboard; otherwise the children, or the nested route's outlet when there are none. */
  function Guard(user: Option<Object>, token: Option<string>, allowedRoles: Option<seq<Value>>, hasChildren: bool)
    : (o: Outcome)
    ensures o == RedirectToLogin <==> SignedOut(user, token)
    ensures o == RedirectToDashboard <==>
      !SignedOut(user, token) && allowedRoles.Some? && Get(user.value, "role") !in allowedRoles.value
    ensures Admitted(o) ==> (o == RenderChildren <==> hasChildren)
  {
    if SignedOut(user, token) then RedirectToLogin
    else if allowedRoles.Some? && Get(user.value, "role") !in allowedRoles.value then RedirectToDashboard
    else if hasChildren then RenderChildren
    else RenderOutlet
  }

  /** The role lists the router attaches to its restricted pages. */
  const ReportRoles: seq<Value> := [Str("Admin"), Str("Manager")]
  const AdminRoles: seq<Value> := [Str("Admin")]

  /** The extra role check the router puts around the page at `path`, if any. */
  function RouteRoles(path: string): Option<seq<Value>> {
    if path == "/reports" then Some(ReportRoles)
    else if path == "/admin/users" then Some(AdminRoles)
    else None
  }

  /** Opening a page of the application layout: the outer guard (no role list, rendering the
      nested routes), then, for a restricted page, the inner guard wrapping that page. The
      public `/login` and `/signup` routes sit outside the guard and are not pages of the
      layout, so `path` ranges over the layout's pages only. */
  function Visit(user: Option<Object>, token: Option<string>, path: string): (o: Outcome)
    ensures o == RedirectToLogin <==> SignedOut(user, token)
    ensures Admitted(o) <==>
      !SignedOut(user, token) && (RouteRoles(path).None? || Get(user.value, "role") in RouteRoles(path).value)
  {
    var outer := Guard(user, token, None, false);
    if !Admitted(outer) || RouteRoles(path).None? then outer
    else Guard(user, token, RouteRoles(path), true)
  }

  /** One `SidebarLink`. */
  datatype Link = Link(path: string, title: string)

  const DashboardLink := Link("/dashboard", "Dashboard")
  const ProjectsLink := Link("/projects", "Projects")
  const BoardLink := Link("/board", "Kanban Board")
  const ReportsLink := Link("/reports", "Reports")
  const SettingsLink := Link("/settings", "Settings")
  const UsersLink := Link("/admin/users", "User Management")

  /** `user?.role === name` */
  predicate HasRole(user: Option<Object>, name: string) {
    user.Some? && Get(user.value, "role") == Str(name)
  }

  /** The sidebar's links in display order: Reports only for an Admin or a Manager, User
      Management only for an Admin, the other four for everyone. */
  function SidebarLinks(user: Option<Object>): (links: seq<Link>)
    ensures |links| >= 4 && links[..3] == [DashboardLink, ProjectsLink, BoardLink]
    ensures SettingsLink in links
    ensures ReportsLink in links <==> HasRole(user, "Admin") || HasRole(user, "Manager")
    ensures UsersLink in links <==> HasRole(user, "Admin")
    ensures user.None? ==> links == [DashboardLink, ProjectsLink, BoardLink, SettingsLink]
    ensures forall l :: l in links ==> l in [DashboardLink, ProjectsLink, BoardLink, ReportsLink, SettingsLink, UsersLink]
    ensures |links| == 4 + (if HasRole(user, "Admin") || HasRole(user, "Manager") then 1 else 0)
                         + (if HasRole(user, "Admin") then 1 else 0)
    ensures ReportsLink in links ==> links[3] == ReportsLink
    ensures links[|links| - 1] == if HasRole(user, "Admin") then UsersLink else SettingsLink
    ensures forall i, j :: 0 <= i < j < |links| ==> links[i] != links[j]
  {
    [DashboardLink, ProjectsLink, BoardLink]
      + (if HasRole(user, "Admin") || HasRole(user, "Manager") then [ReportsLink] else [])
      + [SettingsLink]
      + (if HasRole(user, "Admin") then [UsersLink] else [])
  }

  /** For a signed-in user the sidebar and the router agree: every link shown opens its page,
      and a restricted page opens exactly when the sidebar shows its link. */
  lemma SidebarMatchesRoutes(user: Option<Object>, token: Option<string>)
    requires !SignedOut(user, token)
    ensures forall l :: l in SidebarLinks(user) ==> Admitted(Visit(user, token, l.path))
    ensures Admitted(Visit(user, token, "/reports")) <==> ReportsLink in SidebarLinks(user)
    ensures Admitted(Visit(user, token, "/admin/users")) <==> UsersLink in SidebarLinks(user)
  {
    var links := SidebarLinks(user);
    forall l | l in links
      ensures Admitted(Visit(user, token, l.path))
    {
      if l == ReportsLink {
        assert Get(user.value, "role") in ReportRoles;
      } else if l == UsersLink {
        assert Get(user.value, "role") in AdminRoles;
      }
    }
  }
}
