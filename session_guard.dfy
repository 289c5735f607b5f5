/** Facts that join the session handlers with the route guard: what the guard
    answers after a login or a logout. */
module SessionGuard {
  import opened RouteGuard
  import opened ClientStore
  import opened LoginPage
  import opened Sidebar

  /** After a `SUPER_ADMIN` login no role cookie is written, so unless an admin
      role cookie survives from an earlier session, the dashboard is forbidden. */
  lemma SuperAdminLoginForbidsDashboard(s: Store, resp: LoginResponse, email: string, path: string)
    requires resp.ok && resp.role == SuperAdmin && resp.token != ""
    requires RoleOf(s.cookies) != SuperAdmin && RoleOf(s.cookies) != WarehouseAdmin
    requires StartsWith(path, DashboardRoute)
    ensures Middleware(path, AfterLogin(s, resp, email).cookies) == Redirect(ForbiddenPath)
  {
    var t := AfterLogin(s, resp, email);
    OtherRoleLogin(s, resp, email);
    DashboardAdminsOnly(path, t.cookies);
  }

  /** Logging out and then in as `SUPER_ADMIN` always ends forbidden on the dashboard. */
  lemma LogoutThenSuperAdminLogin(s: Store, resp: LoginResponse, email: string, path: string)
    requires resp.ok && resp.role == SuperAdmin && resp.token != ""
    requires StartsWith(path, DashboardRoute)
    ensures Middleware(path, AfterLogin(AfterLogout(s), resp, email).cookies) == Redirect(ForbiddenPath)
  {
    LogoutClearsSession(s);
    SuperAdminLoginForbidsDashboard(AfterLogout(s), resp, email, path);
  }

  /** A stale role cookie outlives a `SUPER_ADMIN` login: a leftover
      `WAREHOUSE_ADMIN` role still opens the dashboard. */
  lemma StaleRoleSurvivesSuperAdminLogin(s: Store, resp: LoginResponse, email: string, path: string)
    requires resp.ok && resp.role == SuperAdmin && resp.token != ""
    requires RoleCookie in s.cookies && s.cookies[RoleCookie] == WarehouseAdmin
    requires StartsWith(path, DashboardRoute)
    ensures Middleware(path, AfterLogin(s, resp, email).cookies) == Continue
  {
    var t := AfterLogin(s, resp, email);
    OtherRoleLogin(s, resp, email);
    DashboardAdminsOnly(path, t.cookies);
  }

  /** A warehouse admin or customer login with a non-empty token lands on a
      route the guard lets through. */
  lemma LoginLandsOnPermittedRoute(s: Store, resp: LoginResponse, email: string)
    requires resp.ok && resp.token != ""
    requires resp.role == WarehouseAdmin || resp.role == Customer
    ensures var t := AfterLogin(s, resp, email);
            Middleware(t.route, t.cookies) == Continue
  {
    var t := AfterLogin(s, resp, email);
    if resp.role == WarehouseAdmin {
      DashboardAdminsOnly(t.route, t.cookies);
    } else {
      CustomerPagesCustomerOnly(t.route, t.cookies);
    }
  }

  /** At the moment `router.push` is called the role cookie is not yet written
      (it follows the push), so on a fresh session the cookies present then send
      the pushed route to `/403`. */
  lemma LoginPushPrecedesRoleCookie(s: Store, resp: LoginResponse, email: string)
    requires resp.ok && resp.token != ""
    requires resp.role == WarehouseAdmin || resp.role == Customer
    requires RoleCookie !in s.cookies
    ensures var pushed := AfterLogin(s, resp, email).route;
            Middleware(pushed, WithSession(s, resp, email).cookies) == Redirect(ForbiddenPath)
  {
    var t := AfterLogin(s, resp, email);
    var cookies := WithSession(s, resp, email).cookies;
    if resp.role == WarehouseAdmin {
      MissingRoleForbidsListedPrefixes(t.route, cookies, RolePathRules[0]);
    } else {
      MissingRoleForbidsListedPrefixes(t.route, cookies, RolePathRules[1]);
    }
  }

  /** A login whose reply carries an empty token still writes the cookie, yet
      the guard treats it as absent. */
  lemma EmptyTokenLoginStillUnauthenticated(s: Store, resp: LoginResponse, email: string, path: string)
    requires resp.ok && resp.token == ""
    requires path != LoginPath && path != RegisterPath
    ensures Middleware(path, AfterLogin(s, resp, email).cookies) == Redirect(LoginPath)
  {
  }
}
