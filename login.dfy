/** The sign-in handler of the login page (app/auth/login/page.tsx). */
module LoginPage {
  import opened RouteGuard
  import opened ClientStore

  /** The user service's reply to the login request, reduced to what the
      handler reads from it. */
  datatype LoginResponse = LoginResponse(ok: bool, token: string, userId: string, role: string, warehouseId: string)

  const AuthTokenItem := "authToken"
  const UserIdItem := "userId"
  const EmailItem := "email"
  const WarehouseIdItem := "warehouseId"

  const DashboardRoute := "/dashboard"
  const ProductsRoute := "/products"

  /** The writes made on every successful reply, before the role is looked at. */
  function WithSession(s: Store, resp: LoginResponse, email: string): Store {
    s.(cookies := s.cookies[AuthTokenCookie := resp.token],
       localStorage := s.localStorage[AuthTokenItem := resp.token][UserIdItem := resp.userId][EmailItem := email])
  }

  /** The state after the handler has run on one reply. */
  function AfterLogin(s: Store, resp: LoginResponse, email: string): Store {
    if !resp.ok then s
    else
      var session := WithSession(s, resp, email);
      if resp.role == WarehouseAdmin then
        session.(localStorage := session.localStorage[WarehouseIdItem := resp.warehouseId],
                 cookies := session.cookies[RoleCookie := resp.role],
                 route := DashboardRoute)
      else if resp.role == Customer then
        session.(cookies := session.cookies[RoleCookie := resp.role], route := ProductsRoute)
      else
        session
  }

  /** `handleLogin`: the statements in their source order, on the shared browser state. */
  method HandleLogin(b: Browser, resp: LoginResponse, email: string)
    modifies b
    ensures b.Snapshot() == AfterLogin(old(b.Snapshot()), resp, email)
  {
    if resp.ok {
      b.SetCookie(AuthTokenCookie, resp.token);
      b.SetItem(AuthTokenItem, resp.token);
      b.SetItem(UserIdItem, resp.userId);
      b.SetItem(EmailItem, email);
      var role := resp.role;
      if role == WarehouseAdmin {
        b.SetItem(WarehouseIdItem, resp.warehouseId);
        if role == SuperAdmin || role == WarehouseAdmin {
          b.Push(DashboardRoute);
        }
      } else if role == Customer {
        b.Push(ProductsRoute);
      } else {
        // "Role does not exist": the handler returns before the role cookie.
        return;
      }
      b.SetCookie(RoleCookie, role);
    }
  }

  /** A refused login writes no cookie, no storage entry and does not navigate. */
  lemma FailedLoginChangesNothing(s: Store, resp: LoginResponse, email: string)
    requires !resp.ok
    ensures AfterLogin(s, resp, email) == s
  {
  }

  /** Every accepted login writes the token cookie and the three storage
      entries, whatever the role turns out to be. */
  lemma AcceptedLoginWritesSession(s: Store, resp: LoginResponse, email: string)
    requires resp.ok
    ensures var t := AfterLogin(s, resp, email);
            AuthTokenCookie in t.cookies && t.cookies[AuthTokenCookie] == resp.token
            && AuthTokenItem in t.localStorage && t.localStorage[AuthTokenItem] == resp.token
            && UserIdItem in t.localStorage && t.localStorage[UserIdItem] == resp.userId
            && EmailItem in t.localStorage && t.localStorage[EmailItem] == email
  {
  }

  /** A warehouse admin gets the warehouse id stored, the role cookie set and
      the dashboard route. */
  lemma WarehouseAdminLogin(s: Store, resp: LoginResponse, email: string)
    requires resp.ok && resp.role == WarehouseAdmin
    ensures var t := AfterLogin(s, resp, email);
            t.localStorage.Keys == s.localStorage.Keys + {AuthTokenItem, UserIdItem, EmailItem, WarehouseIdItem}
            && t.localStorage[WarehouseIdItem] == resp.warehouseId
            && t.cookies == s.cookies[AuthTokenCookie := resp.token][RoleCookie := WarehouseAdmin]
            && t.route == DashboardRoute
  {
  }

  /** A customer gets the role cookie set and the products route; the
      warehouse id entry is left as it was. */
  lemma CustomerLogin(s: Store, resp: LoginResponse, email: string)
    requires resp.ok && resp.role == Customer
    ensures var t := AfterLogin(s, resp, email);
            (WarehouseIdItem in t.localStorage <==> WarehouseIdItem in s.localStorage)
            && (WarehouseIdItem in s.localStorage ==> t.localStorage[WarehouseIdItem] == s.localStorage[WarehouseIdItem])
            && t.cookies == s.cookies[AuthTokenCookie := resp.token][RoleCookie := Customer]
            && t.route == ProductsRoute
  {
  }

  /** Any other role, `SUPER_ADMIN` included, stops before the role cookie:
      the token cookie is written, the role cookie and the route stay as they
      were. In particular the `SUPER_ADMIN` test guarding the dashboard push is
      never reached by a `SUPER_ADMIN`. */
  lemma OtherRoleLogin(s: Store, resp: LoginResponse, email: string)
    requires resp.ok && resp.role != WarehouseAdmin && resp.role != Customer
    ensures var t := AfterLogin(s, resp, email);
            t.cookies == s.cookies[AuthTokenCookie := resp.token]
            && (RoleCookie in t.cookies <==> RoleCookie in s.cookies)
            && RoleOf(t.cookies) == RoleOf(s.cookies)
            && t.route == s.route
            && (WarehouseIdItem in t.localStorage <==> WarehouseIdItem in s.localStorage)
  {
  }

  /** Login never writes the `userId` or `warehouseId` cookies: those names
      only ever appear in storage. */
  lemma LoginLeavesIdCookies(s: Store, resp: LoginResponse, email: string, name: string)
    requires name == UserIdItem || name == WarehouseIdItem
    ensures var t := AfterLogin(s, resp, email);
            (name in t.cookies <==> name in s.cookies)
            && (name in s.cookies ==> t.cookies[name] == s.cookies[name])
  {
  }
}
