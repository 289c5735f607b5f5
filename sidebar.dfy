/** The logout handler of the admin sidebar (components/Sidebar.tsx). */
module Sidebar {
  import opened RouteGuard
  import opened ClientStore

  const UserIdCookie := "userId"
  const WarehouseIdCookie := "warehouseId"

  /** The four cookies the handler removes. */
  const SessionCookies: set<string> := {AuthTokenCookie, RoleCookie, UserIdCookie, WarehouseIdCookie}

  /** The state after logging out. */
  function AfterLogout(s: Store): Store {
    s.(cookies := s.cookies - SessionCookies, route := LoginPath)
  }

  /** `handleLogout`: four removals in source order, then the navigation. */
  method HandleLogout(b: Browser)
    modifies b
    ensures b.Snapshot() == AfterLogout(old(b.Snapshot()))
  {
    b.RemoveCookie(AuthTokenCookie);
    b.RemoveCookie(RoleCookie);
    b.RemoveCookie(UserIdCookie);
    b.RemoveCookie(WarehouseIdCookie);
    b.Push(LoginPath);
  }

  /** Logout drops the token, role, user id and warehouse id cookies, keeps every
      other cookie, leaves storage untouched and lands on the login page. */
  lemma LogoutClearsSession(s: Store)
    ensures var t := AfterLogout(s);
            AuthTokenCookie !in t.cookies && RoleCookie !in t.cookies
            && UserIdCookie !in t.cookies && WarehouseIdCookie !in t.cookies
            && (forall name :: name in s.cookies && name !in SessionCookies
                  ==> name in t.cookies && t.cookies[name] == s.cookies[name])
            && t.localStorage == s.localStorage
            && t.route == LoginPath
  {
  }

  /** Removing the id cookies is a no-op when they were never set as cookies:
      then logout removes only the token and role cookies. */
  lemma IdCookieRemovalNoOp(s: Store)
    requires UserIdCookie !in s.cookies && WarehouseIdCookie !in s.cookies
    ensures AfterLogout(s).cookies == s.cookies - {AuthTokenCookie, RoleCookie}
  {
  }

  /** After logout every path outside the allowlist is sent to the login page. */
  lemma LogoutThenGuardRedirectsToLogin(s: Store, path: string)
    requires path != LoginPath && path != RegisterPath
    ensures Middleware(path, AfterLogout(s).cookies) == Redirect(LoginPath)
  {
  }
}
