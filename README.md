# Storefront session and route-access model

A Dafny model of the decision logic of a Next.js storefront and warehouse
front end. It covers four pieces:

- **Route guard** (`middleware.ts`). A pure decision over the request path and
  the request's cookies. A path on the public allowlist (`/auth/login`,
  `/auth/register`, exact match) continues. Without a non-empty `auth-token`
  cookie the request goes to `/auth/login`. Otherwise the path policy table is
  scanned in order, and the first entry whose prefix matches the path (raw
  `startsWith`) and does not list the `role` cookie sends the request to
  `/403`. A missing role cookie reads as the empty role. A request that no
  entry rejects continues.
- **Login** (`app/auth/login/page.tsx`). On an OK reply the handler writes the
  `auth-token` cookie and the `authToken`, `userId` and `email` storage entries.
  It then dispatches on the role. `WAREHOUSE_ADMIN` also stores `warehouseId`
  and goes to `/dashboard`. `CUSTOMER` goes to `/products`. Both then get the
  `role` cookie. Every other role, `SUPER_ADMIN` included, stops before the role
  cookie is written, with the token cookie already in place. A non-OK reply
  writes nothing.
- **Logout** (`components/Sidebar.tsx`). Removes the `auth-token`, `role`,
  `userId` and `warehouseId` cookies and goes to `/auth/login`. Local storage is
  not touched.
- **Checkout** (`app/checkout/page.tsx`). The quantity starts at 1, and values
  below 1 are ignored. The total is price × quantity once a product is loaded.
  The address is the first list entry flagged primary. The order request holds
  one item, and its `totalPrice` is that item's subtotal, without the fixed
  `shippingCost` of 1000.

The browser's cookie jar, `localStorage` and router location are one class,
`ClientStore.Browser`. Its methods are the individual `Cookies.set`,
`Cookies.remove`, `localStorage.setItem` and `router.push` calls. The login and
logout handlers are methods on that object. Each is proved equal to a pure
function of the old state (`LoginPage.AfterLogin`, `Sidebar.AfterLogout`). The
lemmas about the handlers, and the lemmas joining them with the guard
(`SessionGuard`), are stated on those functions. The checkout page is a class
holding the component state. Its handlers are methods, and the order
assembly, total and address lookup are pure functions.

Prices are whole rupiah (`int`). Service replies are inputs: an `ok` flag and
the fields the handlers read, or `None` for a reply that is not OK.

Behaviour worth knowing, all stated as lemmas:

- A `SUPER_ADMIN` login leaves the role cookie as it was. After a logout, or
  with no admin role cookie left over, `/dashboard` then answers `/403`.
  However, a stale `WAREHOUSE_ADMIN` role cookie from an earlier session still
  opens the dashboard (`SessionGuard.StaleRoleSurvivesSuperAdminLogin`).
- Prefix matching is not segment-aware, so `/dashboardX` and `/ordersfoo` are
  gated like `/dashboard` and `/orders`. The host's route matcher only passes
  whole segments to the guard, so in deployment the raw prefix test agrees with
  a segment test. The public branch is never reached there.
- Table order never changes the guard's answer.
- The login handler calls `router.push` before it writes the role cookie.
  Judged by the cookies present at the push, a fresh warehouse-admin or
  customer session would be sent to `/403`
  (`SessionGuard.LoginPushPrecedesRoleCookie`). Judged by the cookies the
  handler leaves behind, the pushed route is allowed
  (`SessionGuard.LoginLandsOnPermittedRoute`).

## Model

| member | source | states |
|---|---|---|
| `RouteGuard.RoleOf` | middleware.ts:15 | a missing role cookie yields a role that no entry of the policy table admits |
| `RouteGuard.ScanRules` | middleware.ts:26-30 | the first-match loop only ever continues or redirects to `/403`, and it redirects iff some entry matches the path and does not list the role, for any table |
| `RouteGuard.Middleware` | middleware.ts:13-37 | the guard has exactly three outcomes; it redirects to login exactly when the path is not public and the token is missing or empty |
| `RouteGuard.TableOrderIrrelevant` | middleware.ts:26-30 | any reordering of a table gives the same scan result |
| `RouteGuard.PublicPathsUnlisted` | middleware.ts:4-11 | no public path starts with any table prefix |
| `RouteGuard.PublicPathsAlwaysContinue` | middleware.ts:17-19 | `/auth/login` and `/auth/register` continue whatever the cookies |
| `RouteGuard.MissingTokenRedirectsToLogin` | middleware.ts:21-23 | outside the allowlist a missing or empty token gives the login redirect |
| `RouteGuard.MiddlewareForbidsExactly` | middleware.ts:25-36 | with a token, the guard gives `/403` iff some table prefix matches the path and its entry lacks the role, and continues otherwise |
| `RouteGuard.MissingRoleForbidsListedPrefixes` | middleware.ts:6-29 | with a token but no (or an empty) role cookie, every path under a listed prefix gives `/403` |
| `RouteGuard.UnlistedPathsContinue` | middleware.ts:26-36 | with a token, a path matching no table prefix continues |
| `RouteGuard.RootContinuesWithToken` | middleware.ts:26-36 | with a token, `/` continues for every role |
| `RouteGuard.DashboardAdminsOnly` | middleware.ts:6-28 | with a token, paths starting with `/dashboard` continue iff the role is `SUPER_ADMIN` or `WAREHOUSE_ADMIN`, else give `/403` |
| `RouteGuard.CustomerPagesCustomerOnly` | middleware.ts:6-28 | with a token, paths starting with `/products`, `/orders` or `/checkout` continue iff the role is `CUSTOMER`, else give `/403` |
| `RouteGuard.ListedPrefixesDisjoint` | middleware.ts:6-11 | no table prefix extended by any suffix starts with a different table prefix |
| `RouteGuard.PrefixNotSegmentAware` | middleware.ts:27 | any string appended to a table prefix is gated exactly like the prefix itself |
| `RouteGuard.RawPrefixExamples` | middleware.ts:27 | a customer is refused `/dashboardX`; a warehouse admin is refused `/ordersfoo` |
| `RouteGuard.PublicMatchIsExact` | middleware.ts:17-23 | `/auth/login/x` is not public: without a token it gives the login redirect |
| `RouteGuard.PublicBranchUnreachable` | middleware.ts:39-47 | no path the matcher routes to the guard is on the allowlist |
| `RouteGuard.RoutedPathsMatchWholeSegments` | middleware.ts:39-47 | on routed paths, a table prefix matches iff it matches a whole path segment |
| `ClientStore.Browser.SetCookie` | app/auth/login/page.tsx:28-32 | `Cookies.set` overwrites exactly one cookie |
| `ClientStore.Browser.RemoveCookie` | components/Sidebar.tsx:15 | `Cookies.remove` deletes exactly one cookie, a no-op when absent |
| `ClientStore.Browser.SetItem` | app/auth/login/page.tsx:34 | `localStorage.setItem` overwrites exactly one entry |
| `ClientStore.Browser.Push` | app/auth/login/page.tsx:44 | `router.push` sets the route and nothing else |
| `LoginPage.HandleLogin` | app/auth/login/page.tsx:13-65 | the handler's writes, in source order, produce exactly `AfterLogin` of the old state |
| `LoginPage.FailedLoginChangesNothing` | app/auth/login/page.tsx:27-60 | a non-OK reply leaves cookies, storage and route unchanged |
| `LoginPage.AcceptedLoginWritesSession` | app/auth/login/page.tsx:28-36 | an OK reply writes the token cookie and the `authToken`, `userId`, `email` entries for every role |
| `LoginPage.WarehouseAdminLogin` | app/auth/login/page.tsx:39-57 | `WAREHOUSE_ADMIN` adds exactly the four storage keys incl. `warehouseId`, sets token and role cookies, routes to `/dashboard` |
| `LoginPage.CustomerLogin` | app/auth/login/page.tsx:46-57 | `CUSTOMER` sets token and role cookies, routes to `/products`, leaves `warehouseId` untouched |
| `LoginPage.OtherRoleLogin` | app/auth/login/page.tsx:39-51 | any other role, `SUPER_ADMIN` included, writes only the token cookie; role cookie and route are unchanged |
| `LoginPage.LoginLeavesIdCookies` | app/auth/login/page.tsx:28-57 | login never writes the `userId` or `warehouseId` cookies |
| `Sidebar.HandleLogout` | components/Sidebar.tsx:13-22 | the four removals and the push produce exactly `AfterLogout` of the old state |
| `Sidebar.LogoutClearsSession` | components/Sidebar.tsx:13-22 | logout removes the four cookies, keeps all others, keeps storage, routes to `/auth/login` |
| `Sidebar.IdCookieRemovalNoOp` | components/Sidebar.tsx:17-18 | when the id cookies were never set, logout removes only the token and role cookies |
| `Sidebar.LogoutThenGuardRedirectsToLogin` | components/Sidebar.tsx:15-21 | after logout every non-public path gives the login redirect |
| `SessionGuard.SuperAdminLoginForbidsDashboard` | app/auth/login/page.tsx:28-57 | after a `SUPER_ADMIN` login with no admin role cookie left over, every `/dashboard` path gives `/403` |
| `SessionGuard.LogoutThenSuperAdminLogin` | components/Sidebar.tsx:13-22 | logout followed by a `SUPER_ADMIN` login always gives `/403` on `/dashboard` paths |
| `SessionGuard.StaleRoleSurvivesSuperAdminLogin` | app/auth/login/page.tsx:48-57 | a leftover `WAREHOUSE_ADMIN` role cookie still opens `/dashboard` after a `SUPER_ADMIN` login |
| `SessionGuard.LoginLandsOnPermittedRoute` | app/auth/login/page.tsx:39-57 | a warehouse-admin or customer login with a non-empty token navigates to a route the guard lets through |
| `SessionGuard.LoginPushPrecedesRoleCookie` | app/auth/login/page.tsx:39-57 | with the cookies present when `router.push` is called (before the role cookie), a fresh warehouse-admin or customer login would see its pushed route answered with `/403` |
| `SessionGuard.EmptyTokenLoginStillUnauthenticated` | app/auth/login/page.tsx:28-32 | an OK reply with an empty token still leaves every non-public path redirected to login |
| `Checkout.FindPrimary` | app/checkout/page.tsx:94 | finds an entry iff some entry is primary, and the one found is the first primary entry |
| `Checkout.TotalPrice` | app/checkout/page.tsx:116-118 | 0 with no product; a loaded product with non-negative price at quantity at least 1 costs at least its unit price (monotonicity in `TotalPriceMonotone`, agreement with the order's item subtotals in `BuildOrder`) |
| `Checkout.BuildOrder` | app/checkout/page.tsx:126-142 | one item for the product at the current quantity; total equals the sum of item subtotals and the displayed total; shipping cost 1000 |
| `Checkout.OrderTotalOmitsShipping` | app/checkout/page.tsx:135-139 | the order total is never the subtotal plus the shipping cost |
| `Checkout.TotalPriceMonotone` | app/checkout/page.tsx:116-118 | for a non-negative price and quantity at least 1, the total is at least the unit price and grows with quantity |
| `Checkout.CheckoutPage.constructor` | app/checkout/page.tsx:34-38 | no product or address, quantity 1, loading, no error |
| `Checkout.CheckoutPage.HandleQuantityChange` | app/checkout/page.tsx:111-114 | values below 1 are ignored, others are taken exactly; quantity stays at least 1 |
| `Checkout.CheckoutPage.HandleQuantityInput` | app/checkout/page.tsx:216-218 | text parsing to NaN or 0 sets quantity 1, a negative number is ignored, a positive one is taken |
| `Checkout.CheckoutPage.DecreaseQuantity` | app/checkout/page.tsx:206-212 | the minus button lowers the quantity by one but never below 1 |
| `Checkout.CheckoutPage.IncreaseQuantity` | app/checkout/page.tsx:221-227 | the plus button raises the quantity by one |
| `Checkout.CheckoutPage.HandleConfirmOrder` | app/checkout/page.tsx:120-148 | a request is sent iff product, address and a non-empty token are present; it is the single-item order, and its total is the displayed total |
| `Checkout.CheckoutPage.FetchProductAndAddress` | app/checkout/page.tsx:42-106 | each failure records its own message; the product is set once fetched; the address becomes the first primary one, or stays unset with "Primary address not found"; loading ends |

## Left out

- All `fetch` calls, service URLs from environment variables, and JSON parsing. Replies are inputs to the handlers.
- SessionGuard.LoginLandsOnPermittedRoute: assumes the navigation request carries the cookies written after `router.push`, that is, that the role cookie is set before the router's request reaches the guard. The timing of client-side navigation is not modelled.
- The login handler's `catch` path (fetch or JSON failure). It has the same effect on the state as a non-OK reply: nothing is written.
- The guard's `try/catch` (middleware.ts:25-34). Nothing in the pure decision can throw.
- `config.matcher` (middleware.ts:39-47) does not restrict which paths `RouteGuard.Middleware` accepts. It appears only as `RouteGuard.RoutedThroughGuard`, in lemmas about which paths reach the guard.
- `alert`, `console.error`, React rendering, the hook lifecycle, `toLocaleString` and date formatting.
- Cookie attributes (`path`, `secure`, `sameSite`) are not modelled. The cookie jar is one name-to-value map shared by the client and the request.
- Checkout.CheckoutPage.HandleConfirmOrder: what happens after the request is posted is not modelled. That covers the order service's reply, the navigation to `/orders/<id>` and the stock-shortage alert.
- Checkout.CheckoutPage.HandleQuantityInput: fractional numbers typed into the box are not modelled. Prices and quantities are integers, not JavaScript floating point.
- The user id read from storage for the address request is not modelled. It only shapes a URL.
- The remaining pages and components (`app/dashboard/*`, `app/orders/*`, `app/products/*`, `components/Navbar.tsx`, `next.config.ts`) are not part of this model. They fetch data and render it, with no decision logic.
