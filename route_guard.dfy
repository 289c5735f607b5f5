/** The request-time route guard of the storefront (middleware.ts).

    The guard is a pure decision over the request path and the request's
    cookies: let the request continue, redirect it to the login page, or
    redirect it to the forbidden page. */
module RouteGuard {

  /** A cookie jar as the request carries it: cookie name to value. */
  type Cookies = map<string, string>

  /** The three dispositions of a request. */
  datatype Outcome = Continue | Redirect(target: string)

  const LoginPath := "/auth/login"
  const RegisterPath := "/auth/register"
  const ForbiddenPath := "/403"

  const AuthTokenCookie := "auth-token"
  const RoleCookie := "role"

  const SuperAdmin := "SUPER_ADMIN"
  const WarehouseAdmin := "WAREHOUSE_ADMIN"
  const Customer := "CUSTOMER"

  /** Paths that bypass every check; membership is exact equality. */
  const PublicPaths: seq<string> := [LoginPath, RegisterPath]

  /** One entry of the path policy table: a raw path prefix and the roles it admits. */
  datatype Rule = Rule(prefix: string, allowedRoles: seq<string>)

  /** The path policy table, in its declaration order. */
  const RolePathRules: seq<Rule> := [
    Rule("/dashboard", [SuperAdmin, WarehouseAdmin]),
    Rule("/products", [Customer]),
    Rule("/orders", [Customer]),
    Rule("/checkout", [Customer])
  ]

  /** JavaScript's `startsWith`: a raw character prefix, blind to path segments. */
  predicate StartsWith(s: string, prefix: string) {
    prefix <= s
  }

  /** The `!token` test fails for a missing cookie and for an empty one alike. */
  predicate HasToken(cookies: Cookies) {
    AuthTokenCookie in cookies && cookies[AuthTokenCookie] != ""
  }

  /** The role claim; a missing cookie reads as the empty role, which no
      table entry admits. */
  function RoleOf(cookies: Cookies): (role: string)
    ensures RoleCookie !in cookies ==> forall rule :: rule in RolePathRules ==> role !in rule.allowedRoles
  {
    if RoleCookie in cookies then cookies[RoleCookie] else ""
  }

  /** A table entry rejects a request when its prefix matches and the role is not listed. */
  predicate Forbids(rule: Rule, path: string, role: string) {
    StartsWith(path, rule.prefix) && role !in rule.allowedRoles
  }

  /** The `for..of` loop over the table: the first entry that rejects the
      request ends the scan with the forbidden redirect. The early return
      rejects exactly when some entry of the table rejects. */
  function ScanRules(rules: seq<Rule>, path: string, role: string): (r: Outcome)
    ensures r == Continue || r == Redirect(ForbiddenPath)
    ensures r == Redirect(ForbiddenPath) <==> exists rule :: rule in rules && Forbids(rule, path, role)
  {
    if rules == [] then Continue
    else if Forbids(rules[0], path, role) then Redirect(ForbiddenPath)
    else
      assert forall rule :: rule in rules ==> rule == rules[0] || rule in rules[1..];
      ScanRules(rules[1..], path, role)
  }

  /** The guard: public paths first, then the token, then the table. */
  function Middleware(path: string, cookies: Cookies): (r: Outcome)
    ensures r == Continue || r == Redirect(LoginPath) || r == Redirect(ForbiddenPath)
    ensures r == Redirect(LoginPath) <==> path !in PublicPaths && !HasToken(cookies)
  {
    if path in PublicPaths then Continue
    else if !HasToken(cookies) then Redirect(LoginPath)
    else ScanRules(RolePathRules, path, RoleOf(cookies))
  }

  /** The order of the table never changes the outcome: any reordering gives the same answer. */
  lemma TableOrderIrrelevant(rules: seq<Rule>, reordered: seq<Rule>, path: string, role: string)
    requires multiset(rules) == multiset(reordered)
    ensures ScanRules(rules, path, role) == ScanRules(reordered, path, role)
  {
    forall rule
      ensures rule in rules <==> rule in reordered
    {
      assert rule in rules <==> rule in multiset(rules);
      assert rule in reordered <==> rule in multiset(reordered);
    }
  }

  /** No path of the public allowlist matches any prefix of the table. */
  lemma PublicPathsUnlisted(path: string, rule: Rule)
    requires path in PublicPaths && rule in RolePathRules
    ensures !StartsWith(path, rule.prefix)
  {
    assert path[1] == 'a';
    assert rule.prefix[1] != 'a';
  }

  /** The allowlist is honoured whatever the cookies say. */
  lemma PublicPathsAlwaysContinue(path: string, cookies: Cookies)
    requires path == LoginPath || path == RegisterPath
    ensures Middleware(path, cookies) == Continue
  {
  }

  /** Outside the allowlist a missing or empty token always leads to the login page. */
  lemma MissingTokenRedirectsToLogin(path: string, cookies: Cookies)
    requires path != LoginPath && path != RegisterPath
    requires AuthTokenCookie !in cookies || cookies[AuthTokenCookie] == ""
    ensures Middleware(path, cookies) == Redirect(LoginPath)
  {
  }

  /** With a token, the guard forbids exactly when some table entry matches the
      path and does not list the role, and lets the request through otherwise. */
  lemma MiddlewareForbidsExactly(path: string, cookies: Cookies)
    requires HasToken(cookies)
    ensures Middleware(path, cookies) == Redirect(ForbiddenPath)
            <==> exists rule :: rule in RolePathRules && Forbids(rule, path, RoleOf(cookies))
    ensures Middleware(path, cookies) == Continue
            <==> forall rule :: rule in RolePathRules ==> !Forbids(rule, path, RoleOf(cookies))
  {
    if path in PublicPaths {
      forall rule | rule in RolePathRules
        ensures !Forbids(rule, path, RoleOf(cookies))
      {
        PublicPathsUnlisted(path, rule);
      }
    }
  }

  /** A token without a role cookie (or with an empty one) is forbidden on
      every listed prefix, since no entry lists the empty role. */
  lemma MissingRoleForbidsListedPrefixes(path: string, cookies: Cookies, rule: Rule)
    requires HasToken(cookies)
    requires RoleCookie !in cookies || cookies[RoleCookie] == ""
    requires rule in RolePathRules && StartsWith(path, rule.prefix)
    ensures Middleware(path, cookies) == Redirect(ForbiddenPath)
  {
    assert Forbids(rule, path, RoleOf(cookies));
    MiddlewareForbidsExactly(path, cookies);
  }

  /** With a token, a path that no table prefix matches always continues. */
  lemma UnlistedPathsContinue(path: string, cookies: Cookies)
    requires HasToken(cookies)
    requires forall rule :: rule in RolePathRules ==> !StartsWith(path, rule.prefix)
    ensures Middleware(path, cookies) == Continue
  {
    MiddlewareForbidsExactly(path, cookies);
  }

  /** The root page is listed nowhere, so any token holder reaches it. */
  lemma RootContinuesWithToken(cookies: Cookies)
    requires HasToken(cookies)
    ensures Middleware("/", cookies) == Continue
  {
    forall rule | rule in RolePathRules
      ensures !StartsWith("/", rule.prefix)
    {
      assert |rule.prefix| > 1;
    }
    UnlistedPathsContinue("/", cookies);
  }

  /** Anything under `/dashboard` continues only for the two admin roles. */
  lemma DashboardAdminsOnly(path: string, cookies: Cookies)
    requires HasToken(cookies) && StartsWith(path, "/dashboard")
    ensures Middleware(path, cookies) == Continue
            <==> RoleOf(cookies) == SuperAdmin || RoleOf(cookies) == WarehouseAdmin
    ensures Middleware(path, cookies) != Continue ==> Middleware(path, cookies) == Redirect(ForbiddenPath)
  {
    assert path[1] == 'd';
    assert path !in PublicPaths;
    var role := RoleOf(cookies);
    var rest := RolePathRules[1..];
    assert forall rule :: rule in rest ==> !StartsWith(path, rule.prefix);
    assert Forbids(RolePathRules[0], path, role) <==> role != SuperAdmin && role != WarehouseAdmin;
  }

  /** Anything under `/products`, `/orders` or `/checkout` continues only for customers. */
  lemma CustomerPagesCustomerOnly(path: string, cookies: Cookies)
    requires HasToken(cookies)
    requires StartsWith(path, "/products") || StartsWith(path, "/orders") || StartsWith(path, "/checkout")
    ensures Middleware(path, cookies) == Continue <==> RoleOf(cookies) == Customer
    ensures Middleware(path, cookies) != Continue ==> Middleware(path, cookies) == Redirect(ForbiddenPath)
  {
    assert path[1] == 'p' || path[1] == 'o' || path[1] == 'c';
    assert path !in PublicPaths;
    var role := RoleOf(cookies);
    assert !Forbids(RolePathRules[0], path, role);
    MiddlewareForbidsExactly(path, cookies);
    if role != Customer {
      var i := if StartsWith(path, "/products") then 1 else if StartsWith(path, "/orders") then 2 else 3;
      assert Forbids(RolePathRules[i], path, role);
    }
  }

  /** Distinct table prefixes already differ in their second character. */
  lemma ListedPrefixesDisjoint(i: int, j: int, s: string)
    requires 0 <= i < |RolePathRules| && 0 <= j < |RolePathRules| && i != j
    ensures !StartsWith(RolePathRules[i].prefix + s, RolePathRules[j].prefix)
  {
    var p := RolePathRules[i].prefix + s;
    assert p[1] == RolePathRules[i].prefix[1];
  }

  /** Prefixes are not segment-aware: appending anything to a listed prefix
      (`/dashboardX`, `/ordersfoo`) is gated exactly like the prefix itself. */
  lemma {:induction false} PrefixNotSegmentAware(i: int, suffix: string, cookies: Cookies)
    requires 0 <= i < |RolePathRules|
    ensures Middleware(RolePathRules[i].prefix + suffix, cookies) == Middleware(RolePathRules[i].prefix, cookies)
  {
    var long, short := RolePathRules[i].prefix + suffix, RolePathRules[i].prefix;
    assert short == short + [];
    assert long[1] != 'a' && short[1] != 'a';
    assert long !in PublicPaths && short !in PublicPaths;
    if HasToken(cookies) {
      var role := RoleOf(cookies);
      MiddlewareForbidsExactly(long, cookies);
      MiddlewareForbidsExactly(short, cookies);
      forall j | 0 <= j < |RolePathRules|
        ensures Forbids(RolePathRules[j], long, role) <==> Forbids(RolePathRules[j], short, role)
      {
        if j != i {
          ListedPrefixesDisjoint(i, j, suffix);
          ListedPrefixesDisjoint(i, j, []);
        }
      }
    }
  }

  /** Two concrete instances: a customer is refused `/dashboardX` and a
      warehouse admin is refused `/ordersfoo`. */
  lemma RawPrefixExamples(cookies: Cookies)
    requires HasToken(cookies)
    ensures RoleOf(cookies) == Customer ==> Middleware("/dashboardX", cookies) == Redirect(ForbiddenPath)
    ensures RoleOf(cookies) == WarehouseAdmin ==> Middleware("/ordersfoo", cookies) == Redirect(ForbiddenPath)
  {
    DashboardAdminsOnly("/dashboardX", cookies);
    CustomerPagesCustomerOnly("/ordersfoo", cookies);
  }

  /** The public check is exact and comes before the token check:
      `/auth/login/x` without a token goes to the login page. */
  lemma PublicMatchIsExact(cookies: Cookies)
    requires !HasToken(cookies)
    ensures Middleware("/auth/login/x", cookies) == Redirect(LoginPath)
  {
  }

  /** The first matches of `config.matcher` besides `/`: each routes its base
      path and everything below it as a whole segment. */
  const MatcherBases: seq<string> := ["/dashboard", "/products", "/orders", "/checkout"]

  /** The paths the host hands to the guard at all. */
  predicate RoutedThroughGuard(path: string) {
    path == "/" || exists base :: base in MatcherBases && (path == base || StartsWith(path, base + "/"))
  }

  /** Every routed path avoids the allowlist, so the public branch never fires in deployment. */
  lemma PublicBranchUnreachable(path: string)
    requires RoutedThroughGuard(path)
    ensures path !in PublicPaths
  {
    if path != "/" {
      var base :| base in MatcherBases && (path == base || StartsWith(path, base + "/"));
      assert path[1] == base[1];
    }
  }

  /** On routed paths the raw prefix test agrees with a segment-wise one: a
      listed prefix matches a routed path only as a whole segment. */
  lemma RoutedPathsMatchWholeSegments(path: string, rule: Rule)
    requires RoutedThroughGuard(path) && rule in RolePathRules
    ensures StartsWith(path, rule.prefix) <==> path == rule.prefix || StartsWith(path, rule.prefix + "/")
  {
    if path != "/" {
      var base :| base in MatcherBases && (path == base || StartsWith(path, base + "/"));
      assert path[1] == base[1];
      if rule.prefix == base {
      } else {
        assert rule.prefix[1] != base[1];
      }
    }
  }
}
