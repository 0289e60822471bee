/**
 * The edge middleware that runs before a page is rendered
 * (frontend/middleware.ts). It is a pure decision on the requested path and
 * the `auth-token` cookie: let the request through, or redirect it to the
 * login page, remembering the requested path in the `redirect` query
 * parameter.
 */
module RouteGuard {
  import opened Wrappers
  import opened Strings

  /** Path prefixes that need a session token. */
  const ProtectedRoutes: seq<string> := ["/dashboard"]

  /** Exact paths of the login and registration screens. */
  const AuthRoutes: seq<string> := ["/login", "/register"]

  const TokenCookie: string := "auth-token"
  const LoginPath: string := "/login"
  const RedirectParam: string := "redirect"

  /** The parts of an incoming request the middleware looks at. */
  datatype Request = Request(origin: string, pathname: string, cookies: map<string, string>)

  /** A URL: origin, path and the query parameters in order. */
  datatype Url = Url(origin: string, path: string, query: seq<(string, string)>)

  datatype Decision = Next | Redirect(target: Url)

  /** `routes.some((route) => pathname.startsWith(route))`. */
  function AnyPrefix(routes: seq<string>, pathname: string): (r: bool)
    ensures r <==> exists k :: 0 <= k < |routes| && StartsWith(pathname, routes[k])
    decreases |routes|
  {
    if routes == [] then false
    else StartsWith(pathname, routes[0]) || AnyPrefix(routes[1..], pathname)
  }

  predicate IsProtectedRoute(pathname: string) {
    AnyPrefix(ProtectedRoutes, pathname)
  }

  /** `authRoutes.includes(pathname)`; only consulted by the disabled branch. */
  predicate IsAuthRoute(pathname: string) {
    pathname in AuthRoutes
  }

  /** `request.cookies.get('auth-token')?.value`, read with JavaScript truthiness: "" counts as no token. */
  predicate HasToken(cookies: map<string, string>) {
    TokenCookie in cookies && cookies[TokenCookie] != ""
  }

  /** The login URL on the request's origin with `redirect=<pathname>`. */
  function LoginUrl(req: Request): Url {
    Url(req.origin, LoginPath, [(RedirectParam, req.pathname)])
  }

  /** The middleware's decision for one request. */
  function Middleware(req: Request): Decision {
    if IsProtectedRoute(req.pathname) && !HasToken(req.cookies) then Redirect(LoginUrl(req))
    else Next
  }

  // ----------------------------------------------------------- properties

  /** A request is redirected exactly when it targets a protected path and carries no token. */
  lemma RedirectIff(req: Request)
    ensures Middleware(req).Redirect? <==> StartsWith(req.pathname, "/dashboard") && !HasToken(req.cookies)
  {
    assert ProtectedRoutes[0] == "/dashboard";
  }

  /** The redirect goes to `/login` on the same origin, with the original path as its only query parameter. */
  lemma RedirectTarget(req: Request)
    requires Middleware(req).Redirect?
    ensures Middleware(req).target.path == "/login"
    ensures Middleware(req).target.origin == req.origin
    ensures Middleware(req).target.query == [("redirect", req.pathname)]
  {
  }

  /** An empty `auth-token` cookie is treated exactly like a missing one. */
  lemma EmptyTokenIsAbsent(origin: string, pathname: string, cookies: map<string, string>)
    ensures Middleware(Request(origin, pathname, cookies[TokenCookie := ""]))
         == Middleware(Request(origin, pathname, cookies - {TokenCookie}))
  {
  }

  /** A protected path with a non-empty token passes through. */
  lemma ProtectedWithTokenPasses(req: Request)
    requires TokenCookie in req.cookies && req.cookies[TokenCookie] != ""
    ensures Middleware(req) == Next
  {
  }

  /** A path outside `/dashboard` passes through whatever the cookies are. */
  lemma UnprotectedPasses(req: Request)
    requires !StartsWith(req.pathname, "/dashboard")
    ensures Middleware(req) == Next
  {
    RedirectIff(req);
  }

  /**
   * The login and registration screens are never redirected, with or without
   * a token: the branch that would send signed-in users to the dashboard is
   * disabled in the source.
   */
  lemma AuthRoutesPass(req: Request)
    requires IsAuthRoute(req.pathname)
    ensures Middleware(req) == Next
  {
    UnprotectedPasses(req);
  }

  /** Matching is a plain prefix test, so `/dashboardX` is protected too. */
  lemma PrefixMatchIsPlain(origin: string, cookies: map<string, string>)
    requires TokenCookie !in cookies
    ensures Middleware(Request(origin, "/dashboardX", cookies)) == Redirect(Url(origin, "/login", [("redirect", "/dashboardX")]))
  {
    RedirectIff(Request(origin, "/dashboardX", cookies));
  }
}
