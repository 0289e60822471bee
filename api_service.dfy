/**
 * The browser-side HTTP client wrapper (frontend/lib/ApiService.js): the
 * session token kept in the `auth-token` cookie, the request interceptor that
 * attaches it as a bearer credential (section 2.1 of RFC 6750), and the
 * response interceptor that drops it and goes to the login page when the
 * server answers 401 Unauthorized (section 15.5.2 of RFC 9110).
 *
 * The cookie jar is a map from cookie name to cookie; navigation is the list
 * of values successively assigned to `window.location.href`.
 */
module ApiService {
  import opened Wrappers
  import opened Strings
  import RouteGuard

  datatype SameSite = Strict | Lax | NoRestriction

  /** A cookie as `Cookies.set` stores it: value, lifetime in days, `secure` flag and same-site policy. */
  datatype Cookie = Cookie(value: string, expiresDays: nat, secure: bool, sameSite: SameSite)

  const TokenKey: string := "auth-token"
  const TokenLifetimeDays: nat := 7
  const LoginLocation: string := "/login"
  const AuthorizationHeader: string := "Authorization"
  const Unauthorized: int := 401

  // ------------------------------------------------------- the cookie jar

  /** JavaScript truthiness of the `token` argument: `null`, `undefined` and "" are false. */
  predicate IsTruthy(token: Option<string>) {
    token.Some? && token.value != ""
  }

  /** The jar after `storeToken(token)`. */
  function StoreInJar(jar: map<string, Cookie>, token: Option<string>, production: bool): map<string, Cookie> {
    if IsTruthy(token) then jar[TokenKey := Cookie(token.value, TokenLifetimeDays, production, Strict)]
    else jar
  }

  /** What `getToken()` returns for a jar: `token || null`. */
  function ReadJar(jar: map<string, Cookie>): Option<string> {
    if TokenKey in jar && jar[TokenKey].value != "" then Some(jar[TokenKey].value) else None
  }

  /** The jar after `clearToken()`. */
  function ClearJar(jar: map<string, Cookie>): map<string, Cookie> {
    jar - {TokenKey}
  }

  /** Storing a non-empty token and reading it back gives that token. */
  lemma StoreThenRead(jar: map<string, Cookie>, t: string, production: bool)
    requires t != ""
    ensures ReadJar(StoreInJar(jar, Some(t), production)) == Some(t)
  {
  }

  /** A falsy token leaves the jar as it was. */
  lemma FalsyStoreIsNoOp(jar: map<string, Cookie>, token: Option<string>, production: bool)
    requires !IsTruthy(token)
    ensures StoreInJar(jar, token, production) == jar
  {
  }

  /** The stored cookie lives 7 days, is same-site strict, and is secure exactly in production. */
  lemma StoredCookieAttributes(jar: map<string, Cookie>, t: string, production: bool)
    requires t != ""
    ensures var c := StoreInJar(jar, Some(t), production)[TokenKey];
      c.expiresDays == 7 && c.sameSite == Strict && (c.secure <==> production)
  {
  }

  /** A later token supersedes an earlier one. */
  lemma StoreSupersedes(jar: map<string, Cookie>, t1: string, t2: string, production: bool)
    requires t2 != ""
    ensures ReadJar(StoreInJar(StoreInJar(jar, Some(t1), production), Some(t2), production)) == Some(t2)
  {
  }

  /** After clearing, no token can be read, whatever the jar held. */
  lemma ClearThenRead(jar: map<string, Cookie>)
    ensures ReadJar(ClearJar(jar)) == None
  {
  }

  /** Clearing twice is clearing once. */
  lemma ClearIdempotent(jar: map<string, Cookie>)
    ensures ClearJar(ClearJar(jar)) == ClearJar(jar)
  {
  }

  /** Token operations touch no other cookie. */
  lemma OtherCookiesUntouched(jar: map<string, Cookie>, token: Option<string>, production: bool, name: string)
    requires name != TokenKey
    ensures name in StoreInJar(jar, token, production) <==> name in jar
    ensures name in ClearJar(jar) <==> name in jar
    ensures name in jar ==> StoreInJar(jar, token, production)[name] == jar[name] && ClearJar(jar)[name] == jar[name]
  {
  }

  // ------------------------------------------------ bearer credentials

  /** The `Authorization` header value: the scheme `Bearer`, one space, the token. */
  function BearerCredentials(token: string): string {
    "Bearer " + token
  }

  /** Reads the token back out of a `Bearer <token>` header value. */
  function ParseBearer(header: string): Option<string> {
    if StartsWith(header, "Bearer ") && |header| > 7 then Some(header[7..]) else None
  }

  /** The header carries exactly the token: parsing inverts building, in both directions. */
  lemma BearerRoundTrip(token: string, header: string)
    ensures token != "" ==> ParseBearer(BearerCredentials(token)) == Some(token)
    ensures ParseBearer(header) == Some(token) ==> token != "" && BearerCredentials(token) == header
  {
    if ParseBearer(header) == Some(token) {
      assert header == header[..7] + header[7..];
    }
  }

  // ------------------------------------------------------- HTTP exchange

  /** The headers of an outgoing request, which the request interceptor edits in place. */
  class RequestConfig {
    var headers: map<string, string>

    constructor (headers: map<string, string>)
      ensures this.headers == headers
    {
      this.headers := headers;
    }
  }

  datatype HttpResponse = HttpResponse(status: int, body: string)

  /** An axios error; `response` is absent for network failures and timeouts. */
  datatype RequestError = RequestError(response: Option<HttpResponse>)

  /** How the promise of a request settles. */
  datatype Settlement = Fulfilled(response: HttpResponse) | Rejected(error: RequestError)

  /** `error.response?.status === 401`. */
  predicate IsUnauthorized(s: Settlement) {
    s.Rejected? && s.error.response.Some? && s.error.response.value.status == Unauthorized
  }

  /**
   * The client: the browser's cookie jar, the navigation history, whether the
   * code runs in a browser (`document`/`window` exist; js-cookie does
   * nothing without them) and whether `NODE_ENV` is `production`.
   */
  class ApiClient {
    var jar: map<string, Cookie>
    var navigations: seq<string>
    const inBrowser: bool
    const production: bool

    constructor (inBrowser: bool, production: bool, jar: map<string, Cookie>)
      ensures this.inBrowser == inBrowser && this.production == production
      ensures this.jar == jar && navigations == []
    {
      this.inBrowser := inBrowser;
      this.production := production;
      this.jar := jar;
      navigations := [];
    }

    /** The token visible to this client. */
    function Token(): Option<string>
      reads this
    {
      if inBrowser then ReadJar(jar) else None
    }

    /** `storeToken(token)`: a truthy token is written with its attributes; anything else is ignored. */
    method StoreToken(token: Option<string>)
      modifies this`jar
      ensures jar == if inBrowser then StoreInJar(old(jar), token, production) else old(jar)
    {
      if inBrowser && IsTruthy(token) {
        jar := jar[TokenKey := Cookie(token.value, TokenLifetimeDays, production, Strict)];
      }
    }

    /** `getToken()`: the token, or `None` when it is absent or empty; it never fails. */
    method GetToken() returns (t: Option<string>)
      ensures t == Token()
      ensures t.Some? ==> t.value != "" && inBrowser && TokenKey in jar && jar[TokenKey].value == t.value
    {
      if !inBrowser || TokenKey !in jar {
        return None;
      }
      var value := jar[TokenKey].value;
      t := if value != "" then Some(value) else None;
    }

    /** `clearToken()`: removes the token cookie; clearing an absent token changes nothing. */
    method ClearToken()
      modifies this`jar
      ensures jar == if inBrowser then ClearJar(old(jar)) else old(jar)
      ensures Token() == None
    {
      if inBrowser {
        jar := jar - {TokenKey};
      }
    }

    /**
     * The request interceptor: with a token, sets `Authorization` to
     * `Bearer <token>` in the request's headers; without one, leaves the
     * request as it is. The same configuration object is handed on.
     */
    method AuthorizeRequest(config: RequestConfig) returns (r: RequestConfig)
      modifies config
      ensures r == config
      ensures Token().Some? ==> config.headers == old(config.headers)[AuthorizationHeader := BearerCredentials(Token().value)]
      ensures Token().None? ==> config.headers == old(config.headers)
    {
      var token := GetToken();
      if token.Some? {
        config.headers := config.headers[AuthorizationHeader := BearerCredentials(token.value)];
      }
      r := config;
    }

    /**
     * The response interceptor: every settlement is handed on unchanged (a
     * success stays a success, an error is still rejected); a 401 first clears
     * the token and, in a browser, navigates once to `/login`.
     */
    method SettleResponse(s: Settlement) returns (r: Settlement)
      modifies this`jar, this`navigations
      ensures r == s
      ensures IsUnauthorized(s) ==> Token() == None
      ensures IsUnauthorized(s) ==> jar == (if inBrowser then ClearJar(old(jar)) else old(jar))
      ensures IsUnauthorized(s) ==> navigations == old(navigations) + (if inBrowser then [LoginLocation] else [])
      ensures !IsUnauthorized(s) ==> jar == old(jar) && navigations == old(navigations)
    {
      if IsUnauthorized(s) {
        ClearToken();
        if inBrowser {
          navigations := navigations + [LoginLocation];
        }
      }
      r := s;
    }
  }

  // ------------------------------------------- link with the route guard

  /** The `Cookie` header a browser sends for a jar: each cookie's value by name. */
  function CookieHeader(jar: map<string, Cookie>): map<string, string> {
    map name | name in jar :: jar[name].value
  }

  /**
   * Token store and route guard agree: the dashboard is reachable right
   * after a non-empty token is stored, and a 401 (which clears the token)
   * locks it again.
   */
  lemma SessionGatesDashboard(jar: map<string, Cookie>, t: string, production: bool, origin: string, path: string)
    requires t != "" && StartsWith(path, "/dashboard")
    ensures RouteGuard.Middleware(RouteGuard.Request(origin, path, CookieHeader(StoreInJar(jar, Some(t), production)))) == RouteGuard.Next
    ensures RouteGuard.Middleware(RouteGuard.Request(origin, path, CookieHeader(ClearJar(jar)))).Redirect?
  {
    RouteGuard.RedirectIff(RouteGuard.Request(origin, path, CookieHeader(StoreInJar(jar, Some(t), production))));
    RouteGuard.RedirectIff(RouteGuard.Request(origin, path, CookieHeader(ClearJar(jar))));
  }
}
