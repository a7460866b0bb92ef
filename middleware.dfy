/**
 * The route gate run before every matched request: public pages and the
 * authentication endpoints pass, other API calls need a bearer token that
 * verifies, and other pages need a `token` cookie that verifies.
 */
module Middleware {
  import opened Wrappers
  import Http

  /** What the gate does with a request. */
  datatype Decision =
    | Next
      /** A JSON reply `{ error }` with status 401. */
    | Unauthorized(error: string)
      /** A redirect to `location`, with a `from` query parameter when given, deleting the `token` cookie when asked. */
    | Redirect(location: string, from: Option<string>, clearTokenCookie: bool)

  /** Paths served without authentication (compared exactly). */
  const PublicPaths: seq<string> := ["/", "/signin", "/signup", "/about", "/api/auth/signin", "/api/auth/signup"]
  const ApiPrefix := "/api/"
  const AuthApiPrefix := "/api/auth/"
  const SigninPage := "/signin"
  const InvalidToken := "Invalid token"

  predicate StartsWith(s: string, prefix: string)
  {
    |prefix| <= |s| && s[..|prefix|] == prefix
  }

  /** `request.cookies.get('token')?.value`, treated as absent when empty. */
  function CookieToken(cookies: map<string, string>): (token: Option<string>)
    ensures token.Some? <==> "token" in cookies && cookies["token"] != []
    ensures token.Some? ==> token.value == cookies["token"]
  {
    if "token" in cookies && cookies["token"] != [] then Some(cookies["token"]) else None
  }

  /**
   * `middleware(request)`, with `verify(token)` standing for `jwtVerify`
   * with the server's secret succeeding.
   */
  function Decide(pathname: string, authorization: Option<string>, cookies: map<string, string>,
                  verify: string -> bool): (d: Decision)
    ensures pathname in PublicPaths ==> d == Next
    ensures StartsWith(pathname, AuthApiPrefix) ==> d == Next
    ensures pathname !in PublicPaths && StartsWith(pathname, ApiPrefix) && !StartsWith(pathname, AuthApiPrefix) ==>
      match Http.BearerToken(authorization)
      case None => d == Unauthorized(Http.AuthenticationRequired)
      case Some(token) => d == if verify(token) then Next else Unauthorized(InvalidToken)
    ensures pathname !in PublicPaths && !StartsWith(pathname, ApiPrefix) ==>
      match CookieToken(cookies)
      case None => d == Redirect(SigninPage, Some(pathname), false)
      case Some(token) => d == if verify(token) then Next else Redirect(SigninPage, None, true)
  {
    if pathname in PublicPaths then Next
    else if StartsWith(pathname, ApiPrefix) then
      if StartsWith(pathname, AuthApiPrefix) then Next
      else
        match Http.BearerToken(authorization)
        case None => Unauthorized(Http.AuthenticationRequired)
        case Some(token) => if verify(token) then Next else Unauthorized(InvalidToken)
    else
      match CookieToken(cookies)
      case None => Redirect(SigninPage, Some(pathname), false)
      case Some(token) => if verify(token) then Next else Redirect(SigninPage, None, true)
  }

  /**
   * The gate lets a request through only when its path is public, lies under
   * `/api/auth/`, or carries (in the header for API paths, in the cookie for
   * pages) a token that verifies.
   */
  lemma NextOnlyWhenAllowed(pathname: string, authorization: Option<string>, cookies: map<string, string>,
                            verify: string -> bool)
    requires Decide(pathname, authorization, cookies, verify) == Next
    ensures
      || pathname in PublicPaths
      || StartsWith(pathname, AuthApiPrefix)
      || (StartsWith(pathname, ApiPrefix) && Http.BearerToken(authorization).Some?
          && verify(Http.BearerToken(authorization).value))
      || (!StartsWith(pathname, ApiPrefix) && CookieToken(cookies).Some? && verify(CookieToken(cookies).value))
  {
  }

  /** A protected API path never looks at the cookie, and a page never looks at the header. */
  lemma CredentialsAreSeparate(pathname: string, a1: Option<string>, a2: Option<string>,
                               c1: map<string, string>, c2: map<string, string>, verify: string -> bool)
    ensures StartsWith(pathname, ApiPrefix) ==> Decide(pathname, a1, c1, verify) == Decide(pathname, a1, c2, verify)
    ensures !StartsWith(pathname, ApiPrefix) ==> Decide(pathname, a1, c1, verify) == Decide(pathname, a2, c1, verify)
  {
  }

  /**
   * Only the redirect for a cookie that fails to verify clears the cookie,
   * and only the redirect for a missing cookie remembers where the user was
   * going.
   */
  lemma RedirectShapes(pathname: string, authorization: Option<string>, cookies: map<string, string>,
                       verify: string -> bool)
    requires Decide(pathname, authorization, cookies, verify).Redirect?
    ensures var d := Decide(pathname, authorization, cookies, verify);
      && d.location == SigninPage
      && !StartsWith(pathname, ApiPrefix)
      && (d.clearTokenCookie <==> CookieToken(cookies).Some?)
      && (d.from.Some? <==> CookieToken(cookies).None?)
      && (d.from.Some? ==> d.from.value == pathname)
  {
  }
}
