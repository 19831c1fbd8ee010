/**
 * The route gate run before every page request: a decision on the request
 * path and the value of the `admin_auth` cookie.
 */
module Middleware {
  import opened Wrappers
  import opened Text

  const LoginPath := "/login"
  const HomePath := "/"

  /** What the gate answers: let the request through, or redirect it. */
  datatype Response = Next | Redirect(location: string)

  /** The session is authenticated only by the exact cookie value "true". */
  predicate IsAuthenticated(cookie: Option<string>) {
    cookie == Some("true")
  }

  /** The route groups the gate protects: the three sections and the home page. */
  predicate IsProtected(path: string)
    ensures IsProtected(path) ==> StartsWith(path, "/")
    ensures path == LoginPath ==> !IsProtected(path)
  {
    || StartsWith(path, "/products")
    || StartsWith(path, "/categories")
    || StartsWith(path, "/feedback")
    || path == HomePath
  }

  function Gate(path: string, cookie: Option<string>): (r: Response)
    ensures r == Redirect(HomePath) <==> path == LoginPath && IsAuthenticated(cookie)
    ensures r == Redirect(LoginPath) <==> path != LoginPath && IsProtected(path) && !IsAuthenticated(cookie)
    ensures r.Redirect? ==> r.location == HomePath || r.location == LoginPath
    ensures path != LoginPath && !IsProtected(path) ==> r == Next
  {
    if path == LoginPath then
      if IsAuthenticated(cookie) then Redirect(HomePath) else Next
    else if IsProtected(path) && !IsAuthenticated(cookie) then
      Redirect(LoginPath)
    else
      Next
  }

  /** Only the exact string "true" opens a protected page: "TRUE", "false" or no cookie do not. */
  lemma CookieMustBeExactlyTrue(path: string, cookie: Option<string>)
    requires IsProtected(path) && path != LoginPath
    ensures Gate(path, cookie) == Next <==> cookie == Some("true")
    ensures Gate(path, Some("TRUE")) == Redirect(LoginPath)
  {
  }

  /** Following a redirect with the same cookie never redirects again. */
  lemma NoRedirectLoop(path: string, cookie: Option<string>)
    ensures Gate(path, cookie).Redirect? ==> Gate(Gate(path, cookie).location, cookie) == Next
  {
  }

  /** `/section/:path*` in a matcher: the section itself or any path below it. */
  predicate UnderSection(path: string, section: string) {
    path == section || StartsWith(path, section + "/")
  }

  /** `config.matcher`: the paths the framework runs the gate on at all. */
  predicate Matched(path: string)
    ensures Matched(path) ==> StartsWith(path, "/")
    ensures path == HomePath || path == LoginPath ==> Matched(path)
    ensures StartsWith(path, "/products/") || StartsWith(path, "/categories/") || StartsWith(path, "/feedback/") ==>
      Matched(path)
  {
    || path == HomePath
    || UnderSection(path, "/products")
    || UnderSection(path, "/categories")
    || UnderSection(path, "/feedback")
    || path == LoginPath
  }

  /** Every matched path other than the login page is one the gate protects. */
  lemma MatchedPathsAreProtected(path: string)
    requires Matched(path) && path != LoginPath
    ensures IsProtected(path)
  {
  }

  /** What a request meets: unmatched paths never reach the gate. A matched path
      is redirected to the login page exactly when it is not the login page and
      the cookie is not "true". */
  function Route(path: string, cookie: Option<string>): (r: Response)
    ensures !Matched(path) ==> r == Next
    ensures r == Next || r == Redirect(HomePath) || r == Redirect(LoginPath)
    ensures r == Redirect(HomePath) <==> path == LoginPath && IsAuthenticated(cookie)
    ensures r == Redirect(LoginPath) <==> Matched(path) && path != LoginPath && !IsAuthenticated(cookie)
  {
    if Matched(path) then
      if path != LoginPath then MatchedPathsAreProtected(path); Gate(path, cookie)
      else Gate(path, cookie)
    else Next
  }

  /** The matcher is narrower than the gate's prefix test: `/productsX` passes the
      gate's `startsWith` check, yet no request for it ever reaches the gate. */
  lemma PrefixTestWiderThanMatcher()
    ensures IsProtected("/productsX") && Gate("/productsX", None) == Redirect(LoginPath)
    ensures !Matched("/productsX") && Route("/productsX", None) == Next
  {
    assert StartsWith("/productsX", "/products");
    assert !StartsWith("/productsX", "/products" + "/") by {
      assert "/productsX"[9] != ("/products" + "/")[9];
    }
  }

  /** Following a redirect of the deployed gate with the same cookie is let through. */
  lemma RouteNoRedirectLoop(path: string, cookie: Option<string>)
    ensures Route(path, cookie).Redirect? ==> Route(Route(path, cookie).location, cookie) == Next
  {
  }
}
