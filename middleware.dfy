/**
 * The route gate run before every matched request: without a `token` cookie
 * the request is redirected to `/home` on the same origin, otherwise it
 * continues. The matcher leaves out Next.js static assets and the favicon.
 * The gate is taken as registered with Next.js, which loads middleware only
 * from `middleware.ts` at the project root or `src/middleware.ts`, and the
 * cookie lookup as returning a cookie object (Next.js 13 and later).
 */
module Middleware {

  /** The parts of a request the gate reads: `req.url` split into origin and path, and the cookies. */
  datatype Request = Request(origin: string, pathname: string, cookies: map<string, string>)

  /** `NextResponse.redirect(url)` or `NextResponse.next()`. */
  datatype Response = Redirect(location: string) | Next

  const TokenCookie := "token"
  const LandingPath := "/home"

  /**
   * `req.cookies.get('token')` is a cookie object or `undefined`; an object is
   * truthy even when the cookie's value is empty, so only presence counts.
   */
  function Gate(req: Request): (r: Response)
    ensures r.Redirect? <==> TokenCookie !in req.cookies
    ensures r.Redirect? ==> r.location == req.origin + LandingPath
  {
    if TokenCookie !in req.cookies then Redirect(req.origin + LandingPath) else Next
  }

  /** No `token` cookie: redirect to `/home` of the request's origin. Otherwise continue. */
  lemma GateDecision(req: Request)
    ensures Gate(req) == Redirect(req.origin + LandingPath) <==> TokenCookie !in req.cookies
    ensures Gate(req) == Next <==> TokenCookie in req.cookies
  {
  }

  /** An empty `token` cookie still lets the request through. */
  lemma EmptyTokenPasses(origin: string, path: string)
    ensures Gate(Request(origin, path, map["token" := ""])) == Next
  {
  }

  /** The decision depends on token presence only, never on the path or the other cookies. */
  lemma GateIgnoresPath(r1: Request, r2: Request)
    requires r1.origin == r2.origin
    requires ("token" in r1.cookies) == ("token" in r2.cookies)
    ensures Gate(r1) == Gate(r2)
  {
  }

  // The matcher `'/((?!_next/static|_next/image|favicon.ico).*)'`, read as a
  // JavaScript regular expression anchored at both ends.

  /** The characters `.` does not match. */
  predicate LineTerminator(c: char) {
    c == '\n' || c == '\r' || c == '\U{2028}' || c == '\U{2029}'
  }

  predicate StartsWith(s: string, prefix: string) {
    |prefix| <= |s| && s[..|prefix|] == prefix
  }

  /** `favicon.ico` as a pattern: its `.` stands for any one character but a line terminator. */
  predicate FaviconAt(s: string) {
    |s| >= 11 && s[..7] == "favicon" && !LineTerminator(s[7]) && s[8..11] == "ico"
  }

  /** The negative look-ahead's alternatives, tried right after the leading `/`. */
  predicate Excluded(rest: string) {
    StartsWith(rest, "_next/static") || StartsWith(rest, "_next/image") || FaviconAt(rest)
  }

  /**
   * Does the middleware run for `path`? Only single-line paths starting with
   * `/` whose remainder starts with none of the asset prefixes.
   */
  predicate Matches(path: string)
    ensures Matches(path) ==> |path| >= 1 && path[0] == '/'
    ensures Matches(path) ==> !StartsWith(path, "/_next/static") && !StartsWith(path, "/_next/image")
    ensures Matches(path) ==> forall i :: 0 <= i < |path| ==> !LineTerminator(path[i])
  {
    PrefixAfterSlash(path, "_next/static");
    PrefixAfterSlash(path, "_next/image");
    && |path| >= 1 && path[0] == '/'
    && !Excluded(path[1..])
    && forall i :: 1 <= i < |path| ==> !LineTerminator(path[i])
  }

  /** A path starting with `/` + `p` has a remainder starting with `p`. */
  lemma PrefixAfterSlash(path: string, p: string)
    ensures StartsWith(path, "/" + p) ==> |path| >= 1 && StartsWith(path[1..], p)
  {
    if StartsWith(path, "/" + p) {
      assert path[1..][..|p|] == path[..|p| + 1][1..];
    }
  }

  /** The three asset prefixes are never gated. */
  lemma AssetsNotGated(rest: string)
    ensures !Matches("/_next/static" + rest)
    ensures !Matches("/_next/image" + rest)
    ensures !Matches("/favicon.ico" + rest)
  {
    var q1 := ("/_next/static" + rest)[1..];
    assert q1 == "_next/static" + rest;
    assert q1[..12] == "_next/static";
    var q2 := ("/_next/image" + rest)[1..];
    assert q2 == "_next/image" + rest;
    assert q2[..11] == "_next/image";
    var q3 := ("/favicon.ico" + rest)[1..];
    assert q3 == "favicon.ico" + rest;
    assert q3[..7] == "favicon" && q3[8..11] == "ico";
  }

  /** In `favicon.ico` the dot is a wildcard: `/faviconXico` is not gated either. */
  lemma FaviconDotIsWildcard(c: char, rest: string)
    requires !LineTerminator(c)
    ensures !Matches("/favicon" + [c] + "ico" + rest)
  {
    var p := "/favicon" + [c] + "ico" + rest;
    assert p[1..][..7] == "favicon";
    assert p[1..][7] == c;
    assert p[1..][8..11] == "ico";
  }

  /** Every other single-line path is gated; the look-ahead only inspects the path's start. */
  lemma OtherPathsGated(path: string)
    requires |path| >= 1 && path[0] == '/'
    requires !StartsWith(path[1..], "_next/static") && !StartsWith(path[1..], "_next/image")
    requires !FaviconAt(path[1..])
    requires forall i :: 0 <= i < |path| ==> !LineTerminator(path[i])
    ensures Matches(path)
  {
  }

  /** A single-line path whose first segment starts with neither `_` nor `f` is gated. */
  lemma PlainRouteGated(path: string)
    requires |path| >= 2 && path[0] == '/' && path[1] != '_' && path[1] != 'f'
    requires forall i :: 0 <= i < |path| ==> !LineTerminator(path[i])
    ensures Matches(path)
  {
    assert path[1..][0] == path[1];
    OtherPathsGated(path);
  }

  /** A page route is gated. */
  lemma EventsPageGated()
    ensures Matches("/events")
  {
    PlainRouteGated("/events");
  }

  /** Only the start of the path is inspected: the same asset prefix deeper in the path is gated. */
  lemma NestedAssetPathGated()
    ensures Matches("/events/_next/static")
  {
    PlainRouteGated("/events/_next/static");
  }

  /**
   * The landing page is itself gated, and so is `/login`: a request without a
   * token for `/home` is redirected to `/home` again.
   */
  lemma HomeRedirectsToItself(origin: string, cookies: map<string, string>)
    requires TokenCookie !in cookies
    ensures Matches(LandingPath) && Matches("/login")
    ensures Gate(Request(origin, LandingPath, cookies)) == Redirect(origin + LandingPath)
  {
    PlainRouteGated(LandingPath);
    PlainRouteGated("/login");
  }

  /** Another extension after `favicon` is gated. */
  lemma OtherFaviconGated()
    ensures Matches("/favicon.png")
  {
    var rest := "favicon.png";
    assert rest[0] != "_next/static"[0];
    assert rest[8..11] != "ico" by {
      assert rest[8] != "ico"[0];
    }
    OtherPathsGated("/favicon.png");
  }
}
