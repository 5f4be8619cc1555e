/** middleware.ts: the redirect decision taken before a matched route is served. */
module Middleware {
  import opened Wrappers
  import Text

  datatype Decision = RedirectToLogin | RedirectToDashboard | PassThrough

  /** `request.headers.get("cookie")?.includes("token=")`, read as a truth value. */
  predicate HasToken(cookie: Option<string>) {
    cookie.Some? && Text.Contains(cookie.value, "token=")
  }

  /** `pathname.startsWith("/login")`. */
  predicate IsAuthRoute(pathname: string) {
    Text.StartsWith(pathname, "/login")
  }

  /** `middleware(request)`. */
  function Middleware(cookie: Option<string>, pathname: string): (d: Decision)
    ensures d == RedirectToLogin <==> !HasToken(cookie) && !IsAuthRoute(pathname)
    ensures d == RedirectToDashboard <==> HasToken(cookie) && IsAuthRoute(pathname)
    ensures d == PassThrough <==> HasToken(cookie) != IsAuthRoute(pathname)
  {
    var token := HasToken(cookie);
    var isAuthRoute := IsAuthRoute(pathname);
    if !token && !isAuthRoute then RedirectToLogin
    else if token && isAuthRoute then RedirectToDashboard
    else PassThrough
  }

  /** Without a cookie header no matched route but the login page is served: every other one goes to "/login". */
  lemma NoCookieGoesToLogin(pathname: string)
    ensures Middleware(None, pathname) == (if IsAuthRoute(pathname) then PassThrough else RedirectToLogin)
  {
  }

  /** Two requests with the same token flag and the same route kind get the same decision. */
  lemma DependsOnlyOnFlags(c1: Option<string>, p1: string, c2: Option<string>, p2: string)
    requires HasToken(c1) == HasToken(c2) && IsAuthRoute(p1) == IsAuthRoute(p2)
    ensures Middleware(c1, p1) == Middleware(c2, p2)
  {
  }

  /** A path under "/login" is a login route whatever follows the prefix. */
  lemma LoginSubpaths(rest: string)
    ensures IsAuthRoute("/login" + rest)
  {
    assert ("/login" + rest)[..6] == "/login";
  }

  /** A cookie header that carries a `token=` pair anywhere counts as a token. */
  lemma TokenAnywhere(before: string, after: string)
    ensures HasToken(Some(before + "token=" + after))
  {
    var c := before + "token=" + after;
    assert c[|before|..|before| + 6] == "token=";
    assert Text.OccursAt(c, "token=", |before|);
    Text.ContainsIff(c, "token=");
  }
}
