/**
 * The backoffice route guard: a decision on the request path and the admin token
 * cookie, taken before any page renders.
 */
module Middleware {
  import opened Optional
  import Text

  /** What the guard answers: let the request through, or redirect it. */
  datatype Decision = Next | RedirectToLogin | RedirectToRoot

  /** The path a redirect sends the browser to. */
  function Target(d: Decision): (p: string)
    requires d != Next
    ensures p == "/login" || p == "/"
  {
    if d == RedirectToLogin then "/login" else "/"
  }

  const PublicPaths: seq<string> := ["/login", "/register"]
  const ApiPrefix: string := "/api"
  const DashboardPrefix: string := "/dashboard"

  /** The three route flags the guard computes before deciding. */
  datatype RouteKind = RouteKind(isPublic: bool, isApi: bool, isProtected: bool)

  /** `"/"` matches only itself; `"/dashboard"` matches as a prefix. */
  predicate IsProtectedPath(pathname: string) {
    pathname == "/" || Text.IsPrefix(DashboardPrefix, pathname)
  }

  predicate IsApiPath(pathname: string) {
    Text.IsPrefix(ApiPrefix, pathname)
  }

  function Classify(pathname: string): (k: RouteKind)
    ensures k.isPublic <==> pathname in PublicPaths
    ensures k.isApi <==> Text.IsPrefix(ApiPrefix, pathname)
    ensures k.isProtected <==> pathname == "/" || Text.IsPrefix(DashboardPrefix, pathname)
  {
    RouteKind(pathname in PublicPaths, IsApiPath(pathname), IsProtectedPath(pathname))
  }

  /** The admin token: the `adminToken` cookie when non-empty, else the `admin-token` cookie. */
  function Token(cookies: map<string, string>): (t: Option<string>)
    ensures t.Some? <==>
      ("adminToken" in cookies && cookies["adminToken"] != "") ||
      ("admin-token" in cookies && cookies["admin-token"] != "")
    ensures t.Some? ==> t.value != ""
  {
    if "adminToken" in cookies && cookies["adminToken"] != "" then Some(cookies["adminToken"])
    else if "admin-token" in cookies && cookies["admin-token"] != "" then Some(cookies["admin-token"])
    else None
  }

  /** The decision from the computed flags, in the order the guard tests them. */
  function Decide(k: RouteKind, pathname: string, hasToken: bool): Decision {
    if k.isApi then Next
    else if k.isProtected && !hasToken then RedirectToLogin
    else if pathname == "/login" && hasToken then RedirectToRoot
    else Next
  }

  /** `middleware(request)`. */
  function Guard(pathname: string, cookies: map<string, string>): (d: Decision)
    ensures Text.IsPrefix("/api", pathname) ==> d == Next
    ensures d == RedirectToLogin <==>
      !Text.IsPrefix("/api", pathname) && (pathname == "/" || Text.IsPrefix("/dashboard", pathname))
      && Token(cookies).None?
    ensures d == RedirectToRoot <==> pathname == "/login" && Token(cookies).Some?
  {
    LoginIsNeitherApiNorProtected();
    Decide(Classify(pathname), pathname, Token(cookies).Some?)
  }

  lemma LoginIsNeitherApiNorProtected()
    ensures !Text.IsPrefix("/api", "/login") && !Text.IsPrefix("/dashboard", "/login")
  {
    Text.NotPrefix("/api", "/login", 1);
    Text.NotPrefix("/dashboard", "/login", 1);
  }

  /** The decision for a path and the presence of a token. */
  function GuardWith(pathname: string, hasToken: bool): Decision {
    Decide(Classify(pathname), pathname, hasToken)
  }

  /** Every path under `/api` passes, with or without a token; `"/apiary"` is one of them. */
  lemma ApiPassesThrough(pathname: string, hasToken: bool)
    requires Text.IsPrefix("/api", pathname)
    ensures GuardWith(pathname, hasToken) == Next
    ensures GuardWith("/apiary", hasToken) == Next
  {
    assert Text.IsPrefix("/api", "/apiary");
  }

  /** A token from either cookie counts. */
  lemma EitherCookieCounts(pathname: string, value: string)
    requires value != ""
    ensures Guard(pathname, map["adminToken" := value]) == GuardWith(pathname, true)
    ensures Guard(pathname, map["admin-token" := value]) == GuardWith(pathname, true)
  {
  }

  /** An empty `adminToken` cookie does not hide a non-empty `admin-token` one. */
  lemma EmptyFirstCookieFallsBack(value: string)
    requires value != ""
    ensures Token(map["adminToken" := "", "admin-token" := value]) == Some(value)
  {
  }

  /** With a token the guard never sends the browser to the login page. */
  lemma TokenNeverRedirectsToLogin(pathname: string)
    ensures GuardWith(pathname, true) != RedirectToLogin
  {
  }

  /** Some paths are always open: `/register`, `/login` without a token, unknown paths. */
  lemma OpenPaths(hasToken: bool)
    ensures GuardWith("/register", hasToken) == Next
    ensures GuardWith("/login", false) == Next
    ensures GuardWith("/about", hasToken) == Next
  {
    Text.NotPrefix("/dashboard", "/register", 1);
    Text.NotPrefix("/api", "/register", 1);
    Text.NotPrefix("/dashboard", "/login", 1);
    Text.NotPrefix("/api", "/login", 1);
    Text.NotPrefix("/dashboard", "/about", 1);
    Text.NotPrefix("/api", "/about", 2);
  }

  /** Following a redirect with the same token status always lands on a page that passes. */
  lemma NoRedirectLoop(pathname: string, hasToken: bool)
    ensures GuardWith(pathname, hasToken) != Next ==>
      GuardWith(Target(GuardWith(pathname, hasToken)), hasToken) == Next
  {
    LoginIsNeitherApiNorProtected();
  }

  /** Whether a path is listed as public never changes the decision. */
  lemma PublicFlagIsIgnored(k: RouteKind, pathname: string, hasToken: bool, isPublic: bool)
    ensures Decide(k.(isPublic := isPublic), pathname, hasToken) == Decide(k, pathname, hasToken)
  {
  }
}
