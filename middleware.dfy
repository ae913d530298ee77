// frontend/middleware.ts: the edge middleware that keeps the dashboard and the
// contractor area behind the access-token cookie and lets the experiment
// cookies be applied on the calculator's pages.  The experiment hook itself
// (`applyExperimentCookies`) is not part of this model; the response records
// whether it runs.
module Middleware {
  import opened Results
  import opened Strings

  /** PROTECTED_PATHS. */
  const ProtectedPaths: seq<string> := ["/dashboard", "/cont"]

  /** The prefix on which the experiment-cookie hook runs. */
  const ExperimentPrefix := "/tools/pinterest-potential"

  /** The page a missing token is sent to. */
  const LoginPath := "/login"

  /** The parts of the request the middleware reads; `accessCookie` is the `fruitful_access_token` cookie. */
  datatype Request = Request(pathname: string, search: string, accessCookie: Option<string>)

  /** `NextResponse.next()` (with or without the experiment hook) or a redirect to the login page with `next` set. */
  datatype Response =
    | PassThrough(experimentCookies: bool)
    | RedirectToLogin(next: string)

  /**
   * A path equal to a protected path or below it: exactly the two sections
   * and everything under them.
   */
  predicate IsProtected(pathname: string): (protected: bool)
    ensures protected <==>
      pathname == "/dashboard" || StartsWith(pathname, "/dashboard/")
      || pathname == "/cont" || StartsWith(pathname, "/cont/")
  {
    assert "/dashboard" + "/" == "/dashboard/";
    assert "/cont" + "/" == "/cont/";
    assert pathname == "/dashboard" || StartsWith(pathname, "/dashboard/") ==>
      pathname == ProtectedPaths[0] || StartsWith(pathname, ProtectedPaths[0] + "/");
    assert pathname == "/cont" || StartsWith(pathname, "/cont/") ==>
      pathname == ProtectedPaths[1] || StartsWith(pathname, ProtectedPaths[1] + "/");
    exists i | 0 <= i < |ProtectedPaths| :: pathname == ProtectedPaths[i] || StartsWith(pathname, ProtectedPaths[i] + "/")
  }

  predicate ShouldRunExperiments(pathname: string)
  {
    StartsWith(pathname, ExperimentPrefix)
  }

  /** middleware: only a protected path without a non-empty token is redirected, keeping the full return URL. */
  function Handle(req: Request): (res: Response)
    ensures res.PassThrough? ==> res.experimentCookies == ShouldRunExperiments(req.pathname)
  {
    if !IsProtected(req.pathname) then PassThrough(ShouldRunExperiments(req.pathname))
    else if req.accessCookie.None? || req.accessCookie.value == "" then RedirectToLogin(req.pathname + req.search)
    else PassThrough(ShouldRunExperiments(req.pathname))
  }

  /** A longer name sharing the prefix is not below the section: "/dashboards" and "/contact" are public. */
  lemma SiblingNamesNotProtected()
    ensures !IsProtected("/dashboards")
    ensures !IsProtected("/contact")
    ensures IsProtected("/cont/fruitful-qa")
  {
    assert "/dashboards"[..11][10] != "/dashboard/"[10];
    assert "/contact"[..6][5] != "/cont/"[5];
    assert "/cont/fruitful-qa"[..6] == "/cont/";
  }

  /** Public paths always pass through, whatever the cookie. */
  lemma UnprotectedPassesThrough(req: Request)
    requires !IsProtected(req.pathname)
    ensures Handle(req) == PassThrough(ShouldRunExperiments(req.pathname))
  {
  }

  /** A redirect happens exactly for a protected path with no token or an empty one, and carries pathname + search. */
  lemma RedirectExactly(req: Request)
    ensures Handle(req).RedirectToLogin? <==>
      IsProtected(req.pathname) && (req.accessCookie.None? || req.accessCookie.value == "")
    ensures Handle(req).RedirectToLogin? ==> Handle(req).next == req.pathname + req.search
  {
  }

  /** Any non-empty token lets a protected path through; its content is not looked at here. */
  lemma TokenNotValidated(req: Request, token1: string, token2: string)
    requires token1 != "" && token2 != ""
    ensures Handle(req.(accessCookie := Some(token1))) == Handle(req.(accessCookie := Some(token2)))
    ensures Handle(req.(accessCookie := Some(token1))).PassThrough?
  {
  }

  /** The experiment hook runs on both branches that pass through, exactly under the calculator prefix. */
  lemma ExperimentHookOnBothBranches(req: Request)
    requires ShouldRunExperiments(req.pathname)
    ensures Handle(req).PassThrough? ==> Handle(req).experimentCookies
    ensures !IsProtected(req.pathname) ==> Handle(req) == PassThrough(true)
  {
  }
}
