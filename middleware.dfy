/** The edge guard (`src/middelware.ts`): its routing decision and the paths
    it is declared for. The file name is misspelled, so Next.js never loads
    it; only the decision it would take is modelled. */
module Middleware {
  import opened Common

  datatype Decision = RedirectTo(path: string) | Next

  /** Without a `token` cookie the dashboard sends to "/"; with one the root
      sends to the dashboard; everything else passes. */
  function Decide(path: string, tokenCookie: Option<string>): (d: Decision)
    ensures d == RedirectTo("/") <==> StartsWith(path, "/dashboard") && !Truthy(tokenCookie)
    ensures d == RedirectTo("/dashboard") <==> path == "/" && Truthy(tokenCookie)
    ensures d.Next? <==>
      !(StartsWith(path, "/dashboard") && !Truthy(tokenCookie)) && !(path == "/" && Truthy(tokenCookie))
  {
    if StartsWith(path, "/dashboard") && !Truthy(tokenCookie) then RedirectTo("/")
    else if path == "/" && Truthy(tokenCookie) then RedirectTo("/dashboard")
    else Next
  }

  /** `matcher: ["/dashboard/:path*", "/"]` */
  predicate Matches(path: string)
  {
    path == "/" || path == "/dashboard" || StartsWith(path, "/dashboard/")
  }

  /** A redirect never points at the path it came from, and following it with
      the same cookie passes: the guard cannot bounce a request back and
      forth. */
  lemma NoRedirectLoop(path: string, tokenCookie: Option<string>)
    ensures Decide(path, tokenCookie).RedirectTo? ==>
      && Decide(path, tokenCookie).path != path
      && Decide(Decide(path, tokenCookie).path, tokenCookie) == Next
  {
    assert !StartsWith("/", "/dashboard");
    if Decide(path, tokenCookie) == RedirectTo("/") {
      assert path != "/" by {
        assert |path| >= |"/dashboard"|;
      }
    }
  }

  /** On the paths it is declared for, the prefix test means the dashboard
      itself or a page under it; "/dashboardX" would be guarded by the prefix
      test but is never routed here. */
  lemma MatchedDashboardPaths(path: string)
    requires Matches(path)
    ensures StartsWith(path, "/dashboard") <==> path == "/dashboard" || StartsWith(path, "/dashboard/")
    ensures StartsWith("/dashboardX", "/dashboard") && !Matches("/dashboardX")
  {
    if StartsWith(path, "/dashboard/") {
      assert path[..|"/dashboard"|] == path[..|"/dashboard/"|][..|"/dashboard"|];
    }
    var x := "/dashboardX";
    assert x[..|"/dashboard"|] == "/dashboard";
    assert x != "/dashboard" && x != "/";
    assert x[10] != "/dashboard/"[10];
  }
}
