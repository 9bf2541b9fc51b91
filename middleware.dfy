/** The request middleware: a visitor without a session who asks for a
    dashboard page is sent to the sign-in page; every other request passes.
    The session lookup is the boolean `isLoggedIn`. */
module Middleware {
  import opened Wrappers
  import opened JsString

  const SignInPath: string := "/api/auth/signin"

  /** The redirect target, if the request is redirected. */
  function Redirect(isLoggedIn: bool, pathname: string): (r: Option<string>)
    ensures r.Some? ==> r.value == SignInPath
    ensures r.Some? <==> !isLoggedIn && |pathname| >= 10 && pathname[..10] == "/dashboard"
  {
    var isOnDashboard := StartsWith(pathname, "/dashboard");
    if isOnDashboard && !isLoggedIn then Some(SignInPath) else None
  }

  /** A signed-in request is never redirected, and neither is a request for a
      path outside the dashboard, signed in or not. */
  lemma OnlyAnonymousDashboardRedirects(isLoggedIn: bool, pathname: string)
    requires isLoggedIn || !StartsWith(pathname, "/dashboard")
    ensures Redirect(isLoggedIn, pathname) == None
  {
  }

  /** The test is a bare prefix test: `/dashboards` counts as a dashboard path. */
  lemma PrefixHasNoSegmentBoundary()
    ensures Redirect(false, "/dashboards") == Some(SignInPath)
    ensures Redirect(false, "/dashboard/teams") == Some(SignInPath)
    ensures Redirect(false, "/") == None
  {
    assert "/dashboards"[..10] == "/dashboard";
    assert "/dashboard/teams"[..10] == "/dashboard";
  }
}
