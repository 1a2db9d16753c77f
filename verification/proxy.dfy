/** The request guard in front of the dashboard and the login page: it
    decides from the path and from whether a session exists. Fetching the
    session is an input here. */
module Proxy {
  import opened Common

  datatype Decision = RedirectToLogin | RedirectToDashboard | PassThrough

  const LoginPath := "/login"
  const DashboardPrefix := "/dashboard"

  function Decide(pathname: string, hasSession: bool): Decision {
    var isAuthPage := pathname == LoginPath;
    var isDashboardPage := StartsWith(pathname, DashboardPrefix);
    if isDashboardPage && !hasSession then RedirectToLogin
    else if isAuthPage && hasSession then RedirectToDashboard
    else PassThrough
  }

  /** The login page is not a dashboard page, so the two redirect
      conditions never hold for the same path. */
  lemma RedirectConditionsExclusive(pathname: string)
    ensures !(pathname == LoginPath && StartsWith(pathname, DashboardPrefix))
  {
    if pathname == LoginPath {
      assert pathname[1] != DashboardPrefix[1];
    }
  }

  /** Each decision, with both directions of its condition: anonymous
      visitors of the dashboard go to the login page, signed-in visitors of
      the login page go to the dashboard, and everything else passes. */
  lemma DecideIff(pathname: string, hasSession: bool)
    ensures Decide(pathname, hasSession) == RedirectToLogin <==>
      StartsWith(pathname, DashboardPrefix) && !hasSession
    ensures Decide(pathname, hasSession) == RedirectToDashboard <==>
      pathname == LoginPath && hasSession
    ensures Decide(pathname, hasSession) == PassThrough <==>
      !(StartsWith(pathname, DashboardPrefix) && !hasSession) && !(pathname == LoginPath && hasSession)
  {
    RedirectConditionsExclusive(pathname);
  }

  /** Following a redirect with the same session state is let through, so
      the guard never loops. */
  lemma RedirectTargetsPass(hasSession: bool)
    ensures Decide(LoginPath, false) == PassThrough
    ensures Decide(DashboardPrefix, true) == PassThrough
    ensures Decide(LoginPath, hasSession) != RedirectToLogin
  {
    RedirectConditionsExclusive(LoginPath);
  }
}
