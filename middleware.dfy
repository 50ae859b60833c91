/**
 * The route guard of the web client: a request without a session cookie is
 * sent to the login page unless it is for the login page; a request for the
 * login page with a session is sent to the dashboard; anything else passes.
 */
module RouteGuard {
  import opened Common

  const LoginPath := "/login"
  const SessionCookie := ".AspNetCore.Session"
  const AuthCookie := ".AspNetCore.Cookies"

  /** The login page, or a page under it; "/loginx" is neither. */
  predicate IsPublic(pathname: string)
  {
    pathname == LoginPath || StartsWith(pathname, LoginPath + "/")
  }

  /** Either ASP.NET cookie counts as a session; `cookies` holds the names present. */
  predicate HasSession(cookies: set<string>)
  {
    SessionCookie in cookies || AuthCookie in cookies
  }

  datatype Outcome =
    | RedirectToLogin(redirect: string)   // to /login?redirect=<pathname>
    | RedirectToDashboard                 // to /dashboard
    | PassThrough

  /** `middleware`. */
  function Guard(pathname: string, cookies: set<string>): (o: Outcome)
    ensures o.RedirectToLogin? <==> !IsPublic(pathname) && !HasSession(cookies)
    ensures o.RedirectToLogin? ==> o.redirect == pathname
    ensures o.RedirectToDashboard? <==> IsPublic(pathname) && HasSession(cookies)
    ensures o.PassThrough? <==> IsPublic(pathname) != HasSession(cookies)
  {
    var isPublic := IsPublic(pathname);
    var hasSession := HasSession(cookies);
    if !isPublic && !hasSession then RedirectToLogin(pathname)
    else if isPublic && hasSession then RedirectToDashboard
    else PassThrough
  }

  /** Example: which of a few concrete paths are public. */
  lemma PublicPaths()
    ensures IsPublic("/login") && IsPublic("/login/reset")
    ensures !IsPublic("/loginx") && !IsPublic("/dashboard") && !IsPublic("/")
  {
    assert "/login/reset"[..7] == "/login/";
    NotStartsWith("/loginx", LoginPath + "/", 6);
    NotStartsWith("/dashboard", LoginPath + "/", 1);
  }

  /** Following a redirect settles: the login redirect lands on a public page, which passes without a session. */
  lemma RedirectsSettle(pathname: string, cookies: set<string>)
    ensures Guard(pathname, cookies).RedirectToLogin? ==> Guard(LoginPath, cookies) == PassThrough
    ensures Guard(pathname, cookies).RedirectToDashboard? ==> Guard("/dashboard", cookies) == PassThrough
  {
    NotStartsWith("/dashboard", LoginPath + "/", 1);
  }
}
