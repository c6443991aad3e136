/** The route guard that runs before every page: API routes pass, admin
    pages other than the login page need the session, and a signed-in
    admin is sent from the login page to the dashboard. */
module Middleware {
  import opened Wrappers
  import opened Text
  import opened Session

  const LoginPath := "/admin/login"
  const DashboardPath := "/admin/dashboard"

  /** What the guard answers: let the request through, or redirect. */
  datatype Outcome =
    | Next
    | ToLogin(redirect: string)   // `/admin/login?redirect=<redirect>`
    | ToDashboard

  /** `middleware(request)` for the request's path and the value of its
      session cookie. */
  function Decide(path: string, session: Option<string>): Outcome {
    var isAdminRoute := StartsWith(path, "/admin");
    var isLoginPage := path == LoginPath;
    var isApiRoute := StartsWith(path, "/api");
    if isApiRoute then Next
    else if isAdminRoute && !isLoginPage && !Authenticated(session) then ToLogin(path)
    else if isLoginPage && Authenticated(session) then ToDashboard
    else Next
  }

  /** No path is both an API route and an admin route. */
  lemma ApiNotAdmin(path: string)
    requires StartsWith(path, "/api")
    ensures !StartsWith(path, "/admin")
  {
    assert path[2] == "/api"[2];
  }

  /** API routes always pass, whatever the session. */
  lemma ApiAlwaysPasses(path: string, session: Option<string>)
    requires StartsWith(path, "/api")
    ensures Decide(path, session) == Next
  {
  }

  /** The guard redirects to the login page exactly for the admin pages
      other than the login page requested without the session, and the
      redirect carries the requested path. */
  lemma ToLoginExactly(path: string, session: Option<string>)
    ensures Decide(path, session).ToLogin? <==>
      (StartsWith(path, "/admin") && path != LoginPath && !Authenticated(session))
    ensures Decide(path, session).ToLogin? ==> Decide(path, session).redirect == path
  {
    if StartsWith(path, "/api") {
      ApiNotAdmin(path);
    }
  }

  /** The guard sends to the dashboard exactly the signed-in admin asking
      for the login page. */
  lemma ToDashboardExactly(path: string, session: Option<string>)
    ensures Decide(path, session) == ToDashboard <==> (path == LoginPath && Authenticated(session))
  {
    if path == LoginPath {
      assert path[2] != "/api"[2];
    }
  }

  /** An admin page other than the login page is shown only with the
      session. */
  lemma AdminPagesGuarded(path: string, session: Option<string>)
    requires StartsWith(path, "/admin") && path != LoginPath
    requires Decide(path, session) == Next
    ensures Authenticated(session)
  {
    ToLoginExactly(path, session);
  }

  /** Pages outside `/admin` always pass. */
  lemma PublicPagesPass(path: string, session: Option<string>)
    requires !StartsWith(path, "/admin")
    ensures Decide(path, session) == Next
  {
    if path == LoginPath {
      assert StartsWith(path, "/admin");
    }
  }
}
