/** The admin session: the cookie the login route issues and the check the
    route guard and the admin listing apply to it. */
module Session {
  import opened Wrappers

  const CookieName := "admin_session"
  const AuthenticatedValue := "authenticated"
  /** Seven days, in seconds. */
  const MaxAge := 60 * 60 * 24 * 7

  datatype SameSite = Lax | Strict | NoSameSite

  datatype Cookie = Cookie(
    name: string,
    value: string,
    httpOnly: bool,
    secure: bool,
    sameSite: SameSite,
    maxAge: int,
    path: string)

  /** `!session || session.value !== 'authenticated'`, negated. */
  predicate Authenticated(session: Option<string>) {
    session == Some(AuthenticatedValue)
  }

  /** The session cookie the login route sets; it is `secure` only in
      production. */
  function SessionCookie(production: bool): (c: Cookie)
    ensures c.name == CookieName && c.value == AuthenticatedValue
    ensures c.maxAge == 604800 && c.path == "/"
    ensures c.httpOnly && c.sameSite == Lax && c.secure == production
  {
    Cookie(CookieName, AuthenticatedValue, true, production, Lax, MaxAge, "/")
  }

  /** The browser's cookies for the site, by name. */
  class Jar {
    var cookies: map<string, Cookie>

    constructor ()
      ensures cookies == map[]
    {
      cookies := map[];
    }

    /** `cookies.get(name)?.value`. */
    function Get(name: string): (r: Option<string>)
      reads this
      ensures r.Some? <==> name in cookies
      ensures r.Some? ==> r.value == cookies[name].value
    {
      if name in cookies then Some(cookies[name].value) else None
    }

    /** `cookieStore.set`: the cookie replaces any earlier one of its name. */
    method Set(c: Cookie)
      modifies this
      ensures cookies == old(cookies)[c.name := c]
    {
      cookies := cookies[c.name := c];
    }
  }
}
