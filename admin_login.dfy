/** `POST /api/admin/login`: the password presence and configuration
    checks, the comparison after white space is stripped from both sides,
    and the session cookie issued on a match. */
module AdminLogin {
  import opened Wrappers
  import opened Text
  import opened Session
  import opened OrderIntake

  /** The route's outcomes, each with its status code and message. */
  datatype LoginResponse =
    | LoggedIn
    | PasswordRequired
    | ConfigMissing
    | IncorrectPassword
    | SessionFailed
    | LoginFailed
  {
    function Code(): int {
      match this
      case LoggedIn => 200
      case PasswordRequired => 400
      case ConfigMissing => 500
      case IncorrectPassword => 401
      case SessionFailed => 500
      case LoginFailed => 500
    }

    function Message(): string {
      match this
      case LoggedIn => "Login successful"
      case PasswordRequired => "Password is required"
      case ConfigMissing => "Server configuration error. ADMIN_PASSWORD is missing."
      case IncorrectPassword => "Incorrect password"
      case SessionFailed => "An error occurred while creating the session"
      case LoginFailed => "An error occurred during login"
    }
  }

  /** `String(x).trim().replace(/\s+/g, '')`. */
  function Clean(s: string): (r: string)
    ensures r == RemoveSpaces(s)
    ensures forall i :: 0 <= i < |r| ==> !IsSpace(r[i])
  {
    TrimThenRemoveSpaces(s);
    RemoveSpaces(Trim(s))
  }

  /** Cleaning is idempotent. */
  lemma CleanIdempotent(s: string)
    ensures Clean(Clean(s)) == Clean(s)
  {
    RemoveSpacesIdempotent(s);
  }

  /** White space anywhere in the password is ignored by the comparison. */
  lemma CleanIgnoresSpace(a: string, w: string, b: string)
    requires AllSpace(w)
    ensures Clean(a + w + b) == Clean(a + b)
  {
    RemoveSpacesConcat(a + w, b);
    RemoveSpacesConcat(a, w);
    RemoveSpacesConcat(a, b);
    RemoveSpacesOfAllSpace(w);
    assert RemoveSpaces(a) + [] == RemoveSpaces(a);
  }

  /** So `"ab c"` is accepted for `"abc"`. */
  lemma SpacedPasswordMatches()
    ensures Clean("ab c") == Clean("abc")
  {
    assert "ab c" == "ab" + " " + "c";
    assert "abc" == "ab" + "c";
    CleanIgnoresSpace("ab", " ", "c");
  }

  /** `String(["abc"])` is `"abc"`: a one-element array holding the
      password passes the presence check and compares like the password. */
  lemma ArrayPasswordAccepted(pw: string)
    ensures !Falsy(List([Str(pw)]))
    ensures Clean(JsString(List([Str(pw)]))) == Clean(pw)
  {
    var v := List([Str(pw)]);
    assert v.items[0] == Str(pw);
    assert Joined(v, 0) == pw;
  }

  /** The handler. `password` is `body?.password`, or `None` when the
      body is not JSON; `adminPassword` is the configured secret;
      `cookieOk` says whether the cookie store accepted the cookie. */
  method Login(jar: Jar, password: Option<JsValue>, adminPassword: Option<string>,
               production: bool, cookieOk: bool) returns (resp: LoginResponse)
    modifies jar
    ensures password.None? ==> resp == LoginFailed
    ensures password.Some? && Falsy(password.value) ==> resp == PasswordRequired
    ensures password.Some? && !Falsy(password.value) && (adminPassword.None? || adminPassword.value == "")
      ==> resp == ConfigMissing
    ensures password.Some? && !Falsy(password.value) && adminPassword.Some? && adminPassword.value != ""
      ==> resp == (if Clean(JsString(password.value)) != Clean(adminPassword.value) then IncorrectPassword
                   else if cookieOk then LoggedIn else SessionFailed)
    ensures resp == LoggedIn ==> jar.cookies == old(jar.cookies)[CookieName := SessionCookie(production)]
    ensures resp != LoggedIn ==> jar.cookies == old(jar.cookies)
    ensures resp == LoggedIn ==> Authenticated(jar.Get(CookieName))
  {
    if password.None? {
      return LoginFailed;
    }
    var pw := password.value;
    if Falsy(pw) {
      return PasswordRequired;
    }
    if adminPassword.None? || adminPassword.value == "" {
      return ConfigMissing;
    }
    var cleanedPassword := Clean(JsString(pw));
    var cleanedAdminPassword := Clean(adminPassword.value);
    if cleanedPassword == cleanedAdminPassword {
      if !cookieOk {
        return SessionFailed;
      }
      jar.Set(SessionCookie(production));
      resp := LoggedIn;
    } else {
      resp := IncorrectPassword;
    }
  }

  lemma SpacedEntryAccepted(a: string, w: string, b: string)
    requires AllSpace(w) && a + b != ""
    ensures !Falsy(Str(a + w + b))
    ensures Clean(JsString(Str(a + w + b))) == Clean(a + b)
  {
    CleanIgnoresSpace(a, w, b);
    assert |a + w + b| >= |a + b| > 0;
  }

  /** Two passwords that differ only in white space log in alike. */
  method LoginIgnoresSpaces(jar: Jar, a: string, w: string, b: string, production: bool)
      returns (resp: LoginResponse)
    requires AllSpace(w) && a + b != ""
    modifies jar
    ensures resp == LoggedIn
    ensures Authenticated(jar.Get(CookieName))
  {
    SpacedEntryAccepted(a, w, b);
    resp := Login(jar, Some(Str(a + w + b)), Some(a + b), production, true);
  }
}
