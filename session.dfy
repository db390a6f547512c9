/**
 * The site-password gate: the middleware that admits a request or redirects it to the
 * login page, the login route that issues the `site-auth` cookie, the logout route
 * that clears it, and a browser cookie store that connects them.
 */
module Session {
  import opened Wrappers
  import opened Text

  const CookieName := "site-auth"
  const LoginPath := "/login"
  /** Seven days, in seconds. */
  const CookieMaxAge := 60 * 60 * 24 * 7

  /** `SITE_PASSWORD` is truthy: set and non-empty. */
  predicate PasswordSet(sitePassword: Option<string>) {
    sitePassword.Some? && sitePassword.value != []
  }

  /** A request: its pathname and the cookies it carries. */
  datatype Request = Request(path: string, cookies: map<string, string>)

  datatype Decision = Next | Redirect(location: string)

  /** API routes, `/_next` assets and paths with a file extension pass without a password. */
  predicate PublicPath(path: string) {
    StartsWith(path, "/api") || StartsWith(path, "/_next") || '.' in path
  }

  /** `middleware` */
  function Middleware(sitePassword: Option<string>, request: Request): Decision {
    if !PasswordSet(sitePassword) then Next
    else if StartsWith(request.path, "/api") then Next
    else if StartsWith(request.path, "/_next") || '.' in request.path then Next
    else if CookieName in request.cookies && request.cookies[CookieName] == sitePassword.value then Next
    else Redirect(LoginPath)
  }

  /** Without a site password every request is admitted. */
  lemma OpenWithoutPassword(sitePassword: Option<string>, request: Request)
    requires !PasswordSet(sitePassword)
    ensures Middleware(sitePassword, request) == Next
  {
  }

  /** API routes, `/_next` and paths containing a dot are always admitted. */
  lemma PublicPathsAdmitted(sitePassword: Option<string>, request: Request)
    requires PublicPath(request.path)
    ensures Middleware(sitePassword, request) == Next
  {
  }

  /**
   * Behind a password, any other path is admitted iff its `site-auth` cookie equals the
   * password, and is otherwise redirected to `/login`.
   */
  lemma CookieGate(sitePassword: Option<string>, request: Request)
    requires PasswordSet(sitePassword) && !PublicPath(request.path)
    ensures Middleware(sitePassword, request) == Next
      <==> CookieName in request.cookies && request.cookies[CookieName] == sitePassword.value
    ensures Middleware(sitePassword, request) != Next ==> Middleware(sitePassword, request) == Redirect(LoginPath)
  {
  }

  /** `/login` has no exemption: without the cookie it redirects to itself. */
  lemma LoginPageRedirected(sitePassword: Option<string>, cookies: map<string, string>)
    requires PasswordSet(sitePassword) && CookieName !in cookies
    ensures Middleware(sitePassword, Request(LoginPath, cookies)) == Redirect(LoginPath)
  {
    assert LoginPath[..4] != "/api" by { assert LoginPath[1] == 'l'; }
    assert LoginPath[..6] != "/_next" by { assert LoginPath[1] == 'l'; }
    assert forall i :: 0 <= i < |LoginPath| ==> LoginPath[i] != '.';
  }

  /** A `Set-Cookie` header with the attributes the routes give it. */
  datatype SetCookie = SetCookie(name: string, value: string, httpOnly: bool, secure: bool,
                                 sameSite: string, maxAge: int, path: string)

  /** The `site-auth` cookie; `secure` holds in production only. */
  function AuthCookie(value: string, maxAge: int, production: bool): SetCookie {
    SetCookie(CookieName, value, true, production, "lax", maxAge, "/")
  }

  /**
   * The login request body: `Malformed` when `request.json()` throws or yields no object
   * to destructure; otherwise its `password` field, `None` when absent or not a string.
   */
  datatype LoginBody = Malformed | Parsed(password: Option<string>)

  datatype LoginResponse = LoginResponse(status: int, success: bool, error: Option<string>,
                                         cookie: Option<SetCookie>)

  /** `POST /api/auth` */
  function Login(sitePassword: Option<string>, body: LoginBody, production: bool): LoginResponse {
    match body
    case Malformed => LoginResponse(500, false, Some("Server error"), None)
    case Parsed(password) =>
      if !PasswordSet(sitePassword) then LoginResponse(200, true, None, None)
      else if password == Some(sitePassword.value) then
        LoginResponse(200, true, None, Some(AuthCookie(sitePassword.value, CookieMaxAge, production)))
      else LoginResponse(401, false, Some("Invalid password"), None)
  }

  /**
   * A malformed body is a 500; with no password configured the login succeeds without a
   * cookie; the right password succeeds and sets `site-auth` to it for seven days on `/`,
   * http-only and same-site lax; a wrong one is a 401 without a cookie.
   */
  lemma LoginCases(sitePassword: Option<string>, body: LoginBody, production: bool)
    ensures var r := Login(sitePassword, body, production);
      && (body == Malformed ==> r.status == 500 && !r.success && r.cookie == None)
      && (body.Parsed? && !PasswordSet(sitePassword) ==> r.status == 200 && r.success && r.cookie == None)
      && (body.Parsed? && PasswordSet(sitePassword) && body.password == Some(sitePassword.value) ==>
            && r.status == 200 && r.success && r.cookie.Some?
            && r.cookie.value.name == CookieName && r.cookie.value.value == sitePassword.value
            && r.cookie.value.maxAge == 604800 && r.cookie.value.path == "/"
            && r.cookie.value.httpOnly && r.cookie.value.sameSite == "lax"
            && r.cookie.value.secure == production)
      && (body.Parsed? && PasswordSet(sitePassword) && body.password != Some(sitePassword.value) ==>
            r.status == 401 && !r.success && r.cookie == None)
      && (r.success <==> r.status == 200)
  {
  }

  datatype LogoutResponse = LogoutResponse(success: bool, message: string, cookie: SetCookie)

  /** `POST /api/logout` */
  function Logout(production: bool): LogoutResponse {
    LogoutResponse(true, "Logged out", AuthCookie([], 0, production))
  }

  /**
   * Logout always succeeds and sends an empty, already expired `site-auth` whose name,
   * path and other attributes are those of the login cookie, so it replaces it.
   */
  lemma LogoutMatchesLogin(sitePassword: Option<string>, body: LoginBody, production: bool)
    ensures var c := Logout(production).cookie;
      && Logout(production).success && c.value == [] && c.maxAge == 0
      && (Login(sitePassword, body, production).cookie.Some? ==>
            var l := Login(sitePassword, body, production).cookie.value;
            c.name == l.name && c.path == l.path && c.httpOnly == l.httpOnly
            && c.sameSite == l.sameSite && c.secure == l.secure)
  {
  }

  /**
   * A browser's cookie store receiving a `Set-Cookie` on path `/`: a positive max-age
   * stores the value, a zero or negative one deletes the cookie (RFC 6265, section 5.2.2
   * and section 5.3).
   */
  function Store(jar: map<string, string>, c: SetCookie): (r: map<string, string>)
    ensures forall n :: n != c.name ==> (n in r <==> n in jar)
    ensures forall n :: n != c.name && n in jar ==> r[n] == jar[n]
  {
    if c.maxAge <= 0 then jar - {c.name} else jar[c.name := c.value]
  }

  /** After a successful login the browser's page requests are admitted. */
  lemma LoginThenAdmitted(sitePassword: Option<string>, production: bool,
                          jar: map<string, string>, path: string)
    requires PasswordSet(sitePassword)
    ensures var r := Login(sitePassword, Parsed(sitePassword), production);
      && r.cookie.Some?
      && Middleware(sitePassword, Request(path, Store(jar, r.cookie.value))) == Next
  {
  }

  /**
   * After logout a page request is redirected, whether the browser drops the expired
   * cookie or still sends its empty value.
   */
  lemma LogoutThenRedirected(sitePassword: Option<string>, production: bool,
                             jar: map<string, string>, path: string)
    requires PasswordSet(sitePassword) && !PublicPath(path)
    ensures Middleware(sitePassword, Request(path, Store(jar, Logout(production).cookie))) == Redirect(LoginPath)
    ensures Middleware(sitePassword, Request(path, jar[CookieName := []])) == Redirect(LoginPath)
  {
  }
}
