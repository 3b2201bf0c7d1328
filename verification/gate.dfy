/**
 * The edge request gate of `proxy.ts`: runs before every intercepted request,
 * looks the session up (relaying any refreshed cookies onto the pass-through
 * response), and redirects an anonymous request for a protected path to the
 * login page.
 */
module Gate {
  import opened Options
  import opened Cookies
  import opened Http
  import opened Identity

  const LoginPath := "/login"

  /** Public paths: any path starting with `/login` or `/auth/`, and exactly `/share-target`. */
  predicate IsPublic(path: string)
    ensures IsPublic(path) ==> |path| >= 6 && path[0] == '/' && path[1] in {'l', 'a', 's'}
  {
    "/login" <= path || "/auth/" <= path || path == "/share-target"
  }

  datatype Decision = Admit | RedirectToLogin

  /** The admission decision for a path, given whether the session lookup found a user. */
  function Decide(path: string, signedIn: bool): (d: Decision)
    ensures d == RedirectToLogin ==> !IsPublic(path)
    ensures signedIn ==> d == Admit
  {
    if IsPublic(path) then Admit
    else if !signedIn then RedirectToLogin
    else Admit
  }

  /** `new URL('/login', request.url)` with `redirect` set to the requested pathname. */
  function LoginUrl(requested: Url): (u: Url)
    ensures u.origin == requested.origin && u.path == LoginPath
    ensures GetFirst(u.query, "redirect") == Some(requested.path)
    ensures Values(u.query, "redirect") == [requested.path]
    ensures u.query == [Param("redirect", requested.path)]
  {
    SetParamValues([], "redirect", requested.path, "redirect");
    GetAfterSet([], "redirect", requested.path, "redirect");
    Url(requested.origin, LoginPath, SetParam([], "redirect", requested.path))
  }

  /** What the gate returns: the pass-through response or a freshly built redirect, each with its cookie jar. */
  datatype Response = Pass(cookies: Jar) | Redirect(location: Url, cookies: Jar)

  /**
   * `proxy(request)`. The session lookup reads only the request's cookies and
   * runs before the path is classified, so its cookie writes land on the
   * pass-through response for public and protected paths alike. The redirect
   * is a new response and carries none of them.
   */
  method Proxy(request: Request, getSession: map<string, string> -> SessionResult) returns (r: Response)
    ensures var s := getSession(request.cookies);
      r.Redirect? <==> Decide(request.url.path, s.user.Some?) == RedirectToLogin
    ensures r.Redirect? ==> r == Redirect(LoginUrl(request.url), map[])
    ensures r.Pass? ==> r.cookies == Applied(map[], getSession(request.cookies).writes)
    ensures IsPublic(request.url.path) ==> r.Pass?
  {
    var response := new CookieJar.Empty();
    var session := getSession(request.cookies);
    response.SetAll(session.writes);

    var pathname := request.url.path;
    if IsPublic(pathname) {
      return Pass(response.store);
    }
    if session.user.None? {
      return Redirect(LoginUrl(request.url), map[]);
    }
    return Pass(response.store);
  }

  /** A public path is admitted whatever the session. */
  lemma PublicAlwaysAdmitted(path: string, signedIn: bool)
    requires IsPublic(path)
    ensures Decide(path, signedIn) == Admit
  {
  }

  /** A protected path is admitted exactly when there is a user. */
  lemma ProtectedNeedsUser(path: string, signedIn: bool)
    requires !IsPublic(path)
    ensures Decide(path, signedIn) == Admit <==> signedIn
  {
  }

  /**
   * No redirect loop: the login page the gate redirects to is itself public,
   * so the request that follows a redirect is admitted whatever the session.
   */
  lemma NoRedirectLoop(requested: Url, signedIn: bool)
    ensures IsPublic(LoginUrl(requested).path)
    ensures Decide(LoginUrl(requested).path, signedIn) == Admit
  {
  }

  /** The classification's edges: prefix tests for `/login` and `/auth/`, an exact test for `/share-target`. */
  lemma ClassificationBoundaries()
    ensures IsPublic("/loginx") && IsPublic("/login") && IsPublic("/auth/callback")
    ensures !IsPublic("/auth") && !IsPublic("/share-target/x") && !IsPublic("/")
  {
  }

  /**
   * `config.matcher`, `/((?!api|_next/static|_next/image|favicon.ico).*)`:
   * the gate runs on a path unless the text after its leading `/` starts with
   * `api`, `_next/static`, `_next/image`, or `favicon`, any one character, `ico`.
   */
  predicate ExcludedRest(rest: string)
  {
    || "api" <= rest
    || "_next/static" <= rest
    || "_next/image" <= rest
    || (|rest| >= 11 && rest[..7] == "favicon" && rest[8..11] == "ico")
  }

  predicate Intercepted(path: string)
    ensures Intercepted(path) ==> !("/api" <= path) && !("/_next/static" <= path) && !("/_next/image" <= path)
  {
    |path| >= 1 && path[0] == '/' && !ExcludedRest(path[1..])
  }

  /** Every public path is intercepted, so the login redirect target always reaches the gate and is admitted there. */
  lemma {:induction false} PublicPathsIntercepted(path: string)
    requires IsPublic(path)
    ensures Intercepted(path)
  {
    var rest := path[1..];
    assert |rest| >= 4 && (rest[0] == 'l' || rest[0] == 'a' || rest[0] == 's');
    assert rest[0] == 'a' ==> rest[1] == 'u';
    assert rest[0] == 's' ==> rest[1] == 'h';
  }

  /** The matcher's edges: asset paths and anything after `/api` are never seen by the gate. */
  lemma MatcherBoundaries()
    ensures Intercepted("/") && Intercepted("/login") && Intercepted("/auth/callback")
    ensures !Intercepted("/api/x") && !Intercepted("/apiary") && !Intercepted("/_next/static/app.js")
    ensures !Intercepted("/favicon.ico") && !Intercepted("/favicon-ico")
  {
    assert "/api/x"[1..] == "api/x";
    assert "/apiary"[1..] == "apiary";
    assert "/_next/static/app.js"[1..] == "_next/static/app.js";
    assert "/favicon.ico"[1..][..7] == "favicon" && "/favicon.ico"[1..][8..11] == "ico";
    assert "/favicon-ico"[1..][..7] == "favicon" && "/favicon-ico"[1..][8..11] == "ico";
    assert "/login"[1..][0] == 'l' && "/login"[1..][1] == 'o';
    assert "/auth/callback"[1..][0] == 'a' && "/auth/callback"[1..][1] == 'u';
  }
}
