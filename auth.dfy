/** The authentication provider of lib/auth-provider.tsx: the route guard
    that decides, from whether a session exists and the path, where to send
    the browser, and the provider's state, which the initial session fetch
    and every auth change overwrite. The auth service is left out; what it
    returns is a parameter. */
module Auth {
  import opened Wrappers

  /** Paths that need no session, matched as prefixes. */
  const PublicRoutes: seq<string> := ["/login", "/r/"]

  /** Paths that are open to everyone, matched exactly. */
  const OpenRoutes: seq<string> := ["/"]

  /** `PUBLIC_ROUTES.some(route => path.startsWith(route))`. */
  predicate IsPublicRoute(path: string) {
    exists i | 0 <= i < |PublicRoutes| :: PublicRoutes[i] <= path
  }

  /** `OPEN_ROUTES.includes(path)`. */
  predicate IsOpenRoute(path: string) {
    path in OpenRoutes
  }

  /** The navigation `handleAuthRedirect` asks the router for, if any. */
  datatype Redirect = ToLogin | ToDashboard | NoRedirect {
    /** The paths pushed onto the router. */
    function Pushed(): (p: seq<string>)
      ensures |p| <= 1
      ensures p == [] <==> this == NoRedirect
    {
      match this
      case ToLogin => ["/login"]
      case ToDashboard => ["/dashboard"]
      case NoRedirect => []
    }
  }

  /** `handleAuthRedirect`: a visitor without a session on a protected
      path goes to the login page, a signed-in user on the login page goes
      to the dashboard, and nothing happens otherwise. */
  function AuthRedirect(hasSession: bool, path: string): (r: Redirect)
    ensures r == ToLogin <==> !hasSession && !IsPublicRoute(path) && !IsOpenRoute(path)
    ensures r == ToDashboard <==> hasSession && path == "/login"
  {
    if !hasSession && !IsPublicRoute(path) && !IsOpenRoute(path) then ToLogin
    else if hasSession && path == "/login" then ToDashboard
    else NoRedirect
  }

  /** The public routes spelled out: a path is public exactly when it
      starts with "/login" or with "/r/". */
  lemma PublicRouteIff(path: string)
    ensures IsPublicRoute(path) <==> "/login" <= path || "/r/" <= path
  {
    if "/login" <= path {
      assert PublicRoutes[0] <= path;
    }
    if "/r/" <= path {
      assert PublicRoutes[1] <= path;
    }
  }

  /** Prefix matching lets "/loginx" and any feedback link through, but
      not "/r" itself; only "/" is open, so "/dashboard" needs a session. */
  lemma RouteExamples()
    ensures IsPublicRoute("/loginx") && IsPublicRoute("/r/abc123")
    ensures !IsPublicRoute("/r") && AuthRedirect(false, "/r") == ToLogin
    ensures IsOpenRoute("/") && !IsOpenRoute("/dashboard")
    ensures AuthRedirect(false, "/dashboard") == ToLogin && AuthRedirect(false, "/") == NoRedirect
    ensures AuthRedirect(true, "/loginx") == NoRedirect
  {
    PublicRouteIff("/loginx");
    PublicRouteIff("/r/abc123");
    PublicRouteIff("/r");
    PublicRouteIff("/dashboard");
    assert "/dashboard"[1] != "/login"[1] && "/dashboard"[1] != "/r/"[1];
    assert "/" in OpenRoutes;
  }

  /** A signed-in user is never sent to the login page, and a visitor
      without a session is never sent to the dashboard. */
  lemma RedirectFollowsSession(hasSession: bool, path: string)
    ensures hasSession ==> AuthRedirect(hasSession, path) != ToLogin
    ensures !hasSession ==> AuthRedirect(hasSession, path) != ToDashboard
  {
  }

  /** No redirect loop: the page a redirect leads to asks for no further
      redirect while the session stays as it was. */
  lemma RedirectTargetIsStable(hasSession: bool, path: string)
    ensures AuthRedirect(hasSession, path) == ToLogin ==> AuthRedirect(hasSession, "/login") == NoRedirect
    ensures AuthRedirect(hasSession, path) == ToDashboard ==> AuthRedirect(hasSession, "/dashboard") == NoRedirect
  {
    PublicRouteIff("/login");
  }

  /** A session as the auth service hands it over. */
  datatype Session = Session(userId: string, accessToken: string)

  /** The provider's state. `mountedPath` is the path when the provider
      mounted: the effect runs once, so both the initial fetch and the auth
      listener see that path, not the current one. `pushes` records the
      router navigations. */
  class AuthProvider {
    var user: Option<string>
    var session: Option<Session>
    var loading: bool
    var pushes: seq<string>
    const mountedPath: string

    constructor (pathname: string)
      ensures user.None? && session.None? && loading && pushes == [] && mountedPath == pathname
    {
      user := None;
      session := None;
      loading := true;
      pushes := [];
      mountedPath := pathname;
    }

    /** `handleAuthRedirect(session, currentPath)`. */
    method HandleAuthRedirect(hasSession: bool, currentPath: string)
      modifies this`pushes
      ensures pushes == old(pushes) + AuthRedirect(hasSession, currentPath).Pushed()
    {
      var r := AuthRedirect(hasSession, currentPath);
      if r == ToLogin {
        pushes := pushes + ["/login"];
      } else if r == ToDashboard {
        pushes := pushes + ["/dashboard"];
      }
    }

    /** What both the initial session fetch and the auth listener do with
        the session they receive (`None` also when the fetch reports an
        error): store it, take its user, stop loading, and apply the guard
        to the path seen at mount. */
    method OnSession(s: Option<Session>)
      modifies this`user, this`session, this`loading, this`pushes
      ensures session == s && !loading
      ensures user == if s.Some? then Some(s.value.userId) else None
      ensures pushes == old(pushes) + AuthRedirect(s.Some?, mountedPath).Pushed()
    {
      session := s;
      user := if s.Some? then Some(s.value.userId) else None;
      loading := false;
      HandleAuthRedirect(s.Some?, mountedPath);
    }

    /** The listener as evidently intended: the guard applied to the path
        the browser shows when the auth event arrives. */
    method OnSessionAt(s: Option<Session>, currentPath: string)
      modifies this`user, this`session, this`loading, this`pushes
      ensures session == s && !loading
      ensures user == if s.Some? then Some(s.value.userId) else None
      ensures pushes == old(pushes) + AuthRedirect(s.Some?, currentPath).Pushed()
    {
      session := s;
      user := if s.Some? then Some(s.value.userId) else None;
      loading := false;
      HandleAuthRedirect(s.Some?, currentPath);
    }

    /** `signOut`: after the auth service signs out, navigate to the login
        page; a failure is logged and nothing else happens. The session
        itself is cleared by the auth listener, not here. */
    method SignOut(signedOut: bool)
      modifies this`pushes
      ensures pushes == old(pushes) + (if signedOut then ["/login"] else [])
    {
      if signedOut {
        pushes := pushes + ["/login"];
      }
    }
  }

  /** The listener as written: a provider mounted on the open page "/"
      that later sees the session end (while the browser shows a protected
      page such as "/dashboard") checks "/" and stays put. */
  method StaleListenerExample() returns (p: AuthProvider)
    ensures p.mountedPath == "/" && p.session.None? && !p.loading && p.pushes == []
    ensures AuthRedirect(false, "/dashboard") == ToLogin
  {
    p := new AuthProvider("/");
    p.OnSession(None);
    RouteExamples();
  }

  /** The corrected listener sends a visitor whose session ended on a
      protected page to the login page, wherever the provider mounted. */
  method ExpiredSessionRedirects(mountPath: string, currentPath: string) returns (p: AuthProvider)
    requires !IsPublicRoute(currentPath) && !IsOpenRoute(currentPath)
    ensures p.session.None? && p.pushes == ["/login"]
  {
    p := new AuthProvider(mountPath);
    p.OnSessionAt(None, currentPath);
  }
}
