/**
  The HTTP interceptor every request passes through: it attaches the bearer
  token to requests outside the login/register routes, and on a 401 from
  anything but logout it drops the token and sends the user to '/login'.
  Errors are passed on unchanged.
 */
module AuthInterceptor {
  import opened Js
  import opened Api
  import opened Platform
  import AuthService

  predicate IsAuthRoute(url: string) {
    Includes(url, "/auth/login") || Includes(url, "/auth/register")
  }

  /** The request as it leaves the interceptor. */
  function WithAuthHeaders(req: Request, token: string): (r: Request)
    ensures token == "" || IsAuthRoute(req.url) ==> r == req
    ensures token != "" && !IsAuthRoute(req.url) ==>
      r == req.(headers := req.headers["ngrok-skip-browser-warning" := "true"]["Authorization" := "Bearer " + token])
    ensures r.verb == req.verb && r.url == req.url && r.body == req.body
  {
    if token != "" && !IsAuthRoute(req.url) then
      req.(headers := req.headers["ngrok-skip-browser-warning" := "true"]["Authorization" := "Bearer " + token])
    else req
  }

  /** The failure rule: only a 401, and never for the logout call itself. */
  predicate ShouldClearToken(url: string, status: int) {
    status == 401 && !Includes(url, "/auth/logout")
  }

  /** A request that carries a header has the exact bearer value and is not an auth route. */
  lemma AttachedHeaderIsBearer(req: Request, token: string)
    requires "Authorization" !in req.headers
    requires "Authorization" in WithAuthHeaders(req, token).headers
    ensures token != "" && !IsAuthRoute(req.url)
    ensures WithAuthHeaders(req, token).headers["Authorization"] == "Bearer " + token
  {
  }

  /** Whatever the base URL, the login and register endpoints are auth routes and the logout endpoint is not cleared on 401. */
  lemma EndpointsClassified(apiUrl: string, status: int)
    ensures IsAuthRoute(apiUrl + "/auth/login")
    ensures IsAuthRoute(apiUrl + "/auth/register")
    ensures !ShouldClearToken(apiUrl + "/auth/logout", status)
  {
    assert Includes("/auth/login", "/auth/login") by {
      assert OccursAt("/auth/login", "/auth/login", 0);
    }
    assert Includes("/auth/register", "/auth/register") by {
      assert OccursAt("/auth/register", "/auth/register", 0);
    }
    assert Includes("/auth/logout", "/auth/logout") by {
      assert OccursAt("/auth/logout", "/auth/logout", 0);
    }
    IncludesInSuffix(apiUrl, "/auth/login", "/auth/login");
    IncludesInSuffix(apiUrl, "/auth/register", "/auth/register");
    IncludesInSuffix(apiUrl, "/auth/logout", "/auth/logout");
  }

  /** A 403 never triggers the rule. */
  lemma ForbiddenDoesNotClear(url: string)
    ensures !ShouldClearToken(url, 403)
  {
  }

  /**
    The `catchError` branch: on a matching failure the token is removed, the
    stored user is kept, and the router goes to '/login'; the error itself is
    returned unchanged.
   */
  method OnError(auth: AuthService.AuthService, url: string, err: JsError) returns (rethrown: JsError)
    requires auth.Valid()
    modifies auth`store, auth`isAuthenticated, auth.router
    ensures auth.Valid()
    ensures rethrown == err
    ensures ShouldClearToken(url, err.status) ==>
      auth.store == old(auth.store) - {AuthService.TokenKey} && !auth.isAuthenticated &&
      auth.currentUser == old(auth.currentUser) &&
      auth.router.navigations == old(auth.router.navigations) + ["/login"]
    ensures !ShouldClearToken(url, err.status) ==>
      auth.store == old(auth.store) && auth.isAuthenticated == old(auth.isAuthenticated) &&
      auth.currentUser == old(auth.currentUser) && auth.router.navigations == old(auth.router.navigations)
  {
    if err.status == 401 && !Includes(url, "/auth/logout") {
      auth.ClearToken();
      auth.router.Navigate("/login");
    }
    rethrown := err;
  }
}
