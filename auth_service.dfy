/**
  The session store: the bearer token and the logged-in user live in the
  browser's key/value storage, mirrored by an "authenticated" flag and a
  "current user" value that the rest of the client observes.
 */
module AuthService {
  import opened Js
  import opened Api
  import opened Platform

  const TokenKey := "auth_token"
  const UserKey := "auth_user"

  /** A storage entry: plain text, or a user written with `JSON.stringify`. */
  datatype Stored = Text(text: string) | UserJson(user: User)

  /** Only this service writes the two keys, each with its own kind of entry. */
  ghost predicate WellFormedStore(store: map<string, Stored>) {
    (TokenKey in store ==> store[TokenKey].Text?) &&
    (UserKey in store ==> store[UserKey].UserJson?)
  }

  /** `localStorage.getItem(token_key) || ''`. */
  function TokenOf(store: map<string, Stored>): (t: string)
    requires WellFormedStore(store)
    ensures TokenKey !in store ==> t == ""
    ensures TokenKey in store ==> t == store[TokenKey].text
  {
    if TokenKey in store then store[TokenKey].text else ""
  }

  /** `!!token && token.trim().length > 0`. */
  function HasTokenIn(store: map<string, Stored>): (r: bool)
    requires WellFormedStore(store)
    ensures r <==> HasNonSpace(TokenOf(store))
  {
    var token := TokenOf(store);
    TrimNonEmpty(token);
    token != "" && |Trim(token)| > 0
  }

  /** `userJson ? JSON.parse(userJson) : null`. */
  function UserOf(store: map<string, Stored>): (u: Option<User>)
    requires WellFormedStore(store)
    ensures u.Some? <==> UserKey in store
    ensures u.Some? ==> store[UserKey] == UserJson(u.value)
  {
    if UserKey in store then Some(store[UserKey].user) else None
  }

  /**
    The error classification of `handleError`: a client-side event keeps its
    own message, an object body its message (or a default) and its errors,
    anything else the error's own message. The error list is always present.
   */
  function HandleError(e: JsError): (r: ApiErrorResponse)
    ensures e.error.EventBody? ==> r == ApiErrorResponse(e.error.eventMessage, [])
    ensures e.error.JsonBody? ==> r.errors == e.error.errors
    ensures e.error.JsonBody? && e.error.message != "" ==> r.message == e.error.message
    ensures e.error.JsonBody? && e.error.message == "" ==> r.message == "Error al procesar la petición"
    ensures (e.error.NoBody? || e.error.TextBody?) ==> r == ApiErrorResponse(e.message, [])
  {
    match e.error
    case EventBody(m) => ApiErrorResponse(m, [])
    case JsonBody(m, errs) => ApiErrorResponse(if m != "" then m else "Error al procesar la petición", errs)
    case _ => ApiErrorResponse(e.message, [])
  }

  /** A non-event error with an object body never has an empty message. */
  lemma HandleErrorMessageNonEmpty(e: JsError)
    requires !e.error.EventBody?
    requires e.error.JsonBody? || e.message != ""
    ensures HandleError(e).message != ""
  {
  }

  /** `validateTokenWithAPI` drops the session only for these statuses. */
  predicate RejectsToken(status: int) {
    status == 401 || status == 403
  }

  /** What `logout()` emits to its subscriber. */
  datatype LogoutResult = ServerReply | LogoutCompleted(message: string)

  class AuthService {
    const apiUrl: string
    const router: Router
    const http: HttpClient
    var store: map<string, Stored>
    var isAuthenticated: bool
    var currentUser: Option<User>

    ghost predicate Valid()
      reads this
    {
      WellFormedStore(store)
    }

    /** The two subjects start from what the storage holds. */
    constructor (apiUrl: string, router: Router, http: HttpClient, initial: map<string, Stored>)
      requires WellFormedStore(initial)
      ensures Valid()
      ensures this.apiUrl == apiUrl && this.router == router && this.http == http
      ensures store == initial
      ensures isAuthenticated == HasTokenIn(initial)
      ensures currentUser == UserOf(initial)
    {
      this.apiUrl := apiUrl;
      this.router := router;
      this.http := http;
      store := initial;
      isAuthenticated := HasTokenIn(initial);
      currentUser := UserOf(initial);
    }

    function GetToken(): (t: string)
      reads this
      requires Valid()
      ensures TokenKey !in store ==> t == ""
      ensures TokenKey in store ==> t == store[TokenKey].text
    {
      TokenOf(store)
    }

    function HasToken(): (r: bool)
      reads this
      requires Valid()
      ensures r <==> HasNonSpace(GetToken())
    {
      HasTokenIn(store)
    }

    function GetCurrentUser(): (u: Option<User>)
      reads this
      requires Valid()
      ensures u.Some? <==> UserKey in store
    {
      UserOf(store)
    }

    method HandleAuthResponse(response: LoginResponse)
      requires Valid()
      modifies this`store, this`isAuthenticated, this`currentUser
      ensures Valid()
      ensures store == old(store)[TokenKey := Text(response.token)][UserKey := UserJson(response.user)]
      ensures isAuthenticated && currentUser == Some(response.user)
      ensures GetToken() == response.token && GetCurrentUser() == Some(response.user)
    {
      store := store[TokenKey := Text(response.token)];
      store := store[UserKey := UserJson(response.user)];
      isAuthenticated := true;
      currentUser := Some(response.user);
    }

    method ClearUserData()
      requires Valid()
      modifies this`store, this`isAuthenticated, this`currentUser
      ensures Valid()
      ensures store == old(store) - {TokenKey, UserKey}
      ensures !isAuthenticated && currentUser == None
      ensures GetToken() == "" && !HasToken() && GetCurrentUser() == None
    {
      store := store - {TokenKey};
      store := store - {UserKey};
      isAuthenticated := false;
      currentUser := None;
    }

    method ClearToken()
      requires Valid()
      modifies this`store, this`isAuthenticated
      ensures Valid()
      ensures store == old(store) - {TokenKey}
      ensures !isAuthenticated && currentUser == old(currentUser)
      ensures GetToken() == "" && GetCurrentUser() == old(GetCurrentUser())
    {
      store := store - {TokenKey};
      isAuthenticated := false;
    }

    method HandleLogout()
      requires Valid()
      modifies this`store, this`isAuthenticated, this`currentUser, router
      ensures Valid()
      ensures store == old(store) - {TokenKey, UserKey}
      ensures !isAuthenticated && currentUser == None
      ensures router.navigations == old(router.navigations) + ["/login"]
    {
      ClearUserData();
      router.Navigate("/login");
    }

    // --- login and register: request, then the service's own pipe on the response

    method Login(credentials: Credentials)
      modifies http
      ensures http.sent == old(http.sent) + [Plain(Post, apiUrl + "/auth/login", CredentialsBody(credentials))]
    {
      http.Send(Plain(Post, apiUrl + "/auth/login", CredentialsBody(credentials)));
    }

    method Register(data: RegisterData)
      modifies http
      ensures http.sent == old(http.sent) + [Plain(Post, apiUrl + "/auth/register", RegisterBody(data))]
    {
      http.Send(Plain(Post, apiUrl + "/auth/register", RegisterBody(data)));
    }

    /**
      `tap(handleAuthResponse)` then `catchError(handleError)`: a reply is
      stored and passed on; a failure is classified and passed on, leaving
      the session as it was.
     */
    method OnAuthResponse(outcome: Result<LoginResponse, JsError>)
      returns (r: Result<LoginResponse, ApiErrorResponse>)
      requires Valid()
      modifies this`store, this`isAuthenticated, this`currentUser
      ensures Valid()
      ensures outcome.Ok? ==> r == Ok(outcome.value)
      ensures outcome.Ok? ==>
        store == old(store)[TokenKey := Text(outcome.value.token)][UserKey := UserJson(outcome.value.user)]
      ensures outcome.Ok? ==> isAuthenticated && currentUser == Some(outcome.value.user)
      ensures outcome.Ok? ==> GetToken() == outcome.value.token && GetCurrentUser() == Some(outcome.value.user)
      ensures outcome.Err? ==> r == Err(HandleError(outcome.error))
      ensures outcome.Err? ==> store == old(store) && isAuthenticated == old(isAuthenticated)
      ensures outcome.Err? ==> currentUser == old(currentUser)
    {
      match outcome
      case Ok(response) =>
        HandleAuthResponse(response);
        r := Ok(response);
      case Err(e) =>
        r := Err(HandleError(e));
    }

    // --- logout

    method Logout()
      modifies http
      ensures http.sent == old(http.sent) + [Plain(Post, apiUrl + "/auth/logout", Empty)]
    {
      http.Send(Plain(Post, apiUrl + "/auth/logout", Empty));
    }

    /**
      Both outcomes end in the cleared session and at '/login'. On failure
      the `tap` error callback and `catchError` each run the logout handler,
      so the navigation is issued twice, and the subscriber receives
      'Logout completed'.
     */
    method OnLogoutResponse(succeeded: bool) returns (r: LogoutResult)
      requires Valid()
      modifies this`store, this`isAuthenticated, this`currentUser, router
      ensures Valid()
      ensures store == old(store) - {TokenKey, UserKey}
      ensures !isAuthenticated && currentUser == None && !HasToken()
      ensures succeeded ==> r == ServerReply && router.navigations == old(router.navigations) + ["/login"]
      ensures !succeeded ==> r == LogoutCompleted("Logout completed")
      ensures !succeeded ==> router.navigations == old(router.navigations) + ["/login", "/login"]
    {
      if succeeded {
        HandleLogout();
        r := ServerReply;
      } else {
        HandleLogout();
        HandleLogout();
        r := LogoutCompleted("Logout completed");
      }
    }

    // --- start-up validation of a stored token

    /** `initAuthService`: asks the backend about a stored token, if there is one. */
    method InitAuthService()
      requires Valid()
      modifies http
      ensures GetToken() == "" ==> http.sent == old(http.sent)
      ensures GetToken() != "" ==>
        http.sent == old(http.sent) + [Request(Get, apiUrl + "/auth/me", map["Authorization" := "Bearer " + GetToken()], Empty)]
    {
      var token := GetToken();
      if token != "" {
        http.Send(Request(Get, apiUrl + "/auth/me", map["Authorization" := "Bearer " + token], Empty));
      }
    }

    /** A refused token (401 or 403) clears the session; any other failure leaves it alone. */
    method OnValidateTokenResponse(outcome: Result<(), JsError>)
      requires Valid()
      modifies this`store, this`isAuthenticated, this`currentUser
      ensures Valid()
      ensures outcome.Ok? ==> isAuthenticated && store == old(store) && currentUser == old(currentUser)
      ensures outcome.Err? && RejectsToken(outcome.error.status) ==>
        store == old(store) - {TokenKey, UserKey} && !isAuthenticated && currentUser == None
      ensures outcome.Err? && !RejectsToken(outcome.error.status) ==>
        store == old(store) && isAuthenticated == old(isAuthenticated) && currentUser == old(currentUser)
    {
      match outcome
      case Ok(_) =>
        isAuthenticated := true;
      case Err(e) =>
        if e.status == 401 || e.status == 403 {
          isAuthenticated := false;
          ClearUserData();
        }
    }
  }

  /** Storing a reply and reading it back gives the same token and user. */
  lemma StoreRoundTrip(store: map<string, Stored>, response: LoginResponse)
    requires WellFormedStore(store)
    ensures var s := store[TokenKey := Text(response.token)][UserKey := UserJson(response.user)];
      WellFormedStore(s) && TokenOf(s) == response.token && UserOf(s) == Some(response.user)
  {
  }

  /** Clearing the token keeps the stored user; clearing user data forgets both. */
  lemma ClearingIsSelective(store: map<string, Stored>)
    requires WellFormedStore(store)
    ensures WellFormedStore(store - {TokenKey}) && UserOf(store - {TokenKey}) == UserOf(store)
    ensures WellFormedStore(store - {TokenKey, UserKey})
    ensures UserOf(store - {TokenKey, UserKey}) == None && !HasTokenIn(store - {TokenKey, UserKey})
  {
  }

  /** A token of white space only does not count as a session. */
  lemma BlankTokenIsNoSession(store: map<string, Stored>)
    requires WellFormedStore(store)
    requires forall k :: 0 <= k < |TokenOf(store)| ==> IsJsSpace(TokenOf(store)[k])
    ensures !HasTokenIn(store)
  {
  }
}
