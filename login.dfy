/**
  The login form. A submission clears the previous errors and sends the
  credentials; a failure first passes the interceptor's 401 rule and the
  session service's classification, then lands either in the per-field
  dictionary or in the form-level message.
 */
module Login {
  import opened Js
  import opened Api
  import AuthService
  import AuthInterceptor
  import ErrorTranslator
  import FieldErrors

  const FallbackMessage := "Error logging in"

  class LoginComponent {
    const auth: AuthService.AuthService
    const translator: ErrorTranslator.Translator
    var loading: bool
    var error: string
    var fieldErrors: map<string, string>
    var inFlight: nat

    ghost predicate Valid()
      reads this, auth
    {
      auth.Valid()
    }

    constructor (auth: AuthService.AuthService, translator: ErrorTranslator.Translator)
      requires auth.Valid()
      ensures Valid()
      ensures this.auth == auth && this.translator == translator
      ensures !loading && error == "" && fieldErrors == map[] && inFlight == 0
    {
      this.auth := auth;
      this.translator := translator;
      loading := false;
      error := "";
      fieldErrors := map[];
      inFlight := 0;
    }

    function LoginUrl(): string
      reads this
    {
      auth.apiUrl + "/auth/login"
    }

    /**
      `onSubmit`. The form has no validators, so its `valid` gate always
      passes: every submission resets the errors and sends the credentials.
     */
    method OnSubmit(credentials: Credentials)
      requires Valid()
      modifies this`loading, this`error, this`fieldErrors, this`inFlight, auth.http
      ensures Valid()
      ensures loading && error == "" && fieldErrors == map[] && inFlight == old(inFlight) + 1
      ensures auth.http.sent == old(auth.http.sent) + [Plain(Post, LoginUrl(), CredentialsBody(credentials))]
    {
      loading := true;
      error := "";
      fieldErrors := map[];
      auth.Login(credentials);
      inFlight := inFlight + 1;
    }

    /**
      The reply to a submission. Success stores the session and goes to
      '/dashboard'. A failure leaves `loading` false and writes the
      translated field errors, in order, when there are any, or else the
      form-level message.
     */
    method OnLoginResponse(outcome: Result<LoginResponse, JsError>)
      requires Valid() && inFlight > 0
      modifies this`inFlight, this`loading, this`error, this`fieldErrors
      modifies auth`store, auth`isAuthenticated, auth`currentUser, auth.router
      ensures Valid()
      ensures !loading && inFlight == old(inFlight) - 1
      ensures outcome.Ok? ==>
        auth.store == old(auth.store)[AuthService.TokenKey := AuthService.Text(outcome.value.token)]
                                     [AuthService.UserKey := AuthService.UserJson(outcome.value.user)] &&
        auth.isAuthenticated && auth.currentUser == Some(outcome.value.user) &&
        auth.GetToken() == outcome.value.token && auth.GetCurrentUser() == Some(outcome.value.user) &&
        auth.router.navigations == old(auth.router.navigations) + ["/dashboard"] &&
        error == old(error) && fieldErrors == old(fieldErrors)
      ensures outcome.Err? && AuthInterceptor.ShouldClearToken(LoginUrl(), outcome.error.status) ==>
        auth.store == old(auth.store) - {AuthService.TokenKey} && !auth.isAuthenticated &&
        auth.router.navigations == old(auth.router.navigations) + ["/login"]
      ensures outcome.Err? && !AuthInterceptor.ShouldClearToken(LoginUrl(), outcome.error.status) ==>
        auth.store == old(auth.store) && auth.isAuthenticated == old(auth.isAuthenticated) &&
        auth.router.navigations == old(auth.router.navigations)
      ensures outcome.Err? ==> auth.currentUser == old(auth.currentUser)
      ensures outcome.Err? && |AuthService.HandleError(outcome.error).errors| > 0 ==>
        fieldErrors == FieldErrors.Fold(old(fieldErrors), AuthService.HandleError(outcome.error).errors, translator.translations) &&
        error == old(error)
      ensures outcome.Err? && |AuthService.HandleError(outcome.error).errors| == 0 ==>
        error == FieldErrors.MessageOr(AuthService.HandleError(outcome.error).message, FallbackMessage) &&
        fieldErrors == old(fieldErrors)
    {
      inFlight := inFlight - 1;
      if outcome.Err? {
        var _ := AuthInterceptor.OnError(auth, LoginUrl(), outcome.error);
      }
      var r := auth.OnAuthResponse(outcome);
      match r
      case Ok(_) =>
        loading := false;
        auth.router.Navigate("/dashboard");
      case Err(apiError) =>
        loading := false;
        if |apiError.errors| > 0 {
          fieldErrors := FieldErrors.Collect(fieldErrors, apiError.errors, translator.translations);
        } else {
          error := FieldErrors.MessageOr(apiError.message, FallbackMessage);
        }
    }

    function GetFieldError(fieldName: string): (r: Option<string>)
      reads this
      ensures r.Some? <==> fieldName in fieldErrors && fieldErrors[fieldName] != ""
      ensures r.Some? ==> r.value == fieldErrors[fieldName]
    {
      FieldErrors.GetFieldError(fieldErrors, fieldName)
    }

    function HasFieldError(fieldName: string): (r: bool)
      reads this
      ensures r <==> GetFieldError(fieldName).Some?
    {
      FieldErrors.HasFieldError(fieldErrors, fieldName)
    }
  }
}
