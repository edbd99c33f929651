/**
  The registration form. It follows the login form's error handling; a
  successful registration goes to '/login' and leaves the loading flag
  set.
 */
module Register {
  import opened Js
  import opened Api
  import AuthService
  import AuthInterceptor
  import ErrorTranslator
  import FieldErrors

  const FallbackMessage := "Error registering"

  class RegisterComponent {
    const auth: AuthService.AuthService
    const translator: ErrorTranslator.Translator
    var loading: bool
    var error: string
    var fieldErrors: map<string, string>
    var inFlight: nat

    ghost predicate Valid()
      reads this, auth
    {
      auth.Valid()
    }

    constructor (auth: AuthService.AuthService, translator: ErrorTranslator.Translator)
      requires auth.Valid()
      ensures Valid()
      ensures this.auth == auth && this.translator == translator
      ensures !loading && error == "" && fieldErrors == map[] && inFlight == 0
    {
      this.auth := auth;
      this.translator := translator;
      loading := false;
      error := "";
      fieldErrors := map[];
      inFlight := 0;
    }

    function RegisterUrl(): string
      reads this
    {
      auth.apiUrl + "/auth/register"
    }

    /** `onSubmit`: the form has no validators, so every submission resets the errors and is sent. */
    method OnSubmit(data: RegisterData)
      requires Valid()
      modifies this`loading, this`error, this`fieldErrors, this`inFlight, auth.http
      ensures Valid()
      ensures loading && error == "" && fieldErrors == map[] && inFlight == old(inFlight) + 1
      ensures auth.http.sent == old(auth.http.sent) + [Plain(Post, RegisterUrl(), RegisterBody(data))]
    {
      loading := true;
      error := "";
      fieldErrors := map[];
      auth.Register(data);
      inFlight := inFlight + 1;
    }

    /**
      The reply to a submission. Success stores the session and goes to
      '/login' without touching `loading`. A failure clears `loading` and
      writes the translated field errors, in order, or the form-level
      message.
     */
    method OnRegisterResponse(outcome: Result<LoginResponse, JsError>)
      requires Valid() && inFlight > 0
      modifies this`inFlight, this`loading, this`error, this`fieldErrors
      modifies auth`store, auth`isAuthenticated, auth`currentUser, auth.router
      ensures Valid()
      ensures inFlight == old(inFlight) - 1
      ensures outcome.Ok? ==>
        auth.store == old(auth.store)[AuthService.TokenKey := AuthService.Text(outcome.value.token)]
                                     [AuthService.UserKey := AuthService.UserJson(outcome.value.user)] &&
        auth.isAuthenticated && auth.currentUser == Some(outcome.value.user) &&
        auth.GetToken() == outcome.value.token && auth.GetCurrentUser() == Some(outcome.value.user) &&
        auth.router.navigations == old(auth.router.navigations) + ["/login"] &&
        loading == old(loading) && error == old(error) && fieldErrors == old(fieldErrors)
      ensures outcome.Err? ==> !loading && auth.currentUser == old(auth.currentUser)
      ensures outcome.Err? && AuthInterceptor.ShouldClearToken(RegisterUrl(), outcome.error.status) ==>
        auth.store == old(auth.store) - {AuthService.TokenKey} && !auth.isAuthenticated &&
        auth.router.navigations == old(auth.router.navigations) + ["/login"]
      ensures outcome.Err? && !AuthInterceptor.ShouldClearToken(RegisterUrl(), outcome.error.status) ==>
        auth.store == old(auth.store) && auth.isAuthenticated == old(auth.isAuthenticated) &&
        auth.router.navigations == old(auth.router.navigations)
      ensures outcome.Err? && |AuthService.HandleError(outcome.error).errors| > 0 ==>
        fieldErrors == FieldErrors.Fold(old(fieldErrors), AuthService.HandleError(outcome.error).errors, translator.translations) &&
        error == old(error)
      ensures outcome.Err? && |AuthService.HandleError(outcome.error).errors| == 0 ==>
        error == FieldErrors.MessageOr(AuthService.HandleError(outcome.error).message, FallbackMessage) &&
        fieldErrors == old(fieldErrors)
    {
      inFlight := inFlight - 1;
      if outcome.Err? {
        var _ := AuthInterceptor.OnError(auth, RegisterUrl(), outcome.error);
      }
      var r := auth.OnAuthResponse(outcome);
      match r
      case Ok(_) =>
        auth.router.Navigate("/login");
      case Err(apiError) =>
        loading := false;
        if |apiError.errors| > 0 {
          fieldErrors := FieldErrors.Collect(fieldErrors, apiError.errors, translator.translations);
        } else {
          error := FieldErrors.MessageOr(apiError.message, FallbackMessage);
        }
    }

    function GetFieldError(fieldName: string): (r: Option<string>)
      reads this
      ensures r.Some? <==> fieldName in fieldErrors && fieldErrors[fieldName] != ""
      ensures r.Some? ==> r.value == fieldErrors[fieldName]
    {
      FieldErrors.GetFieldError(fieldErrors, fieldName)
    }

    function HasFieldError(fieldName: string): (r: bool)
      reads this
      ensures r <==> GetFieldError(fieldName).Some?
    {
      FieldErrors.HasFieldError(fieldErrors, fieldName)
    }
  }
}
