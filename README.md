# Simon-says client: a Dafny model

This project models the logic inside an Angular client for a two-player
"Simon says" game, and proves properties of it. In the game, players
reproduce a growing sequence of colours. The client has these parts:

- the game screen's turn engine;
- the waiting room's polling state machine;
- the create-match dialog;
- the list of open matches;
- the login and registration forms;
- the session store kept in browser storage;
- the HTTP interceptor;
- the English-to-Spanish dictionary for validation messages;
- the match service's guards, URLs and reply unwrapping.

The framework is reduced to logs:

- `Platform.Router` records every navigation target.
- `Platform.HttpClient` records every request it is asked to send.
- HTTP replies and timer firings are input events: methods named
  `On…Response`, `OnPollTick` and `OnRedirectTimer`.
- Browser storage is a map from key to stored entry. `JSON.stringify` and
  `JSON.parse` act as the identity on a user value.

JavaScript values are modelled where the code depends on them:

- Numbers are `Num(n)` or `NaN`. Truthiness is modelled, and the guard
  `!id || isNaN(id)` is `Js.InvalidId`.
- Template literals print numbers in decimal.
- `length` counts UTF-16 code units (`Js.Utf16Length`): a character outside
  the Basic Multilingual Plane counts twice.
- `includes` is a substring test, and `trim` uses the ECMAScript white-space
  set.
- `toLowerCase` covers ASCII.
- A `null` or absent string is written `""` wherever the code only tests
  its truthiness.

Modules follow the source files. Each module is named after the file it
models:

- `Partida`: the game screen;
- `SalaEspera`: the waiting room;
- `Home`: the create-match dialog;
- `PartidasIndex`: the match list;
- `Login` and `Register`: the two forms;
- `AuthService`: the session store;
- `AuthInterceptor`: the interceptor;
- `ErrorTranslator`: the dictionary;
- `PartidaService`: the match service.

Three more modules support them:

- `FieldErrors`: the per-field error dictionary that both forms share;
- `Api`: the wire types;
- `Js`: the JavaScript value helpers.

The parts that change state are classes. Their fields are the component's
fields. Each method's `modifies` frame names the single fields it may write
(on its own object, and on the router, HTTP log or session store it reaches),
so every other field is unchanged, and its `ensures` state the new values of
the fields it names. Their invariants are the `Valid()` predicates. Pure logic is written
as functions with lemmas.

The code behaves as follows where a reader might expect otherwise:

- The game screen compares colours exactly, with no case folding.
- The game screen never submits the sequence to the backend. A complete
  sequence only re-fetches the state. Nothing prevents a second re-fetch, as
  `Partida.DoubleTapRefetchesTwice` shows.
- One failed poll request ends the game screen's polling for good, because
  `catchError` sits on the outer pipe.
- In the waiting room, any poll error ends the subscription. A failed cancel
  does not navigate.
- On the waiting room's initial load, the player count comes from the
  reply's top level. Poll replies read it from `data`.
- A failed logout runs the logout handler twice: once in the `tap` error
  callback and once in `catchError`. It therefore navigates to '/login'
  twice.

## Model

| member | source | states |
|---|---|---|
| Partida.Tap | src/app/dashboard/partida/partida.component.ts:78-91 | A tap is ignored unless it is my turn and the game is not over; a round without a sequence throws after the push; a wrong extension empties the selection; a full match empties it and is reported as `Completed` exactly when the extended selection equals the sequence; a correct extension shorter than the sequence is reported as `Partial` and becomes the selection; an accepted tap always leaves a prefix of the sequence that is shorter than it or empty |
| Partida.SecuenciaCoincide | src/app/dashboard/partida/partida.component.ts:81 | The element-by-element `every` check with exact `===` is true exactly when the selection is a prefix of the sequence |
| Partida.FinishSequence | src/app/dashboard/partida/partida.component.ts:80-90 | From a correct prefix, tapping the rest of the sequence ends with an empty selection and exactly one re-fetch |
| Partida.EnterWholeSequence | src/app/dashboard/partida/partida.component.ts:80-90 | Tapping the whole sequence from an empty selection triggers exactly one re-fetch and leaves nothing selected |
| Partida.RunKeepsPrefix | src/app/dashboard/partida/partida.component.ts:80-90 | Over any run of taps, the selection stays a prefix of the sequence that is shorter than it or empty |
| Partida.FetchesNeedWholeSequences | src/app/dashboard/partida/partida.component.ts:86-90 | Each re-fetch costs a full sequence of taps: `|sequence| * fetches + |selection after| <= |selection before| + |taps|` |
| Partida.DoubleTapRefetchesTwice | src/app/dashboard/partida/partida.component.ts:86-90 | With a one-colour sequence, tapping twice re-fetches twice: nothing locks input between a completed sequence and the next snapshot |
| Partida.AcceptedTapKeepsPrefix | src/app/dashboard/partida/partida.component.ts:80-90 | Whatever sequence a poll installed in between, an accepted tap leaves a prefix of it that is shorter than it or empty |
| Partida.PartidaComponent.SeleccionarColor | src/app/dashboard/partida/partida.component.ts:78-91 | The outcome and the new selection are those of `Tap` on the current turn flags and sequence; wrong gives '¡Secuencia incorrecta!', complete gives '¡Correcto! Espera tu siguiente turno' and exactly one fetch of the state; ignored, partial and throwing taps keep the message and send nothing; the frame allows only the selection, `mensaje` and the re-fetch count to change, so the round, the turn flags and the polling state stay as they were |
| Partida.PartidaComponent.constructor | src/app/dashboard/partida/partida.component.ts:16-31 | No match, round or message yet, an empty selection, no turn, nothing loading and nothing polling |
| Partida.PartidaComponent.ProcesarDatos | src/app/dashboard/partida/partida.component.ts:64-76 | Every field `procesarDatos` writes takes the snapshot's value (`Shows`), the frame leaves every other field alone, including the selection, and the turn flags keep mirroring the last snapshot |
| Partida.PartidaComponent.CopiarTurno | src/app/dashboard/partida/partida.component.ts:68-75 | The round and turn fields take the snapshot's values and nothing else is written |
| Partida.PartidaComponent.CargarEstadoInicial | src/app/dashboard/partida/partida.component.ts:47-49 | `cargando` rises and one GET of apiUrl + '/partida/' + id is sent |
| Partida.PartidaComponent.OnInitialLoadResponse | src/app/dashboard/partida/partida.component.ts:50-61 | A successful reply installs the snapshot's view and starts polling; an unsuccessful one only clears `cargando`; a failure changes only `mensaje`, to 'Error al cargar la partida', and does not poll; the selection is outside the frame |
| Partida.PartidaComponent.ActualizarJuego | src/app/dashboard/partida/partida.component.ts:93-94 | Exactly one more GET of the state is sent and nothing else changes |
| Partida.PartidaComponent.OnRefetchResponse | src/app/dashboard/partida/partida.component.ts:95-100 | Only a reply with `success` installs the snapshot's view; any other reply, or a failure with no handler, leaves the view as it was; the selection and polling state are outside the frame |
| Partida.PartidaComponent.IniciarPolling | src/app/dashboard/partida/partida.component.ts:103-104 | A live subscription with no request outstanding |
| Partida.PartidaComponent.OnPollTick | src/app/dashboard/partida/partida.component.ts:105-110 | A tick sends one GET unless the game is over; after the end it sends nothing and drops any outstanding poll request |
| Partida.PartidaComponent.OnPollResponse | src/app/dashboard/partida/partida.component.ts:111-117 | A reply with `success` installs the snapshot's view and keeps polling; an unsuccessful reply leaves the view as it was; a failed request ends polling; the selection is outside the frame |
| Partida.PartidaComponent.NgOnDestroy | src/app/dashboard/partida/partida.component.ts:43-45 | Polling stops; the round, the selection and outstanding loads are untouched |
| Partida.PartidaComponent.Volver | src/app/dashboard/partida/partida.component.ts:120-122 | Navigates to '/partidas' |
| SalaEspera.StatusMessage | src/app/dashboard/sala-espera/sala-espera.component.ts:84-89 | The opponent-found text exactly when at least two players are present, the waiting text exactly otherwise |
| SalaEspera.ProgressPercentage | src/app/dashboard/sala-espera/sala-espera.component.ts:91-93 | 50 times the player count; between 0 and 100 for 0 to 2 players; 100 exactly at two players and 0 exactly at none |
| SalaEspera.ProgressMatchesStatus | src/app/dashboard/sala-espera/sala-espera.component.ts:84-93 | The bar is at least full exactly when the opponent-found text shows |
| SalaEspera.RedirectTarget | src/app/dashboard/sala-espera/sala-espera.component.ts:133 | The redirect goes to '/app' followed by the reply's `urlRedireccion` |
| SalaEspera.Placeholder | src/app/dashboard/sala-espera/sala-espera.component.ts:98-102 | The placeholder match has the route's id, the name 'Partida ' + id and an empty description |
| SalaEspera.PlaceholderNameCarriesId | src/app/dashboard/sala-espera/sala-espera.component.ts:98-102 | The placeholder's name is 'Partida ' followed by text that reads back as the route's id |
| SalaEspera.StartsGame | src/app/dashboard/sala-espera/sala-espera.component.ts:128 | A poll reply starts the redirect exactly when `puedeIniciar` holds and `estado` is 'en_curso' |
| SalaEspera.SalaEsperaComponent.constructor | src/app/dashboard/sala-espera/sala-espera.component.ts:48-59 | One expected player and none present, polling armed, loading, not redirecting, no match, no subscription and no redirect armed |
| SalaEspera.SalaEsperaComponent.NgOnInit | src/app/dashboard/sala-espera/sala-espera.component.ts:67-72 | An invalid route id sends nothing and navigates to '/'; a valid one sends the state check; the flags are unchanged |
| SalaEspera.SalaEsperaComponent.OnLoadResponse | src/app/dashboard/sala-espera/sala-espera.component.ts:96-112 | Success sets the placeholder, both counters to the fetched count, clears `loading` and starts polling; a failure navigates to '/' and starts nothing |
| SalaEspera.SalaEsperaComponent.IniciarPolling | src/app/dashboard/sala-espera/sala-espera.component.ts:117-121 | A live subscription with no request outstanding |
| SalaEspera.SalaEsperaComponent.OnPollTick | src/app/dashboard/sala-espera/sala-espera.component.ts:119-120 | A tick sends one state check exactly while polling and not redirecting; otherwise `takeWhile` completes the subscription and nothing is sent |
| SalaEspera.SalaEsperaComponent.OnPollResponse | src/app/dashboard/sala-espera/sala-espera.component.ts:123-145 | Every reply sets `jugadoresActuales` from `data`; exactly when `puedeIniciar && estado === 'en_curso'` polling stops, `isRedirecting` rises and one redirect to '/app' + `urlRedireccion` is armed, otherwise the flags are unchanged; an error ends the subscription |
| SalaEspera.SalaEsperaComponent.OnRedirectTimer | src/app/dashboard/sala-espera/sala-espera.component.ts:132-137 | The armed target is navigated to once, the timer is spent and `isRedirecting` drops |
| SalaEspera.SalaEsperaComponent.Cancelar | src/app/dashboard/sala-espera/sala-espera.component.ts:148-161 | A no-op while redirecting, so an armed redirect or an outstanding cancel is never disturbed; otherwise polling stops for good, the timer and subscription are cleared and exactly one cancel request goes out, or the flag drops at once for an invalid id |
| SalaEspera.SalaEsperaComponent.OnCancelResponse | src/app/dashboard/sala-espera/sala-espera.component.ts:162-169 | The flag drops either way; success navigates to '/', failure does not navigate |
| SalaEspera.SalaEsperaComponent.NgOnDestroy | src/app/dashboard/sala-espera/sala-espera.component.ts:74-82 | Polling stops, the subscription ends and no redirect is left armed, so no scheduled navigation can fire afterwards |
| Home.CantidadOf | src/app/dashboard/home/home.component.ts:125 | `value \|\| 0`: a missing count is 0 |
| Home.Reset | src/app/dashboard/home/home.component.ts:41 | Every control is back to empty and untouched, the array keeps its length, and the reset form is invalid |
| Home.Resized | src/app/dashboard/home/home.component.ts:124-135 | The resized array has exactly `max(cantidad, 0)` entries; when growing, the old entries are its prefix and the new ones are '#ffffff'; when shrinking, it is a prefix of the old array |
| Home.ResizedIdempotent | src/app/dashboard/home/home.component.ts:124-135 | Resizing twice to the same count equals resizing once |
| Home.ResizeKeepsEntered | src/app/dashboard/home/home.component.ts:128-134 | An entered colour below the new count keeps its value |
| Home.RemoveLast | src/app/dashboard/home/home.component.ts:133 | `removeAt(length - 1)` drops the last entry and leaves an empty array empty |
| Home.RemoveLastTimesIsPrefix | src/app/dashboard/home/home.component.ts:132-134 | After k passes of the shrinking body the array is its own prefix of length `max(|colores| - k, 0)` |
| Home.ShrinkNeverEnds | src/app/dashboard/home/home.component.ts:132-134 | With a negative count the shrinking loop's condition still holds after any number of passes |
| Home.LowerColours | src/app/dashboard/home/home.component.ts:54 | Same length and order as the form colours, each lower-cased |
| Home.SubmitData | src/app/dashboard/home/home.component.ts:51-55 | The payload carries the form's name and description and the lower-cased colours |
| Home.ValidFormPassesGuard | src/app/dashboard/home/home.component.ts:47-59 | A form that passes its validators always passes the service's payload guard |
| Home.ServiceYieldsUsableIds | src/app/dashboard/home/home.component.ts:64 | Every match the service hands on passes the component's id check, so the no-id branch is not reached after the service filter |
| Home.CreateErrorMessage | src/app/dashboard/home/home.component.ts:78-84 | The body's message when there is one, otherwise the error's message, otherwise the default text; never empty |
| Home.SalaEsperaUrl | src/app/dashboard/home/home.component.ts:65 | '/app/sala-espera/' followed by the id in decimal |
| Home.SalaEsperaUrlCarriesId | src/app/dashboard/home/home.component.ts:65 | The id in the waiting-room path reads back as the created match's id |
| Home.TwoAstralCharactersMakeAName | src/app/dashboard/home/home.component.ts:26 | A name of two characters outside the Basic Multilingual Plane meets `minLength(3)`, since `length` counts each twice |
| Home.FormValid | src/app/dashboard/home/home.component.ts:26-29 | The form is valid exactly when the name is at least 3 UTF-16 code units long, the description at least 5, the count is present and between 2 and 10, and every colour is non-empty |
| Home.UsableId | src/app/dashboard/home/home.component.ts:64 | `partida.id && !isNaN(partida.id)`: a non-zero, non-NaN id |
| Home.HomeComponent.constructor | src/app/dashboard/home/home.component.ts:25-31 | Empty texts, a count of 2 and two default colours |
| Home.HomeComponent.OpenModal | src/app/dashboard/home/home.component.ts:34-37 | The dialog shows and the message clears |
| Home.HomeComponent.CloseModal | src/app/dashboard/home/home.component.ts:39-44 | The dialog hides, the form resets, loading and message clear; outstanding create requests stay outstanding, so closing mid-request re-opens the submit gate |
| Home.HomeComponent.ActualizarColores | src/app/dashboard/home/home.component.ts:124-135 | The colour array becomes `Resized(colores, cantidad)`, with the shrinking loop bounded below by zero; nothing else in the form changes |
| Home.HomeComponent.OnSubmit | src/app/dashboard/home/home.component.ts:46-96 | A valid form while not loading raises `isLoading`, clears the message and sends exactly one more create request with the lower-cased colours; while loading a second submit sends nothing; an invalid form is marked touched and nothing is sent; the only precondition is that loading implies an outstanding request, which `CloseModal` keeps |
| Home.HomeComponent.OnCreateResponse | src/app/dashboard/home/home.component.ts:60-85 | Any outstanding create reply, including one that arrives after the dialog was closed, is handled: a usable id navigates to the waiting room and closes the dialog; an unusable one shows the no-id message; an error shows the prioritised message; loading ends in every case and one fewer request is outstanding |
| Home.HomeComponent.NavigateToPartidas | src/app/dashboard/home/home.component.ts:98-100 | Navigates to '/app/partidas', the root-relative resolution of the 'app/partidas' command |
| PartidasIndex.JoinAccepted | src/app/dashboard/partidas-index/partidas-index.component.ts:40-42 | A join reply is accepted exactly when it is present, `success` holds, and it carries `data` with a `partida` whose id is truthy |
| PartidasIndex.JoinTarget | src/app/dashboard/partidas-index/partidas-index.component.ts:41-43 | The target is '/app/juego/' followed by the id from the reply |
| PartidasIndex.JoinTargetCarriesId | src/app/dashboard/partidas-index/partidas-index.component.ts:41-43 | The id in the target reads back as the reply's id |
| PartidasIndex.PartidasIndexComponent.constructor | src/app/dashboard/partidas-index/partidas-index.component.ts:13-14 | An empty list and nothing loading |
| PartidasIndex.PartidasIndexComponent.GetPartidas | src/app/dashboard/partidas-index/partidas-index.component.ts:22-24 | `loading` rises and one GET of the list goes out |
| PartidasIndex.PartidasIndexComponent.OnPartidasResponse | src/app/dashboard/partidas-index/partidas-index.component.ts:25-31 | Success replaces the list wholesale, failure keeps it; `loading` drops either way |
| PartidasIndex.PartidasIndexComponent.UnirsePartida | src/app/dashboard/partidas-index/partidas-index.component.ts:35-36 | Exactly one join request for the chosen match |
| PartidasIndex.PartidasIndexComponent.OnJoinResponse | src/app/dashboard/partidas-index/partidas-index.component.ts:37-54 | Navigates to the reply's match exactly when the reply is accepted; any other reply or an error leaves navigation alone |
| Login.LoginComponent.OnSubmit | src/app/auth/login/login.component.ts:32-38 | Every submission sets `loading`, clears `error` and `fieldErrors` and sends the credentials |
| Login.LoginComponent.constructor | src/app/auth/login/login.component.ts:26-29 | Not loading, no error and an empty field-error dictionary |
| Login.LoginComponent.OnLoginResponse | src/app/auth/login/login.component.ts:38-57 | Success writes both storage keys, so `GetToken` and `GetCurrentUser` return the reply's token and user, and goes to '/dashboard'; a failure applies the interceptor's 401 rule (outside it the store, the authenticated flag and the navigations are unchanged), clears `loading`, and writes either the ordered fold of translated field errors with `error` unchanged, or `err.message \|\| 'Error logging in'` with the dictionary unchanged |
| Login.LoginComponent.GetFieldError | src/app/auth/login/login.component.ts:61-63 | The stored message, or none when absent or empty |
| Login.LoginComponent.HasFieldError | src/app/auth/login/login.component.ts:65-67 | True exactly when `GetFieldError` yields a message |
| Register.RegisterComponent.constructor | src/app/auth/register/register.component.ts:26-30 | Not loading, no error and an empty field-error dictionary |
| Register.RegisterComponent.OnSubmit | src/app/auth/register/register.component.ts:33-40 | Every submission sets `loading`, clears `error` and `fieldErrors` and sends the registration data |
| Register.RegisterComponent.OnRegisterResponse | src/app/auth/register/register.component.ts:40-57 | Success writes both storage keys, so `GetToken` and `GetCurrentUser` return the reply's token and user, and goes to '/login' without touching `loading`; a failure applies the 401 rule (outside it the store, the authenticated flag and the navigations are unchanged), clears `loading` and writes the ordered fold or `err.message \|\| 'Error registering'` |
| Register.RegisterComponent.GetFieldError | src/app/auth/register/register.component.ts:61-63 | The stored message, or none when absent or empty |
| Register.RegisterComponent.HasFieldError | src/app/auth/register/register.component.ts:65-67 | True exactly when `GetFieldError` yields a message |
| FieldErrors.Fold | src/app/auth/login/login.component.ts:47-52 | The ordered `forEach` writes `fieldErrors[e.field] = translateError(e.message)`; the specification behind `FieldErrors.Collect` and `FieldErrors.FoldLastWriteWins` |
| FieldErrors.LastIndexOf | src/app/auth/login/login.component.ts:47-52 | The last position naming a field, with no later position naming it, or none when no error names it |
| FieldErrors.FoldLastWriteWins | src/app/auth/login/login.component.ts:47-52 | After the fold, a field holds the translation of the last error naming it; a field no error names keeps its earlier value and presence |
| FieldErrors.Fields | src/app/auth/login/login.component.ts:47-52 | Every field an error names is in the set |
| FieldErrors.FoldKeys | src/app/auth/register/register.component.ts:47-52 | The fold's keys are the earlier keys plus every field the errors name |
| FieldErrors.Collect | src/app/auth/register/register.component.ts:47-52 | The `forEach` loop produces exactly the ordered fold |
| FieldErrors.MessageOr | src/app/auth/login/login.component.ts:54 | The error's own message when non-empty, else the fallback; never empty for a non-empty fallback |
| FieldErrors.GetFieldError | src/app/auth/login/login.component.ts:61-63 | `fieldErrors[name] \|\| null`: present exactly when stored and non-empty |
| FieldErrors.HasFieldError | src/app/auth/login/login.component.ts:65-67 | True exactly when `GetFieldError` is present |
| FieldErrors.FieldReportedAfterFold | src/app/auth/login/login.component.ts:46-67 | After a submission's fold, a field reports an error exactly when some error names it and the last such error translates to a non-empty text |
| ErrorTranslator.InitialTable | src/app/shared/utils/error-translator.util.ts:2-22 | The 19 static entries; the specification behind `ErrorTranslator.InitialTableTranslates` and the dictionary's constructor |
| ErrorTranslator.Translate | src/app/shared/utils/error-translator.util.ts:24-26 | A key with a non-empty entry yields the entry; an unknown key or an empty entry yields the input; the result is empty only for an empty input |
| ErrorTranslator.Add | src/app/shared/utils/error-translator.util.ts:28-30 | Adds the key with the given text and leaves every other entry as it was |
| ErrorTranslator.TranslateAfterAdd | src/app/shared/utils/error-translator.util.ts:24-30 | After adding a non-empty text, looking the key up yields it, overwriting any earlier entry |
| ErrorTranslator.TranslateAfterAddEmpty | src/app/shared/utils/error-translator.util.ts:24-30 | After adding an empty text, the key falls back to itself |
| ErrorTranslator.AddKeepsOthers | src/app/shared/utils/error-translator.util.ts:29 | Adding one entry leaves every other message's translation unchanged |
| ErrorTranslator.AddIdempotent | src/app/shared/utils/error-translator.util.ts:29 | Adding the same entry twice gives the same table as adding it once |
| ErrorTranslator.InitialTableTranslates | src/app/shared/utils/error-translator.util.ts:2-22 | Every message in the initial table translates to its entry, which differs from the message |
| ErrorTranslator.Translator.constructor | src/app/shared/utils/error-translator.util.ts:2-22 | The dictionary starts as the 19-entry table |
| ErrorTranslator.Translator.TranslateError | src/app/shared/utils/error-translator.util.ts:24-26 | Lookup with fallback to the input on the current table |
| ErrorTranslator.Translator.AddTranslation | src/app/shared/utils/error-translator.util.ts:28-30 | The table gains the entry; a non-empty text is then the key's translation and every other key's translation is as before |
| AuthService.TokenOf | src/app/core/services/auth.service.ts:78-80 | The stored token, or '' when none is stored |
| AuthService.HasTokenIn | src/app/core/services/auth.service.ts:82-85 | True exactly when the token has a non-white-space character |
| AuthService.UserOf | src/app/core/services/auth.service.ts:87-90 | The stored user exactly when the user key is present |
| AuthService.HandleError | src/app/core/services/auth.service.ts:155-174 | A client-side event keeps its message; an object body gives its message or 'Error al procesar la petición' and its errors; anything else gives the error's message; the error list is always present |
| AuthService.RejectsToken | src/app/core/services/auth.service.ts:195 | The token check drops the session exactly for status 401 or 403 |
| AuthService.HandleErrorMessageNonEmpty | src/app/core/services/auth.service.ts:164-169 | An object body never yields an empty message |
| AuthService.StoreRoundTrip | src/app/core/services/auth.service.ts:141-147 | Storing a reply and reading it back gives the same token and user |
| AuthService.ClearingIsSelective | src/app/core/services/auth.service.ts:129-139 | Clearing the token keeps the stored user; clearing user data forgets both and leaves no session |
| AuthService.BlankTokenIsNoSession | src/app/core/services/auth.service.ts:82-85 | A token made only of white space is not a session |
| AuthService.AuthService.constructor | src/app/core/services/auth.service.ts:62-69 | The two subjects start from what storage holds |
| AuthService.AuthService.GetToken | src/app/core/services/auth.service.ts:78-80 | The stored token or '' |
| AuthService.AuthService.HasToken | src/app/core/services/auth.service.ts:82-85 | A non-blank token |
| AuthService.AuthService.GetCurrentUser | src/app/core/services/auth.service.ts:87-90 | Present exactly when the user key is stored |
| AuthService.AuthService.HandleAuthResponse | src/app/core/services/auth.service.ts:141-147 | Both keys are written, the session is authenticated, and `GetToken` and `GetCurrentUser` then return the reply's token and user |
| AuthService.AuthService.ClearUserData | src/app/core/services/auth.service.ts:129-134 | Both keys are removed, the session is not authenticated and no user is current |
| AuthService.AuthService.ClearToken | src/app/core/services/auth.service.ts:136-139 | Only the token key is removed and the session is not authenticated; the stored and current user are unchanged |
| AuthService.AuthService.HandleLogout | src/app/core/services/auth.service.ts:149-153 | User data is cleared and the router goes to '/login' |
| AuthService.AuthService.Login | src/app/core/services/auth.service.ts:96-98 | One POST of the credentials to apiUrl + '/auth/login' |
| AuthService.AuthService.Register | src/app/core/services/auth.service.ts:103-105 | One POST of the data to apiUrl + '/auth/register' |
| AuthService.AuthService.OnAuthResponse | src/app/core/services/auth.service.ts:99-100 | A reply writes both storage keys, marks the session authenticated and is passed on, after which `GetToken` and `GetCurrentUser` return its token and user; a failure is classified by `HandleError` and the session is left as it was |
| AuthService.AuthService.Logout | src/app/core/services/auth.service.ts:110-112 | One POST to apiUrl + '/auth/logout' |
| AuthService.AuthService.OnLogoutResponse | src/app/core/services/auth.service.ts:113-126 | Either outcome ends with the session cleared and the router at '/login'; a failure yields 'Logout completed' and navigates twice |
| AuthService.AuthService.InitAuthService | src/app/core/services/auth.service.ts:177-190 | A stored token is checked with one GET of '/auth/me' carrying 'Bearer ' + token; no token sends nothing |
| AuthService.AuthService.OnValidateTokenResponse | src/app/core/services/auth.service.ts:191-199 | Success marks the session authenticated; 401 or 403 clears user data; any other failure changes nothing |
| AuthInterceptor.IsAuthRoute | src/app/core/interceptors/auth.interceptor.ts:12-14 | A URL is an auth route exactly when it contains '/auth/login' or '/auth/register' |
| AuthInterceptor.ShouldClearToken | src/app/core/interceptors/auth.interceptor.ts:30 | A failure clears the token exactly when its status is 401 and the URL does not contain '/auth/logout' |
| AuthInterceptor.WithAuthHeaders | src/app/core/interceptors/auth.interceptor.ts:12-26 | Both headers are added, with Authorization exactly 'Bearer ' + token, exactly when the token is non-empty and the URL is not a login or register route; otherwise the request passes unchanged |
| AuthInterceptor.AttachedHeaderIsBearer | src/app/core/interceptors/auth.interceptor.ts:19-26 | A request that gained an Authorization header had a non-empty token, is not an auth route, and carries exactly 'Bearer ' + token |
| AuthInterceptor.EndpointsClassified | src/app/core/interceptors/auth.interceptor.ts:12-14 | The login and register endpoints are auth routes, and a 401 from the logout endpoint never clears the token |
| AuthInterceptor.ForbiddenDoesNotClear | src/app/core/interceptors/auth.interceptor.ts:30 | A 403 never triggers the clearing rule |
| AuthInterceptor.OnError | src/app/core/interceptors/auth.interceptor.ts:28-36 | On a 401 outside logout the token alone is removed and the router goes to '/login'; otherwise nothing changes; the error is rethrown unchanged |
| PartidaService.Guarded | src/app/core/services/partida.service.ts:99-101 | The request goes out exactly when the id is neither 0 nor NaN; otherwise the error is 'ID de partida inválido' |
| PartidaService.VerificarEstado | src/app/core/services/partida.service.ts:98-104 | The state check for an id: refused with 'ID de partida inválido' for 0 or NaN, otherwise one GET of apiUrl + '/verificar-estado/' + id |
| PartidaService.CancelarPartida | src/app/core/services/partida.service.ts:113-118 | The cancellation for an id: refused for 0 or NaN, otherwise one DELETE of partidasUrl + '/' + id |
| PartidaService.ObtenerPartida | src/app/core/services/partida.service.ts:126-132 | The fetch for an id: refused for 0 or NaN, otherwise one GET of apiUrl + '/partida/' + id |
| PartidaService.DeletePartida | src/app/core/services/partida.service.ts:215-220 | The deletion for an id: refused for 0 or NaN, otherwise one DELETE of partidasUrl + '/' + id |
| PartidaService.GetPartidas | src/app/core/services/partida.service.ts:142-143 | One GET of partidasUrl, that is apiUrl + '/partidas' |
| PartidaService.UnirsePartida | src/app/core/services/partida.service.ts:207-211 | One POST of the match to apiUrl + '/unirse-partida/' + id, with no id guard |
| PartidaService.UpdatePartida | src/app/core/services/partida.service.ts:181-194 | Rejected with 'Partida inválida' exactly when the match is missing or its id is 0 or NaN; otherwise one PUT to partidasUrl + '/' + id |
| PartidaService.CreatePartida | src/app/core/services/partida.service.ts:158-165 | Rejected with 'Datos de partida inválidos' exactly when the payload, name, description or colour list is missing (an empty list passes); otherwise one POST to partidasUrl |
| PartidaService.CreatePartidaResult | src/app/core/services/partida.service.ts:166-177 | The reply's match exactly when it exists with a truthy id, otherwise 'Respuesta de API inválida'; failures pass through |
| PartidaService.GetPartidasResult | src/app/core/services/partida.service.ts:142-156 | The reply's list exactly when `success` and `data` are truthy, otherwise 'Respuesta de API inválida'; failures pass through |
| PartidaService.GuardedUrls | src/app/core/services/partida.service.ts:94-139 | For a valid id, the state check, cancel, fetch and delete go to '/verificar-estado/', '/partidas/', '/partida/' and '/partidas/' followed by the id |
| PartidaService.DistinctIdsDistinctUrls | src/app/core/services/partida.service.ts:104-132 | Different ids address different URLs |
| PartidaService.UrlCarriesId | src/app/core/services/partida.service.ts:132 | The id in a fetch URL reads back as the id asked for |
| Js.InvalidIdIsFalsy | src/app/core/services/partida.service.ts:99 | `!id \|\| isNaN(id)` holds exactly for the falsy numbers |
| Js.IntToStringRoundTrip | src/app/core/services/partida.service.ts:104 | A number printed in a template literal parses back to itself |
| Js.Includes | src/app/core/interceptors/auth.interceptor.ts:12-14 | `includes` is true exactly when the pattern occurs at some position |
| Js.Trim | src/app/core/services/auth.service.ts:84 | `trim()`: strips ECMAScript white space and line terminators from both ends; the specification behind `Js.TrimNonEmpty` |
| Js.Utf16Length | src/app/dashboard/home/home.component.ts:26-27 | `length` in UTF-16 code units: between the character count and twice it, and zero only for the empty text |
| Js.Utf16LengthIsCount | src/app/dashboard/home/home.component.ts:26-27 | The code-unit length equals the character count exactly when no character lies outside the Basic Multilingual Plane |
| Js.Utf16LengthAppend | src/app/dashboard/home/home.component.ts:26-27 | The code-unit length of a concatenation is the sum of the parts' lengths |
| Js.TrimNonEmpty | src/app/core/services/auth.service.ts:84 | `trim()` leaves something exactly when the text has a non-white-space character |
| Js.ToLowerCase | src/app/dashboard/home/home.component.ts:54 | Same length, each character lower-cased |

## Left out

- The welcome page, the authenticated layout, the route table, the guest
  guard and the root component. They are animation, layout and framework
  configuration.
- `mis-partidas.component.ts` is not part of this model. It calls service
  members that the service does not define.
- The unit-test files: they only check that each component can be created.
- Timer durations and the animation delays. Only whether a timer is armed
  or cleared is modelled.
- The `navigateByUrl` promise. `isRedirecting` drops in the same event as
  the timer's navigation.
- Console output.
- Floating point: `progressPercentage` is modelled over integer counts.
- Non-integer colour counts. Case mapping beyond ASCII.
- Object-prototype keys in the translation table and the field-error
  dictionary. For example, a message equal to "constructor" is not modelled.
- Malformed snapshots. A reply without `juego` or `estado` would make
  `procesarDatos` throw half-way. The model takes both as present.
- A route that emits a second id. Each component takes one id.
  `SalaEspera.SalaEsperaComponent.NgOnInit` requires that nothing is loading
  or subscribed yet.
- Request headers added by the interceptor. The logged requests are the ones
  the services build. The interceptor's error rule is composed only into the
  login and registration handlers, not into the other screens.
- `getMisPartidas`, `getEstadisticas` and `getPartidasFiltradas`. They are
  plain GETs with no logic.
- The home dialog's template helpers `isFieldInvalid` and `getFieldError`.
- Partida.PartidaComponent.SeleccionarColor: the tap that throws is modelled
  by its visible effect only. The colour is pushed and nothing after that
  line runs.
- Home.HomeComponent.ActualizarColores: the shrinking loop is bounded below
  by zero (see Findings). The loop as written does not end for a negative
  count.
- Login.LoginComponent.OnSubmit and Register.RegisterComponent.OnSubmit
  always submit. Neither form has validators, so its `valid` gate is always
  open.

## Findings

| source | as written | input that shows it | evidently intended | confidence | as-written member | corrected member |
|---|---|---|---|---|---|---|
| src/app/dashboard/home/home.component.ts:132-134 | `while (colores.length > cantidad) colores.removeAt(colores.length - 1)` | `cantidadColores` = -1, then `actualizarColores()`: the array empties, then `removeAt(-1)` on the empty array removes nothing and `0 > -1` keeps holding, forever | stop at an empty array, i.e. resize to `max(cantidad, 0)` | not executed; medium: the count's validators mark the form invalid but do not stop `actualizarColores` running | Home.ShrinkNeverEnds | Home.HomeComponent.ActualizarColores |
