/**
  The waiting room: after an initial state check it polls the match state
  every two seconds until the backend reports that the match can start,
  then redirects to the game after a delay. The user may cancel the match
  while nothing is redirecting.
 */
module SalaEspera {
  import opened Js
  import opened Api
  import opened Platform
  import PartidaService

  const FoundMessage := "¡Jugador encontrado! Iniciando partida..."
  const WaitingMessage := "Esperando que otro jugador se una a la partida..."

  /** The `statusMessage` getter. */
  function StatusMessage(jugadores: int): (m: string)
    ensures m == FoundMessage <==> jugadores >= 2
    ensures m == WaitingMessage <==> jugadores < 2
  {
    if jugadores >= 2 then FoundMessage else WaitingMessage
  }

  /** The `progressPercentage` getter: half of a full bar per player. */
  function ProgressPercentage(jugadores: int): (r: real)
    ensures r == 50.0 * jugadores as real
    ensures 0 <= jugadores <= 2 ==> 0.0 <= r <= 100.0
    ensures r == 100.0 <==> jugadores == 2
    ensures r == 0.0 <==> jugadores == 0
  {
    (jugadores as real / 2.0) * 100.0
  }

  /** The bar is full or beyond exactly when the opponent-found message shows. */
  lemma ProgressMatchesStatus(jugadores: int)
    ensures StatusMessage(jugadores) == FoundMessage <==> ProgressPercentage(jugadores) >= 100.0
  {
  }

  /** The poll reply that starts the redirect. */
  predicate StartsGame(e: EstadoPartida) {
    e.puedeIniciar && e.estado == "en_curso"
  }

  /** Where the delayed redirect goes. */
  function RedirectTarget(e: EstadoPartida): (url: string)
    ensures |url| >= 4 && url[..4] == "/app" && url[4..] == e.urlRedireccion
  {
    "/app" + e.urlRedireccion
  }

  /** The placeholder match shown once the initial check succeeds. */
  function Placeholder(id: Number): (p: Partida)
    ensures p.id == id && p.descripcion == ""
    ensures p.nombre == "Partida " + NumberToString(id)
  {
    Partida(id, "Partida " + NumberToString(id), "")
  }

  /** The placeholder's name ends with the route's id, read back exactly. */
  lemma PlaceholderNameCarriesId(n: int)
    ensures var name := Placeholder(Num(n)).nombre;
      var prefix := "Partida ";
      |prefix| <= |name| && name[..|prefix|] == prefix && ParseInt(name[|prefix|..]) == n
  {
    IntToStringRoundTrip(n);
    assert Placeholder(Num(n)).nombre[|"Partida "|..] == IntToString(n);
  }

  class SalaEsperaComponent {
    const apiUrl: string
    const router: Router
    const http: HttpClient

    var partidaId: Number
    var partida: Option<Partida>
    var totalJugadores: int
    var jugadoresActuales: int
    var polling: bool
    var isRedirecting: bool
    var loading: bool

    // the poll subscription, its outstanding request, the other requests, and the pending redirect timer
    var subscribed: bool
    var pollInFlight: bool
    var loadInFlight: bool
    var cancelInFlight: bool
    var redirect: Option<string>

    /**
      A pending redirect and an outstanding cancellation both hold the
      `isRedirecting` flag with polling stopped; a poll request is only ever
      outstanding on a live subscription while polling.
     */
    ghost predicate Valid()
      reads this
    {
      (redirect.Some? ==> isRedirecting && !polling && !cancelInFlight) &&
      (pollInFlight ==> subscribed && polling && !isRedirecting) &&
      (cancelInFlight ==> isRedirecting && !polling && redirect.None?) &&
      (loadInFlight || subscribed ==> !InvalidId(partidaId))
    }

    constructor (apiUrl: string, router: Router, http: HttpClient)
      ensures Valid()
      ensures this.apiUrl == apiUrl && this.router == router && this.http == http
      ensures totalJugadores == 1 && jugadoresActuales == 0
      ensures polling && !isRedirecting && loading && partida.None?
      ensures !subscribed && !pollInFlight && !loadInFlight && !cancelInFlight && redirect.None?
    {
      this.apiUrl := apiUrl;
      this.router := router;
      this.http := http;
      partidaId := NaN;
      partida := None;
      totalJugadores := 1;
      jugadoresActuales := 0;
      polling, isRedirecting, loading := true, false, true;
      subscribed, pollInFlight, loadInFlight, cancelInFlight := false, false, false, false;
      redirect := None;
    }

    /**
      `ngOnInit` with the route's id, then `cargarPartida`: an invalid id
      never reaches the network and sends the user to '/'.
     */
    method NgOnInit(routeId: Number)
      requires Valid() && !loadInFlight && !subscribed
      modifies this`partidaId, this`loadInFlight, http, router
      ensures Valid()
      ensures partidaId == routeId
      ensures InvalidId(routeId) ==>
        http.sent == old(http.sent) && router.navigations == old(router.navigations) + ["/"] &&
        loadInFlight == old(loadInFlight)
      ensures !InvalidId(routeId) ==>
        http.sent == old(http.sent) + [PartidaService.VerificarEstado(apiUrl, routeId).value] &&
        router.navigations == old(router.navigations) && loadInFlight
      ensures polling == old(polling) && isRedirecting == old(isRedirecting) && loading == old(loading)
      ensures subscribed == old(subscribed) && pollInFlight == old(pollInFlight)
      ensures cancelInFlight == old(cancelInFlight) && redirect == old(redirect)
    {
      partidaId := routeId;
      match PartidaService.VerificarEstado(apiUrl, partidaId)
      case Err(_) =>
        router.Navigate("/");
      case Ok(request) =>
        http.Send(request);
        loadInFlight := true;
    }

    /** The `cargarPartida` reply: the top-level player count fills both counters and polling starts. */
    method OnLoadResponse(outcome: Result<VerificarEstadoResponse, JsError>)
      requires Valid() && loadInFlight
      modifies this`loadInFlight, this`partida, this`totalJugadores, this`jugadoresActuales
      modifies this`loading, this`subscribed, this`pollInFlight, router
      ensures Valid()
      ensures !loadInFlight
      ensures outcome.Ok? ==>
        partida == Some(Placeholder(partidaId)) && !loading &&
        totalJugadores == outcome.value.totalJugadores && jugadoresActuales == outcome.value.totalJugadores &&
        subscribed && !pollInFlight && router.navigations == old(router.navigations)
      ensures outcome.Err? ==>
        router.navigations == old(router.navigations) + ["/"] && partida == old(partida) &&
        loading == old(loading) && subscribed == old(subscribed) && pollInFlight == old(pollInFlight)
      ensures polling == old(polling) && isRedirecting == old(isRedirecting)
      ensures cancelInFlight == old(cancelInFlight) && redirect == old(redirect) && partidaId == old(partidaId)
    {
      loadInFlight := false;
      match outcome
      case Ok(response) =>
        partida := Some(Placeholder(partidaId));
        totalJugadores := response.totalJugadores;
        jugadoresActuales := response.totalJugadores;
        loading := false;
        IniciarPolling();
      case Err(_) =>
        router.Navigate("/");
    }

    /** `iniciarPolling`: a fresh interval subscription with nothing outstanding yet. */
    method IniciarPolling()
      requires Valid() && !InvalidId(partidaId)
      modifies this`subscribed, this`pollInFlight
      ensures Valid()
      ensures subscribed && !pollInFlight
    {
      subscribed, pollInFlight := true, false;
    }

    /**
      A tick of the interval: while polling and not redirecting it asks for
      the state again; otherwise `takeWhile` completes the subscription and
      nothing is sent.
     */
    method OnPollTick()
      requires Valid() && subscribed
      modifies this`pollInFlight, this`subscribed, http
      ensures Valid()
      ensures partidaId == old(partidaId) && !InvalidId(partidaId)
      ensures polling && !isRedirecting ==>
        http.sent == old(http.sent) + [PartidaService.VerificarEstado(apiUrl, partidaId).value] &&
        pollInFlight && subscribed
      ensures !(polling && !isRedirecting) ==> http.sent == old(http.sent) && !subscribed && !pollInFlight
      ensures polling == old(polling) && isRedirecting == old(isRedirecting) && redirect == old(redirect)
      ensures jugadoresActuales == old(jugadoresActuales) && cancelInFlight == old(cancelInFlight)
      ensures loadInFlight == old(loadInFlight)
    {
      if polling && !isRedirecting {
        // the id already passed the initial check, so the guard lets it through
        http.Send(PartidaService.VerificarEstado(apiUrl, partidaId).value);
        pollInFlight := true;
      } else {
        subscribed := false;
      }
    }

    /**
      A poll reply updates the player count; once the backend says the match
      can start, polling stops and the delayed redirect is armed. A failed
      poll ends the subscription.
     */
    method OnPollResponse(outcome: Result<VerificarEstadoResponse, JsError>)
      requires Valid() && pollInFlight
      modifies this`pollInFlight, this`jugadoresActuales, this`polling, this`isRedirecting
      modifies this`redirect, this`subscribed
      ensures Valid()
      ensures !pollInFlight
      ensures outcome.Ok? ==> jugadoresActuales == outcome.value.data.totalJugadores && subscribed
      ensures outcome.Ok? && StartsGame(outcome.value.data) ==>
        !polling && isRedirecting && redirect == Some(RedirectTarget(outcome.value.data))
      ensures outcome.Ok? && !StartsGame(outcome.value.data) ==>
        polling && !isRedirecting && redirect.None?
      ensures outcome.Err? ==>
        !subscribed && jugadoresActuales == old(jugadoresActuales) &&
        polling == old(polling) && isRedirecting == old(isRedirecting) && redirect == old(redirect)
      ensures cancelInFlight == old(cancelInFlight) && loadInFlight == old(loadInFlight)
      ensures totalJugadores == old(totalJugadores) && partidaId == old(partidaId)
    {
      pollInFlight := false;
      match outcome
      case Ok(response) =>
        var estado := response.data;
        jugadoresActuales := estado.totalJugadores;
        if StartsGame(estado) {
          polling := false;
          isRedirecting := true;
          redirect := Some(RedirectTarget(estado));
        }
      case Err(_) =>
        subscribed := false;
    }

    /** The redirect timer fires: the router goes to the game and the flag drops. */
    method OnRedirectTimer()
      requires Valid() && redirect.Some?
      modifies this`redirect, this`isRedirecting, router
      ensures Valid()
      ensures router.navigations == old(router.navigations) + [old(redirect).value]
      ensures redirect.None? && !isRedirecting && !polling
      ensures subscribed == old(subscribed) && pollInFlight == old(pollInFlight)
      ensures cancelInFlight == old(cancelInFlight) && jugadoresActuales == old(jugadoresActuales)
    {
      router.Navigate(redirect.value);
      redirect := None;
      isRedirecting := false;
    }

    /**
      `cancelar`: ignored while redirecting (which covers an armed redirect
      and an outstanding cancellation); otherwise polling stops for good and
      the cancellation is requested. A rejected id drops the flag at once.
     */
    method Cancelar()
      requires Valid()
      modifies this`polling, this`isRedirecting, this`redirect, this`subscribed
      modifies this`pollInFlight, this`cancelInFlight, http
      ensures Valid()
      ensures old(isRedirecting) ==>
        http.sent == old(http.sent) && polling == old(polling) && isRedirecting &&
        redirect == old(redirect) && subscribed == old(subscribed) &&
        pollInFlight == old(pollInFlight) && cancelInFlight == old(cancelInFlight)
      ensures !old(isRedirecting) ==> !polling && !subscribed && !pollInFlight && redirect.None?
      ensures !old(isRedirecting) && InvalidId(partidaId) ==>
        http.sent == old(http.sent) && !isRedirecting && !cancelInFlight
      ensures !old(isRedirecting) && !InvalidId(partidaId) ==>
        http.sent == old(http.sent) + [PartidaService.CancelarPartida(apiUrl, partidaId).value] &&
        isRedirecting && cancelInFlight
      ensures jugadoresActuales == old(jugadoresActuales) && loadInFlight == old(loadInFlight)
      ensures partidaId == old(partidaId)
    {
      if isRedirecting {
        return;
      }
      polling := false;
      isRedirecting := true;
      redirect := None;
      subscribed, pollInFlight := false, false;
      match PartidaService.CancelarPartida(apiUrl, partidaId)
      case Err(_) =>
        isRedirecting := false;
      case Ok(request) =>
        http.Send(request);
        cancelInFlight := true;
    }

    /** The cancellation reply: the flag drops either way; only success leaves the room. */
    method OnCancelResponse(succeeded: bool)
      requires Valid() && cancelInFlight
      modifies this`cancelInFlight, this`isRedirecting, router
      ensures Valid()
      ensures !cancelInFlight && !isRedirecting && !polling
      ensures succeeded ==> router.navigations == old(router.navigations) + ["/"]
      ensures !succeeded ==> router.navigations == old(router.navigations)
      ensures subscribed == old(subscribed) && pollInFlight == old(pollInFlight) && redirect == old(redirect)
    {
      cancelInFlight := false;
      isRedirecting := false;
      if succeeded {
        router.Navigate("/");
      }
    }

    /** `ngOnDestroy`: polling stops, the subscription ends and an armed redirect is dropped. */
    method NgOnDestroy()
      requires Valid()
      modifies this`polling, this`subscribed, this`pollInFlight, this`redirect
      ensures Valid()
      ensures !polling && !subscribed && !pollInFlight && redirect.None?
      ensures isRedirecting == old(isRedirecting) && cancelInFlight == old(cancelInFlight)
      ensures loadInFlight == old(loadInFlight) && jugadoresActuales == old(jugadoresActuales)
    {
      polling := false;
      subscribed, pollInFlight := false, false;
      redirect := None;
    }
  }
}
