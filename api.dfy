/**
  The JSON shapes the client exchanges with the game backend, and the
  requests it sends. Absent or `null` string fields are written "" where
  the client only tests them for truthiness.
 */
module Api {
  import opened Js

  type Color = string

  // ---------------------------------------------------------------------
  // Matches

  /** The `Partida` record the service returns from creation and update. */
  datatype Partida = Partida(id: Number, nombre: string, descripcion: string)

  datatype Usuario = Usuario(id: int, fullName: string, email: string)

  /** The `PartidaAPi` record of the match list and of the join response. */
  datatype PartidaApi = PartidaApi(
    id: Number, nombre: string, descripcion: string, estado: string,
    ganadorId: Option<int>, createdAt: string, updatedAt: string, jugador1: Usuario)

  /** The payload of a create-match request. */
  datatype CreatePartidaData = CreatePartidaData(
    nombre: string, descripcion: string, coloresDisponibles: Option<seq<Color>>)

  /** `{ message, partida }` returned by the create-match endpoint. */
  datatype CreatePartidaResponse = CreatePartidaResponse(message: string, partida: Option<Partida>)

  /** `{ success, data }` returned by the match-list endpoint. */
  datatype IndexPartidasResponse = IndexPartidasResponse(success: bool, data: Option<seq<PartidaApi>>)

  datatype UnirsePartidaData = UnirsePartidaData(
    partida: Option<PartidaApi>, jugadorNumero: int, totalJugadores: int)

  /** `{ success, message, data }` returned by the join endpoint. */
  datatype UnirsePartidaResponse = UnirsePartidaResponse(
    success: bool, message: string, data: Option<UnirsePartidaData>)

  // ---------------------------------------------------------------------
  // Waiting room

  /** The waiting-room state under `data`. */
  datatype EstadoPartida = EstadoPartida(
    estado: string, totalJugadores: int, puedeIniciar: bool,
    debeRedirigir: bool, urlRedireccion: string)

  /**
    The verify-state response. The initial load reads the top-level
    `totalJugadores`, the poll handler reads `data`.
   */
  datatype VerificarEstadoResponse = VerificarEstadoResponse(totalJugadores: int, data: EstadoPartida)

  // ---------------------------------------------------------------------
  // Game snapshot

  datatype Jugador = Jugador(id: int, fullName: string, email: string)

  /** The round under `juego`; `secuencia` may be absent. */
  datatype Juego = Juego(
    secuencia: Option<seq<Color>>, ultimoColor: Option<Color>,
    mostrarUltimoColor: bool, nivelActual: int)

  /** The turn status under `estado`. */
  datatype EstadoTurno = EstadoTurno(
    esMiTurno: bool, juegoTerminado: bool, ganador: Option<int>, mensaje: string)

  datatype Snapshot = Snapshot(
    partida: PartidaApi, jugadorActual: Jugador, oponente: Option<Jugador>,
    juego: Juego, estado: EstadoTurno, resultadoFinal: Option<string>)

  /** `{ success, data }` returned by the game-state endpoint. */
  datatype PartidaEstadoResponse = PartidaEstadoResponse(success: bool, data: Snapshot)

  // ---------------------------------------------------------------------
  // Authentication

  datatype User = User(id: int, fullName: string, email: string, password: string)

  datatype LoginResponse = LoginResponse(message: string, token: string, user: User)

  datatype Credentials = Credentials(email: string, password: string)

  datatype RegisterData = RegisterData(fullName: string, email: string, password: string)

  datatype ValidationError = ValidationError(field: string, message: string)

  /** What the authentication service hands to its callers on failure. */
  datatype ApiErrorResponse = ApiErrorResponse(message: string, errors: seq<ValidationError>)

  // ---------------------------------------------------------------------
  // Errors as the callers see them

  /** The `error` member of an HTTP failure. */
  datatype ErrorBody =
    | NoBody                                             // null or undefined
    | TextBody(text: string)                             // a string body
    | JsonBody(message: string, errors: seq<ValidationError>)  // an object body
    | EventBody(eventMessage: string)                    // a client-side ErrorEvent

  /**
    An error delivered to an `error:` callback: an `HttpErrorResponse`, or a
    plain `Error` thrown by a service guard (status 0, no body).
   */
  datatype JsError = JsError(status: int, error: ErrorBody, message: string)

  function PlainError(message: string): (e: JsError)
    ensures e.error.NoBody? && e.status == 0 && e.message == message
  {
    JsError(0, NoBody, message)
  }

  // ---------------------------------------------------------------------
  // Requests

  datatype Verb = Get | Post | Put | Delete

  datatype Body =
    | Empty
    | CreateBody(create: CreatePartidaData)
    | PartidaBody(partida: Partida)
    | PartidaApiBody(partidaApi: PartidaApi)
    | CredentialsBody(credentials: Credentials)
    | RegisterBody(register: RegisterData)

  datatype Request = Request(verb: Verb, url: string, headers: map<string, string>, body: Body)

  function Plain(verb: Verb, url: string, body: Body): (r: Request)
    ensures r.verb == verb && r.url == url && r.body == body && r.headers == map[]
  {
    Request(verb, url, map[], body)
  }
}
