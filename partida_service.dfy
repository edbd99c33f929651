/**
  The match service: guards on ids and payloads, the URLs it builds, and how
  it unwraps the backend's replies. A guard failure is an error raised before
  any request is made.
 */
module PartidaService {
  import opened Js
  import opened Api

  const InvalidIdMessage := "ID de partida inválido"
  const InvalidPartidaMessage := "Partida inválida"
  const InvalidDataMessage := "Datos de partida inválidos"
  const InvalidResponseMessage := "Respuesta de API inválida"

  function PartidasUrl(apiUrl: string): string {
    apiUrl + "/partidas"
  }

  function IdPath(id: Number): string {
    NumberToString(id)
  }

  /** Every id-addressed call shares this guard: 0 and NaN never reach the network. */
  function Guarded(id: Number, request: Request): (r: Result<Request, JsError>)
    ensures InvalidId(id) <==> r.Err?
    ensures r.Err? ==> r.error == PlainError(InvalidIdMessage)
    ensures r.Ok? ==> r.value == request
  {
    if InvalidId(id) then Err(PlainError(InvalidIdMessage)) else Ok(request)
  }

  function VerificarEstado(apiUrl: string, id: Number): Result<Request, JsError> {
    Guarded(id, Plain(Get, apiUrl + "/verificar-estado/" + IdPath(id), Empty))
  }

  function CancelarPartida(apiUrl: string, id: Number): Result<Request, JsError> {
    Guarded(id, Plain(Delete, PartidasUrl(apiUrl) + "/" + IdPath(id), Empty))
  }

  function ObtenerPartida(apiUrl: string, id: Number): Result<Request, JsError> {
    Guarded(id, Plain(Get, apiUrl + "/partida/" + IdPath(id), Empty))
  }

  function DeletePartida(apiUrl: string, id: Number): Result<Request, JsError> {
    Guarded(id, Plain(Delete, PartidasUrl(apiUrl) + "/" + IdPath(id), Empty))
  }

  /** `!partida || !partida.id || isNaN(partida.id)` rejects the update. */
  function UpdatePartida(apiUrl: string, partida: Option<Partida>): (r: Result<Request, JsError>)
    ensures r.Err? <==> partida.None? || InvalidId(partida.value.id)
    ensures r.Err? ==> r.error == PlainError(InvalidPartidaMessage)
    ensures r.Ok? ==> r.value == Plain(Put, PartidasUrl(apiUrl) + "/" + IdPath(partida.value.id), PartidaBody(partida.value))
  {
    if partida.None? || InvalidId(partida.value.id) then Err(PlainError(InvalidPartidaMessage))
    else Ok(Plain(Put, PartidasUrl(apiUrl) + "/" + IdPath(partida.value.id), PartidaBody(partida.value)))
  }

  /**
    A create payload is rejected when it is missing, when the name or the
    description is empty, or when the colour list is missing; an empty
    colour list is accepted.
   */
  function CreatePartida(apiUrl: string, data: Option<CreatePartidaData>): (r: Result<Request, JsError>)
    ensures r.Err? <==>
      data.None? || data.value.nombre == "" || data.value.descripcion == "" || data.value.coloresDisponibles.None?
    ensures r.Err? ==> r.error == PlainError(InvalidDataMessage)
    ensures r.Ok? ==> r.value == Plain(Post, PartidasUrl(apiUrl), CreateBody(data.value))
  {
    if data.None? || data.value.nombre == "" || data.value.descripcion == "" || data.value.coloresDisponibles.None?
    then Err(PlainError(InvalidDataMessage))
    else Ok(Plain(Post, PartidasUrl(apiUrl), CreateBody(data.value)))
  }

  /** The create reply yields its `partida` only when that has a truthy id. */
  function CreatePartidaResult(outcome: Result<CreatePartidaResponse, JsError>): (r: Result<Partida, JsError>)
    ensures outcome.Err? ==> r == Err(outcome.error)
    ensures outcome.Ok? && outcome.value.partida.Some? && Truthy(outcome.value.partida.value.id) ==>
      r == Ok(outcome.value.partida.value)
    ensures outcome.Ok? && (outcome.value.partida.None? || !Truthy(outcome.value.partida.value.id)) ==>
      r == Err(PlainError(InvalidResponseMessage))
    ensures r.Ok? ==> Truthy(r.value.id)
  {
    match outcome
    case Err(e) => Err(e)
    case Ok(response) =>
      if response.partida.Some? && Truthy(response.partida.value.id) then Ok(response.partida.value)
      else Err(PlainError(InvalidResponseMessage))
  }

  function GetPartidas(apiUrl: string): Request {
    Plain(Get, PartidasUrl(apiUrl), Empty)
  }

  /** The list reply yields its `data` when `success` and `data` are both truthy (an empty list is truthy). */
  function GetPartidasResult(outcome: Result<IndexPartidasResponse, JsError>): (r: Result<seq<PartidaApi>, JsError>)
    ensures outcome.Err? ==> r == Err(outcome.error)
    ensures outcome.Ok? && outcome.value.success && outcome.value.data.Some? ==> r == Ok(outcome.value.data.value)
    ensures outcome.Ok? && !(outcome.value.success && outcome.value.data.Some?) ==>
      r == Err(PlainError(InvalidResponseMessage))
  {
    match outcome
    case Err(e) => Err(e)
    case Ok(response) =>
      if response.success && response.data.Some? then Ok(response.data.value)
      else Err(PlainError(InvalidResponseMessage))
  }

  /** Joining has no guard. */
  function UnirsePartida(apiUrl: string, partida: PartidaApi): Request {
    Plain(Post, apiUrl + "/unirse-partida/" + IdPath(partida.id), PartidaApiBody(partida))
  }

  // ---------------------------------------------------------------------
  // What the URLs look like

  /** For a valid id each guarded call sends exactly one request, to the documented path. */
  lemma GuardedUrls(apiUrl: string, n: int)
    requires n != 0
    ensures VerificarEstado(apiUrl, Num(n)) == Ok(Plain(Get, apiUrl + "/verificar-estado/" + IntToString(n), Empty))
    ensures CancelarPartida(apiUrl, Num(n)) == Ok(Plain(Delete, apiUrl + "/partidas/" + IntToString(n), Empty))
    ensures ObtenerPartida(apiUrl, Num(n)) == Ok(Plain(Get, apiUrl + "/partida/" + IntToString(n), Empty))
    ensures DeletePartida(apiUrl, Num(n)) == Ok(Plain(Delete, apiUrl + "/partidas/" + IntToString(n), Empty))
  {
    assert PartidasUrl(apiUrl) + "/" + IntToString(n) == apiUrl + "/partidas/" + IntToString(n);
  }

  /** Different match ids address different resources. */
  lemma DistinctIdsDistinctUrls(apiUrl: string, a: int, b: int)
    requires a != b && a != 0 && b != 0
    ensures VerificarEstado(apiUrl, Num(a)).value.url != VerificarEstado(apiUrl, Num(b)).value.url
    ensures CancelarPartida(apiUrl, Num(a)).value.url != CancelarPartida(apiUrl, Num(b)).value.url
    ensures ObtenerPartida(apiUrl, Num(a)).value.url != ObtenerPartida(apiUrl, Num(b)).value.url
  {
    PrefixedIdsDistinct(apiUrl + "/verificar-estado/", a, b);
    PrefixedIdsDistinct(PartidasUrl(apiUrl) + "/", a, b);
    PrefixedIdsDistinct(apiUrl + "/partida/", a, b);
  }

  /** The id in a guarded URL reads back as the id that was asked for. */
  lemma UrlCarriesId(apiUrl: string, n: int)
    requires n != 0
    ensures var url := ObtenerPartida(apiUrl, Num(n)).value.url;
      var prefix := apiUrl + "/partida/";
      |prefix| <= |url| && url[..|prefix|] == prefix && ParseInt(url[|prefix|..]) == n
  {
    IntToStringRoundTrip(n);
    var prefix := apiUrl + "/partida/";
    assert (prefix + IntToString(n))[|prefix|..] == IntToString(n);
  }
}
