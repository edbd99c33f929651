/**
  The list of open matches: it loads the list when shown and joins a match
  on request, going to the game screen only when the join reply names a
  match with a usable id.
 */
module PartidasIndex {
  import opened Js
  import opened Api
  import opened Platform
  import PartidaService

  /** `response && response.success && response.data && response.data.partida && response.data.partida.id`. */
  predicate JoinAccepted(response: Option<UnirsePartidaResponse>) {
    response.Some? && response.value.success && response.value.data.Some? &&
    response.value.data.value.partida.Some? && Truthy(response.value.data.value.partida.value.id)
  }

  /** Where an accepted join goes: `['/app/juego', id]` with the id of the reply's match. */
  function JoinTarget(response: Option<UnirsePartidaResponse>): (url: string)
    requires JoinAccepted(response)
    ensures url == "/app/juego/" + NumberToString(response.value.data.value.partida.value.id)
  {
    "/app/juego/" + NumberToString(response.value.data.value.partida.value.id)
  }

  /** The game screen's path carries the joined id, read back exactly. */
  lemma JoinTargetCarriesId(response: Option<UnirsePartidaResponse>)
    requires JoinAccepted(response)
    ensures var url := JoinTarget(response);
      var prefix := "/app/juego/";
      url[..|prefix|] == prefix &&
      ParseInt(url[|prefix|..]) == response.value.data.value.partida.value.id.n
  {
    var id := response.value.data.value.partida.value.id;
    IntToStringRoundTrip(id.n);
    assert JoinTarget(response)[|"/app/juego/"|..] == IntToString(id.n);
  }

  class PartidasIndexComponent {
    const apiUrl: string
    const router: Router
    const http: HttpClient
    var partidas: seq<PartidaApi>
    var loading: bool
    var listsInFlight: nat
    var joinsInFlight: nat

    constructor (apiUrl: string, router: Router, http: HttpClient)
      ensures this.apiUrl == apiUrl && this.router == router && this.http == http
      ensures partidas == [] && !loading && listsInFlight == 0 && joinsInFlight == 0
    {
      this.apiUrl := apiUrl;
      this.router := router;
      this.http := http;
      partidas := [];
      loading := false;
      listsInFlight := 0;
      joinsInFlight := 0;
    }

    /** `getPartidas`, run from `ngOnInit`: the loading flag rises and the list is requested. */
    method GetPartidas()
      modifies this`loading, this`listsInFlight, http
      ensures loading && listsInFlight == old(listsInFlight) + 1
      ensures http.sent == old(http.sent) + [PartidaService.GetPartidas(apiUrl)]
      ensures partidas == old(partidas) && joinsInFlight == old(joinsInFlight)
    {
      loading := true;
      http.Send(PartidaService.GetPartidas(apiUrl));
      listsInFlight := listsInFlight + 1;
    }

    /** The list reply, as the service unwraps it: success replaces the list, failure keeps it. */
    method OnPartidasResponse(outcome: Result<IndexPartidasResponse, JsError>)
      requires listsInFlight > 0
      modifies this`listsInFlight, this`partidas, this`loading
      ensures !loading && listsInFlight == old(listsInFlight) - 1
      ensures PartidaService.GetPartidasResult(outcome).Ok? ==>
        partidas == PartidaService.GetPartidasResult(outcome).value
      ensures PartidaService.GetPartidasResult(outcome).Err? ==> partidas == old(partidas)
      ensures joinsInFlight == old(joinsInFlight)
    {
      listsInFlight := listsInFlight - 1;
      match PartidaService.GetPartidasResult(outcome)
      case Ok(list) =>
        partidas := list;
        loading := false;
      case Err(_) =>
        loading := false;
    }

    /** `unirsePartida`: the join request for the chosen match. */
    method UnirsePartida(partida: PartidaApi)
      modifies this`joinsInFlight, http
      ensures http.sent == old(http.sent) + [PartidaService.UnirsePartida(apiUrl, partida)]
      ensures joinsInFlight == old(joinsInFlight) + 1
      ensures partidas == old(partidas) && loading == old(loading) && listsInFlight == old(listsInFlight)
    {
      http.Send(PartidaService.UnirsePartida(apiUrl, partida));
      joinsInFlight := joinsInFlight + 1;
    }

    /** The join reply: only an accepted one navigates, to the id the reply carries. */
    method OnJoinResponse(outcome: Result<Option<UnirsePartidaResponse>, JsError>)
      requires joinsInFlight > 0
      modifies this`joinsInFlight, router
      ensures joinsInFlight == old(joinsInFlight) - 1
      ensures outcome.Ok? && JoinAccepted(outcome.value) ==>
        router.navigations == old(router.navigations) + [JoinTarget(outcome.value)]
      ensures !(outcome.Ok? && JoinAccepted(outcome.value)) ==> router.navigations == old(router.navigations)
      ensures partidas == old(partidas) && loading == old(loading) && listsInFlight == old(listsInFlight)
    {
      joinsInFlight := joinsInFlight - 1;
      if outcome.Ok? && JoinAccepted(outcome.value) {
        router.Navigate(JoinTarget(outcome.value));
      }
    }
  }
}
