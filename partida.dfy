/**
  The game screen's turn engine. The server is polled for snapshots that
  replace the local round and turn status wholesale; the local player's
  colour taps are accumulated and checked element by element against the
  round's sequence. A wrong tap clears the selection; a complete correct
  sequence clears it and re-fetches the game state once.
 */
module Partida {
  import opened Js
  import opened Api
  import opened Platform

  const WrongMessage := "¡Secuencia incorrecta!"
  const CorrectMessage := "¡Correcto! Espera tu siguiente turno"
  const LoadErrorMessage := "Error al cargar la partida"

  datatype TapOutcome =
    | Ignored     // not my turn, or the game is over
    | Incorrect   // the extended selection is not a prefix of the sequence
    | Partial     // a correct prefix, still short of the sequence
    | Completed   // the whole sequence, entered correctly
    | Threw       // the round carries no sequence: indexing it throws after the push

  datatype TapStep = TapStep(outcome: TapOutcome, selection: seq<Color>)

  /** The sequence to reproduce, if the current round has one. */
  function TargetOf(juego: Option<Juego>): Option<seq<Color>> {
    if juego.Some? then juego.value.secuencia else None
  }

  /**
    One colour tap: `enabled` is `esMiTurno && !juegoTerminado`. Colours are
    compared exactly, with no case folding.
   */
  function Tap(enabled: bool, target: Option<seq<Color>>, selection: seq<Color>, color: Color): (s: TapStep)
    ensures !enabled ==> s == TapStep(Ignored, selection)
    ensures enabled && target.None? ==> s == TapStep(Threw, selection + [color])
    ensures enabled && target.Some? ==> s.selection <= target.value
    ensures enabled && target.Some? ==> s.selection == [] || |s.selection| < |target.value|
    ensures s.outcome == Incorrect <==> enabled && target.Some? && !(selection + [color] <= target.value)
    ensures s.outcome == Completed <==> enabled && target.Some? && selection + [color] == target.value
    ensures enabled && target.Some? && selection + [color] < target.value ==>
      s == TapStep(Partial, selection + [color])
    ensures s.outcome == Partial ==> s.selection == selection + [color]
    ensures s.outcome == Incorrect || s.outcome == Completed ==> s.selection == []
  {
    if !enabled then TapStep(Ignored, selection)
    else if target.None? then TapStep(Threw, selection + [color])
    else
      var extended := selection + [color];
      if !(extended <= target.value) then TapStep(Incorrect, [])
      else if |extended| == |target.value| then TapStep(Completed, [])
      else TapStep(Partial, extended)
  }

  /** The `every` check: each selected colour equals the sequence's colour at its index. */
  method SecuenciaCoincide(selection: seq<Color>, target: seq<Color>) returns (ok: bool)
    ensures ok <==> selection <= target
  {
    var i := 0;
    while i < |selection|
      invariant 0 <= i <= |selection|
      invariant i <= |target|
      invariant forall j :: 0 <= j < i ==> selection[j] == target[j]
    {
      if i >= |target| || selection[i] != target[i] {
        return false;
      }
      i := i + 1;
    }
    assert selection == target[..|selection|];
    return true;
  }

  // ---------------------------------------------------------------------
  // Several taps against one round

  datatype Run = Run(selection: seq<Color>, fetches: nat)

  /** Taps, all while it is my turn, against a sequence that does not change. */
  function RunTaps(target: seq<Color>, selection: seq<Color>, taps: seq<Color>): Run
    decreases |taps|
  {
    if taps == [] then Run(selection, 0)
    else
      var step := Tap(true, Some(target), selection, taps[0]);
      var rest := RunTaps(target, step.selection, taps[1..]);
      Run(rest.selection, rest.fetches + if step.outcome == Completed then 1 else 0)
  }

  /** Entering the rest of the sequence after a correct prefix re-fetches once and leaves nothing selected. */
  lemma {:induction false} FinishSequence(target: seq<Color>, k: nat)
    requires k < |target|
    ensures RunTaps(target, target[..k], target[k..]) == Run([], 1)
    decreases |target| - k
  {
    var step := Tap(true, Some(target), target[..k], target[k]);
    assert target[..k] + [target[k]] == target[..k + 1];
    if k + 1 < |target| {
      FinishSequence(target, k + 1);
      assert target[k..][1..] == target[k + 1..];
    } else {
      assert target[..k + 1] == target;
      assert target[k..][1..] == [];
    }
  }

  /** Tapping the whole sequence from an empty selection triggers exactly one re-fetch. */
  lemma EnterWholeSequence(target: seq<Color>)
    requires |target| > 0
    ensures RunTaps(target, [], target) == Run([], 1)
  {
    FinishSequence(target, 0);
    assert target[..0] == [] && target[0..] == target;
  }

  /** Whatever the taps, the selection stays a prefix that never reaches the full sequence. */
  lemma {:induction false} RunKeepsPrefix(target: seq<Color>, selection: seq<Color>, taps: seq<Color>)
    requires selection <= target
    requires selection == [] || |selection| < |target|
    ensures RunTaps(target, selection, taps).selection <= target
    ensures RunTaps(target, selection, taps).selection == [] || |RunTaps(target, selection, taps).selection| < |target|
    decreases |taps|
  {
    if taps != [] {
      var step := Tap(true, Some(target), selection, taps[0]);
      RunKeepsPrefix(target, step.selection, taps[1..]);
    }
  }

  /**
    Each re-fetch costs a full sequence of taps: a run that starts from a
    valid selection re-fetches at most (|selection| + |taps|) / |target| times.
   */
  lemma {:induction false} FetchesNeedWholeSequences(target: seq<Color>, selection: seq<Color>, taps: seq<Color>)
    requires selection <= target
    requires selection == [] || |selection| < |target|
    ensures var run := RunTaps(target, selection, taps);
      |target| * run.fetches + |run.selection| <= |selection| + |taps|
    decreases |taps|
  {
    if taps != [] {
      var step := Tap(true, Some(target), selection, taps[0]);
      FetchesNeedWholeSequences(target, step.selection, taps[1..]);
      if step.outcome == Completed {
        assert |selection| + 1 == |target|;
      }
    }
  }

  /**
    The component has no lock between a completed sequence and the next
    snapshot: tapping a one-colour sequence twice re-fetches twice.
   */
  lemma DoubleTapRefetchesTwice(c: Color)
    ensures RunTaps([c], [], [c, c]) == Run([], 2)
  {
    EnterWholeSequence([c]);
    assert [c, c][0] == c && [c, c][1..] == [c];
    assert Tap(true, Some([c]), [], c) == TapStep(Completed, []);
  }

  // ---------------------------------------------------------------------
  // The component

  /** The fields `procesarDatos` writes, taken together. */
  datatype View = View(
    partida: Option<PartidaApi>, jugadorActual: Option<Jugador>, oponente: Option<Jugador>,
    juego: Option<Juego>, estado: Option<EstadoTurno>, resultadoFinal: Option<string>,
    ultimoColor: Option<Color>, esMiTurno: bool, juegoTerminado: bool,
    ganador: Option<int>, mensaje: string)

  /** The view a snapshot installs: each field read from its place in the reply. */
  function ViewOf(data: Snapshot): View {
    View(Some(data.partida), Some(data.jugadorActual), data.oponente,
         Some(data.juego), Some(data.estado), data.resultadoFinal,
         data.juego.ultimoColor, data.estado.esMiTurno, data.estado.juegoTerminado,
         data.estado.ganador, data.estado.mensaje)
  }

  class PartidaComponent {
    const apiUrl: string
    const partidaId: string
    const router: Router
    const http: HttpClient

    // the snapshot, copied field by field
    var partida: Option<PartidaApi>
    var jugadorActual: Option<Jugador>
    var oponente: Option<Jugador>
    var juego: Option<Juego>
    var estado: Option<EstadoTurno>
    var resultadoFinal: Option<string>
    var ultimoColor: Option<Color>
    var esMiTurno: bool
    var juegoTerminado: bool
    var ganador: Option<int>
    var mensaje: string

    // local state
    var coloresSeleccionados: seq<Color>
    var cargando: bool

    // outstanding work: the initial load, re-fetches, the poll subscription and its request
    var loadInFlight: bool
    var refetchesInFlight: nat
    var polling: bool
    var pollInFlight: bool

    /** The turn flags always mirror the last snapshot, and a poll request belongs to a live subscription. */
    ghost predicate Valid()
      reads this
    {
      (pollInFlight ==> polling) &&
      (estado.Some? <==> juego.Some?) &&
      (estado.Some? ==>
        esMiTurno == estado.value.esMiTurno &&
        juegoTerminado == estado.value.juegoTerminado &&
        ganador == estado.value.ganador &&
        ultimoColor == juego.value.ultimoColor) &&
      (estado.None? ==> !esMiTurno && !juegoTerminado && ganador.None? && ultimoColor.None?)
    }

    ghost function Displayed(): View
      reads this
    {
      View(partida, jugadorActual, oponente, juego, estado, resultadoFinal,
           ultimoColor, esMiTurno, juegoTerminado, ganador, mensaje)
    }

    /** Every field `procesarDatos` writes holds the snapshot's value. */
    ghost predicate Shows(data: Snapshot)
      reads this
    {
      Displayed() == ViewOf(data)
    }

    function EstadoUrl(): string
      reads this
    {
      apiUrl + "/partida/" + partidaId
    }

    function FetchRequest(): (r: Request)
      reads this
      ensures r.verb == Get && r.url == EstadoUrl()
    {
      Plain(Get, EstadoUrl(), Empty)
    }

    constructor (apiUrl: string, partidaId: string, router: Router, http: HttpClient)
      ensures Valid()
      ensures this.apiUrl == apiUrl && this.partidaId == partidaId && this.router == router && this.http == http
      ensures Displayed() == View(None, None, None, None, None, None, None, false, false, None, "")
      ensures coloresSeleccionados == [] && !cargando
      ensures !loadInFlight && refetchesInFlight == 0 && !polling && !pollInFlight
    {
      this.apiUrl := apiUrl;
      this.partidaId := partidaId;
      this.router := router;
      this.http := http;
      partida, jugadorActual, oponente, juego, estado := None, None, None, None, None;
      resultadoFinal, ultimoColor, ganador := None, None, None;
      esMiTurno, juegoTerminado := false, false;
      mensaje := "";
      coloresSeleccionados := [];
      cargando := false;
      loadInFlight, refetchesInFlight, polling, pollInFlight := false, 0, false, false;
    }

    /** `cargarEstadoInicial`, run from `ngOnInit`: one fetch of the state, nothing else. */
    method CargarEstadoInicial()
      modifies this`cargando, this`loadInFlight, http
      ensures cargando && loadInFlight
      ensures http.sent == old(http.sent) + [FetchRequest()]
    {
      cargando := true;
      http.Send(FetchRequest());
      loadInFlight := true;
    }

    /** `procesarDatos`: every snapshot field is overwritten; the selection is left alone. */
    method ProcesarDatos(data: Snapshot)
      requires Valid()
      modifies this`partida, this`jugadorActual, this`oponente, this`resultadoFinal
      modifies this`juego, this`estado, this`ultimoColor, this`ganador
      modifies this`esMiTurno, this`juegoTerminado, this`mensaje
      ensures Valid()
      ensures Shows(data)
    {
      partida, jugadorActual, oponente := Some(data.partida), Some(data.jugadorActual), data.oponente;
      resultadoFinal := data.resultadoFinal;
      CopiarTurno(data.juego, data.estado);
    }

    /** The round and turn half of `procesarDatos`. */
    method CopiarTurno(j: Juego, e: EstadoTurno)
      requires pollInFlight ==> polling
      modifies this`juego, this`estado, this`ultimoColor, this`ganador
      modifies this`esMiTurno, this`juegoTerminado, this`mensaje
      ensures Valid()
      ensures juego == Some(j) && estado == Some(e) && ultimoColor == j.ultimoColor
      ensures esMiTurno == e.esMiTurno && juegoTerminado == e.juegoTerminado
      ensures ganador == e.ganador && mensaje == e.mensaje
    {
      juego, estado, ultimoColor, ganador := Some(j), Some(e), j.ultimoColor, e.ganador;
      esMiTurno, juegoTerminado, mensaje := e.esMiTurno, e.juegoTerminado, e.mensaje;
    }

    /**
      The initial load: a successful reply is applied and starts polling; an
      unsuccessful one changes nothing but `cargando`; a failure shows the
      load error and never polls.
     */
    method OnInitialLoadResponse(outcome: Result<PartidaEstadoResponse, JsError>)
      requires Valid() && loadInFlight
      modifies this`partida, this`jugadorActual, this`oponente, this`resultadoFinal
      modifies this`juego, this`estado, this`ultimoColor, this`ganador
      modifies this`esMiTurno, this`juegoTerminado, this`mensaje
      modifies this`cargando, this`loadInFlight, this`polling, this`pollInFlight
      ensures Valid()
      ensures !cargando && !loadInFlight
      ensures outcome.Ok? && outcome.value.success ==> Shows(outcome.value.data) && polling && !pollInFlight
      ensures outcome.Ok? && !outcome.value.success ==>
        Displayed() == old(Displayed()) && polling == old(polling) && pollInFlight == old(pollInFlight)
      ensures outcome.Err? ==>
        Displayed() == old(Displayed()).(mensaje := LoadErrorMessage) &&
        polling == old(polling) && pollInFlight == old(pollInFlight)
    {
      loadInFlight := false;
      match outcome
      case Ok(resp) =>
        if resp.success {
          ProcesarDatos(resp.data);
          IniciarPolling();
        }
        cargando := false;
      case Err(_) =>
        mensaje := LoadErrorMessage;
        cargando := false;
    }

    /** `seleccionarColor`. */
    method SeleccionarColor(color: Color) returns (outcome: TapOutcome)
      requires Valid()
      modifies this`coloresSeleccionados, this`mensaje, this`refetchesInFlight, http
      ensures Valid()
      ensures var step := Tap(esMiTurno && !juegoTerminado, TargetOf(juego), old(coloresSeleccionados), color);
        outcome == step.outcome && coloresSeleccionados == step.selection
      ensures outcome == Incorrect ==> mensaje == WrongMessage
      ensures outcome == Completed ==> mensaje == CorrectMessage
      ensures outcome == Completed ==>
        http.sent == old(http.sent) + [FetchRequest()] && refetchesInFlight == old(refetchesInFlight) + 1
      ensures outcome != Completed ==>
        http.sent == old(http.sent) && refetchesInFlight == old(refetchesInFlight)
      ensures outcome == Ignored || outcome == Partial || outcome == Threw ==> mensaje == old(mensaje)
    {
      if !esMiTurno || juegoTerminado {
        return Ignored;
      }
      coloresSeleccionados := coloresSeleccionados + [color];
      var target := TargetOf(juego);
      if target.None? {
        return Threw;
      }
      var esCorrecto := SecuenciaCoincide(coloresSeleccionados, target.value);
      if !esCorrecto {
        mensaje := WrongMessage;
        coloresSeleccionados := [];
        outcome := Incorrect;
      } else if |coloresSeleccionados| == |target.value| {
        mensaje := CorrectMessage;
        coloresSeleccionados := [];
        ActualizarJuego();
        outcome := Completed;
      } else {
        outcome := Partial;
      }
    }

    /** `actualizarJuego`: one more state fetch. */
    method ActualizarJuego()
      modifies this`refetchesInFlight, http
      ensures http.sent == old(http.sent) + [FetchRequest()]
      ensures refetchesInFlight == old(refetchesInFlight) + 1
    {
      http.Send(FetchRequest());
      refetchesInFlight := refetchesInFlight + 1;
    }

    /** A re-fetch reply is applied only when it reports success; a failure has no handler. */
    method OnRefetchResponse(outcome: Result<PartidaEstadoResponse, JsError>)
      requires Valid() && refetchesInFlight > 0
      modifies this`partida, this`jugadorActual, this`oponente, this`resultadoFinal
      modifies this`juego, this`estado, this`ultimoColor, this`ganador
      modifies this`esMiTurno, this`juegoTerminado, this`mensaje
      modifies this`refetchesInFlight
      ensures Valid()
      ensures refetchesInFlight == old(refetchesInFlight) - 1
      ensures outcome.Ok? && outcome.value.success ==> Shows(outcome.value.data)
      ensures !(outcome.Ok? && outcome.value.success) ==> Displayed() == old(Displayed())
    {
      refetchesInFlight := refetchesInFlight - 1;
      if outcome.Ok? && outcome.value.success {
        ProcesarDatos(outcome.value.data);
      }
    }

    /** `iniciarPolling`: a fresh interval subscription. */
    method IniciarPolling()
      modifies this`polling, this`pollInFlight
      ensures polling && !pollInFlight
    {
      polling := true;
      pollInFlight := false;
    }

    /**
      A tick of the 3-second interval: it fetches unless the game is over; a
      tick after the end switches to no request and drops any outstanding one.
     */
    method OnPollTick()
      requires Valid() && polling
      modifies this`pollInFlight, http
      ensures Valid()
      ensures !juegoTerminado ==> http.sent == old(http.sent) + [FetchRequest()] && pollInFlight
      ensures juegoTerminado ==> http.sent == old(http.sent) && !pollInFlight
    {
      if !juegoTerminado {
        http.Send(FetchRequest());
        pollInFlight := true;
      } else {
        pollInFlight := false;
      }
    }

    /**
      A poll reply is applied when it reports success. A failed poll request
      reaches the `catchError` of the whole pipe, which ends the subscription.
     */
    method OnPollResponse(outcome: Result<PartidaEstadoResponse, JsError>)
      requires Valid() && pollInFlight
      modifies this`partida, this`jugadorActual, this`oponente, this`resultadoFinal
      modifies this`juego, this`estado, this`ultimoColor, this`ganador
      modifies this`esMiTurno, this`juegoTerminado, this`mensaje
      modifies this`polling, this`pollInFlight
      ensures Valid()
      ensures !pollInFlight
      ensures outcome.Ok? && outcome.value.success ==> Shows(outcome.value.data) && polling
      ensures outcome.Ok? && !outcome.value.success ==> Displayed() == old(Displayed()) && polling
      ensures outcome.Err? ==> Displayed() == old(Displayed()) && !polling
    {
      pollInFlight := false;
      match outcome
      case Ok(resp) =>
        if resp.success {
          ProcesarDatos(resp.data);
        }
      case Err(_) =>
        polling := false;
    }

    /** `ngOnDestroy`: the poll subscription ends; loads and re-fetches already sent are not cancelled. */
    method NgOnDestroy()
      modifies this`polling, this`pollInFlight
      ensures !polling && !pollInFlight
    {
      polling := false;
      pollInFlight := false;
    }

    method Volver()
      modifies router
      ensures router.navigations == old(router.navigations) + ["/partidas"]
    {
      router.Navigate("/partidas");
    }
  }

  /**
    Whatever the poll has done to the round in between, an accepted tap
    leaves a selection that is a prefix of the round's current sequence and
    shorter than it (or empty).
   */
  lemma AcceptedTapKeepsPrefix(juego: Option<Juego>, selection: seq<Color>, color: Color)
    requires TargetOf(juego).Some?
    ensures var step := Tap(true, TargetOf(juego), selection, color);
      var target := TargetOf(juego).value;
      step.selection <= target && (step.selection == [] || |step.selection| < |target|)
  {
  }
}
