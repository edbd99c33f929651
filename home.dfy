/**
  The create-match dialog: a form with a name, a description, a colour
  count between 2 and 10 and one colour field per counted colour. A valid
  submission sends the lower-cased colours to the match service and, on a
  usable reply, goes to the waiting room.
 */
module Home {
  import opened Js
  import opened Api
  import opened Platform
  import PartidaService

  const DefaultColor := "#ffffff"
  const NoIdMessage := "Error: La partida se creó pero no tiene un ID válido."
  const CreateFailedMessage := "Error al crear la partida. Por favor, inténtalo de nuevo."

  /**
    The form's values. A control that was reset holds `null`; for the color
    fields that is written "", which `Validators.required` treats alike.
   */
  datatype Form = Form(
    nombre: string, descripcion: string, cantidadColores: Option<int>,
    colores: seq<Color>, touched: bool)

  /**
    The validators: required + minLength(3), required + minLength(5),
    required + min(2) + max(10), and required on each colour. The minimum
    lengths compare `value.length`, which counts UTF-16 code units.
   */
  predicate FormValid(f: Form) {
    Utf16Length(f.nombre) >= 3 && Utf16Length(f.descripcion) >= 5 &&
    f.cantidadColores.Some? && 2 <= f.cantidadColores.value <= 10 &&
    forall i :: 0 <= i < |f.colores| ==> f.colores[i] != ""
  }

  /** `cantidadColores.value || 0`. */
  function CantidadOf(f: Form): (c: int)
    ensures f.cantidadColores.None? ==> c == 0
    ensures f.cantidadColores.Some? ==> c == f.cantidadColores.value
  {
    if f.cantidadColores.Some? then f.cantidadColores.value else 0
  }

  /** `form.reset()`: every control back to `null`, nothing touched; the colour array keeps its length. */
  function Reset(f: Form): (r: Form)
    ensures r.nombre == "" && r.descripcion == "" && r.cantidadColores.None? && !r.touched
    ensures |r.colores| == |f.colores| && forall i :: 0 <= i < |r.colores| ==> r.colores[i] == ""
    ensures !FormValid(r)
  {
    Form("", "", None, seq(|f.colores|, _ => ""), false)
  }

  // ---------------------------------------------------------------------
  // Resizing the colour array

  /**
    The colour array resized to the count: grown by default colours at the
    end, or cut back to a prefix; a count of zero or less leaves it empty.
   */
  function Resized(colores: seq<Color>, cantidad: int): (r: seq<Color>)
    ensures |r| == if cantidad > 0 then cantidad else 0
    ensures |colores| <= |r| ==> r[..|colores|] == colores
    ensures forall i :: |colores| <= i < |r| ==> r[i] == DefaultColor
    ensures |r| <= |colores| ==> r == colores[..|r|]
  {
    var bound := if cantidad > 0 then cantidad else 0;
    if |colores| < bound then colores + seq(bound - |colores|, _ => DefaultColor)
    else colores[..bound]
  }

  /** Resizing twice to the same count is resizing once. */
  lemma ResizedIdempotent(colores: seq<Color>, cantidad: int)
    ensures Resized(Resized(colores, cantidad), cantidad) == Resized(colores, cantidad)
  {
    var r := Resized(colores, cantidad);
    assert r[..|r|] == r;
  }

  /** Colours already entered survive a resize in place, up to the new count. */
  lemma ResizeKeepsEntered(colores: seq<Color>, cantidad: int, i: int)
    requires 0 <= i < |colores| && i < cantidad
    ensures Resized(colores, cantidad)[i] == colores[i]
  {
    var r := Resized(colores, cantidad);
    if |colores| <= |r| {
      assert r[..|colores|][i] == r[i];
    } else {
      assert colores[..|r|][i] == colores[i];
    }
  }

  /** `removeAt(length - 1)`: on an empty array the index is -1 and nothing is removed. */
  function RemoveLast(colores: seq<Color>): (r: seq<Color>)
    ensures |colores| > 0 ==> r == colores[..|colores| - 1]
    ensures |colores| == 0 ==> r == []
  {
    if |colores| == 0 then colores else colores[..|colores| - 1]
  }

  /** The array after `k` passes of the shrinking loop's body. */
  function RemoveLastTimes(colores: seq<Color>, k: nat): seq<Color>
    decreases k
  {
    if k == 0 then colores else RemoveLast(RemoveLastTimes(colores, k - 1))
  }

  lemma {:induction false} RemoveLastTimesIsPrefix(colores: seq<Color>, k: nat)
    ensures RemoveLastTimes(colores, k) == colores[..if k <= |colores| then |colores| - k else 0]
    decreases k
  {
    if k > 0 {
      RemoveLastTimesIsPrefix(colores, k - 1);
      var prev := RemoveLastTimes(colores, k - 1);
      if |prev| > 0 {
        assert colores[..|colores| - (k - 1)][..|colores| - k] == colores[..|colores| - k];
      }
    }
  }

  /**
    The shrinking loop as written, `while (colores.length > cantidad)`, with a
    negative count: after any number of passes the array is empty or shorter
    and the loop condition still holds, so the loop never ends.
   */
  lemma ShrinkNeverEnds(colores: seq<Color>, cantidad: int, k: nat)
    requires cantidad < 0
    ensures k >= |colores| ==> RemoveLastTimes(colores, k) == []
    ensures |RemoveLastTimes(colores, k)| > cantidad
  {
    RemoveLastTimesIsPrefix(colores, k);
  }

  // ---------------------------------------------------------------------
  // What is submitted

  /** `colores.map(c => c.toLowerCase())`. */
  function LowerColours(colores: seq<Color>): (r: seq<Color>)
    ensures |r| == |colores|
    ensures forall i :: 0 <= i < |r| ==> r[i] == ToLowerCase(colores[i])
  {
    seq(|colores|, i requires 0 <= i < |colores| => ToLowerCase(colores[i]))
  }

  /** The payload built from the form. */
  function SubmitData(f: Form): (d: CreatePartidaData)
    ensures d.nombre == f.nombre && d.descripcion == f.descripcion
    ensures d.coloresDisponibles == Some(LowerColours(f.colores))
  {
    CreatePartidaData(f.nombre, f.descripcion, Some(LowerColours(f.colores)))
  }

  /** Two characters outside the Basic Multilingual Plane already meet the name's minimum of 3. */
  lemma TwoAstralCharactersMakeAName(c: char, d: char, descripcion: string)
    requires IsAstral(c) && IsAstral(d) && |descripcion| >= 5
    ensures FormValid(Form([c, d], descripcion, Some(2), [DefaultColor, DefaultColor], false))
  {
  }

  /** A form that passes its validators always passes the service's payload guard. */
  lemma ValidFormPassesGuard(apiUrl: string, f: Form)
    requires FormValid(f)
    ensures PartidaService.CreatePartida(apiUrl, Some(SubmitData(f))).Ok?
  {
  }

  /** The component's check on the returned match: `partida && partida.id && !isNaN(partida.id)`. */
  predicate UsableId(p: Partida) {
    Truthy(p.id) && !p.id.NaN?
  }

  /** Whatever the service yields has a usable id, so the no-id message never shows after it. */
  lemma ServiceYieldsUsableIds(outcome: Result<CreatePartidaResponse, JsError>)
    requires PartidaService.CreatePartidaResult(outcome).Ok?
    ensures UsableId(PartidaService.CreatePartidaResult(outcome).value)
  {
  }

  /** The error text: the body's message, else the error's message, else the default. */
  function CreateErrorMessage(e: JsError): (m: string)
    ensures m != ""
    ensures e.error.JsonBody? && e.error.message != "" ==> m == e.error.message
    ensures e.error.EventBody? && e.error.eventMessage != "" ==> m == e.error.eventMessage
    ensures !BodyMessage(e.error) && e.message != "" ==> m == e.message
    ensures !BodyMessage(e.error) && e.message == "" ==> m == CreateFailedMessage
  {
    if e.error.JsonBody? && e.error.message != "" then e.error.message
    else if e.error.EventBody? && e.error.eventMessage != "" then e.error.eventMessage
    else if e.message != "" then e.message
    else CreateFailedMessage
  }

  /** `err.error && err.error.message`: a string body or no body has no message. */
  predicate BodyMessage(b: ErrorBody) {
    (b.JsonBody? && b.message != "") || (b.EventBody? && b.eventMessage != "")
  }

  function SalaEsperaUrl(id: Number): (url: string)
    ensures url == "/app/sala-espera/" + NumberToString(id)
  {
    "/app/sala-espera/" + NumberToString(id)
  }

  /** The waiting-room path carries the created match's id, read back exactly. */
  lemma SalaEsperaUrlCarriesId(n: int)
    ensures var url := SalaEsperaUrl(Num(n));
      var prefix := "/app/sala-espera/";
      |prefix| <= |url| && url[..|prefix|] == prefix && ParseInt(url[|prefix|..]) == n
  {
    IntToStringRoundTrip(n);
    assert SalaEsperaUrl(Num(n))[|"/app/sala-espera/"|..] == IntToString(n);
  }

  class HomeComponent {
    const apiUrl: string
    const router: Router
    const http: HttpClient
    var showModal: bool
    var form: Form
    var isLoading: bool
    var errorMessage: string
    var createsInFlight: nat

    /**
      While the dialog is loading some create request is outstanding. The
      converse does not hold: `closeModal` drops the loading flag without
      cancelling the request, so replies can arrive after it.
     */
    ghost predicate Valid()
      reads this
    {
      isLoading ==> createsInFlight > 0
    }

    /** The form starts with empty texts and a count of 2, and the colour array is resized to it. */
    constructor (apiUrl: string, router: Router, http: HttpClient)
      ensures Valid()
      ensures this.apiUrl == apiUrl && this.router == router && this.http == http
      ensures form == Form("", "", Some(2), [DefaultColor, DefaultColor], false)
      ensures !showModal && !isLoading && errorMessage == "" && createsInFlight == 0
    {
      this.apiUrl := apiUrl;
      this.router := router;
      this.http := http;
      showModal := false;
      form := Form("", "", Some(2), [], false);
      isLoading := false;
      errorMessage := "";
      createsInFlight := 0;
      new;
      ActualizarColores();
      assert form.colores == [DefaultColor, DefaultColor];
    }

    method OpenModal()
      modifies this`showModal, this`errorMessage
      ensures showModal && errorMessage == ""
    {
      showModal := true;
      errorMessage := "";
    }

    /**
      `closeModal`: the dialog hides, the form resets, and the loading flag
      and message clear. Outstanding create requests are not cancelled, so
      closing while one is outstanding re-opens the submit gate.
     */
    method CloseModal()
      modifies this`showModal, this`form, this`isLoading, this`errorMessage
      ensures Valid()
      ensures !showModal && form == Reset(old(form)) && !isLoading && errorMessage == ""
      ensures createsInFlight == old(createsInFlight)
    {
      showModal := false;
      form := Reset(form);
      isLoading := false;
      errorMessage := "";
    }

    /**
      `actualizarColores`, with the shrinking loop bounded below by zero:
      the colour array ends with exactly `max(cantidad, 0)` entries, grown by
      default colours at the end or cut back to a prefix.
     */
    method ActualizarColores()
      modifies this`form
      ensures form == old(form).(colores := Resized(old(form).colores, CantidadOf(old(form))))
    {
      var cantidad := CantidadOf(form);
      var original := form.colores;
      var colores := original;
      while |colores| < cantidad
        invariant |original| <= |colores|
        invariant |colores| <= cantidad || colores == original
        invariant colores[..|original|] == original
        invariant forall i :: |original| <= i < |colores| ==> colores[i] == DefaultColor
        decreases cantidad - |colores|
      {
        colores := colores + [DefaultColor];
      }
      var bound := if cantidad > 0 then cantidad else 0;
      while |colores| > bound
        invariant |original| < bound ==> |colores| == bound && colores[..|original|] == original
        invariant |original| < bound ==> forall i :: |original| <= i < |colores| ==> colores[i] == DefaultColor
        invariant |original| >= bound ==> bound <= |colores| <= |original| && colores == original[..|colores|]
        decreases |colores|
      {
        colores := colores[..|colores| - 1];
      }
      ghost var r := Resized(original, cantidad);
      assert |colores| == |r|;
      assert forall i :: 0 <= i < |r| ==> colores[i] == r[i] by {
        forall i | 0 <= i < |r|
          ensures colores[i] == r[i]
        {
          if i < |original| {
            if |original| < bound {
              assert colores[..|original|][i] == colores[i];
              assert r[..|original|][i] == r[i];
            } else {
              assert original[..|colores|][i] == colores[i];
              assert original[..|r|][i] == r[i];
            }
          }
        }
      }
      form := form.(colores := colores);
    }

    /**
      `onSubmit`: a valid form with nothing outstanding sends the create
      request with lower-cased colours; an invalid one marks every control
      touched; a submission while loading does nothing.
     */
    method OnSubmit()
      requires Valid()
      modifies this`isLoading, this`errorMessage, this`form, this`createsInFlight, http
      ensures Valid()
      ensures FormValid(old(form)) && !old(isLoading) ==>
        isLoading && errorMessage == "" && form == old(form) &&
        http.sent == old(http.sent) + [Plain(Post, PartidaService.PartidasUrl(apiUrl), CreateBody(SubmitData(old(form))))] &&
        createsInFlight == old(createsInFlight) + 1
      ensures !FormValid(old(form)) ==>
        form == old(form).(touched := true) && http.sent == old(http.sent) &&
        isLoading == old(isLoading) && errorMessage == old(errorMessage) &&
        createsInFlight == old(createsInFlight)
      ensures FormValid(old(form)) && old(isLoading) ==>
        form == old(form) && http.sent == old(http.sent) &&
        isLoading && errorMessage == old(errorMessage) && createsInFlight == old(createsInFlight)
      ensures showModal == old(showModal)
    {
      if FormValid(form) && !isLoading {
        isLoading := true;
        errorMessage := "";
        var data := SubmitData(form);
        ValidFormPassesGuard(apiUrl, form);
        http.Send(PartidaService.CreatePartida(apiUrl, Some(data)).value);
        createsInFlight := createsInFlight + 1;
      } else if !FormValid(form) {
        form := form.(touched := true);
      }
    }

    /**
      The create reply, as the service hands it on: a usable id goes to the
      waiting room and closes the dialog; anything else shows a message and
      ends the loading state.
     */
    method OnCreateResponse(result: Result<Partida, JsError>)
      requires Valid() && createsInFlight > 0
      modifies this`createsInFlight, this`isLoading, this`errorMessage, this`showModal, this`form, router
      ensures Valid()
      ensures !isLoading && createsInFlight == old(createsInFlight) - 1
      ensures result.Ok? && UsableId(result.value) ==>
        router.navigations == old(router.navigations) + [SalaEsperaUrl(result.value.id)] &&
        !showModal && form == Reset(old(form)) && errorMessage == ""
      ensures result.Ok? && !UsableId(result.value) ==>
        router.navigations == old(router.navigations) && errorMessage == NoIdMessage &&
        form == old(form) && showModal == old(showModal)
      ensures result.Err? ==>
        router.navigations == old(router.navigations) && errorMessage == CreateErrorMessage(result.error) &&
        form == old(form) && showModal == old(showModal)
    {
      createsInFlight := createsInFlight - 1;
      match result
      case Ok(partida) =>
        if UsableId(partida) {
          router.Navigate(SalaEsperaUrl(partida.id));
          CloseModal();
        } else {
          errorMessage := NoIdMessage;
          isLoading := false;
        }
      case Err(e) =>
        isLoading := false;
        errorMessage := CreateErrorMessage(e);
    }

    /** `navigate(['app/partidas'])` with no `relativeTo` resolves against the root. */
    method NavigateToPartidas()
      modifies router
      ensures router.navigations == old(router.navigations) + ["/app/partidas"]
    {
      router.Navigate("/app/partidas");
    }
  }
}
