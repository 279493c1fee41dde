/**
 * The event-detail page (`evento.html?id=...`): read the `id` parameter,
 * load the document, find the first event with that id among the weekly
 * activities and featured events, and render it or an error panel.
 */
module Detalle {
  import opened Wrappers
  import opened Js
  import opened Events
  import opened Sound

  // ---------------------------------------------------------------------------
  // Lookup

  /** `getEventIdFromUrl()` followed by the `if (!eventId)` guard. */
  function EventIdParam(params: Params): Option<string>
  {
    RequiredParam(params, "id")
  }

  /** `todosLosEventos.find(e => e.id === id)`: strict equality, first match. */
  function Find(events: seq<Event>, id: string): (r: Option<Event>)
    ensures r.None? <==> forall k :: 0 <= k < |events| ==> events[k].id != Str(id)
    ensures r.Some? ==> r.value in events && r.value.id == Str(id)
  {
    if events == [] then None
    else if events[0].id == Str(id) then Some(events[0])
    else Find(events[1..], id)
  }

  /** The event found is the FIRST one carrying the id. */
  lemma {:induction false} FindIsFirst(events: seq<Event>, id: string, k: nat)
    requires k < |events| && events[k].id == Str(id)
    requires forall j :: 0 <= j < k ==> events[j].id != Str(id)
    ensures Find(events, id) == Some(events[k])
  {
    if k > 0 {
      FindIsFirst(events[1..], id, k - 1);
    }
  }

  /** Searching a concatenation searches the first part, then the second. */
  lemma {:induction false} FindConcat(a: seq<Event>, b: seq<Event>, id: string)
    ensures Find(a + b, id) == if Find(a, id).Some? then Find(a, id) else Find(b, id)
  {
    if a != [] {
      assert (a + b)[0] == a[0];
      assert (a + b)[1..] == a[1..] + b;
      FindConcat(a[1..], b, id);
    } else {
      assert a + b == b;
    }
  }

  /**
   * On a duplicated id, a weekly activity shadows a featured event: the
   * search over the combined list only ever consults the featured events
   * when no weekly activity has the id.
   */
  lemma WeeklyShadowsFeatured(data: Document, id: string)
    ensures Find(OrEmpty(WeeklyEvents(data)), id).Some? ==>
      Find(SearchList(data), id) == Find(OrEmpty(WeeklyEvents(data)), id)
    ensures Find(OrEmpty(WeeklyEvents(data)), id).None? ==>
      Find(SearchList(data), id) == Find(OrEmpty(FeaturedEvents(data)), id)
  {
    FindConcat(OrEmpty(WeeklyEvents(data)), OrEmpty(FeaturedEvents(data)), id);
  }

  // ---------------------------------------------------------------------------
  // The date-shape classifier: `/^\d{4}-\d{2}-\d{2}$/`

  /**
   * The whole string is four ASCII digits, `-`, two digits, `-`, two digits
   * (`\d` matches ASCII digits only, and `$` without the `m` flag matches only
   * at the end of the input).
   */
  predicate IsIsoDateShape(s: string)
  {
    && |s| == 10
    && AllDigits(s[0..4]) && s[4] == '-'
    && AllDigits(s[5..7]) && s[7] == '-'
    && AllDigits(s[8..10])
  }

  function Pow10(w: nat): (r: nat)
    ensures r >= 1
  {
    if w == 0 then 1 else 10 * Pow10(w - 1)
  }

  /** `n` written with exactly `w` digits, padded with leading zeros. */
  function Padded(n: nat, w: nat): (r: string)
    requires n < Pow10(w)
    ensures |r| == w && AllDigits(r)
  {
    if w == 0 then [] else Padded(n / 10, w - 1) + [DigitChar(n % 10)]
  }

  /** A year-month-day triple written as `YYYY-MM-DD`. */
  function FormatDate(y: nat, m: nat, d: nat): (r: string)
    requires y < 10000 && m < 100 && d < 100
    ensures IsIsoDateShape(r)
  {
    var r := Padded(y, 4) + "-" + Padded(m, 2) + "-" + Padded(d, 2);
    assert r[0..4] == Padded(y, 4) && r[5..7] == Padded(m, 2) && r[8..10] == Padded(d, 2);
    r
  }

  /** The three numbers of a string of the classifier's shape. */
  function ParseDate(s: string): (nat, nat, nat)
    requires IsIsoDateShape(s)
  {
    (DigitsValue(s[0..4]), DigitsValue(s[5..7]), DigitsValue(s[8..10]))
  }

  lemma {:induction false} PaddedDigitsValue(s: string)
    requires AllDigits(s)
    ensures DigitsValue(s) < Pow10(|s|)
    ensures Padded(DigitsValue(s), |s|) == s
  {
    if s != [] {
      var init := s[..|s| - 1];
      PaddedDigitsValue(init);
      var v := DigitsValue(s);
      assert v < Pow10(|s|) by {
        assert v <= DigitsValue(init) * 10 + 9;
        assert DigitsValue(init) + 1 <= Pow10(|init|);
        assert Pow10(|s|) == 10 * Pow10(|init|);
      }
      assert v / 10 == DigitsValue(init);
      assert v % 10 == s[|s| - 1] as int - '0' as int;
      assert DigitChar(v % 10) == s[|s| - 1];
      assert s == init + [s[|s| - 1]];
    }
  }

  lemma DigitCharValue(d: nat)
    requires d < 10
    ensures DigitChar(d) as int - '0' as int == d
  {
  }

  lemma {:induction false} DigitsValuePadded(n: nat, w: nat)
    requires n < Pow10(w)
    ensures DigitsValue(Padded(n, w)) == n
  {
    if w > 0 {
      DigitsValuePadded(n / 10, w - 1);
      var p := Padded(n, w);
      assert p[..|p| - 1] == Padded(n / 10, w - 1);
      assert p[|p| - 1] == DigitChar(n % 10);
      DigitCharValue(n % 10);
      assert DigitsValue(p) == (n / 10) * 10 + n % 10;
    }
  }

  /** Every string the classifier accepts is the zero-padded form of a date triple. */
  lemma DateShapeIsFormatted(s: string)
    requires IsIsoDateShape(s)
    ensures var (y, m, d) := ParseDate(s);
      y < 10000 && m < 100 && d < 100 && FormatDate(y, m, d) == s
  {
    var ys, ms, ds := s[0..4], s[5..7], s[8..10];
    PaddedDigitsValue(ys);
    PaddedDigitsValue(ms);
    PaddedDigitsValue(ds);
    var y, m, d := DigitsValue(ys), DigitsValue(ms), DigitsValue(ds);
    assert ParseDate(s) == (y, m, d);
    assert FormatDate(y, m, d) == ys + "-" + ms + "-" + ds;
    assert s == ys + "-" + ms + "-" + ds;
  }

  /** And conversely the zero-padded form of a triple reads back as that triple. */
  lemma FormattedDateParses(y: nat, m: nat, d: nat)
    requires y < 10000 && m < 100 && d < 100
    ensures ParseDate(FormatDate(y, m, d)) == (y, m, d)
  {
    var r := FormatDate(y, m, d);
    assert r[0..4] == Padded(y, 4) && r[5..7] == Padded(m, 2) && r[8..10] == Padded(d, 2);
    DigitsValuePadded(y, 4);
    DigitsValuePadded(m, 2);
    DigitsValuePadded(d, 2);
  }

  // ---------------------------------------------------------------------------
  // Rendering one event

  /**
   * Day number, month abbreviation and weekday name of a `YYYY-MM-DD` date,
   * as the locale formatting of the calendar badge produces them.
   */
  datatype CalendarParts = CalendarParts(dia: string, mes: string, diaSemana: string)

  /** The date/time block: the calendar badge, or the plain-text lines. */
  datatype DateBlock =
    | Calendar(parts: CalendarParts, hora: JsValue)
    | PlainText(fecha: JsValue, hora: JsValue)

  /** The structure of the rendered detail markup: which values went where. */
  datatype DetailView = DetailView(
    titulo: JsValue,
    imagenUrl: JsValue,
    descripcionLarga: JsValue,
    fechaHora: DateBlock,
    ubicacion: JsValue,
    capacidad: JsValue,
    organiza: JsValue,
    etiqueta: JsValue,
    inscripcion: string)

  const DEFAULT_HORA := "09:00-17:00"
  const DEFAULT_UBICACION := "Lugar no especificado"
  const DEFAULT_CAPACIDAD := "N/A"
  const DEFAULT_ORGANIZA := "No especificado"

  /** V8's message for `fechaCompleta.match(...)` on a truthy non-string `fecha`. */
  const MATCH_NOT_A_FUNCTION := "fechaCompleta.match is not a function"

  /**
   * `fechaCompleta && fechaCompleta.match(re)` and the branch it selects.
   * A truthy `fecha` that is not a string has no `match` method, so the call throws.
   */
  function DateBlockFor(fecha: JsValue, horaTexto: JsValue, localDate: string -> CalendarParts): Result<DateBlock, string>
  {
    if !Truthy(fecha) then Success(PlainText(fecha, horaTexto))
    else if !fecha.Str? then Failure(MATCH_NOT_A_FUNCTION)
    else if IsIsoDateShape(fecha.s) then Success(Calendar(localDate(fecha.s), horaTexto))
    else Success(PlainText(fecha, horaTexto))
  }

  /**
   * `encodeURIComponent`: the encoded text, or the message of the URIError it
   * throws on text it cannot encode.
   */
  type UriEncoder = string -> Result<string, string>

  /**
   * The registration link `inscripcion.html?id=<id>&titulo=<encoded title>`,
   * or what encoding the title throws.
   */
  function InscripcionLink(e: Event, encodeURIComponent: UriEncoder): Result<string, string>
  {
    match encodeURIComponent(ToText(e.titulo))
    case Failure(m) => Failure(m)
    case Success(titulo) => Success("inscripcion.html?id=" + ToText(e.id) + "&titulo=" + titulo)
  }

  /**
   * `renderEventDetail(evento)`, structurally; `Failure` carries what it throws.
   * The date block is computed before the template, so a `fecha` that throws
   * wins over a title that cannot be encoded.
   */
  function RenderEventDetail(e: Event, localDate: string -> CalendarParts, encodeURIComponent: UriEncoder): Result<DetailView, string>
  {
    var horaTexto := Or(e.hora, DEFAULT_HORA);
    var block := DateBlockFor(e.fecha, horaTexto, localDate);
    var link := InscripcionLink(e, encodeURIComponent);
    if block.Failure? then Failure(block.error)
    else if link.Failure? then Failure(link.error)
    else Success(DetailView(
      e.titulo, e.imagenUrl, e.descripcionLarga, block.value,
      Or(e.ubicacion, DEFAULT_UBICACION), Or(e.capacidad, DEFAULT_CAPACIDAD),
      Or(e.organiza, DEFAULT_ORGANIZA), e.etiqueta,
      link.value))
  }

  /** The hour shown in either date block. */
  function BlockHora(b: DateBlock): JsValue
  {
    match b
    case Calendar(_, h) => h
    case PlainText(_, h) => h
  }

  /**
   * The four defaulted fields are never falsy in the view (so never show
   * `undefined`, `null`, `0` or an empty string), and a truthy source value
   * is shown unchanged.
   */
  lemma FallbacksApplied(e: Event, localDate: string -> CalendarParts, encodeURIComponent: UriEncoder)
    requires RenderEventDetail(e, localDate, encodeURIComponent).Success?
    ensures var v := RenderEventDetail(e, localDate, encodeURIComponent).value;
      && Truthy(BlockHora(v.fechaHora)) && Truthy(v.ubicacion) && Truthy(v.capacidad) && Truthy(v.organiza)
      && (Truthy(e.hora) ==> BlockHora(v.fechaHora) == e.hora)
      && (!Truthy(e.hora) ==> BlockHora(v.fechaHora) == Str(DEFAULT_HORA))
      && (Truthy(e.ubicacion) ==> v.ubicacion == e.ubicacion)
      && (!Truthy(e.ubicacion) ==> v.ubicacion == Str(DEFAULT_UBICACION))
      && (Truthy(e.capacidad) ==> v.capacidad == e.capacidad)
      && (!Truthy(e.capacidad) ==> v.capacidad == Str(DEFAULT_CAPACIDAD))
      && (Truthy(e.organiza) ==> v.organiza == e.organiza)
      && (!Truthy(e.organiza) ==> v.organiza == Str(DEFAULT_ORGANIZA))
  {
  }

  /**
   * The calendar branch is taken exactly when `fecha` is a string of the
   * `YYYY-MM-DD` shape; a falsy `fecha` is shown verbatim in the text branch
   * (there is no fallback for it). Rendering throws exactly when a truthy
   * non-string `fecha` has no `match` method (that error is reported) or the
   * title cannot be URI-encoded (the encoder's error is reported).
   */
  lemma DateBranch(e: Event, localDate: string -> CalendarParts, encodeURIComponent: UriEncoder)
    ensures var r := RenderEventDetail(e, localDate, encodeURIComponent);
      && (r.Failure? <==> (Truthy(e.fecha) && !e.fecha.Str?) || InscripcionLink(e, encodeURIComponent).Failure?)
      && (Truthy(e.fecha) && !e.fecha.Str? ==> r == Failure(MATCH_NOT_A_FUNCTION))
      && (!(Truthy(e.fecha) && !e.fecha.Str?) && InscripcionLink(e, encodeURIComponent).Failure? ==>
            r == Failure(InscripcionLink(e, encodeURIComponent).error))
      && (r.Success? ==> r.value.inscripcion == InscripcionLink(e, encodeURIComponent).value)
      && (r.Success? ==> (r.value.fechaHora.Calendar? <==> e.fecha.Str? && IsIsoDateShape(e.fecha.s)))
      && (r.Success? && r.value.fechaHora.Calendar? ==> r.value.fechaHora.parts == localDate(e.fecha.s))
      && (r.Success? && r.value.fechaHora.PlainText? ==> r.value.fechaHora.fecha == e.fecha)
  {
  }

  /** The classifier on the date forms found in the data. */
  lemma DateShapeExamples()
    ensures IsIsoDateShape("2025-09-24")
    ensures !IsIsoDateShape("Lunes, Miércoles, Viernes")
    ensures !IsIsoDateShape("2025-09-24T10:00")
    ensures !IsIsoDateShape("24-09-2025")
  {
  }

  /** An event without `fecha` renders the text block with the literal `undefined`. */
  lemma MissingFechaShowsUndefined(e: Event, localDate: string -> CalendarParts, encodeURIComponent: UriEncoder)
    requires e.fecha == Undefined
    ensures RenderEventDetail(e, localDate, encodeURIComponent).Success?
         <==> InscripcionLink(e, encodeURIComponent).Success?
    ensures RenderEventDetail(e, localDate, encodeURIComponent).Success? ==>
      var b := RenderEventDetail(e, localDate, encodeURIComponent).value.fechaHora;
      b.PlainText? && ToText(b.fecha) == "undefined"
  {
  }

  // ---------------------------------------------------------------------------
  // Page outcome

  /** The content of the `#evento-detalle` container. */
  datatype Panel = Blank | ErrorPanel(message: string) | Detail(view: DetailView)

  const MISSING_ID_MESSAGE := "Error: No se encontró el ID del evento en la URL."

  function NotFoundMessage(id: string): string
  {
    "Evento con ID \"" + id + "\" no encontrado en ninguna sección."
  }

  function LoadErrorMessage(message: string): string
  {
    "Ocurrió un error al cargar los datos: " + message
  }

  /** What a page load leaves behind: the container, and whether sound was attached. */
  datatype PageResult = PageResult(panel: Panel, soundAttached: bool)

  /** `fetchAndRenderEvent(id, container)` as a function of its inputs. */
  function FetchAndRenderResult(id: string, fetch: FetchResult, localDate: string -> CalendarParts,
                                encodeURIComponent: UriEncoder): PageResult
  {
    match Load(fetch)
    case Failure(m) => PageResult(ErrorPanel(LoadErrorMessage(m)), false)
    case Success(data) =>
      match Find(SearchList(data), id)
      case None => PageResult(ErrorPanel(NotFoundMessage(id)), false)
      case Some(e) =>
        match RenderEventDetail(e, localDate, encodeURIComponent)
        case Failure(m) => PageResult(ErrorPanel(LoadErrorMessage(m)), false)
        case Success(v) => PageResult(Detail(v), true)
  }

  /** The `DOMContentLoaded` handler of the detail page. */
  function DetailPageResult(params: Params, fetch: FetchResult, localDate: string -> CalendarParts,
                            encodeURIComponent: UriEncoder): PageResult
  {
    match EventIdParam(params)
    case None => PageResult(ErrorPanel(MISSING_ID_MESSAGE), false)
    case Some(id) => FetchAndRenderResult(id, fetch, localDate, encodeURIComponent)
  }

  /**
   * A missing or empty `id` goes straight to the error panel: the outcome
   * does not depend on the data at all, and nothing is rendered.
   */
  lemma MissingIdShortCircuits(params: Params, f1: FetchResult, f2: FetchResult,
                               localDate: string -> CalendarParts, encodeURIComponent: UriEncoder)
    requires Get(params, "id") == None || Get(params, "id") == Some("")
    ensures DetailPageResult(params, f1, localDate, encodeURIComponent)
         == DetailPageResult(params, f2, localDate, encodeURIComponent)
         == PageResult(ErrorPanel(MISSING_ID_MESSAGE), false)
  {
  }

  /** A present, non-empty `id` goes on to fetch and render the event it names. */
  lemma PresentIdFetches(params: Params, id: string, fetch: FetchResult,
                         localDate: string -> CalendarParts, encodeURIComponent: UriEncoder)
    requires Get(params, "id") == Some(id) && id != ""
    ensures DetailPageResult(params, fetch, localDate, encodeURIComponent)
         == FetchAndRenderResult(id, fetch, localDate, encodeURIComponent)
  {
  }

  /** A failed load shows the error's message and never a rendered detail. */
  lemma LoadFailureShowsMessage(id: string, fetch: FetchResult,
                                localDate: string -> CalendarParts, encodeURIComponent: UriEncoder)
    requires Load(fetch).Failure?
    ensures FetchAndRenderResult(id, fetch, localDate, encodeURIComponent)
         == PageResult(ErrorPanel(LoadErrorMessage(Load(fetch).error)), false)
  {
  }

  /** When no event in either section has the id, the error quotes the requested id. */
  lemma NotFoundQuotesId(id: string, data: Document, fetch: FetchResult,
                         localDate: string -> CalendarParts, encodeURIComponent: UriEncoder)
    requires Load(fetch) == Success(data)
    requires forall e :: e in SearchList(data) ==> e.id != Str(id)
    ensures FetchAndRenderResult(id, fetch, localDate, encodeURIComponent)
         == PageResult(ErrorPanel(NotFoundMessage(id)), false)
    ensures var m := NotFoundMessage(id); m[15..15 + |id|] == id && m[14] == '"' && m[15 + |id|] == '"'
  {
  }

  /**
   * When an event with the requested id exists and renders, the container
   * holds its detail and sound is attached; a render that throws gives the
   * load-error panel.
   */
  lemma FoundEventIsRendered(id: string, data: Document, fetch: FetchResult,
                             localDate: string -> CalendarParts, encodeURIComponent: UriEncoder)
    requires Load(fetch) == Success(data)
    ensures var r := FetchAndRenderResult(id, fetch, localDate, encodeURIComponent);
      Find(SearchList(data), id).Some? ==>
        match RenderEventDetail(Find(SearchList(data), id).value, localDate, encodeURIComponent)
        case Success(v) => r == PageResult(Detail(v), true)
        case Failure(m) => r == PageResult(ErrorPanel(LoadErrorMessage(m)), false)
  {
  }

  /**
   * A rendered detail always belongs to the requested id: it is the render
   * of the first event with that id in the search list, its registration
   * link carries the id, and exactly then is the sound attached.
   */
  lemma RenderedIsRequestedEvent(id: string, data: Document, fetch: FetchResult,
                                 localDate: string -> CalendarParts, encodeURIComponent: UriEncoder)
    requires Load(fetch) == Success(data)
    ensures var r := FetchAndRenderResult(id, fetch, localDate, encodeURIComponent);
      r.soundAttached <==> r.panel.Detail?
    ensures var r := FetchAndRenderResult(id, fetch, localDate, encodeURIComponent);
      r.panel.Detail? ==>
        && Find(SearchList(data), id).Some?
        && Find(SearchList(data), id).value in SearchList(data)
        && RenderEventDetail(Find(SearchList(data), id).value, localDate, encodeURIComponent) == Success(r.panel.view)
        && r.panel.view.inscripcion[..20 + |id|] == "inscripcion.html?id=" + id
  {
    var r := FetchAndRenderResult(id, fetch, localDate, encodeURIComponent);
    match Find(SearchList(data), id)
    case None =>
      assert r == PageResult(ErrorPanel(NotFoundMessage(id)), false);
    case Some(e) =>
      match RenderEventDetail(e, localDate, encodeURIComponent)
      case Failure(m) =>
        assert r == PageResult(ErrorPanel(LoadErrorMessage(m)), false);
      case Success(v) =>
        assert r == PageResult(Detail(v), true);
        InscripcionLinkNamesId(e, id, encodeURIComponent);
  }

  /**
   * The registration link exists exactly when the title encodes; for an event
   * with a string id it starts with that id and ends with the encoded title.
   */
  lemma InscripcionLinkNamesId(e: Event, id: string, encodeURIComponent: UriEncoder)
    requires e.id == Str(id)
    ensures InscripcionLink(e, encodeURIComponent).Success? <==> encodeURIComponent(ToText(e.titulo)).Success?
    ensures InscripcionLink(e, encodeURIComponent).Success? ==>
      var link := InscripcionLink(e, encodeURIComponent).value;
      && link[..20 + |id|] == "inscripcion.html?id=" + id
      && link[20 + |id|..] == "&titulo=" + encodeURIComponent(ToText(e.titulo)).value
  {
    if InscripcionLink(e, encodeURIComponent).Success? {
      var link := InscripcionLink(e, encodeURIComponent).value;
      assert link == ("inscripcion.html?id=" + id) + ("&titulo=" + encodeURIComponent(ToText(e.titulo)).value);
    }
  }

  // ---------------------------------------------------------------------------
  // The page, with its container and the controls the sound selector matches

  class DetailPage {
    var container: Panel
    /** The elements `.btn-action-secondary, .btn-inscripcion, .error-state a, .navbar a` select. */
    const buttons: array<Element>

    constructor (buttons: array<Element>)
      ensures this.buttons == buttons && container == Blank
    {
      this.buttons := buttons;
      container := Blank;
    }

    /** The `DOMContentLoaded` handler: guard on the id, then fetch and render. */
    method Open(params: Params, fetch: FetchResult, localDate: string -> CalendarParts,
                encodeURIComponent: UriEncoder)
      modifies this, buttons
      ensures container == DetailPageResult(params, fetch, localDate, encodeURIComponent).panel
      ensures buttons[..] == if DetailPageResult(params, fetch, localDate, encodeURIComponent).soundAttached
                             then AttachAll(old(buttons[..])) else old(buttons[..])
    {
      var eventId := EventIdParam(params);
      if eventId.None? {
        container := ErrorPanel(MISSING_ID_MESSAGE);
        return;
      }
      FetchAndRenderEvent(eventId.value, fetch, localDate, encodeURIComponent);
    }

    /** `fetchAndRenderEvent`: load, combine the sections, find, render or report. */
    method FetchAndRenderEvent(id: string, fetch: FetchResult, localDate: string -> CalendarParts,
                               encodeURIComponent: UriEncoder)
      modifies this, buttons
      ensures container == FetchAndRenderResult(id, fetch, localDate, encodeURIComponent).panel
      ensures buttons[..] == if FetchAndRenderResult(id, fetch, localDate, encodeURIComponent).soundAttached
                             then AttachAll(old(buttons[..])) else old(buttons[..])
    {
      var data := Load(fetch);
      if data.Failure? {
        container := ErrorPanel(LoadErrorMessage(data.error));
        return;
      }
      var todosLosEventos := CollectEvents(data.value);
      var encontrado := Find(todosLosEventos, id);
      if encontrado.None? {
        container := ErrorPanel(NotFoundMessage(id));
        return;
      }
      var html := RenderEventDetail(encontrado.value, localDate, encodeURIComponent);
      if html.Failure? {
        container := ErrorPanel(LoadErrorMessage(html.error));
        return;
      }
      container := Detail(html.value);
      AttachSound(buttons);
    }
  }
}
