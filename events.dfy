/**
 * The loaded data document, the URL query parameters and the fetch step
 * shared by the event-detail page and the category page.
 */
module Events {
  import opened Wrappers
  import opened Js

  /**
   * One event record of `data.json`. Every field may be missing, which reads
   * as `Undefined`; `categoria` also records whether the record has the
   * property at all, since an own `categoria` property is what marks a card
   * as featured.
   */
  datatype Event = Event(
    id: JsValue,
    titulo: JsValue,
    fecha: JsValue,
    hora: JsValue,
    ubicacion: JsValue,
    capacidad: JsValue,
    organiza: JsValue,
    etiqueta: JsValue,
    imagenUrl: JsValue,
    descripcionCorta: JsValue,
    descripcionLarga: JsValue,
    categoria: Option<JsValue>)

  /** A section object; `eventos` is `None` when absent or falsy. */
  datatype Section = Section(eventos: Option<seq<Event>>)

  /** `data.secciones`: either section may be absent. */
  datatype Sections = Sections(actividadesSemana: Option<Section>, eventosDestacados: Option<Section>)

  /** The parsed top-level JSON object. */
  datatype Document = Document(secciones: Option<Sections>)

  /** `data.secciones?.actividadesSemana?.eventos`, when truthy. */
  function WeeklyEvents(data: Document): Option<seq<Event>>
  {
    if data.secciones.Some? && data.secciones.value.actividadesSemana.Some?
    then data.secciones.value.actividadesSemana.value.eventos
    else None
  }

  /** `data.secciones?.eventosDestacados?.eventos`, when truthy. */
  function FeaturedEvents(data: Document): Option<seq<Event>>
  {
    if data.secciones.Some? && data.secciones.value.eventosDestacados.Some?
    then data.secciones.value.eventosDestacados.value.eventos
    else None
  }

  /** A section's events, an absent section contributing none. */
  function OrEmpty(s: Option<seq<Event>>): seq<Event>
  {
    if s.Some? then s.value else []
  }

  /**
   * The combined search space both pages build: weekly activities first,
   * then featured events.
   */
  function SearchList(data: Document): seq<Event>
  {
    OrEmpty(WeeklyEvents(data)) + OrEmpty(FeaturedEvents(data))
  }

  /**
   * The accumulation both page controllers perform on `todosLosEventos`:
   * start empty, concatenate each section only when it is present.
   */
  method CollectEvents(data: Document) returns (todos: seq<Event>)
    ensures |todos| == |OrEmpty(WeeklyEvents(data))| + |OrEmpty(FeaturedEvents(data))|
    ensures todos[..|OrEmpty(WeeklyEvents(data))|] == OrEmpty(WeeklyEvents(data))
    ensures todos[|OrEmpty(WeeklyEvents(data))|..] == OrEmpty(FeaturedEvents(data))
    ensures todos == SearchList(data)
  {
    todos := [];
    var weekly := WeeklyEvents(data);
    if weekly.Some? {
      todos := todos + weekly.value;
    }
    var featured := FeaturedEvents(data);
    if featured.Some? {
      todos := todos + featured.value;
    }
  }

  /** A document without `secciones` yields an empty search list and no error. */
  lemma NoSectionsNoEvents(data: Document)
    requires data.secciones.None?
    ensures SearchList(data) == []
  {
  }

  /** Every event of the search list comes from one of the two sections. */
  lemma SearchListMembers(data: Document, e: Event)
    ensures e in SearchList(data) <==> e in OrEmpty(WeeklyEvents(data)) || e in OrEmpty(FeaturedEvents(data))
  {
  }

  /** The query string as the ordered list of decoded name/value pairs. */
  type Params = seq<(string, string)>

  /** `URLSearchParams.get(name)`: the value of the first pair with that name, or null. */
  function Get(params: Params, name: string): (r: Option<string>)
    ensures r.None? <==> forall k :: 0 <= k < |params| ==> params[k].0 != name
    ensures r.Some? ==> (name, r.value) in params
  {
    if params == [] then None
    else if params[0].0 == name then Some(params[0].1)
    else Get(params[1..], name)
  }

  /** `get` returns the first occurrence: earlier pairs shadow later ones. */
  lemma {:induction false} GetFirst(params: Params, name: string, k: nat)
    requires k < |params| && params[k].0 == name
    requires forall j :: 0 <= j < k ==> params[j].0 != name
    ensures Get(params, name) == Some(params[k].1)
  {
    if k > 0 {
      GetFirst(params[1..], name, k - 1);
    }
  }

  /**
   * A required parameter after the `if (!value)` guard: missing when absent
   * (`null`) or present but empty (`""`), both of which are falsy.
   */
  function RequiredParam(params: Params, name: string): (r: Option<string>)
    ensures r.Some? ==> r.value != "" && Get(params, name) == Some(r.value)
    ensures r.None? ==> Get(params, name) == None || Get(params, name) == Some("")
  {
    var v := Get(params, name);
    if v.Some? && v.value != "" then v else None
  }

  /**
   * What `fetch('data.json')` produced: a rejected promise with its message,
   * or a response with its `ok` flag and what `response.json()` would give.
   */
  datatype FetchResult =
    | NetworkFailure(message: string)
    | Response(ok: bool, parsed: Result<Document, string>)

  const NOT_LOADED_MESSAGE := "No se pudo cargar el archivo data.json"

  /**
   * The load step of both controllers: the document, or the `message` of
   * the error that reaches the `catch` block. A non-ok response is never parsed.
   */
  function Load(fetch: FetchResult): (r: Result<Document, string>)
    ensures r.Success? <==> fetch.Response? && fetch.ok && fetch.parsed.Success?
    ensures r.Success? ==> r.value == fetch.parsed.value
    ensures fetch.Response? && !fetch.ok ==> r == Failure(NOT_LOADED_MESSAGE)
    ensures fetch.NetworkFailure? ==> r == Failure(fetch.message)
    ensures fetch.Response? && fetch.ok && fetch.parsed.Failure? ==> r == Failure(fetch.parsed.error)
  {
    match fetch
    case NetworkFailure(m) => Failure(m)
    case Response(ok, parsed) =>
      if !ok then Failure(NOT_LOADED_MESSAGE) else parsed
  }
}
