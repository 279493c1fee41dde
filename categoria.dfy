/**
 * The category page (`categoria.html?nombre=...`): read the `nombre`
 * parameter, load the document, keep the events whose `etiqueta` equals it,
 * and show either a grid of cards or an empty-state message.
 */
module Categoria {
  import opened Wrappers
  import opened Js
  import opened Events
  import opened Sound

  // ---------------------------------------------------------------------------
  // Filtering

  /** `getCategoryFromUrl()` followed by the `if (!categoria)` guard. */
  function CategoryParam(params: Params): Option<string>
  {
    RequiredParam(params, "nombre")
  }

  /** The filter predicate: `evento.etiqueta === categoria` (strict, case-sensitive). */
  predicate HasTag(e: Event, categoria: string)
  {
    e.etiqueta == Str(categoria)
  }

  /** `todosLosEventos.filter(evento => evento.etiqueta === categoria)`. */
  function FilterByTag(events: seq<Event>, categoria: string): (r: seq<Event>)
    ensures |r| <= |events|
    ensures forall k :: 0 <= k < |r| ==> HasTag(r[k], categoria) && r[k] in events
    ensures forall e :: e in events && HasTag(e, categoria) ==> e in r
  {
    if events == [] then []
    else if HasTag(events[0], categoria) then [events[0]] + FilterByTag(events[1..], categoria)
    else FilterByTag(events[1..], categoria)
  }

  /** `a` is obtained from `b` by deleting elements (relative order kept). */
  predicate IsSubsequence(a: seq<Event>, b: seq<Event>)
    decreases |b|
  {
    if a == [] then true
    else if b == [] then false
    else (a[0] == b[0] && IsSubsequence(a[1..], b[1..])) || IsSubsequence(a, b[1..])
  }

  /** How many events carry the tag. */
  function CountTagged(events: seq<Event>, categoria: string): nat
  {
    if events == [] then 0
    else (if HasTag(events[0], categoria) then 1 else 0) + CountTagged(events[1..], categoria)
  }

  /**
   * The filter keeps exactly the tagged events in their original order: its
   * result is a subsequence of the input, of length the number of tagged events.
   */
  lemma {:induction false} FilterIsOrderedSelection(events: seq<Event>, categoria: string)
    ensures IsSubsequence(FilterByTag(events, categoria), events)
    ensures |FilterByTag(events, categoria)| == CountTagged(events, categoria)
  {
    if events != [] {
      FilterIsOrderedSelection(events[1..], categoria);
      var rest := FilterByTag(events[1..], categoria);
      if HasTag(events[0], categoria) {
        assert ([events[0]] + rest)[1..] == rest;
      }
    }
  }

  /** Filtering the combined list filters each section and keeps weekly events first. */
  lemma {:induction false} FilterConcat(a: seq<Event>, b: seq<Event>, categoria: string)
    ensures FilterByTag(a + b, categoria) == FilterByTag(a, categoria) + FilterByTag(b, categoria)
  {
    if a == [] {
      assert a + b == b;
    } else {
      assert (a + b)[0] == a[0];
      assert (a + b)[1..] == a[1..] + b;
      FilterConcat(a[1..], b, categoria);
    }
  }

  /** Filtered search list: the weekly matches followed by the featured matches. */
  lemma FilteredSearchList(data: Document, categoria: string)
    ensures FilterByTag(SearchList(data), categoria)
         == FilterByTag(OrEmpty(WeeklyEvents(data)), categoria) + FilterByTag(OrEmpty(FeaturedEvents(data)), categoria)
  {
    FilterConcat(OrEmpty(WeeklyEvents(data)), OrEmpty(FeaturedEvents(data)), categoria);
  }

  // ---------------------------------------------------------------------------
  // Cards

  const FEATURED_CARD_CLASS := "card-evento destacado-filtrado"
  const CARD_CLASS := "card-evento"

  /** `evento.hasOwnProperty('categoria')`: present even when its value is falsy. */
  predicate IsFeatured(e: Event)
  {
    e.categoria.Some?
  }

  /** The link of a card's "Ver Detalle" button: `evento.html?id=<id>`. */
  function DetailLink(id: JsValue): string
  {
    "evento.html?id=" + ToText(id)
  }

  /** The structure of one card: its class, the values it shows and its link. */
  datatype Card = Card(
    cssClass: string,
    imagenUrl: JsValue,
    titulo: JsValue,
    etiqueta: JsValue,
    fecha: JsValue,
    descripcionCorta: JsValue,
    link: string)

  /** The template applied to one event by `renderEventGridFiltered`. */
  function CardFor(e: Event): Card
  {
    Card(if IsFeatured(e) then FEATURED_CARD_CLASS else CARD_CLASS,
         e.imagenUrl, e.titulo, e.etiqueta, e.fecha, e.descripcionCorta,
         DetailLink(e.id))
  }

  /** `eventos.map(card).join('')`: one card per event, in order. */
  function RenderGrid(eventos: seq<Event>): (r: seq<Card>)
    ensures |r| == |eventos|
    ensures forall k :: 0 <= k < |r| ==> r[k] == CardFor(eventos[k])
  {
    if eventos == [] then [] else [CardFor(eventos[0])] + RenderGrid(eventos[1..])
  }

  /** The featured class is used exactly for events with an own `categoria` property. */
  lemma CardClassIffOwnCategoria(e: Event)
    ensures CardFor(e).cssClass == FEATURED_CARD_CLASS <==> e.categoria.Some?
    ensures CardFor(e).cssClass == CARD_CLASS <==> e.categoria.None?
  {
    assert FEATURED_CARD_CLASS[11] != CARD_CLASS[10];
  }

  /** Events with different string ids get different detail links; the id follows the prefix. */
  lemma DetailLinkNamesId(a: string, b: string)
    ensures DetailLink(Str(a))[15..] == a
    ensures DetailLink(Str(a)) == DetailLink(Str(b)) ==> a == b
  {
    assert DetailLink(Str(a))[15..] == a;
    assert DetailLink(Str(b))[15..] == b;
  }

  // ---------------------------------------------------------------------------
  // Page outcome

  /** The `#loadingMessage` element: as the markup left it, hidden, or turned into an error. */
  datatype Loading = LoadingAsMarkup | Hidden | ErrorText(text: string)

  /** The `#eventosFiltradosGrid` element. */
  datatype Grid =
    | GridAsMarkup
    | SelectPrompt
    | EmptyState(categoria: string)
    | Cards(cards: seq<Card>)

  /** What a page load leaves behind. */
  datatype PageView = PageView(title: string, loading: Loading, grid: Grid, soundAttached: bool)

  const MISSING_CATEGORY_TITLE := "Error: Categoría no especificada."

  function CategoryTitle(categoria: string): string
  {
    "Eventos en la categoría: " + categoria
  }

  function LoadErrorText(message: string): string
  {
    "Error al cargar los datos: " + message
  }

  /** `fetchAndFilterEvents`: the loading message, grid and sound after the load. */
  function FetchAndFilterResult(categoria: string, fetch: FetchResult): PageView
  {
    var title := CategoryTitle(categoria);
    match Load(fetch)
    case Failure(m) => PageView(title, ErrorText(LoadErrorText(m)), GridAsMarkup, false)
    case Success(data) =>
      var filtrados := FilterByTag(SearchList(data), categoria);
      if |filtrados| > 0 then PageView(title, Hidden, Cards(RenderGrid(filtrados)), true)
      else PageView(title, Hidden, EmptyState(categoria), false)
  }

  /** The `DOMContentLoaded` handler of the category page. */
  function CategoryPageResult(params: Params, fetch: FetchResult): PageView
  {
    match CategoryParam(params)
    case None => PageView(MISSING_CATEGORY_TITLE, LoadingAsMarkup, SelectPrompt, false)
    case Some(categoria) => FetchAndFilterResult(categoria, fetch)
  }

  /** A missing or empty `nombre` shows the error title and prompt; the data is never consulted. */
  lemma MissingCategoryShortCircuits(params: Params, f1: FetchResult, f2: FetchResult)
    requires Get(params, "nombre") == None || Get(params, "nombre") == Some("")
    ensures CategoryPageResult(params, f1) == CategoryPageResult(params, f2)
         == PageView(MISSING_CATEGORY_TITLE, LoadingAsMarkup, SelectPrompt, false)
  {
  }

  /** A present, non-empty `nombre` goes on to fetch and filter by that category. */
  lemma PresentCategoryFetches(params: Params, categoria: string, fetch: FetchResult)
    requires Get(params, "nombre") == Some(categoria) && categoria != ""
    ensures CategoryPageResult(params, fetch) == FetchAndFilterResult(categoria, fetch)
    ensures CategoryPageResult(params, fetch).title == CategoryTitle(categoria)
  {
  }

  /** A failed load puts the error into the loading message and leaves the grid alone. */
  lemma LoadFailureLeavesGrid(categoria: string, fetch: FetchResult)
    requires Load(fetch).Failure?
    ensures var v := FetchAndFilterResult(categoria, fetch);
      v.loading == ErrorText(LoadErrorText(Load(fetch).error)) && v.grid == GridAsMarkup && !v.soundAttached
  {
  }

  /**
   * After a successful load the loading message is hidden; the empty state
   * (naming the category) is shown exactly when no event carries the tag;
   * otherwise the grid holds one card per tagged event, in the order of the
   * filtered list, each the card of a tagged event, and sound is attached.
   */
  lemma {:induction false} LoadedOutcome(categoria: string, data: Document, fetch: FetchResult)
    requires Load(fetch) == Success(data)
    ensures var v := FetchAndFilterResult(categoria, fetch);
      && v.loading == Hidden
      && v.title == CategoryTitle(categoria)
      && (v.grid == EmptyState(categoria) <==> CountTagged(SearchList(data), categoria) == 0)
      && (v.grid.Cards? <==> v.soundAttached)
      && (CountTagged(SearchList(data), categoria) > 0 ==> v.grid.Cards? && v.soundAttached)
      && (v.grid.Cards? ==> |v.grid.cards| == CountTagged(SearchList(data), categoria))
      && (v.grid.Cards? ==> forall k :: 0 <= k < |v.grid.cards| ==>
            v.grid.cards[k] == CardFor(FilterByTag(SearchList(data), categoria)[k]))
      && (v.grid.Cards? ==> forall k :: 0 <= k < |v.grid.cards| ==>
            exists e :: e in SearchList(data) && HasTag(e, categoria) && v.grid.cards[k] == CardFor(e))
  {
    FilterIsOrderedSelection(SearchList(data), categoria);
    var v := FetchAndFilterResult(categoria, fetch);
    var filtrados := FilterByTag(SearchList(data), categoria);
    if v.grid.Cards? {
      forall k | 0 <= k < |v.grid.cards|
        ensures exists e :: e in SearchList(data) && HasTag(e, categoria) && v.grid.cards[k] == CardFor(e)
      {
        assert v.grid.cards[k] == CardFor(filtrados[k]);
      }
    }
  }

  // ---------------------------------------------------------------------------
  // The page, with the elements it writes and the links the sound selector matches

  class CategoryPage {
    var title: string
    var loading: Loading
    var grid: Grid
    /** The elements `.card-evento a.btn-secondary, nav a` select. */
    const links: array<Element>

    constructor (links: array<Element>)
      ensures this.links == links && title == "" && loading == LoadingAsMarkup && grid == GridAsMarkup
    {
      this.links := links;
      title, loading, grid := "", LoadingAsMarkup, GridAsMarkup;
    }

    /** The `DOMContentLoaded` handler: guard on the category, show it in the title, then load. */
    method Open(params: Params, fetch: FetchResult)
      modifies this, links
      ensures var v := CategoryPageResult(params, fetch);
        title == v.title
        && loading == (if v.loading == LoadingAsMarkup then old(loading) else v.loading)
        && grid == (if v.grid == GridAsMarkup then old(grid) else v.grid)
      ensures links[..] == if CategoryPageResult(params, fetch).soundAttached
                           then AttachAll(old(links[..])) else old(links[..])
    {
      var categoria := CategoryParam(params);
      if categoria.None? {
        title := MISSING_CATEGORY_TITLE;
        grid := SelectPrompt;
        return;
      }
      title := CategoryTitle(categoria.value);
      FetchAndFilterEvents(categoria.value, fetch);
    }

    /** `fetchAndFilterEvents`: load, combine the sections, filter, then grid or empty state. */
    method FetchAndFilterEvents(categoria: string, fetch: FetchResult)
      modifies this, links
      ensures title == old(title)
      ensures var v := FetchAndFilterResult(categoria, fetch);
        loading == (if v.loading == LoadingAsMarkup then old(loading) else v.loading)
        && grid == (if v.grid == GridAsMarkup then old(grid) else v.grid)
      ensures links[..] == if FetchAndFilterResult(categoria, fetch).soundAttached
                           then AttachAll(old(links[..])) else old(links[..])
    {
      var data := Load(fetch);
      if data.Failure? {
        loading := ErrorText(LoadErrorText(data.error));
        return;
      }
      var todosLosEventos := CollectEvents(data.value);
      var eventosFiltrados := FilterByTag(todosLosEventos, categoria);
      loading := Hidden;
      if |eventosFiltrados| > 0 {
        grid := Cards(RenderGrid(eventosFiltrados));
        AttachSound(links);
      } else {
        grid := EmptyState(categoria);
      }
    }
  }
}
