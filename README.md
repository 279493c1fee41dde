# Events portal: event lookup, category filter and click-sound attachment

This project models, in Dafny, the data-selection and classification logic of
two page controllers of a static university events portal:

- the **event-detail page** (`ProyectoWeb/General/Scripts/detalle.js`): it reads
  the `id` query parameter, loads `data.json`, concatenates the weekly activities
  (`secciones.actividadesSemana.eventos`) and the featured events
  (`secciones.eventosDestacados.eventos`), finds the first event whose `id` is
  strictly equal to the parameter, and renders either the detail (with fallback
  literals for `hora`, `ubicacion`, `capacidad` and `organiza`, and a calendar
  badge when `fecha` has the `YYYY-MM-DD` shape) or an error panel;
- the **category page** (`ProyectoWeb/General/Scripts/categoria.js`): it reads
  the `nombre` parameter, loads the same document, keeps the events whose
  `etiqueta` equals it, and shows a grid of cards (featured-styled when the
  record has an own `categoria` property, each linking to `evento.html?id=<id>`)
  or an empty-state message;
- on both pages, the **idempotent attachment** of the click-sound listener:
  every selected element lacking the `data-sound-attached` marker gains one
  listener and the marker.

Layout, one module per file:

- `wrappers.dfy` — `Option` and `Result`.
- `js.dfy` — JavaScript values as the pages see them (`JsValue`), truthiness
  (`Truthy`, `Or` for `x || fallback`) and the string conversion of template
  interpolation (`ToText`).
- `events.dfy` — the event record and the document with its optional sections,
  the combined search list (`SearchList`, and `CollectEvents`, the accumulation
  both controllers perform), query parameters (`Get`, `RequiredParam`) and the
  load step (`Load`: network failure, non-ok response, parse failure, document).
- `sound.dfy` — the marker loop as an in-place method over an array of element
  records (`AttachSound`) and its specification `AttachAll`.
- `detalle.dfy` — lookup (`Find`), the date-shape classifier (`IsIsoDateShape`)
  with its zero-padded formatting partner, the structural render
  (`RenderEventDetail`), the page outcome as a function (`DetailPageResult`,
  `FetchAndRenderResult`) and the page as a class (`DetailPage`) whose methods are
  proved to produce that outcome.
- `categoria.dfy` — the filter (`FilterByTag`), cards and the grid
  (`CardFor`, `RenderGrid`), the page outcome (`CategoryPageResult`,
  `FetchAndFilterResult`) and the page as a class (`CategoryPage`).

Markup is modelled structurally: a rendered detail is a `DetailView` recording
which value went into which slot and which date block was chosen; a grid is a
sequence of `Card`s; error panels carry the exact message text the code builds.

Only `hora`, `ubicacion`, `capacidad` and `organiza` have default literals in the
detail render; `fecha` (and `titulo`, `imagenUrl`, `descripcionLarga`,
`etiqueta`) are interpolated as they are, so an event without `fecha` prints
`undefined` in the text block (`Detalle.MissingFechaShowsUndefined`). An empty
`id` or `nombre` (`?id=`) is treated like a missing one, since both are falsy,
and a truthy non-string `fecha` (a number, say) makes `fechaCompleta.match`
throw, which the controller's `catch` turns into the load-error panel.

## Model

| member | source | states |
|---|---|---|
| `Js.Truthy` | ProyectoWeb/General/Scripts/detalle.js:5 | JavaScript truthiness: `undefined`, `null`, `false`, `0` and `""` are falsy; its consequences are stated by `Detalle.FallbacksApplied`, `Detalle.DateBranch` and `Events.RequiredParam` |
| `Js.Or` | ProyectoWeb/General/Scripts/detalle.js:79-82 | `x \|\| fallback`: the value when truthy, the fallback literal otherwise (defined here; `Detalle.FallbacksApplied` states it for the four fields) |
| `Js.ToText` | ProyectoWeb/General/Scripts/categoria.js:108 | string conversion of template interpolation: a string as itself, `undefined`/`null`/booleans as their names, numbers via `Js.Decimal` (properties in `Js.DecimalRoundTrip`, `Categoria.DetailLinkNamesId`, `Detalle.MissingFechaShowsUndefined`) |
| `Js.Decimal` | ProyectoWeb/General/Scripts/categoria.js:108 | a numeric id interpolated into a link prints as a non-empty digit string without leading zeros |
| `Js.DecimalRoundTrip` | ProyectoWeb/General/Scripts/categoria.js:108 | the printed numeral reads back as the same number, so numeric ids print unambiguously |
| `Events.Get` | ProyectoWeb/General/Scripts/detalle.js:18-22 | `params.get(name)` is null exactly when no pair has that name, and otherwise returns a value paired with that name |
| `Events.GetFirst` | ProyectoWeb/General/Scripts/categoria.js:26-29 | `get` returns the value of the first pair with the name; later duplicates are ignored |
| `Events.RequiredParam` | ProyectoWeb/General/Scripts/detalle.js:5-8 | the `if (!id)` guard passes exactly a present, non-empty value; absent and empty both count as missing |
| `Events.WeeklyEvents` | ProyectoWeb/General/Scripts/detalle.js:41 | `data.secciones?.actividadesSemana?.eventos`, absent when any link is missing; `Events.CollectEvents` and `Events.SearchListMembers` state its use |
| `Events.FeaturedEvents` | ProyectoWeb/General/Scripts/detalle.js:46 | `data.secciones?.eventosDestacados?.eventos`, absent when any link is missing; `Events.CollectEvents` and `Events.SearchListMembers` state its use |
| `Events.SearchList` | ProyectoWeb/General/Scripts/detalle.js:38-48 | the combined search space, weekly activities then featured events; `Events.CollectEvents` is proved to build it and `Events.SearchListMembers`, `Events.NoSectionsNoEvents` state its contents |
| `Events.CollectEvents` | ProyectoWeb/General/Scripts/detalle.js:38-48 | the accumulated list is the weekly activities followed by the featured events, an absent section contributing nothing |
| `Events.NoSectionsNoEvents` | ProyectoWeb/General/Scripts/categoria.js:47-54 | a document without `secciones` gives an empty search list rather than an error |
| `Events.SearchListMembers` | ProyectoWeb/General/Scripts/categoria.js:47-54 | an event is searched exactly when it belongs to one of the two sections |
| `Events.Load` | ProyectoWeb/General/Scripts/detalle.js:30-35 | a document is obtained exactly from an ok response that parses; a non-ok response fails with "No se pudo cargar el archivo data.json" and is never parsed; a network failure and a parse failure each keep their own message |
| `Sound.Attach` | ProyectoWeb/General/Scripts/detalle.js:214-224 | one loop iteration on one element; `Sound.AttachAllEffect` states its effect |
| `Sound.AttachAll` | ProyectoWeb/General/Scripts/categoria.js:143-155 | the whole loop on the selection; `Sound.AttachAllAt`, `Sound.AttachAllEffect` and `Sound.AttachAllIdempotent` state its properties, `Sound.AttachSound` is proved to compute it |
| `Sound.AttachAllAt` | ProyectoWeb/General/Scripts/detalle.js:212-225 | the loop acts element by element: same elements, in order, each updated on its own |
| `Sound.AttachAllEffect` | ProyectoWeb/General/Scripts/categoria.js:143-155 | afterwards every element is marked; an unmarked one gained exactly one listener; a marked one is unchanged |
| `Sound.AttachAllIdempotent` | ProyectoWeb/General/Scripts/categoria.js:145 | a second attachment pass changes nothing |
| `Sound.AttachSound` | ProyectoWeb/General/Scripts/detalle.js:212-225 | the in-place loop leaves the selected elements exactly as the element-wise attachment specifies |
| `Detalle.EventIdParam` | ProyectoWeb/General/Scripts/detalle.js:18-22 | `getEventIdFromUrl()` with the `!eventId` guard; `Events.RequiredParam`, `Detalle.MissingIdShortCircuits` and `Detalle.PresentIdFetches` state what passes |
| `Detalle.Find` | ProyectoWeb/General/Scripts/detalle.js:51 | `find` returns nothing exactly when no event's id is strictly equal to the query; a returned event is in the list and has that id |
| `Detalle.FindIsFirst` | ProyectoWeb/General/Scripts/detalle.js:51 | the returned event is the first one carrying the id |
| `Detalle.FindConcat` | ProyectoWeb/General/Scripts/detalle.js:41-51 | searching a concatenation searches the first part and falls through to the second only on a miss |
| `Detalle.WeeklyShadowsFeatured` | ProyectoWeb/General/Scripts/detalle.js:40-51 | on a duplicated id the weekly activity wins; featured events are consulted only when no weekly activity matches |
| `Detalle.IsIsoDateShape` | ProyectoWeb/General/Scripts/detalle.js:89 | the anchored `^\d{4}-\d{2}-\d{2}$` test; `Detalle.FormatDate`, `Detalle.DateShapeIsFormatted` and `Detalle.FormattedDateParses` characterise it as exactly the zero-padded year-month-day strings, `Detalle.DateShapeExamples` checks samples |
| `Detalle.FormatDate` | ProyectoWeb/General/Scripts/detalle.js:89 | every zero-padded year-month-day rendering has the shape the classifier accepts |
| `Detalle.DateShapeIsFormatted` | ProyectoWeb/General/Scripts/detalle.js:89 | every string the classifier accepts is the zero-padded rendering of the triple it spells |
| `Detalle.FormattedDateParses` | ProyectoWeb/General/Scripts/detalle.js:89 | reading back a zero-padded rendering gives the original triple |
| `Detalle.DateShapeExamples` | ProyectoWeb/General/Scripts/detalle.js:89 | "2025-09-24" is accepted; "Lunes, Miércoles, Viernes", "2025-09-24T10:00" and "24-09-2025" are not |
| `Detalle.DateBlockFor` | ProyectoWeb/General/Scripts/detalle.js:85-127 | `fecha && fecha.match(re)` and the block it selects; `Detalle.DateBranch` states which branch is taken and when it throws |
| `Detalle.InscripcionLink` | ProyectoWeb/General/Scripts/detalle.js:176 | the registration link `inscripcion.html?id=<id>&titulo=<encoded title>`, or the URIError `encodeURIComponent` throws; `Detalle.InscripcionLinkNamesId` states its shape |
| `Detalle.InscripcionLinkNamesId` | ProyectoWeb/General/Scripts/detalle.js:176 | the link exists exactly when the title encodes; for a string id it is `inscripcion.html?id=` followed by exactly that id, then `&titulo=` and the encoded title |
| `Detalle.RenderEventDetail` | ProyectoWeb/General/Scripts/detalle.js:75-183 | the structural render of one event, or what it throws; `Detalle.FallbacksApplied`, `Detalle.DateBranch` and `Detalle.MissingFechaShowsUndefined` state its properties |
| `Detalle.DateBranch` | ProyectoWeb/General/Scripts/detalle.js:85-127 | the calendar badge is chosen exactly for a string `fecha` of the YYYY-MM-DD shape; otherwise `fecha` is shown verbatim in the text block; rendering throws exactly for a truthy non-string `fecha` (reported as the `match` TypeError) or a title the encoder rejects (reported as the encoder's error, the `fecha` error taking precedence); a rendered view carries the registration link |
| `Detalle.FallbacksApplied` | ProyectoWeb/General/Scripts/detalle.js:79-82 | hour, place, capacity and organiser are never falsy in the view: truthy values are shown unchanged and falsy ones (including "" and 0) become '09:00-17:00', 'Lugar no especificado', 'N/A', 'No especificado' |
| `Detalle.MissingFechaShowsUndefined` | ProyectoWeb/General/Scripts/detalle.js:78 | `fecha` has no fallback: without it the render succeeds exactly when the title encodes, and then the text block prints `undefined` |
| `Detalle.FetchAndRenderResult` | ProyectoWeb/General/Scripts/detalle.js:29-68 | the fetch-and-render outcome; `Detalle.LoadFailureShowsMessage`, `Detalle.NotFoundQuotesId` and `Detalle.RenderedIsRequestedEvent` state its branches, `Detalle.DetailPage.FetchAndRenderEvent` is proved to produce it |
| `Detalle.DetailPageResult` | ProyectoWeb/General/Scripts/detalle.js:1-12 | the page-load outcome; `Detalle.MissingIdShortCircuits` states the guard, `Detalle.DetailPage.Open` is proved to produce it |
| `Detalle.NotFoundMessage` | ProyectoWeb/General/Scripts/detalle.js:61 | the not-found text quoting the id; `Detalle.NotFoundQuotesId` states where the id sits between the quotes |
| `Detalle.LoadErrorMessage` | ProyectoWeb/General/Scripts/detalle.js:66 | "Ocurrió un error al cargar los datos: " followed by the error message; `Detalle.LoadFailureShowsMessage` and `Detalle.FoundEventIsRendered` state when it is shown |
| `Detalle.MissingIdShortCircuits` | ProyectoWeb/General/Scripts/detalle.js:1-8 | a missing or empty `id` gives the missing-id error panel whatever the data, with no render and no sound |
| `Detalle.PresentIdFetches` | ProyectoWeb/General/Scripts/detalle.js:9-11 | a present, non-empty `id` leads to fetch-and-render for exactly that id |
| `Detalle.LoadFailureShowsMessage` | ProyectoWeb/General/Scripts/detalle.js:64-67 | a failed load shows "Ocurrió un error al cargar los datos: " followed by the error message, never a rendered detail |
| `Detalle.NotFoundQuotesId` | ProyectoWeb/General/Scripts/detalle.js:59-62 | when no event has the id the error panel quotes the requested id |
| `Detalle.FoundEventIsRendered` | ProyectoWeb/General/Scripts/detalle.js:53-58 | when an event with the requested id is found and renders, the container holds its detail and sound is attached; a render that throws gives the load-error panel with its message |
| `Detalle.RenderedIsRequestedEvent` | ProyectoWeb/General/Scripts/detalle.js:50-58 | sound is attached exactly when a detail is rendered; a rendered detail is the render of the first event with the requested id and its registration link starts with `inscripcion.html?id=<id>` |
| `Detalle.DetailPage.Open` | ProyectoWeb/General/Scripts/detalle.js:1-12 | the page's container and selected buttons end in the state the page-outcome function prescribes |
| `Detalle.DetailPage.FetchAndRenderEvent` | ProyectoWeb/General/Scripts/detalle.js:29-68 | load, combine, find and render leave the container and buttons as the fetch-and-render outcome prescribes; buttons change only when a detail was rendered |
| `Categoria.CategoryParam` | ProyectoWeb/General/Scripts/categoria.js:26-29 | `getCategoryFromUrl()` with the `!categoria` guard; `Events.RequiredParam`, `Categoria.MissingCategoryShortCircuits` and `Categoria.PresentCategoryFetches` state what passes |
| `Categoria.HasTag` | ProyectoWeb/General/Scripts/categoria.js:58 | the filter predicate `evento.etiqueta === categoria`: strict and case-sensitive, a non-string tag never matches; `Categoria.FilterByTag` and `Categoria.FilterIsOrderedSelection` state the filter in its terms |
| `Categoria.FilterByTag` | ProyectoWeb/General/Scripts/categoria.js:57-59 | every kept event carries the tag and comes from the input, and every tagged input event is kept |
| `Categoria.FilterIsOrderedSelection` | ProyectoWeb/General/Scripts/categoria.js:56-59 | the filter result is a subsequence of the combined list (order preserved) whose length is the number of tagged events |
| `Categoria.FilterConcat` | ProyectoWeb/General/Scripts/categoria.js:47-59 | filtering a concatenation is the concatenation of the filtered parts |
| `Categoria.FilteredSearchList` | ProyectoWeb/General/Scripts/categoria.js:46-59 | the filtered search list is the tagged weekly events followed by the tagged featured events |
| `Categoria.RenderGrid` | ProyectoWeb/General/Scripts/categoria.js:99-129 | the grid is one card per filtered event, in the same order |
| `Categoria.IsFeatured` | ProyectoWeb/General/Scripts/categoria.js:101 | `evento.hasOwnProperty('categoria')`, true even for a falsy value; `Categoria.CardClassIffOwnCategoria` states the class it selects |
| `Categoria.CardFor` | ProyectoWeb/General/Scripts/categoria.js:99-128 | the card template applied to one event; `Categoria.CardClassIffOwnCategoria` and `Categoria.DetailLinkNamesId` state its class and link |
| `Categoria.DetailLink` | ProyectoWeb/General/Scripts/categoria.js:108 | the link `evento.html?id=<id>`; `Categoria.DetailLinkNamesId` states that it names the id and is injective on string ids |
| `Categoria.CardClassIffOwnCategoria` | ProyectoWeb/General/Scripts/categoria.js:101-105 | a card has class 'card-evento destacado-filtrado' exactly when the event has an own `categoria` property, and 'card-evento' exactly when it has not |
| `Categoria.DetailLinkNamesId` | ProyectoWeb/General/Scripts/categoria.js:108 | a card's link is `evento.html?id=` followed by the id, so different ids give different links |
| `Categoria.FetchAndFilterResult` | ProyectoWeb/General/Scripts/categoria.js:37-85 | the fetch-and-filter outcome; `Categoria.LoadFailureLeavesGrid` and `Categoria.LoadedOutcome` state its branches, `Categoria.CategoryPage.FetchAndFilterEvents` is proved to produce it |
| `Categoria.CategoryPageResult` | ProyectoWeb/General/Scripts/categoria.js:1-20 | the page-load outcome; `Categoria.MissingCategoryShortCircuits` states the guard, `Categoria.CategoryPage.Open` is proved to produce it |
| `Categoria.CategoryTitle` | ProyectoWeb/General/Scripts/categoria.js:16 | "Eventos en la categoría: " followed by the category; `Categoria.PresentCategoryFetches` and `Categoria.LoadedOutcome` state when it is the title |
| `Categoria.LoadErrorText` | ProyectoWeb/General/Scripts/categoria.js:82 | "Error al cargar los datos: " followed by the error message; `Categoria.LoadFailureLeavesGrid` states when it is shown |
| `Categoria.MissingCategoryShortCircuits` | ProyectoWeb/General/Scripts/categoria.js:8-13 | a missing or empty `nombre` gives the error title and the "select a valid category" prompt whatever the data, leaves the loading message alone and attaches no sound |
| `Categoria.PresentCategoryFetches` | ProyectoWeb/General/Scripts/categoria.js:15-19 | a present, non-empty `nombre` sets the title "Eventos en la categoría: <nombre>" and leads to fetch-and-filter for exactly that category |
| `Categoria.LoadFailureLeavesGrid` | ProyectoWeb/General/Scripts/categoria.js:80-84 | a failed load puts "Error al cargar los datos: " and the message into the loading message and leaves the grid untouched |
| `Categoria.LoadedOutcome` | ProyectoWeb/General/Scripts/categoria.js:61-78 | after a load the loading message is hidden; the empty state naming the category appears exactly when no event has the tag; when some event has the tag the grid is shown and sound is attached; the k-th card is the card of the k-th event of the filtered list, one per tagged event |
| `Categoria.CategoryPage.Open` | ProyectoWeb/General/Scripts/categoria.js:1-20 | title, loading message, grid and selected links end in the state the page-outcome function prescribes |
| `Categoria.CategoryPage.FetchAndFilterEvents` | ProyectoWeb/General/Scripts/categoria.js:37-85 | load, combine, filter and render leave loading message, grid and links as the fetch-and-filter outcome prescribes, and the title unchanged |

## Left out

- `fetch`, `response.ok` and `response.json()` are network and JSON-parse plumbing: their outcome is an input (`FetchResult`); a top-level JSON value that is not an object, a section whose `eventos` is a truthy non-array, and event entries that are not objects are not modelled.
- URL parsing by `URLSearchParams` (percent-decoding, `+`) is left out: the query arrives as the list of decoded name/value pairs.
- JavaScript numbers are modelled as integers: NaN, `-0`, fractions and exponent notation are not represented; arrays stored in fields are treated as plain objects by `ToText`.
- Locale date formatting (`new Date(...)`, `toLocaleDateString('es-CO', ...)`, `toUpperCase().replace('.', '')`) is a foreign call into locale data: it is the function parameter `localDate` of the renderer, and the badge records what it returns.
- `encodeURIComponent` is a library function: it is the function parameter `encodeURIComponent`, returning the encoded text or the message of the URIError it throws; only the shape of the registration link and the propagation of that error are modelled.
- Detalle.RenderEventDetail: strings are sequences of Unicode scalar values, so a title holding a lone surrogate (such as the JSON `"\ud800"`), the input on which the real `encodeURIComponent` throws "URI malformed", cannot be written; the model admits that throw only through an encoder that returns a failure, and does not tie failure to that input.
- The text of `MATCH_NOT_A_FUNCTION` is V8's wording for the TypeError; other engines word it differently.
- DOM writes (`innerHTML`, `textContent`, `style.display`, `style.maxWidth`, `className`), template whitespace and the absence of HTML escaping are not modelled; the page classes record which branch was taken and which values were used. `querySelectorAll` is abstracted: the elements its selector matches are the array the page object is built with.
- `Audio` playback inside the listeners (pause, rewind, `play().catch`) is media I/O; only the marker and listener bookkeeping is modelled.
- `console.error` logging is diagnostic output and is not modelled.
- `inscripcion.js`, `feedback.js` and `script.js` are not part of this model: they only inject text, toggle sections on timers, validate forms in the browser and scroll.
