# What's for Dinner — session and normaliser model

A Dafny model of the logic core of a browser client for a third-party recipe
catalog (the Edamam recipe search API). The client searches the catalog,
pages through results, and keeps a favorites list that survives page reloads.
Two source files hold all the logic that is not markup.

- `src/services/api.js` has two parts. The **recipe normaliser** turns a raw
  catalog record into the app's canonical recipe (`transformRecipe`,
  `transformRecipes`). The **search gateway** chooses the search request,
  shapes the response into a page, and looks a recipe up by id with a local
  fallback (`searchRecipes`, `getRandomSearchTerm`, `getRecipeById`,
  `findRecipeInLocalStorage`).
- `src/contexts/RecipeContext.jsx` is the **session state**. It holds the
  results, the favorites, the pagination cursor, two loading flags, one error
  slot and the search text. It offers fetch, load-more, refresh, search and
  favorite toggling.

Files and modules:

| file | module | models |
|---|---|---|
| `wrappers.dfy` | `Wrappers` | `Option` for null/undefined, `Result` for throw/return |
| `recipes.dfy` | `Recipes` | the canonical `Recipe`, a stored list slot, `find`/`some` by id |
| `upstream.dfy` | `Upstream` | raw catalog records, hits, URLs, response bodies, thrown errors |
| `normalizer.dfy` | `Normalizer` | `transformRecipe`, `transformRecipes` |
| `gateway.dfy` | `Gateway` | `searchRecipes`, `getRandomSearchTerm`, `findRecipeInLocalStorage`, `getRecipeById` |
| `session.dfy` | `Session` | `RecipeProvider` as the class `RecipeSession`, plus pure toggle and flag functions |
| `scenarios.dfy` | `Scenarios` | two runs of the session, checked as a client |

The session is a class whose methods update its seven fields. Each
asynchronous `fetchRecipes` is split into two steps:

- `BeginFetch` is the synchronous part before the `await`. It returns the
  arguments handed to `searchRecipes` as a `FetchCall`.
- `CompleteFetch(call, outcome)` is the part that runs when the request
  settles, with success or failure.

The gateway is split the same way:

- `BuildSearchRequest` is a method. Its loop copies the cursor's query
  parameters.
- `ShapeSearchResponse` turns the transport outcome into a page or an error.

## Model

| member | source | states |
|---|---|---|
| `Normalizer.SelfLinkId` | src/services/api.js:172-174 | the id is the non-empty run after the last '/' that ends the self-link; it is "" exactly when the link has no '/' or ends in '/' |
| `Normalizer.UriId` | src/services/api.js:175-178 | the id is the alphanumeric run after the leftmost "#recipe_" followed by an alphanumeric; "" exactly when no such marker occurs |
| `Normalizer.FirstMarkerFrom` | src/services/api.js:177 | the regex search finds the leftmost match position, and no earlier position matches |
| `Normalizer.ResolveId` | src/services/api.js:170-179 | the id is never empty; a non-empty self-link decides alone, without the uri, falling back to "recipe_"+suffix; otherwise the uri fragment, else "recipe_"+suffix |
| `Normalizer.FilterAllowed` | src/services/api.js:182-205 | a label survives exactly when it is one of the 16 allow-listed labels |
| `Normalizer.FilterAllowedAppend` | src/services/api.js:182-185 | survivors keep their order, with the diet-label survivors before the health-label survivors |
| `Normalizer.Tags` | src/services/api.js:182-220 | tags are never empty; each is allow-listed or "General"; "General" appears exactly when no label survives, and then the tags are exactly ["General"]; otherwise tags are the survivors in order |
| `Normalizer.Cuisine` | src/services/api.js:207-212 | the cuisine always ends in " Kitchen"; it is "Global Kitchen" without a cuisine type, else the first type capitalised |
| `Normalizer.Capitalize` | src/services/api.js:210 | only the first character is upper-cased; the length and the rest are unchanged |
| `Normalizer.Ceil` | src/services/api.js:219 | `Math.ceil`: the least integer at or above x |
| `Normalizer.Round` | src/services/api.js:225 | `Math.round`: the integer within one half of x, halves rounding up |
| `Normalizer.Servings` | src/services/api.js:219 | servings is never 0: it is the ceiling of the yield, or 4 when the yield is missing or its ceiling is 0; a positive yield gives positive servings |
| `Normalizer.Calories` | src/services/api.js:225 | calories are the rounded value, or 0 when missing; non-negative input gives a non-negative result |
| `Normalizer.OrElse` | src/services/api.js:216-217 | JavaScript `s or fallback`: a non-empty string is kept, otherwise the fallback is used; with a non-empty fallback the result is never empty |
| `Normalizer.TransformRecipe` | src/services/api.js:165-229 | an absent record gives null; a present one gives a normalised recipe (non-empty id and name, non-empty tags, " Kitchen" cuisine, non-zero servings, `isFavorite` false) built from the id, tag, cuisine and number rules; the name is the label or "Unnamed Recipe", the image the record's or the placeholder, the source the record's or ""; ingredients, nutrients and total time are the record's or [], {} and 0; the url passes through |
| `Normalizer.TransformHits` | src/services/api.js:154-162 | one recipe per hit that carries a record, so the output is never longer than the hits; every output is normalised |
| `Normalizer.TransformHitsAppend` | src/services/api.js:154-162 | a bad hit removes only itself: two runs of hits give their two outputs one after the other, in order |
| `Normalizer.TransformHitsAllPresent` | src/services/api.js:154-162 | when every hit has a record, output k is the transform of hit k |
| `Normalizer.TransformRecipes` | src/services/api.js:147-163 | missing data or a missing hits array gives []; otherwise the recipes are the transforms of the hits that carry a record, in hit order (`TransformHits`) |
| `Gateway.RandomIndex` | src/services/api.js:29 | every draw in [0,1) gives an index in range, namely the floor of draw × 25 |
| `Gateway.GetRandomSearchTerm` | src/services/api.js:28-31 | every draw yields a non-empty popular search term |
| `Gateway.IndexOfFrom` | src/services/api.js:42 | the first occurrence of the pattern at or after a position, or none at all |
| `Gateway.RemoveFirst` | src/services/api.js:42 | `replace` with a string pattern cuts out the first occurrence only; a path without the pattern is unchanged |
| `Gateway.ParamsOf` | src/services/api.js:43-48 | the parameter object has exactly the keys of the URL's entries |
| `Gateway.ParamsOfLastWins` | src/services/api.js:46-48 | a repeated key keeps the value of its last entry |
| `Gateway.BuildSearchRequest` | src/services/api.js:34-73 | a set cursor wins: its path minus the API base and its parameters are replayed, and query and filters are ignored; an empty query sends a popular term with random=true; otherwise q=query; filters override q |
| `Gateway.NextPage` | src/services/api.js:82 | the next link is kept only when its href is non-empty, else null |
| `Gateway.ShapeSearchResponse` | src/services/api.js:75-91 | a transport error is rethrown; a body without a hits array is an empty page with no cursor, not an error; otherwise the cursor is the next link and the recipes are `TransformRecipes` of the body, each normalised |
| `Gateway.FindRecipeInLocalStorage` | src/services/api.js:122-144 | the first favorite with the id, else the first recently viewed entry with it, else null; a favorites slot that does not parse as JSON gives null; a found record has the requested id |
| `Gateway.GetRecipeById` | src/services/api.js:95-119 | a record in the body gives its transform without a self-link, so its id comes from its uri; a body without one fails with "Recipe not found" and no fallback; only a 404 consults local storage; a miss there, or any other failure, rethrows the original error |
| `Gateway.ByIdIgnoresRequestedId` | src/services/api.js:105 | a record fetched by id without a uri comes back under a synthesised id, not under the id that was requested |
| `Recipes.FindById` | src/contexts/RecipeContext.jsx:111 | `find` returns a record exactly when one has the id, and that record is the first such |
| `Session.ErrorMessage` | src/contexts/RecipeContext.jsx:80 | the stored error is the error's message, or a fixed default when that is empty; it is never empty |
| `Session.LoadFavorites` | src/contexts/RecipeContext.jsx:18-30 | a stored array of records becomes the favorites; a missing value or one that does not parse as JSON leaves them empty |
| `Session.MarkFavorites` | src/contexts/RecipeContext.jsx:63-67 | same length; every flag equals membership of its id in the favorites; no other field changes |
| `Session.FlipFlags` | src/contexts/RecipeContext.jsx:131-137 | entries with the id have their flag flipped; all others are unchanged |
| `Session.WithoutId` | src/contexts/RecipeContext.jsx:123 | every entry with the id is removed and every other entry is kept |
| `Session.WithoutIdAppend` | src/contexts/RecipeContext.jsx:123 | the filter works entry by entry, so kept entries stay in order |
| `Session.ToggleTarget` | src/contexts/RecipeContext.jsx:111 | the toggled record is the first result with the id, else the first favorite with it; it exists exactly when either list holds the id |
| `Session.Toggle` | src/contexts/RecipeContext.jsx:109-138 | an id in neither list changes nothing; a favorite id loses all its entries; otherwise exactly one flagged copy is appended; result flags for the id flip; no other id's membership changes |
| `Session.ToggleKeepsFlagsConsistent` | src/contexts/RecipeContext.jsx:119-137 | if every result's flag matched favorites membership before a toggle, it still does after |
| `Session.WithoutIdKeepsUnique` | src/contexts/RecipeContext.jsx:123 | filtering never creates duplicate ids |
| `Session.ToggleKeepsFavoritesUnique` | src/contexts/RecipeContext.jsx:118-128 | a toggle never gives the favorites two entries with the same id |
| `Session.ToggleTwice` | src/contexts/RecipeContext.jsx:109-137 | two toggles of an id held in the results restore the results and the id's membership; from a non-favorite, they restore both lists exactly |
| `Session.ToggleMembership` | src/contexts/RecipeContext.jsx:119-128 | one toggle flips membership of the toggled id and keeps that of every other id held in the results |
| `Session.ToggleParity` | src/contexts/RecipeContext.jsx:109-137 | after any sequence of toggles, an id held in the results is a favorite exactly when it was before XOR it was toggled an odd number of times |
| `Session.ParityNeedsResults` | src/contexts/RecipeContext.jsx:111-121 | a favorite held only among the favorites and toggled twice is no longer a favorite: the second toggle finds no record to add |
| `Session.ToggleAllKeepsFlagsConsistent` | src/contexts/RecipeContext.jsx:109-137 | any sequence of toggles keeps the flags consistent |
| `Session.RecipeSession.constructor` | src/contexts/RecipeContext.jsx:9-36 | the initial state: favorites from storage (empty when missing or not parseable as JSON), no results, and the initial fresh fetch started |
| `Session.RecipeSession.HasMoreRecipes` | src/contexts/RecipeContext.jsx:150 | `hasMoreRecipes` is true exactly when a non-empty cursor is held |
| `Session.RecipeSession.SetSearchQuery` | src/contexts/RecipeContext.jsx:146 | the search text is replaced |
| `Session.RecipeSession.BeginFetch` | src/contexts/RecipeContext.jsx:49-60 | starting a fetch clears the error; a fresh fetch raises `loading` and drops the cursor; a load-more raises `loadingMore` and sends the stored cursor; the lists are untouched |
| `Session.RecipeSession.CompleteFetch` | src/contexts/RecipeContext.jsx:61-87 | success: a fresh fetch replaces the results, a load-more appends (old list is an unchanged prefix, length adds up), every new flag matches membership, and the cursor becomes the next page; failure: the error is set, a fresh fetch empties the results and a load-more keeps them; both flags end lowered; flag consistency is kept |
| `Session.RecipeSession.LoadMoreRecipes` | src/contexts/RecipeContext.jsx:91-95 | a no-op without a cursor or while a load-more is pending; otherwise a load-more with the stored cursor; `loading` is not consulted |
| `Session.RecipeSession.RefreshRandomRecipes` | src/contexts/RecipeContext.jsx:98-101 | clears the search text and starts a fresh fetch of the empty query |
| `Session.RecipeSession.HandleSearch` | src/contexts/RecipeContext.jsx:104-106 | starts a fresh fetch of the current search text |
| `Session.RecipeSession.ToggleFavorite` | src/contexts/RecipeContext.jsx:109-138 | both lists are written together, exactly as `Toggle` says; flag consistency and unique favorite ids are kept |
| `Scenarios.PaginationScenario` | src/contexts/RecipeContext.jsx:49-95 | a search with 20 results and a cursor, then a load-more: the request replays the cursor's parameters, and the page is appended to give 20+k results |
| `Scenarios.SearchDuringLoadMore` | src/contexts/RecipeContext.jsx:91-106 | a search started while a load-more is pending leaves `loading` and `loadingMore` both raised |

### Behaviour of the code that a reader might not expect

- A fresh search and a load-more are not mutually exclusive.
  `loadMoreRecipes` does not look at `loading`, and `handleSearch` does not
  look at `loadingMore`. Either completion then
  lowers both flags. `Scenarios.SearchDuringLoadMore` shows both flags raised
  at once.
- A stored favorites value that fails to parse is cleared on start-up,
  though not by the load effect, which only logs the parse failure and
  keeps the favorites empty. The save effect depends on `favorites`, so it
  also runs on mount, right after the load effect, and writes the first
  render's `[]` to the slot. After a failed parse nothing changes
  `favorites`, so the slot stays `"[]"`; after a successful one the next
  save writes the parsed list back.
- `calories` and `servings` are not forced to be non-negative. The code
  passes negative inputs through: `Math.round(-3.2)` is -3, and
  `Math.ceil(-2.5)` is -2. The model states only what the code guarantees:
  servings is never 0, and a non-negative input gives a non-negative result.
- Failures are not sorted into rate-limit, authentication and not-found
  messages. The code stores `err.message`, or a fixed default when that is
  empty.
- `toggleFavorite` flips each matching result's flag rather than recomputing
  it. The flags stay consistent only because they were consistent before
  (`Session.ToggleKeepsFlagsConsistent`).
- A recipe is not always a favorite exactly when it was toggled an odd
  number of times. The code finds the record to add only in the results
  or the favorites. An id held only among the favorites is removed by its
  first toggle, and a second toggle then finds nothing to add
  (`Session.ParityNeedsResults`). The parity law holds for ids held in the
  results (`Session.ToggleParity`).
- `getRecipeById(id)` does not set the result's id to the requested id. The record
  is normalised without a self-link, so its id comes from its uri, or is
  synthesised when the uri has no "#recipe_" fragment
  (`Gateway.ByIdIgnoresRequestedId`).

## Left out

- HTTP transport (axios), the credentials, and the `type=public` parameter
  that the client instance adds to every request are not modelled. A request
  is a `Gateway.Request` value. A response is an input: a body, or an
  `ApiError` carrying an optional status.
- `new URL` parsing is not modelled. A continuation URL arrives already split
  into its href, pathname and search-parameter entries.
- `Math.random` is not modelled. `getRandomSearchTerm` takes the drawn
  number in [0, 1). A synthesised id takes its random suffix as a parameter,
  and `transformRecipes` takes one suffix per hit.
- `localStorage` and `JSON.parse`/`JSON.stringify` are not modelled.
  Start-up favorites and the by-id fallback slots are `StoredList` values:
  missing, not parseable as JSON, or an array of records. A stored value
  that parses but is not an array of records is not modelled. The source
  treats it two ways. At start-up it becomes the favorites as it is
  (src/contexts/RecipeContext.jsx:21-25): `[null]`, `{}` or `5` with no
  error, and a stored `"null"` too, although there `parsedFavorites.length`
  then throws and the catch swallows it, leaving the favorites `null`. In
  the by-id fallback, `find` stops at the first match
  (src/services/api.js:128), so `[{id}, null]` still finds the record, while
  a `null` met before any match makes `find` throw and the lookup give
  nothing. The effect that saves the
  favorites on mount (with the initial `[]`) and after every change
  (src/contexts/RecipeContext.jsx:39-46) is not modelled. Console logging is not modelled.
- Asynchrony is reduced to sequential begin/complete steps. React state
  batching is not modelled. The stale closure over `favorites` in
  `fetchRecipes` is not modelled either: `CompleteFetch` marks the page
  against the favorites current at completion. In the program, the mount
  effect runs the first render's `fetchRecipes`, whose `favorites` is []
  (src/contexts/RecipeContext.jsx:18-36). With stored favorites, the first
  page therefore has every `isFavorite` false, so `CompleteFetch`'s promise
  of consistent flags after a fresh fetch does not describe the start-up
  fetch. Completions arriving in
  another order than their starts are not modelled either.
- JavaScript numbers are not modelled as IEEE floats. `yield` and `calories`
  are exact reals, and `None` stands for a missing or `null` value or one
  that `Math.ceil`/`Math.round` convert to NaN. Values those functions
  convert to a number are not modelled: numeric strings (`Math.ceil("6")` is
  6, `Math.round("250.6")` is 251), booleans (`Math.ceil(true)` is 1) and
  one-element arrays such as `[6]`. `totalTime` is an integer or `None`; a
  fractional number or a truthy non-number (`"30"`), which
  `recipe.totalTime || 0` passes through as it is, is not modelled.
- `Normalizer.Capitalize`: upper-cases ASCII letters only. The model does
  not capture full Unicode case mapping, including the cases where
  `toUpperCase` changes the length.
- Record fields of the wrong JSON type are not modelled: an `Option` field
  is absent, `null`, or of the expected type. The source treats such values
  as follows. A `cuisineType` that is a non-empty string gives its first
  character upper-cased plus " Kitchen"; a number or an object gives
  "Global Kitchen"; an array whose first entry is not a string throws a
  `TypeError`. A label list that is falsy (`0`, `false`, `""`) counts as
  empty; a non-empty string spreads into single characters, none of them
  allow-listed; any other non-array value (a non-zero number, `true`, an
  object) throws. A `uri` that is a truthy non-string throws, but only when
  the self-link is empty, since only then is the `uri` read. Numeric fields of another type are
  listed in the line on JavaScript numbers.
- The presentation files (pages, components, layout, `useMediaQuery`, build
  configuration) are not part of this model.
