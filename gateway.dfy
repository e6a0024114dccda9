/** The remote search gateway of `src/services/api.js`: which request
    `searchRecipes` sends, how its response becomes a page of recipes, and the
    by-id lookup with its local fallback. The HTTP exchange itself is not
    modelled: a request is a value, a response is an input. */
module Gateway {
  import opened Wrappers
  import opened Recipes
  import opened Upstream
  import opened Normalizer

  /** The terms an empty search draws from. */
  const PopularSearchTerms: seq<string> := [
    "chicken", "pasta", "vegetarian", "soup", "salmon",
    "beef", "dinner", "quick", "breakfast", "salad",
    "easy", "dessert", "healthy", "rice", "steak",
    "mexican", "italian", "asian", "mediterranean", "indian",
    "fish", "pork", "bread", "vegan", "grilled"]
  /** The base path of the search endpoint, stripped from continuation paths. */
  const ApiPathPrefix: string := "/api/recipes/v2"
  const RecipeNotFound: string := "Recipe not found"
  const NotFoundStatus: int := 404

  // ---------------------------------------------------------------- random term

  /** `Math.floor(random * POPULAR_SEARCH_TERMS.length)` for a draw of `Math.random()`. */
  function RandomIndex(random: real): (i: nat)
    requires 0.0 <= random < 1.0
    ensures i < |PopularSearchTerms|
    ensures i as real <= random * |PopularSearchTerms| as real < i as real + 1.0
  {
    (random * |PopularSearchTerms| as real).Floor
  }

  /** `getRandomSearchTerm()`: every draw in [0, 1) picks a popular term. */
  function GetRandomSearchTerm(random: real): (term: string)
    requires 0.0 <= random < 1.0
    ensures term in PopularSearchTerms
    ensures term != ""
  {
    PopularSearchTerms[RandomIndex(random)]
  }

  // ---------------------------------------------------------------- continuation

  /** `pat` occurs in `s` at position `i`. */
  predicate OccursAt(s: string, pat: string, i: nat) {
    i + |pat| <= |s| && s[i..i + |pat|] == pat
  }

  /** The first position at or after `from` where `pat` occurs. */
  function IndexOfFrom(s: string, pat: string, from: nat): (r: Option<nat>)
    requires from <= |s|
    decreases |s| - from
    ensures r.Some? ==> from <= r.value && OccursAt(s, pat, r.value)
    ensures r.Some? ==> forall j: nat :: from <= j < r.value ==> !OccursAt(s, pat, j)
    ensures r.None? ==> forall j: nat :: from <= j ==> !OccursAt(s, pat, j)
  {
    if from + |pat| > |s| then None
    else if OccursAt(s, pat, from) then Some(from)
    else IndexOfFrom(s, pat, from + 1)
  }

  /** `s.replace(pat, '')`: the first occurrence of `pat` is cut out; a string
      without `pat` is returned unchanged. */
  function RemoveFirst(s: string, pat: string): (r: string)
    ensures (forall j: nat :: !OccursAt(s, pat, j)) ==> r == s
    ensures OccursAt(s, pat, 0) ==> r == s[|pat|..]
    ensures IndexOfFrom(s, pat, 0).Some? ==> |r| == |s| - |pat|
    ensures IndexOfFrom(s, pat, 0).Some? ==>
      var i := IndexOfFrom(s, pat, 0).value; r == s[..i] + s[i + |pat|..]
  {
    match IndexOfFrom(s, pat, 0)
    case None => s
    case Some(i) => s[..i] + s[i + |pat|..]
  }

  /** The object the `for ... of url.searchParams.entries()` loop builds:
      each entry assigns its key, so a later entry overrides an earlier one. */
  function ParamsOf(entries: seq<(string, string)>): (m: map<string, string>)
    ensures forall k :: k in m <==> exists j :: 0 <= j < |entries| && entries[j].0 == k
  {
    if entries == [] then map[]
    else
      var last := entries[|entries| - 1];
      var m := ParamsOf(entries[..|entries| - 1])[last.0 := last.1];
      assert forall j :: 0 <= j < |entries| - 1 ==> entries[..|entries| - 1][j] == entries[j];
      m
  }

  /** The value a key ends up with is that of its last entry. */
  lemma {:induction false} ParamsOfLastWins(entries: seq<(string, string)>, i: nat)
    requires i < |entries|
    requires forall j :: i < j < |entries| ==> entries[j].0 != entries[i].0
    ensures entries[i].0 in ParamsOf(entries)
    ensures ParamsOf(entries)[entries[i].0] == entries[i].1
  {
    if i < |entries| - 1 {
      var init := entries[..|entries| - 1];
      assert init[i] == entries[i];
      ParamsOfLastWins(init, i);
    }
  }

  // ---------------------------------------------------------------- request

  /** A GET against the search endpoint: a path below the base URL and its
      query parameters (the credentials and `type=public` that the client
      instance adds to every call are not part of the model). */
  datatype Request = Request(path: string, params: map<string, string>)

  /** The request `searchRecipes(query, filters, nextUrl)` sends. A set
      continuation URL wins and is replayed (its path without the API base,
      its query parameters), ignoring `query` and `filters`; otherwise an
      empty query searches a random popular term with `random=true`, and a
      non-empty one searches the query, the filters being spread after `q`
      so that they override it. */
  method BuildSearchRequest(query: string, filters: map<string, string>, nextUrl: Option<Url>, random: real)
    returns (req: Request)
    requires 0.0 <= random < 1.0
    ensures IsSet(nextUrl) ==> req.path == RemoveFirst(nextUrl.value.pathname, ApiPathPrefix)
    ensures IsSet(nextUrl) ==> req.params == ParamsOf(nextUrl.value.searchParams)
    ensures !IsSet(nextUrl) ==> req.path == ""
    ensures !IsSet(nextUrl) ==> forall k :: k in filters ==> k in req.params && req.params[k] == filters[k]
    ensures !IsSet(nextUrl) && query == "" ==> req.params.Keys == {"q", "random"} + filters.Keys
    ensures !IsSet(nextUrl) && query == "" && "q" !in filters ==> req.params["q"] in PopularSearchTerms
    ensures !IsSet(nextUrl) && query == "" && "random" !in filters ==> req.params["random"] == "true"
    ensures !IsSet(nextUrl) && query != "" ==> req.params.Keys == {"q"} + filters.Keys
    ensures !IsSet(nextUrl) && query != "" && "q" !in filters ==> req.params["q"] == query
  {
    if IsSet(nextUrl) {
      var path := RemoveFirst(nextUrl.value.pathname, ApiPathPrefix);
      var entries := nextUrl.value.searchParams;
      var params: map<string, string> := map[];
      for i := 0 to |entries|
        invariant params == ParamsOf(entries[..i])
      {
        assert entries[..i + 1][..i] == entries[..i];
        params := params[entries[i].0 := entries[i].1];
      }
      assert entries[..|entries|] == entries;
      req := Request(path, params);
    } else if query == "" {
      var term := GetRandomSearchTerm(random);
      req := Request("", map["q" := term, "random" := "true"] + filters);
    } else {
      req := Request("", map["q" := query] + filters);
    }
  }

  // ---------------------------------------------------------------- response

  /** What `searchRecipes` resolves to. */
  datatype SearchResult = SearchResult(recipes: seq<Recipe>, nextPage: Option<Url>)

  /** `data._links?.next?.href || null` */
  function NextPage(next: Option<Url>): (r: Option<Url>)
    ensures r.Some? <==> IsSet(next)
    ensures r.Some? ==> r == next
  {
    if IsSet(next) then next else None
  }

  /** The number of hits a transport outcome offers to the transform. */
  function ResponseHitCount(resp: Result<Option<ResponseData>, ApiError>): nat {
    if resp.Success? then HitCount(resp.value) else 0
  }

  /** The response half of `searchRecipes`: a transport error is rethrown; a
      body without a `hits` array is an empty last page, not an error;
      otherwise the page is the transformed hits and the next page is the
      `next` link when it is set. Hit `k` draws `suffixes[k]` for a
      synthesised id. */
  function ShapeSearchResponse(resp: Result<Option<ResponseData>, ApiError>, suffixes: seq<string>)
    : (r: Result<SearchResult, ApiError>)
    requires |suffixes| == ResponseHitCount(resp)
    ensures resp.Failure? ==> r == Failure(resp.error)
    ensures resp.Success? ==> r.Success?
    ensures resp.Success? && (resp.value.None? || resp.value.value.hits.None?) ==>
      r.value == SearchResult([], None)
    ensures resp.Success? && resp.value.Some? && resp.value.value.hits.Some? ==>
      r.value.nextPage == NextPage(resp.value.value.next)
      && |r.value.recipes| == CountWithRecipe(resp.value.value.hits.value)
    ensures resp.Success? ==> r.value.recipes == TransformRecipes(resp.value, suffixes)
    ensures r.Success? ==> IsSet(r.value.nextPage) || r.value.nextPage.None?
    ensures r.Success? ==> forall x :: x in r.value.recipes ==> Normalized(x)
  {
    match resp
    case Failure(e) => Failure(e)
    case Success(data) =>
      if data.None? || data.value.hits.None? then Success(SearchResult([], None))
      else Success(SearchResult(TransformRecipes(data, suffixes), NextPage(data.value.next)))
  }

  // ---------------------------------------------------------------- by id

  /** The two browser-storage slots the by-id fallback reads. */
  datatype LocalStore = LocalStore(favorites: StoredList, recentlyViewed: StoredList)

  /** The slot parsed and holds a record with this id. */
  predicate InSlot(slot: StoredList, id: string) {
    slot.Entries? && HasId(slot.records, id)
  }

  /** `findRecipeInLocalStorage(id)`: the first favorite with this id, else
      the first recently viewed record with it, else nothing. Any parse
      failure ends the lookup with nothing, so unreadable favorites hide the
      recently viewed slot too. */
  function FindRecipeInLocalStorage(id: string, store: LocalStore): (r: Option<Recipe>)
    ensures r.Some? ==> r.value.id == id
    ensures InSlot(store.favorites, id) ==> r == FindById(store.favorites.records, id)
    ensures r.Some? && !InSlot(store.favorites, id) ==>
      store.recentlyViewed.Entries? && r == FindById(store.recentlyViewed.records, id)
    ensures r.None? <==>
      store.favorites.Unreadable? || (!InSlot(store.favorites, id) && !InSlot(store.recentlyViewed, id))
  {
    if store.favorites.Unreadable? then None
    else if InSlot(store.favorites, id) then FindById(store.favorites.records, id)
    else if store.recentlyViewed.Entries? then FindById(store.recentlyViewed.records, id)
    else None
  }

  /** `getRecipeById(id)` given the transport outcome of the by-id request.
      A body with a record is normalised (without a self-link). A body without
      one throws "Recipe not found", which carries no HTTP status and so never
      reaches the fallback. Only a 404 consults local storage; when that finds
      nothing, or for any other failure, the original error is rethrown. */
  function GetRecipeById(id: string, resp: Result<Option<DetailData>, ApiError>, store: LocalStore, suffix: string)
    : (r: Result<Recipe, ApiError>)
    ensures resp.Success? && resp.value.Some? && resp.value.value.recipe.Some? ==>
      r == Success(TransformRecipe(resp.value.value.recipe, "", suffix).value)
      && Normalized(r.value)
      && r.value.id == ResolveId("", resp.value.value.recipe.value.uri, suffix)
    ensures resp.Success? && (resp.value.None? || resp.value.value.recipe.None?) ==>
      r == Failure(ApiError(None, RecipeNotFound))
    ensures resp.Failure? && resp.error.status != Some(NotFoundStatus) ==> r == Failure(resp.error)
    ensures resp.Failure? && resp.error.status == Some(NotFoundStatus) ==>
      (r.Success? <==> FindRecipeInLocalStorage(id, store).Some?)
    ensures resp.Failure? && r.Success? ==>
      r.value.id == id && Some(r.value) == FindRecipeInLocalStorage(id, store)
    ensures resp.Failure? && r.Failure? ==> r.error == resp.error
  {
    match resp
    case Success(data) =>
      if data.Some? && data.value.recipe.Some? then
        Success(TransformRecipe(data.value.recipe, "", suffix).value)
      else
        Failure(ApiError(None, RecipeNotFound))
    case Failure(e) =>
      if e.status == Some(NotFoundStatus) then
        match FindRecipeInLocalStorage(id, store)
        case Some(x) => Success(x)
        case None => Failure(e)
      else
        Failure(e)
  }

  /** A record fetched by id is identified by its own `uri`, not by the id
      that was requested: a record without a uri comes back with a
      synthesised id, whatever id the request named. */
  lemma ByIdIgnoresRequestedId(id: string, raw: RawRecipe, store: LocalStore, suffix: string)
    requires raw.uri.None?
    requires id != FallbackIdPrefix + suffix
    ensures GetRecipeById(id, Success(Some(DetailData(Some(raw)))), store, suffix).Success?
    ensures GetRecipeById(id, Success(Some(DetailData(Some(raw)))), store, suffix).value.id != id
  {
  }
}
