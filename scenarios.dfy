/** Client-side runs of the session, checked against the session's and the
    gateway's specifications only (as a caller of the provider sees them). */
module Scenarios {
  import opened Wrappers
  import opened Recipes
  import opened Upstream
  import opened Gateway
  import opened Session

  /** A search returns a first page of 20 records and a cursor `token`; the
      load-more that follows sends `token` (so the request replays the
      cursor's parameters, not the search text) and appends its page. */
  method PaginationScenario(saved: StoredList, startup: Result<SearchResult, ApiError>,
                            page1: seq<Recipe>, token: Url, page2: seq<Recipe>, next2: Option<Url>)
    returns (s: RecipeSession, request: Request)
    requires |page1| == 20 && token.href != ""
    ensures |s.recipes| == 20 + |page2|
    ensures s.recipes[..20] == MarkFavorites(page1, s.favorites)
    ensures request.params == ParamsOf(token.searchParams)
    ensures s.nextPageUrl == next2 && !s.loading && !s.loadingMore && s.error.None?
    ensures s.Valid()
  {
    s := new RecipeSession(saved);
    s.CompleteFetch(InitialFetch, startup);
    s.SetSearchQuery("chicken");
    var search := s.HandleSearch();
    s.CompleteFetch(search, Success(SearchResult(page1, Some(token))));
    var more := s.LoadMoreRecipes();
    request := BuildSearchRequest(more.value.query, more.value.filters, more.value.nextUrl, 0.0);
    s.CompleteFetch(more.value, Success(SearchResult(page2, next2)));
  }

  /** The load-more guard does not look at `loading`, and a fresh search does
      not look at `loadingMore`: starting a search while a load-more is
      pending leaves both flags raised. */
  method SearchDuringLoadMore(saved: StoredList, page: seq<Recipe>, token: Url) returns (s: RecipeSession)
    requires token.href != ""
    ensures s.loading && s.loadingMore
  {
    s := new RecipeSession(saved);
    s.CompleteFetch(InitialFetch, Success(SearchResult(page, Some(token))));
    var more := s.LoadMoreRecipes();
    var search := s.HandleSearch();
  }
}
