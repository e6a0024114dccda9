/** The session state of `src/contexts/RecipeContext.jsx`: the current result
    list, the favorites list, the pagination cursor, the two loading flags, the
    single error slot and the search box text, with the operations the
    provider exposes. Each asynchronous `fetchRecipes` is split into the
    synchronous part that runs before the request (`BeginFetch`) and the part
    that runs when the request settles (`CompleteFetch`). */
module Session {
  import opened Wrappers
  import opened Recipes
  import opened Upstream
  import Gateway

  const DefaultErrorMessage: string := "Failed to fetch recipes"

  /** The arguments a fetch hands to `searchRecipes`, and which kind of fetch it is. */
  datatype FetchCall = FetchCall(query: string, filters: map<string, string>, nextUrl: Option<Url>, isLoadMore: bool)

  /** The fetch the provider starts when it mounts: `fetchRecipes('')`. */
  const InitialFetch: FetchCall := FetchCall("", map[], None, false)

  /** `err.message || 'Failed to fetch recipes'`: never empty. */
  function ErrorMessage(e: ApiError): (m: string)
    ensures m != ""
    ensures e.message != "" ==> m == e.message
    ensures e.message == "" ==> m == DefaultErrorMessage
  {
    if e.message != "" then e.message else DefaultErrorMessage
  }

  /** The favorites restored at start-up: the stored list when it parses,
      otherwise the empty list. */
  function LoadFavorites(saved: StoredList): (fs: seq<Recipe>)
    ensures saved.Entries? ==> fs == saved.records
    ensures !saved.Entries? ==> fs == []
  {
    if saved.Entries? then saved.records else []
  }

  // ---------------------------------------------------------------- favorite flags

  /** Every record's `isFavorite` agrees with membership of its id in `favorites`. */
  predicate FlagsConsistent(rs: seq<Recipe>, favorites: seq<Recipe>) {
    forall i :: 0 <= i < |rs| ==> rs[i].isFavorite == HasId(favorites, rs[i].id)
  }

  /** `page.map(r => ({...r, isFavorite: favorites.some(f => f.id === r.id)}))`:
      the page with its flags recomputed and nothing else changed. */
  function MarkFavorites(page: seq<Recipe>, favorites: seq<Recipe>): (r: seq<Recipe>)
    ensures |r| == |page|
    ensures FlagsConsistent(r, favorites)
    ensures forall i :: 0 <= i < |page| ==> r[i] == page[i].(isFavorite := r[i].isFavorite)
  {
    seq(|page|, i requires 0 <= i < |page| => page[i].(isFavorite := HasId(favorites, page[i].id)))
  }

  /** `rs.map(r => r.id === id ? {...r, isFavorite: !r.isFavorite} : r)` */
  function FlipFlags(rs: seq<Recipe>, id: string): (r: seq<Recipe>)
    ensures |r| == |rs|
    ensures forall i :: 0 <= i < |rs| && rs[i].id == id ==> r[i] == rs[i].(isFavorite := !rs[i].isFavorite)
    ensures forall i :: 0 <= i < |rs| && rs[i].id != id ==> r[i] == rs[i]
  {
    seq(|rs|, i requires 0 <= i < |rs| => if rs[i].id == id then rs[i].(isFavorite := !rs[i].isFavorite) else rs[i])
  }

  /** `fs.filter(f => f.id !== id)`: every entry with this id goes, every
      other entry stays. */
  function WithoutId(fs: seq<Recipe>, id: string): (r: seq<Recipe>)
    ensures |r| <= |fs|
    ensures !HasId(r, id)
    ensures forall k :: k != id ==> (HasId(r, k) <==> HasId(fs, k))
    ensures forall x :: x in r <==> x in fs && x.id != id
  {
    if fs == [] then []
    else
      var head := if fs[0].id == id then [] else [fs[0]];
      var rest := WithoutId(fs[1..], id);
      assert fs == [fs[0]] + fs[1..];
      assert forall k :: HasId(head + rest, k) <==> HasId(head, k) || HasId(rest, k) by {
        forall k ensures HasId(head + rest, k) <==> HasId(head, k) || HasId(rest, k) {
          HasIdAppend(head, rest, k);
        }
      }
      assert forall k :: HasId(fs, k) <==> HasId([fs[0]], k) || HasId(fs[1..], k) by {
        forall k ensures HasId(fs, k) <==> HasId([fs[0]], k) || HasId(fs[1..], k) {
          HasIdAppend([fs[0]], fs[1..], k);
        }
      }
      head + rest
  }

  // ---------------------------------------------------------------- toggling

  /** The two lists a favorite toggle writes. */
  datatype Collections = Collections(recipes: seq<Recipe>, favorites: seq<Recipe>)

  /** The record a toggle acts on: `recipes.find(...) || favorites.find(...)`. */
  function ToggleTarget(c: Collections, id: string): (t: Option<Recipe>)
    ensures t.Some? <==> HasId(c.recipes, id) || HasId(c.favorites, id)
    ensures t.Some? ==> t.value.id == id
    ensures HasId(c.recipes, id) ==> t == FindById(c.recipes, id)
    ensures !HasId(c.recipes, id) ==> t == FindById(c.favorites, id)
  {
    var inResults := FindById(c.recipes, id);
    if inResults.Some? then inResults else FindById(c.favorites, id)
  }

  /** `toggleFavorite(id)` on the two lists. An id in neither list changes
      nothing. Otherwise a favorite id loses every favorites entry, a
      non-favorite id gains exactly one copy of its record (flagged as a
      favorite), and every result with that id has its flag flipped. */
  function Toggle(c: Collections, id: string): (r: Collections)
    ensures ToggleTarget(c, id).None? ==> r == c
    ensures ToggleTarget(c, id).Some? ==> r.recipes == FlipFlags(c.recipes, id)
    ensures ToggleTarget(c, id).Some? ==> (HasId(r.favorites, id) <==> !HasId(c.favorites, id))
    ensures HasId(c.favorites, id) ==> r.favorites == WithoutId(c.favorites, id)
    ensures ToggleTarget(c, id).Some? && !HasId(c.favorites, id) ==>
      r.favorites == c.favorites + [ToggleTarget(c, id).value.(isFavorite := true)]
    ensures forall k :: k != id ==> (HasId(r.favorites, k) <==> HasId(c.favorites, k))
    ensures forall k :: HasId(r.recipes, k) <==> HasId(c.recipes, k)
  {
    match ToggleTarget(c, id)
    case None => c
    case Some(target) =>
      var favorites :=
        if HasId(c.favorites, id) then WithoutId(c.favorites, id)
        else
          var added := [target.(isFavorite := true)];
          assert forall k :: HasId(c.favorites + added, k) <==> HasId(c.favorites, k) || k == id by {
            forall k ensures HasId(c.favorites + added, k) <==> HasId(c.favorites, k) || k == id {
              HasIdAppend(c.favorites, added, k);
              assert HasId(added, k) <==> k == id by { assert added[0].id == id; }
            }
          }
          c.favorites + added;
      var recipes := FlipFlags(c.recipes, id);
      assert forall k :: HasId(recipes, k) ==> HasId(c.recipes, k) by {
        forall k | HasId(recipes, k) ensures HasId(c.recipes, k) {
          var i :| 0 <= i < |recipes| && recipes[i].id == k;
          assert c.recipes[i].id == k;
        }
      }
      assert forall k :: HasId(c.recipes, k) ==> HasId(recipes, k) by {
        forall k | HasId(c.recipes, k) ensures HasId(recipes, k) {
          var i :| 0 <= i < |c.recipes| && c.recipes[i].id == k;
          assert recipes[i].id == k;
        }
      }
      Collections(recipes, favorites)
  }

  /** A toggle keeps every result's flag in agreement with the favorites list
      when it agreed before: the flags of the toggled id flip exactly when its
      membership flips, and no other membership changes. */
  lemma ToggleKeepsFlagsConsistent(c: Collections, id: string)
    requires FlagsConsistent(c.recipes, c.favorites)
    ensures FlagsConsistent(Toggle(c, id).recipes, Toggle(c, id).favorites)
  {
  }

  /** A toggle never introduces a second favorites entry for an id. */
  predicate UniqueIds(fs: seq<Recipe>) {
    forall i, j :: 0 <= i < j < |fs| ==> fs[i].id != fs[j].id
  }

  lemma {:induction false} WithoutIdKeepsUnique(fs: seq<Recipe>, id: string)
    requires UniqueIds(fs)
    ensures UniqueIds(WithoutId(fs, id))
  {
    if fs != [] {
      WithoutIdKeepsUnique(fs[1..], id);
      var rest := WithoutId(fs[1..], id);
      if fs[0].id != id {
        assert !HasId(fs[1..], fs[0].id);
        assert !HasId(rest, fs[0].id);
        var r := [fs[0]] + rest;
        forall i, j | 0 <= i < j < |r| ensures r[i].id != r[j].id {
          if i == 0 { assert r[j] == rest[j - 1]; }
          else { assert r[i] == rest[i - 1] && r[j] == rest[j - 1]; }
        }
      }
    }
  }

  lemma ToggleKeepsFavoritesUnique(c: Collections, id: string)
    requires UniqueIds(c.favorites)
    ensures UniqueIds(Toggle(c, id).favorites)
  {
    if HasId(c.favorites, id) {
      WithoutIdKeepsUnique(c.favorites, id);
    } else if ToggleTarget(c, id).Some? {
      var fs := Toggle(c, id).favorites;
      forall i, j | 0 <= i < j < |fs| ensures fs[i].id != fs[j].id {
        if j == |fs| - 1 {
          assert fs[i] == c.favorites[i];
        }
      }
    }
  }

  /** Filtering an id out of a list that lacks it changes nothing. */
  lemma {:induction false} WithoutAbsentId(fs: seq<Recipe>, id: string)
    requires !HasId(fs, id)
    ensures WithoutId(fs, id) == fs
  {
    if fs != [] {
      assert fs[0].id != id;
      assert !HasId(fs[1..], id);
      WithoutAbsentId(fs[1..], id);
      assert fs == [fs[0]] + fs[1..];
    }
  }

  /** Filtering distributes over concatenation. */
  lemma {:induction false} WithoutIdAppend(a: seq<Recipe>, b: seq<Recipe>, id: string)
    ensures WithoutId(a + b, id) == WithoutId(a, id) + WithoutId(b, id)
  {
    if a == [] {
      assert a + b == b;
    } else {
      assert (a + b)[1..] == a[1..] + b;
      WithoutIdAppend(a[1..], b, id);
    }
  }

  /** Toggling an id that the result list holds twice in a row restores the
      result list and the id's membership; starting from a non-favorite it
      restores the favorites list exactly. */
  lemma ToggleTwice(c: Collections, id: string)
    requires HasId(c.recipes, id)
    ensures Toggle(Toggle(c, id), id).recipes == c.recipes
    ensures HasId(Toggle(Toggle(c, id), id).favorites, id) == HasId(c.favorites, id)
    ensures !HasId(c.favorites, id) ==> Toggle(Toggle(c, id), id) == c
  {
    var once := Toggle(c, id);
    assert HasId(once.recipes, id);
    var twice := Toggle(once, id);
    assert twice.recipes == c.recipes;
    if !HasId(c.favorites, id) {
      var added := [ToggleTarget(c, id).value.(isFavorite := true)];
      WithoutIdAppend(c.favorites, added, id);
      WithoutAbsentId(c.favorites, id);
      assert WithoutId(added, id) == [];
    }
  }

  /** `ids` toggled one after the other. */
  function ToggleAll(c: Collections, ids: seq<string>): (r: Collections)
    ensures forall k :: HasId(r.recipes, k) <==> HasId(c.recipes, k)
    decreases |ids|
  {
    if ids == [] then c else ToggleAll(Toggle(c, ids[0]), ids[1..])
  }

  /** How many times `id` occurs in `ids`. */
  function Occurrences(ids: seq<string>, id: string): nat {
    if ids == [] then 0 else (if ids[0] == id then 1 else 0) + Occurrences(ids[1..], id)
  }

  /** One toggle, seen from the membership of one id that the result list holds. */
  lemma ToggleMembership(c: Collections, toggled: string, id: string)
    requires HasId(c.recipes, id)
    ensures HasId(Toggle(c, toggled).recipes, id)
    ensures HasId(Toggle(c, toggled).favorites, id) == (HasId(c.favorites, id) != (toggled == id))
  {
  }

  /** For any sequence of toggles, an id that the result list holds is a
      favorite afterwards exactly when it was one before XOR it was toggled an
      odd number of times. */
  lemma {:induction false} ToggleParity(c: Collections, ids: seq<string>, id: string)
    requires HasId(c.recipes, id)
    ensures HasId(ToggleAll(c, ids).favorites, id) == (HasId(c.favorites, id) != (Occurrences(ids, id) % 2 == 1))
    decreases |ids|
  {
    if ids != [] {
      var next := Toggle(c, ids[0]);
      ToggleMembership(c, ids[0], id);
      ToggleParity(next, ids[1..], id);
      assert ToggleAll(c, ids) == ToggleAll(next, ids[1..]);
      FlipParity(HasId(c.favorites, id), HasId(next.favorites, id), HasId(ToggleAll(c, ids).favorites, id),
                 ids[0] == id, Occurrences(ids[1..], id), Occurrences(ids, id));
    }
  }

  /** Flipping once more adds one to the count whose parity is tracked. */
  lemma FlipParity(before: bool, after: bool, final: bool, flipped: bool, rest: nat, total: nat)
    requires after == (before != flipped)
    requires final == (after != (rest % 2 == 1))
    requires total == rest + if flipped then 1 else 0
    ensures final == (before != (total % 2 == 1))
  {
  }

  /** The parity law needs the id to be held in the results: an id found only
      among the favorites is removed by its first toggle and cannot be found
      by the second, which then changes nothing. */
  lemma ParityNeedsResults(r: Recipe)
    ensures HasId([r], r.id)
    ensures !HasId(ToggleAll(Collections([], [r]), [r.id, r.id]).favorites, r.id)
  {
    var c := Collections([], [r]);
    assert [r][0].id == r.id;
    var once := Toggle(c, r.id);
    assert once.favorites == WithoutId([r], r.id);
    assert once == Collections([], []);
    assert Toggle(once, r.id) == once;
    assert ToggleAll(c, [r.id, r.id]) == ToggleAll(once, [r.id]);
    assert ToggleAll(once, [r.id]) == ToggleAll(Toggle(once, r.id), []);
  }

  /** Any sequence of toggles keeps the flags consistent. */
  lemma {:induction false} ToggleAllKeepsFlagsConsistent(c: Collections, ids: seq<string>)
    requires FlagsConsistent(c.recipes, c.favorites)
    ensures FlagsConsistent(ToggleAll(c, ids).recipes, ToggleAll(c, ids).favorites)
    decreases |ids|
  {
    if ids != [] {
      ToggleKeepsFlagsConsistent(c, ids[0]);
      ToggleAllKeepsFlagsConsistent(Toggle(c, ids[0]), ids[1..]);
    }
  }

  // ---------------------------------------------------------------- the provider

  class RecipeSession {
    var recipes: seq<Recipe>
    var searchQuery: string
    var loading: bool
    var loadingMore: bool
    var error: Option<string>
    var favorites: seq<Recipe>
    var nextPageUrl: Option<Url>

    /** The session invariant: every result's favorite flag agrees with the favorites list. */
    predicate Valid()
      reads this
    {
      FlagsConsistent(recipes, favorites)
    }

    /** Mounting the provider: the initial state, the favorites restored from
        storage, and the start of the initial fetch (`InitialFetch`). */
    constructor (saved: StoredList)
      ensures Valid()
      ensures favorites == LoadFavorites(saved)
      ensures recipes == [] && searchQuery == ""
      ensures loading && !loadingMore && error.None? && nextPageUrl.None?
    {
      recipes := [];
      searchQuery := "";
      loadingMore := false;
      favorites := LoadFavorites(saved);
      loading := true;
      nextPageUrl := None;
      error := None;
    }

    /** `hasMoreRecipes: !!nextPageUrl` */
    function HasMoreRecipes(): (b: bool)
      reads this
      ensures b ==> nextPageUrl.Some?
      ensures b <==> IsSet(nextPageUrl)
    {
      IsSet(nextPageUrl)
    }

    /** `setSearchQuery(q)` */
    method SetSearchQuery(q: string)
      modifies this`searchQuery
      ensures searchQuery == q
    {
      searchQuery := q;
    }

    /** The synchronous start of `fetchRecipes(query, filters, isLoadMore)`:
        clears the error; a fresh fetch raises `loading` and drops the cursor,
        a load-more raises `loadingMore` and sends the stored cursor. */
    method BeginFetch(query: string, filters: map<string, string>, isLoadMore: bool) returns (call: FetchCall)
      modifies this
      ensures call == FetchCall(query, filters, if isLoadMore then old(nextPageUrl) else None, isLoadMore)
      ensures error.None?
      ensures isLoadMore ==> loadingMore && loading == old(loading) && nextPageUrl == old(nextPageUrl)
      ensures !isLoadMore ==> loading && loadingMore == old(loadingMore) && nextPageUrl.None?
      ensures recipes == old(recipes) && favorites == old(favorites) && searchQuery == old(searchQuery)
    {
      var url := nextPageUrl;
      if isLoadMore {
        loadingMore := true;
      } else {
        loading := true;
        nextPageUrl := None;
      }
      error := None;
      call := FetchCall(query, filters, if isLoadMore then url else None, isLoadMore);
    }

    /** The settling of the fetch `call` with `outcome`. On success the page is
        flagged against the current favorites and replaces the results (fresh)
        or is appended to them (load-more), and its next link becomes the
        cursor. On failure the error is recorded, a fresh fetch empties the
        results and a load-more keeps them. Both flags end lowered. */
    method CompleteFetch(call: FetchCall, outcome: Result<Gateway.SearchResult, ApiError>)
      modifies this
      ensures !loading && !loadingMore
      ensures favorites == old(favorites) && searchQuery == old(searchQuery)
      ensures outcome.Success? ==>
        var page := MarkFavorites(outcome.value.recipes, favorites);
        && recipes == (if call.isLoadMore then old(recipes) + page else page)
        && nextPageUrl == outcome.value.nextPage
        && error == old(error)
      ensures outcome.Success? && call.isLoadMore ==>
        |recipes| == |old(recipes)| + |outcome.value.recipes| && recipes[..|old(recipes)|] == old(recipes)
      ensures outcome.Success? && !call.isLoadMore ==> Valid()
      ensures outcome.Failure? ==>
        && error == Some(ErrorMessage(outcome.error))
        && recipes == (if call.isLoadMore then old(recipes) else [])
        && nextPageUrl == old(nextPageUrl)
      ensures old(Valid()) ==> Valid()
    {
      match outcome {
        case Success(result) =>
          var page := MarkFavorites(result.recipes, favorites);
          if call.isLoadMore {
            recipes := recipes + page;
          } else {
            recipes := page;
          }
          nextPageUrl := result.nextPage;
        case Failure(e) =>
          error := Some(ErrorMessage(e));
          if !call.isLoadMore {
            recipes := [];
          }
      }
      loading := false;
      loadingMore := false;
    }

    /** `loadMoreRecipes()`: nothing happens without a cursor or while a
        load-more is pending; otherwise a load-more fetch of the current
        search text with the stored cursor starts. A pending fresh fetch does
        not block it. */
    method LoadMoreRecipes() returns (call: Option<FetchCall>)
      modifies this
      ensures !old(HasMoreRecipes()) || old(loadingMore) ==> call.None? && unchanged(this)
      ensures old(HasMoreRecipes()) && !old(loadingMore) ==>
        && call == Some(FetchCall(old(searchQuery), map[], old(nextPageUrl), true))
        && loadingMore && loading == old(loading) && error.None?
        && nextPageUrl == old(nextPageUrl) && recipes == old(recipes)
        && favorites == old(favorites) && searchQuery == old(searchQuery)
    {
      if HasMoreRecipes() && !loadingMore {
        var c := BeginFetch(searchQuery, map[], true);
        call := Some(c);
      } else {
        call := None;
      }
    }

    /** `refreshRandomRecipes()`: clears the search text and starts a fresh
        fetch of the empty query (a random popular term). */
    method RefreshRandomRecipes() returns (call: FetchCall)
      modifies this
      ensures call == FetchCall("", map[], None, false)
      ensures searchQuery == "" && loading && error.None? && nextPageUrl.None?
      ensures loadingMore == old(loadingMore) && recipes == old(recipes) && favorites == old(favorites)
    {
      searchQuery := "";
      call := BeginFetch("", map[], false);
    }

    /** `handleSearch()`: a fresh fetch of the current search text. */
    method HandleSearch() returns (call: FetchCall)
      modifies this
      ensures call == FetchCall(old(searchQuery), map[], None, false)
      ensures loading && error.None? && nextPageUrl.None?
      ensures loadingMore == old(loadingMore) && recipes == old(recipes)
      ensures favorites == old(favorites) && searchQuery == old(searchQuery)
    {
      call := BeginFetch(searchQuery, map[], false);
    }

    /** `toggleFavorite(id)`: writes the favorites list and the result flags
        together, as `Toggle` describes. */
    method ToggleFavorite(id: string)
      modifies this`recipes, this`favorites
      ensures Collections(recipes, favorites) == Toggle(old(Collections(recipes, favorites)), id)
      ensures old(Valid()) ==> Valid()
      ensures old(UniqueIds(favorites)) ==> UniqueIds(favorites)
    {
      var before := Collections(recipes, favorites);
      var after := Toggle(before, id);
      if FlagsConsistent(before.recipes, before.favorites) {
        ToggleKeepsFlagsConsistent(before, id);
      }
      if UniqueIds(before.favorites) {
        ToggleKeepsFavoritesUnique(before, id);
      }
      recipes, favorites := after.recipes, after.favorites;
    }
  }
}
