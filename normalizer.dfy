/** The recipe normaliser of `src/services/api.js`: `transformRecipe` maps one
    raw catalog record to the canonical `Recipe`, `transformRecipes` maps a
    whole search response, dropping hits that carry no record. */
module Normalizer {
  import opened Wrappers
  import opened Recipes
  import opened Upstream

  /** The dietary and health labels the UI shows as tags. */
  const AllowedTags: seq<string> := [
    "Sugar-Conscious", "Keto-Friendly", "Low-Sugar", "Vegan", "Vegetarian",
    "Pescatarian", "Dairy-Free", "Gluten-Free", "Wheat-Free", "Egg-Free",
    "Peanut-Free", "Tree-Nut-Free", "Soy-Free", "Mediterranean", "DASH", "Paleo"]
  /** The placeholder tag used when no label survives the filter. */
  const GeneralTag: string := "General"
  const CuisineSuffix: string := " Kitchen"
  const GlobalCuisine: string := "Global Kitchen"
  const UriMarker: string := "#recipe_"
  const FallbackIdPrefix: string := "recipe_"
  const UnnamedRecipe: string := "Unnamed Recipe"
  const PlaceholderImage: string := "/api/placeholder/300/200"
  const DefaultServings: int := 4

  // ---------------------------------------------------------------- ids

  /** The character class `[a-zA-Z0-9]`. */
  predicate IsAlnum(c: char) {
    'a' <= c <= 'z' || 'A' <= c <= 'Z' || '0' <= c <= '9'
  }

  /** The text after the last '/' of `s`, or `None` when `s` has no '/'. */
  function AfterLastSlash(s: string): (r: Option<string>)
    ensures r.None? <==> '/' !in s
    ensures r.Some? ==> '/' !in r.value && |r.value| < |s|
    ensures r.Some? ==> s[|s| - |r.value| - 1] == '/' && s[|s| - |r.value|..] == r.value
  {
    if s == [] then None
    else if s[|s| - 1] == '/' then Some("")
    else
      var init := s[..|s| - 1];
      assert s == init + [s[|s| - 1]];
      match AfterLastSlash(init)
      case None => None
      case Some(t) => Some(t + [s[|s| - 1]])
  }

  /** `selfLink.match(/\/([^\/]+)$/)[1]`: the non-empty run of characters
      other than '/' that ends the link right after a '/'; "" when the pattern
      does not match (no '/' at all, or the link ends in '/'). */
  function SelfLinkId(link: string): (id: string)
    ensures id != "" ==> '/' !in id && |id| < |link|
    ensures id != "" ==> link[|link| - |id| - 1] == '/' && link[|link| - |id|..] == id
    ensures id == "" <==> '/' !in link || link[|link| - 1] == '/'
  {
    match AfterLastSlash(link)
    case None => ""
    case Some(t) => t
  }

  /** The longest prefix of `s` made of `[a-zA-Z0-9]` (the greedy `+`). */
  function AlnumPrefix(s: string): (r: string)
    ensures |r| <= |s| && r == s[..|r|]
    ensures forall i :: 0 <= i < |r| ==> IsAlnum(r[i])
    ensures |r| < |s| ==> !IsAlnum(s[|r|])
  {
    if s != [] && IsAlnum(s[0]) then [s[0]] + AlnumPrefix(s[1..]) else ""
  }

  /** `/#recipe_[a-zA-Z0-9]/` matches at position `p` of `uri`. */
  predicate MarkerAt(uri: string, p: nat) {
    p + |UriMarker| < |uri| && uri[p..p + |UriMarker|] == UriMarker && IsAlnum(uri[p + |UriMarker|])
  }

  /** The leftmost position at or after `from` where the marker pattern matches. */
  function FirstMarkerFrom(uri: string, from: nat): (p: Option<nat>)
    requires from <= |uri|
    decreases |uri| - from
    ensures p.None? ==> forall q: nat :: from <= q ==> !MarkerAt(uri, q)
    ensures p.Some? ==> from <= p.value && MarkerAt(uri, p.value)
    ensures p.Some? ==> forall q: nat :: from <= q < p.value ==> !MarkerAt(uri, q)
  {
    if from + |UriMarker| >= |uri| then None
    else if MarkerAt(uri, from) then Some(from)
    else FirstMarkerFrom(uri, from + 1)
  }

  /** `uri.match(/#recipe_([a-zA-Z0-9]+)/)[1]`: the alphanumeric run after
      the leftmost "#recipe_" that is followed by at least one alphanumeric
      character; "" when there is none. */
  function UriId(uri: string): (id: string)
    ensures id == "" <==> forall q: nat :: !MarkerAt(uri, q)
    ensures id != "" ==>
      FirstMarkerFrom(uri, 0).Some? && id == AlnumPrefix(uri[FirstMarkerFrom(uri, 0).value + |UriMarker|..])
  {
    match FirstMarkerFrom(uri, 0)
    case None => ""
    case Some(p) =>
      AlnumPrefix(uri[p + |UriMarker|..])
  }

  /** The recipe id: the self-link's last segment when a self-link is given
      (the uri is then never consulted, even when the link does not match),
      otherwise the uri's "#recipe_" fragment, and when both yield nothing,
      "recipe_" followed by the caller's random `suffix`. */
  function ResolveId(selfLink: string, uri: Option<string>, suffix: string): (id: string)
    ensures id != ""
    ensures selfLink != "" ==>
      id == (if SelfLinkId(selfLink) != "" then SelfLinkId(selfLink) else FallbackIdPrefix + suffix)
    ensures selfLink == "" && uri.Some? && UriId(uri.value) != "" ==> id == UriId(uri.value)
    ensures selfLink == "" && (uri.None? || UriId(uri.value) == "") ==> id == FallbackIdPrefix + suffix
  {
    var matched :=
      if selfLink != "" then SelfLinkId(selfLink)
      else if uri.Some? && uri.value != "" then UriId(uri.value)
      else "";
    if matched != "" then matched else FallbackIdPrefix + suffix
  }

  // ---------------------------------------------------------------- tags

  /** `labels.filter(l => AllowedTags.includes(l))` */
  function FilterAllowed(labels: seq<string>): (r: seq<string>)
    ensures |r| <= |labels|
    ensures forall t :: t in r <==> t in labels && t in AllowedTags
  {
    if labels == [] then []
    else (if labels[0] in AllowedTags then [labels[0]] else []) + FilterAllowed(labels[1..])
  }

  /** Filtering keeps the survivors of each part in order: those of `a`
      (the diet labels) come first, then those of `b` (the health labels). */
  lemma {:induction false} FilterAllowedAppend(a: seq<string>, b: seq<string>)
    ensures FilterAllowed(a + b) == FilterAllowed(a) + FilterAllowed(b)
  {
    if a == [] {
      assert a + b == b;
    } else {
      assert (a + b)[1..] == a[1..] + b;
      FilterAllowedAppend(a[1..], b);
    }
  }

  /** The labels the record offers, diet labels first (`[...dietLabels, ...healthLabels]`). */
  function Labels(diet: Option<seq<string>>, health: Option<seq<string>>): seq<string> {
    diet.GetOr([]) + health.GetOr([])
  }

  /** The tag list: the allow-listed labels in order, or `["General"]` when
      none survive. */
  function Tags(diet: Option<seq<string>>, health: Option<seq<string>>): (tags: seq<string>)
    ensures tags != []
    ensures forall t :: t in tags ==> t in AllowedTags || t == GeneralTag
    ensures GeneralTag in tags <==> forall l :: l in Labels(diet, health) ==> l !in AllowedTags
    ensures GeneralTag !in tags ==> tags == FilterAllowed(diet.GetOr([])) + FilterAllowed(health.GetOr([]))
    ensures GeneralTag in tags ==> tags == [GeneralTag]
  {
    var survivors := FilterAllowed(Labels(diet, health));
    FilterAllowedAppend(diet.GetOr([]), health.GetOr([]));
    assert GeneralTag !in AllowedTags;
    assert (|survivors| == 0) == (forall l :: l in Labels(diet, health) ==> l !in AllowedTags) by {
      if |survivors| > 0 {
        assert survivors[0] in Labels(diet, health) && survivors[0] in AllowedTags;
      }
    }
    if |survivors| > 0 then survivors else [GeneralTag]
  }

  // ---------------------------------------------------------------- cuisine

  /** `toUpperCase` on one character, for the ASCII letters. */
  function ToUpper(c: char): (u: char)
    ensures 'a' <= c <= 'z' ==> 'A' <= u <= 'Z' && u as int == c as int - 32
    ensures !('a' <= c <= 'z') ==> u == c
  {
    if 'a' <= c <= 'z' then (c as int - 32) as char else c
  }

  /** `s.charAt(0).toUpperCase() + s.slice(1)` */
  function Capitalize(s: string): (r: string)
    ensures |r| == |s|
    ensures s != "" ==> r[0] == ToUpper(s[0]) && r[1..] == s[1..]
  {
    if s == "" then s else [ToUpper(s[0])] + s[1..]
  }

  /** The cuisine label: the first cuisine type, capitalised, followed by
      " Kitchen"; "Global Kitchen" when the record lists no cuisine type. */
  function Cuisine(cuisineType: Option<seq<string>>): (c: string)
    ensures |c| >= |CuisineSuffix| && c[|c| - |CuisineSuffix|..] == CuisineSuffix
    ensures cuisineType.None? || cuisineType.value == [] ==> c == GlobalCuisine
    ensures cuisineType.Some? && cuisineType.value != [] ==>
      c[..|c| - |CuisineSuffix|] == Capitalize(cuisineType.value[0])
  {
    if cuisineType.Some? && |cuisineType.value| > 0 then
      var first := Capitalize(cuisineType.value[0]);
      assert (first + CuisineSuffix)[..|first|] == first;
      first + CuisineSuffix
    else GlobalCuisine
  }

  // ---------------------------------------------------------------- numbers

  /** `Math.ceil` on an exact number. */
  function Ceil(x: real): (n: int)
    ensures x <= n as real < x + 1.0
  {
    -((-x).Floor)
  }

  /** `Math.round` on an exact number: halves round up. */
  function Round(x: real): (n: int)
    ensures x - 0.5 < n as real <= x + 0.5
  {
    (x + 0.5).Floor
  }

  /** `Math.ceil(yield) || 4`: a missing yield and one whose ceiling is 0 both
      give 4, so the result is never 0. */
  function Servings(recipeYield: Option<real>): (n: int)
    ensures n != 0
    ensures recipeYield.Some? && Ceil(recipeYield.value) != 0 ==> n == Ceil(recipeYield.value)
    ensures recipeYield.None? || Ceil(recipeYield.value) == 0 ==> n == DefaultServings
    ensures recipeYield.Some? && recipeYield.value > 0.0 ==> n > 0
  {
    if recipeYield.Some? && Ceil(recipeYield.value) != 0 then Ceil(recipeYield.value) else DefaultServings
  }

  /** `Math.round(calories) || 0`: the nearest integer, or 0 when absent. */
  function Calories(calories: Option<real>): (n: int)
    ensures calories.None? ==> n == 0
    ensures calories.Some? ==> calories.value - 0.5 < n as real <= calories.value + 0.5
    ensures calories.Some? && calories.value >= 0.0 ==> n >= 0
  {
    if calories.Some? then Round(calories.value) else 0
  }

  /** `s || fallback`: the string when present and non-empty, else the fallback. */
  function OrElse(s: Option<string>, fallback: string): (r: string)
    ensures r == fallback || (s.Some? && r == s.value && r != "")
    ensures s.Some? && s.value != "" ==> r == s.value
    ensures fallback != "" ==> r != ""
  {
    if s.Some? && s.value != "" then s.value else fallback
  }

  // ---------------------------------------------------------------- records

  /** What every record produced by the normaliser satisfies. */
  predicate Normalized(r: Recipe) {
    && r.id != ""
    && r.name != ""
    && r.image != ""
    && r.tags != []
    && (forall t :: t in r.tags ==> t in AllowedTags || t == GeneralTag)
    && |r.cuisine| >= |CuisineSuffix| && r.cuisine[|r.cuisine| - |CuisineSuffix|..] == CuisineSuffix
    && r.servings != 0
    && !r.isFavorite
  }

  /** `transformRecipe(recipe, selfLink)`, with the random part of a
      synthesised id supplied as `suffix`. */
  function TransformRecipe(raw: Option<RawRecipe>, selfLink: string, suffix: string): (r: Option<Recipe>)
    ensures r.Some? <==> raw.Some?
    ensures r.Some? ==> Normalized(r.value)
    ensures r.Some? ==> r.value.id == ResolveId(selfLink, raw.value.uri, suffix)
    ensures r.Some? ==> r.value.tags == Tags(raw.value.dietLabels, raw.value.healthLabels)
    ensures r.Some? ==> r.value.cuisine == Cuisine(raw.value.cuisineType)
    ensures r.Some? ==> r.value.servings == Servings(raw.value.recipeYield)
    ensures r.Some? ==> r.value.calories == Calories(raw.value.calories)
    ensures r.Some? ==> r.value.name == OrElse(raw.value.title, UnnamedRecipe)
    ensures r.Some? ==> r.value.image == OrElse(raw.value.image, PlaceholderImage)
    ensures r.Some? ==> r.value.source == OrElse(raw.value.source, "")
    ensures r.Some? ==> r.value.ingredients == raw.value.ingredientLines.GetOr([])
    ensures r.Some? ==> r.value.nutrients == raw.value.totalNutrients.GetOr(map[])
    ensures r.Some? ==> r.value.url == raw.value.url
    ensures r.Some? ==> r.value.totalTime == raw.value.totalTime.GetOr(0)
  {
    match raw
    case None => None
    case Some(rec) =>
      Some(Recipe(
        id := ResolveId(selfLink, rec.uri, suffix),
        name := OrElse(rec.title, UnnamedRecipe),
        image := OrElse(rec.image, PlaceholderImage),
        cuisine := Cuisine(rec.cuisineType),
        servings := Servings(rec.recipeYield),
        tags := Tags(rec.dietLabels, rec.healthLabels),
        ingredients := rec.ingredientLines.GetOr([]),
        nutrients := rec.totalNutrients.GetOr(map[]),
        url := rec.url,
        totalTime := rec.totalTime.GetOr(0),
        calories := Calories(rec.calories),
        isFavorite := false,
        source := OrElse(rec.source, "")))
  }

  /** How many hits carry a record. */
  function CountWithRecipe(hits: seq<Hit>): (n: nat)
    ensures n <= |hits|
  {
    if hits == [] then 0 else (if hits[0].recipe.Some? then 1 else 0) + CountWithRecipe(hits[1..])
  }

  /** `hits.map(...).filter(r => r !== null)`, hit `k` drawing `suffixes[k]`. */
  function TransformHits(hits: seq<Hit>, suffixes: seq<string>): (rs: seq<Recipe>)
    requires |suffixes| == |hits|
    ensures |rs| == CountWithRecipe(hits)
    ensures forall r :: r in rs ==> Normalized(r)
  {
    if hits == [] then []
    else
      var head := TransformRecipe(hits[0].recipe, hits[0].selfLink, suffixes[0]);
      (if head.Some? then [head.value] else []) + TransformHits(hits[1..], suffixes[1..])
  }

  /** A hit without a record only ever removes itself: transforming two runs
      of hits one after the other gives the two results one after the other. */
  lemma {:induction false} TransformHitsAppend(a: seq<Hit>, b: seq<Hit>, sa: seq<string>, sb: seq<string>)
    requires |sa| == |a| && |sb| == |b|
    ensures TransformHits(a + b, sa + sb) == TransformHits(a, sa) + TransformHits(b, sb)
  {
    if a == [] {
      assert a + b == b && sa + sb == sb;
    } else {
      assert (a + b)[1..] == a[1..] + b;
      assert (sa + sb)[1..] == sa[1..] + sb;
      TransformHitsAppend(a[1..], b, sa[1..], sb);
    }
  }

  /** When every hit carries a record, the output has one recipe per hit, in
      the order of the hits. */
  lemma {:induction false} TransformHitsAllPresent(hits: seq<Hit>, suffixes: seq<string>, k: nat)
    requires |suffixes| == |hits|
    requires forall i :: 0 <= i < |hits| ==> hits[i].recipe.Some?
    requires k < |hits|
    ensures |TransformHits(hits, suffixes)| == |hits|
    ensures TransformHits(hits, suffixes)[k] == TransformRecipe(hits[k].recipe, hits[k].selfLink, suffixes[k]).value
  {
    if k == 0 {
      if |hits| > 1 { TransformHitsAllPresent(hits[1..], suffixes[1..], 0); }
      else { assert hits[1..] == []; }
    } else {
      TransformHitsAllPresent(hits[1..], suffixes[1..], k - 1);
    }
  }

  /** The number of hits a response offers to the transform. */
  function HitCount(data: Option<ResponseData>): nat {
    if data.Some? && data.value.hits.Some? then |data.value.hits.value| else 0
  }

  /** `transformRecipes(data)`: [] when the data or its hits array is
      missing; otherwise one normalised recipe per hit that carries a record. */
  function TransformRecipes(data: Option<ResponseData>, suffixes: seq<string>): (rs: seq<Recipe>)
    requires |suffixes| == HitCount(data)
    ensures HitCount(data) == 0 ==> rs == []
    ensures |rs| <= HitCount(data)
    ensures data.Some? && data.value.hits.Some? ==> |rs| == CountWithRecipe(data.value.hits.value)
    ensures data.Some? && data.value.hits.Some? ==> rs == TransformHits(data.value.hits.value, suffixes)
    ensures forall r :: r in rs ==> Normalized(r)
  {
    if data.Some? && data.value.hits.Some? then TransformHits(data.value.hits.value, suffixes) else []
  }
}
