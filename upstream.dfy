/** The shapes of the remote recipe catalog (Edamam recipe search, version 2)
    as the client sees them after JSON decoding. A field that JSON may leave out
    or set to `null` is an `Option`; `None` covers both. Values of another
    JSON type than the expected one are outside the model. */
module Upstream {
  import opened Wrappers
  import opened Recipes

  /** One raw catalog record (`hit.recipe`, or `data.recipe` of the by-id endpoint).
      `title` is the record's `label` field; `recipeYield` its `yield` field. */
  datatype RawRecipe = RawRecipe(
    uri: Option<string>,
    title: Option<string>,
    image: Option<string>,
    dietLabels: Option<seq<string>>,
    healthLabels: Option<seq<string>>,
    cuisineType: Option<seq<string>>,
    recipeYield: Option<real>,
    ingredientLines: Option<seq<string>>,
    totalNutrients: Option<map<string, Nutrient>>,
    url: Option<string>,
    totalTime: Option<int>,
    calories: Option<real>,
    source: Option<string>)

  /** One element of the response's `hits` array. A `null` hit and a hit
      without a `recipe` are both `recipe == None`; `selfLink` is
      `hit._links.self.href`, or "" when that is absent. */
  datatype Hit = Hit(recipe: Option<RawRecipe>, selfLink: string)

  /** An absolute URL together with its parsed parts: the raw `href`, the
      `pathname` and the `searchParams` entries in order. */
  datatype Url = Url(href: string, pathname: string, searchParams: seq<(string, string)>)

  /** The body of a search response: `hits` is `None` when it is missing or
      not an array; `next` is `_links.next`. */
  datatype ResponseData = ResponseData(hits: Option<seq<Hit>>, next: Option<Url>)

  /** The body of a by-id response: `recipe` is `data.recipe`. */
  datatype DetailData = DetailData(recipe: Option<RawRecipe>)

  /** A thrown error: `status` is `error.response.status` when the error
      carries an HTTP response, `message` is `error.message`. */
  datatype ApiError = ApiError(status: Option<int>, message: string)

  /** JavaScript truthiness of an optional URL string: present and non-empty. */
  predicate IsSet(u: Option<Url>) {
    u.Some? && u.value.href != ""
  }
}
