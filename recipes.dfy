/** The application's canonical recipe record and the list queries that the
    favorites logic performs on lists of such records (`Array.prototype.find`
    and `Array.prototype.some` keyed on `id`). */
module Recipes {
  import opened Wrappers

  /** One entry of a recipe's nutrient table. `name` is the catalog's
      `label` field (`label` is a reserved word in Dafny). */
  datatype Nutrient = Nutrient(name: string, quantity: real, unit: string)

  /** The canonical recipe shape produced by the normaliser and held by the session. */
  datatype Recipe = Recipe(
    id: string,
    name: string,
    image: string,
    cuisine: string,
    servings: int,
    tags: seq<string>,
    ingredients: seq<string>,
    nutrients: map<string, Nutrient>,
    url: Option<string>,
    totalTime: int,
    calories: int,
    isFavorite: bool,
    source: string)

  /** A persisted list of recipes as read back from browser storage: nothing
      stored (or the empty string), a value that does not parse as JSON, or a
      parsed array of recipe records. */
  datatype StoredList = Missing | Unreadable | Entries(records: seq<Recipe>)

  /** `rs.some(r => r.id === id)` */
  predicate HasId(rs: seq<Recipe>, id: string) {
    exists i :: 0 <= i < |rs| && rs[i].id == id
  }

  /** `rs.find(r => r.id === id)`: the first record carrying `id`, if any. */
  function FindById(rs: seq<Recipe>, id: string): (r: Option<Recipe>)
    ensures r.Some? <==> HasId(rs, id)
    ensures r.Some? ==> r.value.id == id
    ensures r.Some? ==> exists i :: 0 <= i < |rs| && rs[i] == r.value && !HasId(rs[..i], id)
  {
    if rs == [] then None
    else if rs[0].id == id then
      assert rs[..0] == [];
      Some(rs[0])
    else
      var r := FindById(rs[1..], id);
      if r.Some? then
        var i :| 0 <= i < |rs[1..]| && rs[1..][i] == r.value && !HasId(rs[1..][..i], id);
        assert rs[..i + 1] == [rs[0]] + rs[1..][..i];
        assert rs[i + 1] == r.value;
        r
      else
        r
  }

  /** Appending to a list adds exactly the ids of the appended records. */
  lemma HasIdAppend(a: seq<Recipe>, b: seq<Recipe>, id: string)
    ensures HasId(a + b, id) <==> HasId(a, id) || HasId(b, id)
  {
    if HasId(a + b, id) {
      var i :| 0 <= i < |a + b| && (a + b)[i].id == id;
      if i >= |a| { assert b[i - |a|].id == id; }
    }
    if HasId(a, id) {
      var i :| 0 <= i < |a| && a[i].id == id;
      assert (a + b)[i] == a[i];
    }
    if HasId(b, id) {
      var i :| 0 <= i < |b| && b[i].id == id;
      assert (a + b)[|a| + i] == b[i];
    }
  }
}
