/** The saved-recipe list of client/src/lib/recipeStorage.ts. The browser's
    storage slot under the recipes key is passed in and the value written
    back is returned; JSON text is produced and read by a codec given as a
    parameter. */
module RecipeStorage {
  import opened Wrappers
  import opened Ingredients

  datatype SavedRecipe = SavedRecipe(
    id: string,
    name: string,
    ingredients: seq<Ingredient>,
    servings: real,
    batchMultiplier: real,
    savedAt: string)

  /** What `localStorage.getItem` returns: null, or a stored string. */
  datatype Stored = Missing | Text(raw: string)

  /** `JSON.parse` (None when it throws) and `JSON.stringify`. */
  datatype Codec = Codec(parse: string -> Option<seq<SavedRecipe>>, stringify: seq<SavedRecipe> -> string)

  /** The JSON text of this one list is non-empty and parses back to it. */
  ghost predicate RoundTrips(c: Codec, rs: seq<SavedRecipe>)
  {
    c.stringify(rs) != "" && c.parse(c.stringify(rs)) == Some(rs)
  }

  /** `getSavedRecipes`: an absent or empty value, or one that fails to
      parse, gives the empty list. */
  function GetSavedRecipes(stored: Stored, codec: Codec): (rs: seq<SavedRecipe>)
    ensures stored.Missing? ==> rs == []
    ensures stored.Text? && (stored.raw == "" || codec.parse(stored.raw).None?) ==> rs == []
    ensures stored.Text? && stored.raw != "" && codec.parse(stored.raw).Some? ==>
              rs == codec.parse(stored.raw).value
  {
    match stored
    case Missing => []
    case Text(raw) =>
      if raw == "" then []
      else
        match codec.parse(raw)
        case None => []
        case Some(rs) => rs
  }

  /** Writing a list and reading it back gives the list. */
  lemma WriteThenRead(rs: seq<SavedRecipe>, codec: Codec)
    requires RoundTrips(codec, rs)
    ensures GetSavedRecipes(Text(codec.stringify(rs)), codec) == rs
  {
  }

  /** `findIndex` by id: the first index with the id, or -1. */
  function IndexOfId(rs: seq<SavedRecipe>, id: string): (k: int)
    ensures -1 <= k < |rs|
    ensures k >= 0 ==> rs[k].id == id && forall j :: 0 <= j < k ==> rs[j].id != id
    ensures k == -1 ==> forall j :: 0 <= j < |rs| ==> rs[j].id != id
  {
    if rs == [] then -1
    else if rs[0].id == id then 0
    else
      var k := IndexOfId(rs[1..], id);
      if k == -1 then -1 else k + 1
  }

  /** The list `saveRecipe` writes: the first entry with the recipe's id
      replaced in place, or the recipe appended. */
  function Upsert(rs: seq<SavedRecipe>, recipe: SavedRecipe): seq<SavedRecipe>
  {
    var k := IndexOfId(rs, recipe.id);
    if k >= 0 then rs[k := recipe] else rs + [recipe]
  }

  /** `recipes.find((r) => r.id === id)`. */
  function FindById(rs: seq<SavedRecipe>, id: string): (r: Option<SavedRecipe>)
    ensures r.Some? <==> exists j :: 0 <= j < |rs| && rs[j].id == id
    ensures r.Some? ==> r.value == rs[IndexOfId(rs, id)]
  {
    var k := IndexOfId(rs, id);
    if k >= 0 then Some(rs[k]) else None
  }

  /** `recipes.filter((r) => r.id !== id)`. */
  function RemoveById(rs: seq<SavedRecipe>, id: string): (t: seq<SavedRecipe>)
    ensures forall x :: x in t <==> x in rs && x.id != id
  {
    if rs == [] then []
    else RemoveById(rs[..|rs| - 1], id) + (if rs[|rs| - 1].id != id then [rs[|rs| - 1]] else [])
  }

  /** An upsert of an existing id replaces the first match in place and
      leaves the length and every other entry alone; a new id is appended. */
  lemma UpsertShape(rs: seq<SavedRecipe>, recipe: SavedRecipe)
    ensures var k := IndexOfId(rs, recipe.id);
            var t := Upsert(rs, recipe);
            (k >= 0 ==> |t| == |rs| && t[k] == recipe
                        && forall j :: 0 <= j < |rs| && j != k ==> t[j] == rs[j])
            && (k < 0 ==> t == rs + [recipe])
  {
  }

  /** The first index holding the id is the one `IndexOfId` returns. */
  lemma FirstIndex(rs: seq<SavedRecipe>, id: string, k: int)
    requires 0 <= k < |rs| && rs[k].id == id
    requires forall j :: 0 <= j < k ==> rs[j].id != id
    ensures IndexOfId(rs, id) == k
  {
  }

  /** After saving, looking the id up gives the saved recipe; saving the
      same recipe again changes nothing. */
  lemma UpsertThenFind(rs: seq<SavedRecipe>, recipe: SavedRecipe)
    ensures FindById(Upsert(rs, recipe), recipe.id) == Some(recipe)
    ensures Upsert(Upsert(rs, recipe), recipe) == Upsert(rs, recipe)
  {
    var k := IndexOfId(rs, recipe.id);
    var t := Upsert(rs, recipe);
    if k >= 0 {
      FirstIndex(t, recipe.id, k);
    } else {
      FirstIndex(t, recipe.id, |rs|);
    }
  }

  /** Saving leaves every other id's lookup unchanged. */
  lemma UpsertKeepsOthers(rs: seq<SavedRecipe>, recipe: SavedRecipe, id: string)
    requires id != recipe.id
    ensures FindById(Upsert(rs, recipe), id) == FindById(rs, id)
  {
    var k := IndexOfId(rs, recipe.id);
    var t := Upsert(rs, recipe);
    var m := IndexOfId(rs, id);
    if m >= 0 {
      assert t[m] == rs[m];
      FirstIndex(t, id, m);
    } else {
      assert forall j :: 0 <= j < |t| ==> t[j].id != id by {
        assert forall j :: 0 <= j < |t| ==> t[j] == recipe || (j < |rs| && t[j] == rs[j]);
      }
    }
  }

  /** The entries kept by a delete, in their original order. */
  lemma {:induction false} RemoveByIdOrder(rs: seq<SavedRecipe>, id: string, i: nat, j: nat)
    requires i < j < |RemoveById(rs, id)|
    ensures exists a, b :: 0 <= a < b < |rs| && rs[a] == RemoveById(rs, id)[i] && rs[b] == RemoveById(rs, id)[j]
  {
    var init := rs[..|rs| - 1];
    var t := RemoveById(rs, id);
    var t0 := RemoveById(init, id);
    assert t == t0 + (if rs[|rs| - 1].id != id then [rs[|rs| - 1]] else []);
    if j < |t0| {
      RemoveByIdOrder(init, id, i, j);
      var a, b :| 0 <= a < b < |init| && init[a] == t0[i] && init[b] == t0[j];
      assert rs[a] == t[i] && rs[b] == t[j];
    } else {
      assert t[j] == rs[|rs| - 1];
      assert t[i] in init by { assert t[i] == t0[i]; }
      var a :| 0 <= a < |init| && init[a] == t[i];
      assert rs[a] == t[i];
    }
  }

  /** After a delete, the id is not found. */
  lemma RemoveThenFind(rs: seq<SavedRecipe>, id: string)
    ensures FindById(RemoveById(rs, id), id) == None
  {
    var t := RemoveById(rs, id);
    assert forall j :: 0 <= j < |t| ==> t[j].id != id by {
      assert forall j :: 0 <= j < |t| ==> t[j] in t;
    }
  }

  /** `saveRecipe`: loads the list, replaces or appends in place, and
      returns the JSON value written under the key. */
  method SaveRecipe(stored: Stored, codec: Codec, recipe: SavedRecipe) returns (written: Stored)
    requires RoundTrips(codec, Upsert(GetSavedRecipes(stored, codec), recipe))
    ensures GetSavedRecipes(written, codec) == Upsert(GetSavedRecipes(stored, codec), recipe)
    ensures FindById(GetSavedRecipes(written, codec), recipe.id) == Some(recipe)
  {
    var recipes := GetSavedRecipes(stored, codec);
    var existingIndex := IndexOfId(recipes, recipe.id);
    if existingIndex >= 0 {
      recipes := recipes[existingIndex := recipe];
    } else {
      recipes := recipes + [recipe];
    }
    written := Text(codec.stringify(recipes));
    UpsertThenFind(GetSavedRecipes(stored, codec), recipe);
  }

  /** `deleteRecipe`: writes back the list without the id. */
  method DeleteRecipe(stored: Stored, codec: Codec, id: string) returns (written: Stored)
    requires RoundTrips(codec, RemoveById(GetSavedRecipes(stored, codec), id))
    ensures GetSavedRecipes(written, codec) == RemoveById(GetSavedRecipes(stored, codec), id)
    ensures FindById(GetSavedRecipes(written, codec), id) == None
  {
    var recipes := GetSavedRecipes(stored, codec);
    var filtered := RemoveById(recipes, id);
    written := Text(codec.stringify(filtered));
    RemoveThenFind(recipes, id);
  }

  /** `getRecipeById`. */
  function GetRecipeById(stored: Stored, codec: Codec, id: string): (r: Option<SavedRecipe>)
    ensures r.Some? ==> r.value.id == id && r.value in GetSavedRecipes(stored, codec)
    ensures r.None? <==> forall x :: x in GetSavedRecipes(stored, codec) ==> x.id != id
  {
    FindById(GetSavedRecipes(stored, codec), id)
  }
}
