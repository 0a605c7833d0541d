/** The saved-recipe library: building a record on save, prepending it, and the
    per-folder counts shown on the folder cards. */
module Library {
  import opened Kitchen

  /** The record a save creates from the form: an empty name field gives the
      untitled name; every other field is taken as given. */
  function BuildRecipe(
    id: string, recipeName: string, servings: int, dateCreated: string,
    folderId: Option<string>, ingredients: seq<Ingredient>): (r: Recipe)
    ensures r.name != ""
    ensures recipeName != "" ==> r.name == recipeName
    ensures recipeName == "" ==> r.name == UntitledName
    ensures r.id == id && r.dateCreated == dateCreated
    ensures r.servings == servings && r.folderId == folderId && r.ingredients == ingredients
  {
    Recipe(id, if recipeName != "" then recipeName else UntitledName, servings, dateCreated, folderId, ingredients)
  }

  /** The library after a save: the new record first, then every old one in its old order. */
  function Prepend(r: Recipe, saved: seq<Recipe>): (out: seq<Recipe>)
    ensures |out| == |saved| + 1
    ensures out[0] == r && out[1..] == saved
  {
    [r] + saved
  }

  /** How many saved recipes are filed in the folder with id `folderId`; a recipe
      without a folder is in none. */
  function CountInFolder(saved: seq<Recipe>, folderId: string): (n: nat)
    ensures n <= |saved|
  {
    if saved == [] then 0
    else (if saved[0].folderId == Some(folderId) then 1 else 0) + CountInFolder(saved[1..], folderId)
  }

  /** A folder's count is 0 exactly when no recipe is filed in it, and is the
      library size exactly when every recipe is. */
  lemma {:induction false} CountExtremes(saved: seq<Recipe>, folderId: string)
    ensures CountInFolder(saved, folderId) == 0
        <==> forall k :: 0 <= k < |saved| ==> saved[k].folderId != Some(folderId)
    ensures CountInFolder(saved, folderId) == |saved|
        <==> forall k :: 0 <= k < |saved| ==> saved[k].folderId == Some(folderId)
  {
    if saved != [] {
      CountExtremes(saved[1..], folderId);
      assert forall k :: 1 <= k < |saved| ==> saved[k] == saved[1..][k - 1];
    }
  }

  /** Counting is additive over concatenated lists. */
  lemma {:induction false} CountConcat(a: seq<Recipe>, b: seq<Recipe>, folderId: string)
    ensures CountInFolder(a + b, folderId) == CountInFolder(a, folderId) + CountInFolder(b, folderId)
  {
    if a == [] {
      assert a + b == b;
    } else {
      assert (a + b)[1..] == a[1..] + b;
      CountConcat(a[1..], b, folderId);
    }
  }

  /** A save raises the count of the folder it is filed in by one and leaves
      every other folder's count as it was. */
  lemma CountAfterPrepend(r: Recipe, saved: seq<Recipe>, folderId: string)
    ensures CountInFolder(Prepend(r, saved), folderId)
         == CountInFolder(saved, folderId) + (if r.folderId == Some(folderId) then 1 else 0)
  {
  }

  /** CountAfterPrepend for every folder id at once. */
  lemma CountsAfterPrepend(r: Recipe, saved: seq<Recipe>)
    ensures forall f :: CountInFolder(Prepend(r, saved), f)
                     == CountInFolder(saved, f) + (if r.folderId == Some(f) then 1 else 0)
  {
  }
}
