/** Scaling the ingredient list to a number of servings. The quantity arithmetic
    itself (floating-point parsing, multiplication by servings / 4, formatting back
    to text) is the parameter `scale`; everything here holds for any such function. */
module Scaling {
  import opened Kitchen

  /** One ingredient with its quantity scaled; the other fields are copied over. */
  function ScaleIngredient(i: Ingredient, servings: int, scale: (string, int) -> string): Ingredient
  {
    i.(quantity := scale(i.quantity, servings))
  }

  /** The list of ingredients scaled element by element, in order. */
  function ScaleAll(items: seq<Ingredient>, servings: int, scale: (string, int) -> string): (r: seq<Ingredient>)
    ensures |r| == |items|
    ensures forall k :: 0 <= k < |items| ==>
      && r[k].name == items[k].name
      && r[k].unit == items[k].unit
      && r[k].substitution == items[k].substitution
      && r[k].quantity == scale(items[k].quantity, servings)
  {
    if items == [] then []
    else [ScaleIngredient(items[0], servings, scale)] + ScaleAll(items[1..], servings, scale)
  }

  /** The per-element description in ScaleAll's contract determines its result:
      any list that keeps each name, unit and substitution and scales each
      quantity is the scaled list. */
  lemma ScaledListIsUnique(items: seq<Ingredient>, servings: int, scale: (string, int) -> string, r: seq<Ingredient>)
    requires |r| == |items|
    requires forall k :: 0 <= k < |items| ==>
      && r[k].name == items[k].name
      && r[k].unit == items[k].unit
      && r[k].substitution == items[k].substitution
      && r[k].quantity == scale(items[k].quantity, servings)
    ensures r == ScaleAll(items, servings, scale)
  {
  }

  /** Scaling distributes over concatenation, so each element is scaled on its own. */
  lemma ScaleAllAppend(a: seq<Ingredient>, b: seq<Ingredient>, servings: int, scale: (string, int) -> string)
    ensures ScaleAll(a + b, servings, scale) == ScaleAll(a, servings, scale) + ScaleAll(b, servings, scale)
  {
  }
}
