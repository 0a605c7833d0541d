/** The screen graph: where each back arrow and each primary button leads. */
module Navigation {
  import opened Kitchen

  /** The screen a screen's back arrow leads to; the library has no back arrow. */
  function Predecessor(s: Screen): (p: Option<Screen>)
    ensures p.None? <==> s == RecipeLibrary
    ensures p == Some(RecipeLibrary) <==> s == PasteRecipe
    ensures p.Some? ==> p.value != s
  {
    match s
    case RecipeLibrary => None
    case PasteRecipe => Some(RecipeLibrary)
    case ScanIngredients => Some(PasteRecipe)
    case ChooseServings => Some(ScanIngredients)
    case Results => Some(ChooseServings)
    case SaveRecipe => Some(Results)
  }

  /** The screen a screen's primary button leads to ("New Recipe", "Take Picture",
      "Continue", "Scale Recipe", "Save Recipe", and any of the save buttons). */
  function Forward(s: Screen): (n: Screen)
    ensures n == RecipeLibrary <==> s == SaveRecipe
    ensures n != s
  {
    match s
    case RecipeLibrary => PasteRecipe
    case PasteRecipe => ScanIngredients
    case ScanIngredients => ChooseServings
    case ChooseServings => Results
    case Results => SaveRecipe
    case SaveRecipe => RecipeLibrary
  }

  /** Position of a screen along the new-recipe flow, the library being 0. */
  function Step(s: Screen): (k: nat)
    ensures k <= 5
    ensures k == 0 <==> s == RecipeLibrary
  {
    match s
    case RecipeLibrary => 0
    case PasteRecipe => 1
    case ScanIngredients => 2
    case ChooseServings => 3
    case Results => 4
    case SaveRecipe => 5
  }

  /** The back arrow undoes every forward step except the save, which starts a new cycle. */
  lemma BackUndoesForward(s: Screen)
    requires s != SaveRecipe
    ensures Predecessor(Forward(s)) == Some(s)
  {
  }

  /** Going forward from a screen's predecessor returns to that screen. */
  lemma ForwardUndoesBack(s: Screen)
    requires s != RecipeLibrary
    ensures Forward(Predecessor(s).value) == s
  {
  }

  /** Each back step moves exactly one position back along the flow. */
  lemma BackIsOneStep(s: Screen)
    requires s != RecipeLibrary
    ensures Step(Predecessor(s).value) == Step(s) - 1
  {
  }

  /** Each forward step except the save moves exactly one position along the flow. */
  lemma ForwardIsOneStep(s: Screen)
    requires s != SaveRecipe
    ensures Step(Forward(s)) == Step(s) + 1
  {
  }

  /** The screen reached by pressing back `n` times, stopping at the library. */
  function BackN(s: Screen, n: nat): (r: Screen)
    ensures Step(r) == if n <= Step(s) then Step(s) - n else 0
    decreases n
  {
    if n == 0 then s
    else
      match Predecessor(s)
      case None => s
      case Some(p) => BackN(p, n - 1)
  }

  /** Back navigation from any screen reaches the library after exactly Step(s)
      presses, and not before. */
  lemma BackReachesLibrary(s: Screen)
    ensures BackN(s, Step(s)) == RecipeLibrary
    ensures forall k: nat :: k < Step(s) ==> BackN(s, k) != RecipeLibrary
  {
  }
}
