/** The SmartCook component's session state and the handlers its buttons and
    text fields call. */
module SmartCook {
  import opened Kitchen
  import opened Navigation
  import opened Scaling
  import opened Library
  import opened Text

  class App {
    /** The floating-point quantity scaling, taken as given (see module Scaling). */
    const scaleQuantity: (string, int) -> string

    var currentScreen: Screen
    var servings: int
    var recipe: string
    var ingredients: seq<Ingredient>
    var scaledIngredients: seq<Ingredient>
    var recipeName: string
    var savedRecipes: seq<Recipe>
    var folders: seq<Folder>

    /** What holds in every state: servings never below one (also in every saved
        recipe), the detected-ingredient list never filled in, the folders fixed. */
    ghost predicate Valid()
      reads this`servings, this`ingredients, this`folders, this`savedRecipes
    {
      && servings >= 1
      && ingredients == []
      && folders == InitialFolders
      && forall k :: 0 <= k < |savedRecipes| ==> savedRecipes[k].servings >= 1
    }

    /** On the results and save screens, the scaled list is the mock list scaled
        to the servings count on display. */
    ghost predicate ResultsCurrent()
      reads this`currentScreen, this`servings, this`scaledIngredients
    {
      (currentScreen == Results || currentScreen == Kitchen.SaveRecipe) ==>
        scaledIngredients == ScaleAll(MockIngredients, servings, scaleQuantity)
    }

    /** The state the component mounts with. */
    constructor (scale: (string, int) -> string)
      ensures Valid() && ResultsCurrent()
      ensures scaleQuantity == scale
      ensures currentScreen == RecipeLibrary && servings == DefaultServings
      ensures recipe == "" && recipeName == ""
      ensures ingredients == [] && scaledIngredients == []
      ensures savedRecipes == InitialSavedRecipes && folders == InitialFolders
    {
      scaleQuantity := scale;
      currentScreen := RecipeLibrary;
      servings := DefaultServings;
      recipe := "";
      ingredients := [];
      scaledIngredients := [];
      recipeName := "";
      savedRecipes := InitialSavedRecipes;
      folders := InitialFolders;
    }

    /** Typing in the recipe text area. */
    method SetRecipe(text: string)
      requires Valid()
      modifies this`recipe
      ensures Valid()
      ensures recipe == text
      ensures old(ResultsCurrent()) ==> ResultsCurrent()
    {
      recipe := text;
    }

    /** Typing in the recipe name field. */
    method SetRecipeName(text: string)
      requires Valid()
      modifies this`recipeName
      ensures Valid()
      ensures recipeName == text
      ensures old(ResultsCurrent()) ==> ResultsCurrent()
    {
      recipeName := text;
    }

    /** "New Recipe": only the screen changes; the text and name typed before stay. */
    method StartNewRecipe()
      requires Valid()
      modifies this`currentScreen
      ensures Valid()
      ensures currentScreen == PasteRecipe
      ensures old(currentScreen) == RecipeLibrary ==> currentScreen == Forward(old(currentScreen))
      ensures ResultsCurrent()
    {
      currentScreen := PasteRecipe;
    }

    /** Whether "Take Picture of Ingredients" is enabled: the trimmed recipe text is
        non-empty, that is, the text has a character that is not whitespace. */
    function TakePictureEnabled(): (enabled: bool)
      reads this`recipe
      ensures enabled <==> exists k :: 0 <= k < |recipe| && !IsJsWhitespace(recipe[k])
    {
      Trim(recipe) != ""
    }

    /** "Take Picture of Ingredients", which can be pressed only while enabled. */
    method TakePicture()
      requires Valid()
      requires TakePictureEnabled()
      modifies this`currentScreen
      ensures Valid()
      ensures currentScreen == ScanIngredients
      ensures old(currentScreen) == PasteRecipe ==> currentScreen == Forward(old(currentScreen))
      ensures ResultsCurrent()
    {
      currentScreen := ScanIngredients;
    }

    /** "Continue" on the scan screen: only the screen changes; the detected
        ingredients are not stored. */
    method ContinueToServings()
      requires Valid()
      modifies this`currentScreen
      ensures Valid()
      ensures currentScreen == ChooseServings
      ensures old(currentScreen) == ScanIngredients ==> currentScreen == Forward(old(currentScreen))
      ensures ResultsCurrent()
    {
      currentScreen := ChooseServings;
    }

    /** The left chevron: one serving fewer, but never fewer than one. */
    method DecrementServings()
      requires Valid()
      modifies this`servings
      ensures Valid()
      ensures old(servings) > 1 ==> servings == old(servings) - 1
      ensures old(servings) == 1 ==> servings == 1
      ensures old(currentScreen) == ChooseServings ==> ResultsCurrent()
    {
      servings := if servings - 1 > 1 then servings - 1 else 1;
    }

    /** The right chevron: one serving more, with no upper bound. */
    method IncrementServings()
      requires Valid()
      modifies this`servings
      ensures Valid()
      ensures servings == old(servings) + 1
      ensures old(currentScreen) == ChooseServings ==> ResultsCurrent()
    {
      servings := servings + 1;
    }

    /** "Scale Recipe": the mock list (not `ingredients`) scaled to the current
        servings becomes the scaled list, and the results are shown. */
    method ConfirmServings()
      requires Valid()
      modifies this`scaledIngredients, this`currentScreen
      ensures Valid()
      ensures currentScreen == Results
      ensures old(currentScreen) == ChooseServings ==> currentScreen == Forward(old(currentScreen))
      ensures scaledIngredients == ScaleAll(MockIngredients, servings, scaleQuantity)
      ensures |scaledIngredients| == |MockIngredients|
      ensures ResultsCurrent()
    {
      scaledIngredients := ScaleAll(MockIngredients, servings, scaleQuantity);
      currentScreen := Results;
    }

    /** "Save Recipe" on the results screen. */
    method SaveRecipe()
      requires Valid()
      modifies this`currentScreen
      ensures Valid()
      ensures currentScreen == Kitchen.SaveRecipe
      ensures old(currentScreen) == Results ==> currentScreen == Forward(old(currentScreen))
      ensures old(currentScreen) == Results && old(ResultsCurrent()) ==> ResultsCurrent()
    {
      currentScreen := Kitchen.SaveRecipe;
    }

    /** "Save without folder" (folderId None) or "Save to <folder>": the new record
        goes first in the library and the form is reset. The id and the date come
        from the clock and are passed in. */
    method ConfirmSave(folderId: Option<string>, id: string, dateCreated: string)
      requires Valid()
      modifies this`savedRecipes, this`currentScreen, this`recipe, this`recipeName,
               this`servings, this`scaledIngredients
      ensures Valid()
      ensures savedRecipes == Prepend(
        BuildRecipe(id, old(recipeName), old(servings), dateCreated, folderId, old(scaledIngredients)),
        old(savedRecipes))
      ensures currentScreen == RecipeLibrary
      ensures old(currentScreen) == Kitchen.SaveRecipe ==> currentScreen == Forward(old(currentScreen))
      ensures recipe == "" && recipeName == ""
      ensures servings == DefaultServings && scaledIngredients == []
      ensures forall f :: CountInFolder(savedRecipes, f)
                       == CountInFolder(old(savedRecipes), f) + (if folderId == Some(f) then 1 else 0)
      ensures old(currentScreen) == Kitchen.SaveRecipe && old(ResultsCurrent()) ==>
        savedRecipes[0].ingredients == ScaleAll(MockIngredients, savedRecipes[0].servings, scaleQuantity)
      ensures ResultsCurrent()
    {
      var newRecipe := BuildRecipe(id, recipeName, servings, dateCreated, folderId, scaledIngredients);
      CountsAfterPrepend(newRecipe, savedRecipes);
      ghost var before := savedRecipes;
      savedRecipes := Prepend(newRecipe, savedRecipes);
      assert forall k :: 1 <= k < |savedRecipes| ==> savedRecipes[k] == before[k - 1];
      currentScreen := RecipeLibrary;
      recipe := "";
      recipeName := "";
      servings := DefaultServings;
      scaledIngredients := [];
      assert currentScreen != Results && currentScreen != Kitchen.SaveRecipe;
    }

    /** The back arrow of the screen on display; the library has none. */
    method GoBack()
      requires Valid()
      requires currentScreen != RecipeLibrary
      modifies this`currentScreen
      ensures Valid()
      ensures Predecessor(old(currentScreen)) == Some(currentScreen)
      ensures old(ResultsCurrent()) ==> ResultsCurrent()
    {
      currentScreen := Predecessor(currentScreen).value;
    }
  }

  /** The first half of the new-recipe flow: start a recipe, type its name (or
      leave the field empty, as `name == ""`) and a text that has a non-blank
      character, take the picture and continue to the servings screen. */
  method EnterRecipe(app: App, name: string, text: string)
    requires app.Valid()
    requires exists k :: 0 <= k < |text| && !IsJsWhitespace(text[k])
    modifies app`currentScreen, app`recipeName, app`recipe
    ensures app.Valid() && app.ResultsCurrent()
    ensures app.currentScreen == ChooseServings
    ensures app.recipeName == name && app.recipe == text
  {
    app.StartNewRecipe();
    app.SetRecipeName(name);
    app.SetRecipe(text);
    app.TakePicture();
    app.ContinueToServings();
  }

  /** The second half: add two servings, scale, and press "Save Recipe". */
  method ScaleForTwoMore(app: App)
    requires app.Valid() && app.currentScreen == ChooseServings
    modifies app`servings, app`scaledIngredients, app`currentScreen
    ensures app.Valid() && app.ResultsCurrent()
    ensures app.currentScreen == Kitchen.SaveRecipe
    ensures app.servings == old(app.servings) + 2
  {
    app.IncrementServings();
    app.IncrementServings();
    app.ConfirmServings();
    app.SaveRecipe();
  }

  /** One pass through the new-recipe flow with the name `name` and the text
      `text`, ending with a save into `folderId`: the saved record holds the mock
      list scaled to two more servings than the form showed. */
  method SaveNewRecipe(app: App, name: string, text: string, folderId: Option<string>, id: string, dateCreated: string)
    requires app.Valid()
    requires exists k :: 0 <= k < |text| && !IsJsWhitespace(text[k])
    modifies app`currentScreen, app`recipe, app`servings, app`scaledIngredients,
             app`recipeName, app`savedRecipes
    ensures app.Valid() && app.ResultsCurrent()
    ensures app.currentScreen == RecipeLibrary && app.servings == DefaultServings
    ensures app.savedRecipes == Prepend(
      BuildRecipe(id, name, old(app.servings) + 2, dateCreated, folderId,
                  ScaleAll(MockIngredients, old(app.servings) + 2, app.scaleQuantity)),
      old(app.savedRecipes))
  {
    EnterRecipe(app, name, text);
    ScaleForTwoMore(app);
    app.ConfirmSave(folderId, id, dateCreated);
  }

  /** A whole session from a freshly mounted app: "2 cups flour" scaled to 6 and
      saved unnamed without a folder, then "1 cup sugar" scaled to 6 and saved as
      "Pancakes" into the desserts folder. */
  method ExampleSession(scale: (string, int) -> string) returns (saved: seq<Recipe>)
    ensures |saved| == |InitialSavedRecipes| + 2
    ensures saved[0] == Recipe("1705420860000", "Pancakes", 6, "2024-01-16", Some("desserts"), ScaleAll(MockIngredients, 6, scale))
    ensures saved[1] == Recipe("1705420800000", UntitledName, 6, "2024-01-16", None, ScaleAll(MockIngredients, 6, scale))
    ensures |saved[0].ingredients| == |saved[1].ingredients| == 5
    ensures saved[2..] == InitialSavedRecipes
  {
    var app := new App(scale);
    ghost var library := app.savedRecipes;
    assert !IsJsWhitespace("2 cups flour"[0]);
    SaveNewRecipe(app, "", "2 cups flour", None, "1705420800000", "2024-01-16");
    ghost var first := app.savedRecipes[0];
    assert app.savedRecipes == Prepend(first, library);
    assert !IsJsWhitespace("1 cup sugar"[0]);
    SaveNewRecipe(app, "Pancakes", "1 cup sugar", Some("desserts"), "1705420860000", "2024-01-16");
    ghost var second := app.savedRecipes[0];
    assert app.savedRecipes == Prepend(second, Prepend(first, library));
    saved := app.savedRecipes;
  }
}
