/** The entities of the SmartCook recipe app and the data it starts with. */
module Kitchen {

  datatype Option<+T> = None | Some(value: T)

  /** The six screens of the app; exactly one is shown at a time. */
  datatype Screen =
    | RecipeLibrary
    | PasteRecipe
    | ScanIngredients
    | ChooseServings
    | Results
    | SaveRecipe

  /** An ingredient line; the quantity is kept as text ("2", "3/4"). */
  datatype Ingredient = Ingredient(name: string, quantity: string, unit: string, substitution: Option<string>)

  /** A saved recipe; `folderId` is a weak reference to a Folder's id. */
  datatype Recipe = Recipe(
    id: string,
    name: string,
    servings: int,
    dateCreated: string,
    folderId: Option<string>,
    ingredients: seq<Ingredient>)

  datatype Folder = Folder(id: string, name: string, color: string)

  /** Servings shown when a new recipe is started, and the count the mock quantities are written for. */
  const DefaultServings: int := 4

  /** Name given to a recipe saved with an empty name field. */
  const UntitledName: string := "Untitled Recipe"

  /** The fixed "detected" ingredient list that every scaling works from. */
  const MockIngredients: seq<Ingredient> := [
    Ingredient("All-purpose flour", "2", "cups", Some("Whole wheat flour")),
    Ingredient("Olive oil", "3", "tbsp", None),
    Ingredient("Salt", "1", "tsp", None),
    Ingredient("Sugar", "2", "tbsp", Some("Honey")),
    Ingredient("Eggs", "2", "large", None)
  ]

  /** The library the app opens with. */
  const InitialSavedRecipes: seq<Recipe> := [
    Recipe("1", "Chocolate Chip Cookies", 4, "2024-01-15", Some("desserts"), [
      Ingredient("All-purpose flour", "2", "cups", None),
      Ingredient("Butter", "1", "cup", None),
      Ingredient("Sugar", "3/4", "cup", None)
    ]),
    Recipe("2", "Pasta Carbonara", 2, "2024-01-10", Some("dinner"), [
      Ingredient("Spaghetti", "200", "g", None),
      Ingredient("Eggs", "2", "large", None),
      Ingredient("Parmesan", "1/2", "cup", None)
    ]),
    Recipe("3", "Green Smoothie", 1, "2024-01-12", None, [
      Ingredient("Spinach", "1", "cup", None),
      Ingredient("Banana", "1", "medium", None),
      Ingredient("Almond milk", "1", "cup", None)
    ])
  ]

  /** The folders; nothing in the app adds, renames or removes one. */
  const InitialFolders: seq<Folder> := [
    Folder("desserts", "Desserts", "bg-pink-100"),
    Folder("dinner", "Dinner", "bg-blue-100"),
    Folder("breakfast", "Breakfast", "bg-yellow-100")
  ]
}
