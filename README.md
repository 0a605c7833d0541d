# SmartCook screen controller in Dafny

SmartCook is a recipe-scaling prototype: a single React component
(`SmartCookApp`) that walks the user through six screens (recipe library,
paste recipe, scan ingredients, choose servings, results, save recipe) and
keeps a few session fields in component state. This project models that
controller: the screen enumeration, the session fields, and every event
handler and inline button action that changes them. It then proves what the
handlers promise.

Layout:

- `kitchen.dfy` (module `Kitchen`): the `Screen`, `Ingredient`, `Recipe` and
  `Folder` types, the mock ingredient list, the initial library and folders,
  the default servings count (4) and the "Untitled Recipe" name.
- `navigation.dfy` (module `Navigation`): the back-arrow map, the forward
  (primary button) map, and lemmas relating them.
- `scaling.dfy` (module `Scaling`): scaling an ingredient list element by
  element. The number arithmetic `(parseFloat(q) * (servings / 4)).toString()`
  is a parameter `scale: (string, int) -> string`, so every result holds for
  any such function.
- `library.dfy` (module `Library`): building the record a save creates,
  prepending it to the library, and the per-folder recipe count shown on each
  folder card.
- `text.dfy` (module `Text`): JavaScript `trim()` over its whitespace and
  line-terminator characters. The "Take Picture" button uses it to decide
  whether it is enabled.
- `app.dfy` (module `SmartCook`): class `App`, whose fields are the component's
  `useState` variables and whose methods are its handlers. Each method's
  `modifies` clause names the fields that handler sets. The class has two
  invariants:
  - `Valid()`: servings is at least 1, also in every saved recipe; the
    detected-ingredient list is always empty; the folders never change.
  - `ResultsCurrent()`: on the results and save screens, the scaled list is the
    mock list scaled to the servings count on display.

  `ExampleSession` runs a whole session through the class's contracts.

The model follows the code in these places:

- "New Recipe" only changes the screen. The recipe text and name typed
  earlier are kept.
- "Continue" on the scan screen only changes the screen. `handleScanIngredients`
  is never called, so `ingredients` stays empty.
- Scaling maps over the fixed mock ingredient list, not over `ingredients`. A
  saved recipe therefore holds all five mock ingredients, whatever text was
  pasted.

The handlers do not check which screen is showing. Each button is rendered only
on its own screen (app/page.tsx:501-506), so a method's contract says what its
handler keeps true when it is pressed from that screen. The exception is
"Take Picture": it is disabled while the trimmed recipe text is empty (line
288), so `TakePicture` requires `TakePictureEnabled()`.

## Model

| member | source | states |
|---|---|---|
| Navigation.Predecessor | app/page.tsx:255-458 | The back arrows form a fixed map: paste→library, scan→paste, servings→scan, results→servings, save→results. Only the library has no back arrow. Only the paste screen leads back to the library directly. No screen leads back to itself. |
| Navigation.Forward | app/page.tsx:105-163 | Each screen's primary button leads to the next screen in the flow ("Continue" on line 330 included). The save screen is the only one whose button leads back to the library. |
| Navigation.ForwardIsOneStep | app/page.tsx:105-163 | Each primary button except the save buttons moves exactly one position forward along the flow. |
| Navigation.Step | app/page.tsx:21 | Gives each of the six screens a position along the flow, from 0 to 5. Position 0 belongs to the library and to no other screen. |
| Navigation.BackUndoesForward | app/page.tsx:255-458 | Pressing back after a forward step returns to the screen the step started from. Saving is the exception, because it starts a new cycle. |
| Navigation.ForwardUndoesBack | app/page.tsx:255-458 | Pressing a screen predecessor's forward button returns to that screen. |
| Navigation.BackIsOneStep | app/page.tsx:255-458 | Each back press moves exactly one position back along the flow. |
| Navigation.BackN | app/page.tsx:255-458 | After n back presses, the position is the old position minus n, stopping at the library. |
| Navigation.BackReachesLibrary | app/page.tsx:255-458 | From any screen, the library is reached after exactly as many back presses as the screen's position, and not earlier. |
| Scaling.ScaleAll | app/page.tsx:124-127 | The scaled list has as many elements as its input, in the same order. Element k keeps the name, unit and substitution of input element k. Its quantity is the scaled quantity of input element k. |
| Scaling.ScaledListIsUnique | app/page.tsx:124-127 | The element-wise description above determines the scaled list: any list that satisfies it is the scaled list. |
| Scaling.ScaleAllAppend | app/page.tsx:124-127 | Scaling a concatenation gives the concatenation of the scaled parts. So each ingredient is scaled independently of the others. |
| Library.BuildRecipe | app/page.tsx:137-144 | The saved name is never empty. It is the typed name when one was typed, else "Untitled Recipe". The id, servings, date, folder and ingredient list are the ones given. |
| Library.Prepend | app/page.tsx:145 | The library grows by exactly one. The new record comes first, and every old record keeps its order one place later. |
| Library.CountInFolder | app/page.tsx:202 | A folder card's count (recipes whose folder id is that folder's id) is never more than the library size. |
| Library.CountExtremes | app/page.tsx:202 | A folder's count is 0 exactly when no recipe is filed there. It equals the library size exactly when every recipe is filed there. |
| Library.CountConcat | app/page.tsx:202 | The count of a concatenation is the sum of the counts of its parts. |
| Library.CountAfterPrepend | app/page.tsx:145 | Prepending a record raises its own folder's count by one and leaves every other folder's count unchanged. |
| Library.CountsAfterPrepend | app/page.tsx:145 | The same as CountAfterPrepend, for every folder id at once. |
| Text.IsJsWhitespace | app/page.tsx:288 | The characters `trim()` removes: space, tab, line feed and carriage return are among them, and no ASCII letter or digit is. |
| Text.TrimStart | app/page.tsx:288 | Returns a suffix of the text that does not start with whitespace. Everything dropped is whitespace. |
| Text.TrimEnd | app/page.tsx:288 | Returns a prefix of the text that does not end with whitespace. Everything dropped is whitespace. |
| Text.Trim | app/page.tsx:288 | The trimmed text is no longer than the text and neither starts nor ends with whitespace. |
| Text.TrimEndOfSuffix | app/page.tsx:288 | Trimming the end of a suffix of the text keeps a slice of the text, and every character dropped after that slice is whitespace. |
| Text.TrimIsPiece | app/page.tsx:288 | The trimmed text is exactly the slice of the text between a prefix and a suffix that are all whitespace. |
| Text.TrimEmptyIff | app/page.tsx:288 | The trimmed text is empty exactly when every character of the text is whitespace. |
| SmartCook.App.constructor | app/page.tsx:46-95 | The initial state: the library screen, 4 servings, empty recipe text and name, empty ingredient and scaled lists, the three initial recipes and the three folders. Both invariants hold. |
| SmartCook.App.SetRecipe | app/page.tsx:280 | Typing sets the recipe text and nothing else. |
| SmartCook.App.SetRecipeName | app/page.tsx:274 | Typing sets the recipe name and nothing else. |
| SmartCook.App.StartNewRecipe | app/page.tsx:163 | "New Recipe" shows the paste screen, which is the library's forward step. Nothing else changes, not even the recipe text or name. |
| SmartCook.App.TakePictureEnabled | app/page.tsx:288 | The button is enabled exactly when the recipe text has a character that is not whitespace. |
| SmartCook.App.TakePicture | app/page.tsx:119-121 | Shows the scan screen (the paste screen's forward step) and changes nothing else. It can be pressed only while enabled. |
| SmartCook.App.ContinueToServings | app/page.tsx:330 | Shows the choose-servings screen (the scan screen's forward step) and changes nothing else. In particular the ingredient list stays empty. |
| SmartCook.App.DecrementServings | app/page.tsx:363 | Servings drops by one but never below 1, so from 1 it stays at 1. Nothing else changes. |
| SmartCook.App.IncrementServings | app/page.tsx:372 | Servings rises by exactly one, with no upper bound. Nothing else changes. |
| SmartCook.App.ConfirmServings | app/page.tsx:123-130 | The scaled list becomes the mock list scaled to the current servings, with the same length. The results screen, the servings screen's forward step, is shown. Servings and every other field are unchanged. |
| SmartCook.App.SaveRecipe | app/page.tsx:132-134 | Shows the save screen (the results screen's forward step) and changes nothing else. Pressed on the results screen, it keeps the scaled list in step with the servings. |
| SmartCook.App.ConfirmSave | app/page.tsx:136-152 | The library becomes the new record followed by the old library. The form is reset: the library screen (the save screen's forward step), empty text and name, 4 servings, empty scaled list. The chosen folder's count rises by one and every other count stays the same. Saved from the save screen, the record's ingredients are the mock list scaled to the record's own servings. Ingredients and folders are unchanged. |
| SmartCook.App.GoBack | app/page.tsx:255-458 | Shows the current screen's predecessor and changes nothing else. |
| SmartCook.EnterRecipe | app/page.tsx:163-330 | Starting a recipe, typing a name and a text that has a character other than whitespace (so the picture button is enabled), taking the picture and pressing "Continue" reaches the servings screen with that name and text. Only the screen, the name and the text change, and both invariants hold. |
| SmartCook.ScaleForTwoMore | app/page.tsx:363-437 | From the servings screen, two increments, "Scale Recipe" and "Save Recipe" reach the save screen with two more servings. The scaled list matches those servings. Only the servings, the scaled list and the screen change. |
| SmartCook.SaveNewRecipe | app/page.tsx:136-437 | One pass through the flow from the library, saved into a folder: the library gains, in first place, a record with the typed name (or "Untitled Recipe"), two more servings than the form showed, and the mock list scaled to those servings. The form is back on the library screen with 4 servings. |
| SmartCook.ExampleSession | app/page.tsx:46-152 | From a freshly mounted app: start a recipe, leave the name empty, type "2 cups flour", add two servings, scale and save without a folder; then start a new recipe named "Pancakes" with the text "1 cup sugar", add two servings, scale and save into "desserts". The library then starts with the 6-serving "Pancakes" in "desserts", then the untitled 6-serving recipe with no folder, each holding the five mock ingredients scaled to 6, and then the three initial recipes in their order. |

## Left out

- Rendering. The JSX screens, styling, icons, the search box, and the Share,
  MoreVertical and folder-icon buttons have no handlers and no effect on
  state.
- Quantity arithmetic. `Number.parseFloat(q) * (servings / 4)` and
  `.toString()` are floating-point parsing and formatting. For example,
  "3/4" parses as 3. They are the parameter `scaleQuantity`, so no property
  here depends on their values. The display rounding with `toFixed`
  (line 416) is presentation and is left out too.
- Clock values. The save's id (`Date.now()`) and date (`toISOString()`) are
  method parameters. Nothing is claimed about id uniqueness, because the code
  does not guarantee it.
- handleScaleRecipe (lines 105-112) has the same body as
  handleConfirmServings, and no control calls it.
  `SmartCook.App.ConfirmServings` models both.
- handleScanIngredients (lines 114-117) is never called, and neither is
  `setFolders`. So `ingredients == []` and `folders == InitialFolders` are
  part of `Valid()`.
- The folder-name badge lookup `folders.find(...)` (line 223) is display
  only.
- SmartCook.App.IncrementServings: servings is an unbounded integer. A
  JavaScript number stops growing by exactly one past 2^53, which clicking
  never reaches.
- React's render cycle. Each handler reads the state of the last render. The
  model lets each call see the previous call's result, which is what happens
  when React re-renders between user events.
