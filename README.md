# Standle game logic in Dafny

Standle is a Wordle-style guessing game. The app draws a secret "stand" from a fixed dataset.
The player types into a search box, picks one of the offered stands and submits it. Each
submission adds a row to a comparison table. The row shows the guess's six attributes (name,
part, stand type, color, design, defeated by). Each attribute is flagged when it equals the
secret's. The table's header row stays pinned first, and guesses appear below it newest first.

This project models the game logic of the single component file `App.js`:

- `Stands.dfy` (module `Stands`): the stand record, the table row, and how a guess is scored
  against the secret (`addRow`'s row construction). The row is either built or refused with the
  reason: no stand selected, or no secret drawn yet.
- `History.dfy` (module `History`): inserting a row right after the pinned header, and what
  that means over any number of guesses.
- `Text.dfy` (module `Text`): the two string operations the search uses, ASCII lower-casing
  and `indexOf`-style substring search.
- `Search.dfy` (module `Search`): the search filter, with its order, membership, multiplicity
  and case-insensitivity properties.
- `Game.dfy` (module `Game`): the two components' state as classes. `App` holds the secret,
  the table and the selection. `StandSearch` holds the query, the offered stands and the focus
  flag. Their handlers are methods that replace that state. A last method plays one round end
  to end.

Where a prose description of the game and the code disagree, the model follows the code:

- The overall `match` flag compares names only (`App.js:75-76`). It does not require all six
  attributes to agree. `isMatch` is the Dafny name of that flag, because `match` is a keyword.
- The empty query offers every stand, including one with an empty name. `indexOf("")` is 0.

## Model

| member | source | states |
|---|---|---|
| Stands.Evaluate | App.js:67-82 | the row's six columns are the guess's name, part, stand type, color, design and defeated-by, in that order; each of the six flags holds exactly when that attribute of the guess equals the secret's, as exact strings |
| Stands.MatchDependsOnlyOnName | App.js:75-76 | the overall match flag holds exactly when the names are equal; two guesses with the same name get the same flag whatever their other attributes |
| Stands.EvaluateSelf | App.js:75-81 | scoring the secret against itself sets the overall match and all five attribute flags |
| Stands.StarPlatinumAgainstTheWorld | App.js:75-81 | worked example: Star Platinum against The World matches only on stand type and design |
| Stands.NewRow | App.js:66-82 | with no selection the row is refused (NoSelection, the read at line 69); with a selection but no secret it is refused (NoSecret, the read at line 77); otherwise it is the scored guess |
| Text.ToLower | App.js:134 | lower-casing keeps the length and lower-cases each character independently |
| Text.ToLowerIdempotent | App.js:134 | lower-casing an already lower-cased string changes nothing |
| Text.IndexFrom | App.js:134 | returns the first position at or after the start where the needle occurs, or -1 exactly when it occurs nowhere from there |
| Text.IndexOf | App.js:134 | the result is above -1 exactly when the needle occurs in the string; then it is the first such position; the empty needle is found at 0 |
| Search.NameMatches | App.js:134 | a stand is offered exactly when its lower-cased name contains the lower-cased query |
| Search.Filter | App.js:133-135 | the result is no longer than the dataset and holds exactly the dataset's stands whose name matches the query |
| Search.FilterIsSubsequence | App.js:133-135 | the offered stands are the dataset with some stands left out, in dataset order |
| Search.FilterCounts | App.js:133-135 | a matching stand appears as often as in the dataset, any other stand not at all |
| Search.FilterEmptyQuery | App.js:133-135 | the empty query offers the whole dataset unchanged |
| Search.FilterSameLowered | App.js:134 | two queries that lower-case alike offer the same stands |
| Search.FilterIgnoresCase | App.js:134 | a query and its lower-cased form offer the same stands |
| Search.NameFindsItself | App.js:133-135 | typing a stand's full name offers that stand |
| History.InsertAfterHeader | App.js:84 | the table grows by one; row 0 is unchanged; row 1 is the new row; every earlier row i >= 1 moves to i+1 |
| History.InsertIsNewestFirst | App.js:84 | the guesses after an insertion are the new row followed by the earlier guesses |
| History.InsertKeepsWellFormed | App.js:30-40 | a table that is the header followed by guess rows stays so after a guess row is inserted |
| History.RemoveUndoesInsert | App.js:84 | taking the newest guess back out gives the table before the insertion |
| History.InsertAllNewestFirst | App.js:84 | after any number of guesses the header is still first and the guesses read newest first, ahead of the ones already there |
| History.TwoInsertsOrder | App.js:84 | inserting row1 and then row2 gives header, row2, row1, then the older rows |
| Game.App.constructor | App.js:28-42 | the screen starts with no secret, no selection and a table holding only the header row |
| Game.App.SetSecretStandForUser | App.js:45-49 | the secret becomes the dataset's stand at the drawn index; table and selection are unchanged |
| Game.App.SetSelectedStand | App.js:42 | the selection becomes the picked stand; table and secret are unchanged |
| Game.App.AddRow | App.js:66-85 | on success the table becomes the old table with the scored row inserted after the header; on failure the table is unchanged; secret and selection never change |
| Game.StandSearch.constructor | App.js:113-116 | the search box starts empty, offering nothing, not focused |
| Game.StandSearch.HandleInputChange | App.js:129-137 | the query becomes the typed text and the offered stands become the filter of the dataset by it; focus is unchanged |
| Game.StandSearch.HandleItemPress | App.js:122-127 | the query becomes the picked stand's name, the screen's selection becomes that stand, the offers are emptied and focus is false; table and secret are unchanged |
| Game.StandSearch.HandleSearch | App.js:118-120 | submitting is the screen's AddRow on the current selection and secret |
| Game.GuessSecretByName | App.js:45-137 | drawing a secret, typing its name, picking it and submitting succeeds with a row whose flags are all set, and the table is the header followed by that row |

## Left out

- Rendering (the table, hints box, search box and dropdown layout, styles) is presentation only.
- Font loading and the start-up `useEffect` are asynchronous framework plumbing. The model
  lets a caller draw the secret at any time instead.
- `Math.random()` is not modelled. The secret's index is a parameter `randomIndex` below the
  dataset's length. A row's id is a parameter `id` with no uniqueness property.
- Game.App.SetSecretStandForUser: does not model an empty dataset, where the draw reads past
  the end and sets the secret to `undefined`; the dataset is a fixed, non-empty file.
- The dataset file `stands.json` is not part of this model. Its contents are whatever
  sequence of stands is passed in. Every stand has all six attributes as strings.
- Text.ToLower: lower-cases ASCII capitals only; JavaScript's `toLowerCase` follows Unicode case
  mapping, which is not modelled.
- The autocomplete widget, `FlatList` and `ScrollView` are foreign components. The model only
  has the state they read (`filtered`, `query`, `focused`). The only writer of `focused` is the
  item press, which sets it to false. Nothing in the component ever sets it to true.
- The hints box's show/hide toggle of the secret's name is a UI flag with no effect on the game.
- `webpack.config.js` is build configuration with no logic.
- The component's state setters take effect on the next render in React. Each handler here
  applies its updates at once. No handler reads state it has just written, so this does not
  change the results.
