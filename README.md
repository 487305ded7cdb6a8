# RecipeApp search and recommendation core, in Dafny

This project models the decision logic of three pieces of the AppReceita React Native app:

- **The stock screen** (`Estoque.js`). It keeps the user's ingredient stock as an ordered list of
  `{id, name, image}` with no repeated id. It loads the stock from the device storage item
  `"estoque"` and writes it back after each change. It offers ingredient autocomplete behind a
  500 ms trailing-edge debounce.
- **The home screen's recommendation chain** (`Home.js`). A non-empty stock is sent to
  find-by-ingredients as comma-joined names. Any result is shown as cards with a
  `used/(used+missed)` badge. An empty stock, an empty answer or an error falls back to random
  recipes. A missing `recipes` field or a failed random call falls back to four bundled recipes.
- **The recipe search box** (`SearchBar.js`). Text search runs behind a 600 ms debounce. Two
  bundled suggestions replace empty answers and errors. A four-flag condition decides whether
  the result list is shown.

Remote calls are abstract outcomes (`Remote<T>`: `Success(data)` or `Failure`) supplied by the
caller. The storage item is a `Slot`: `Absent`, `Saved(list)` or `Unparsable`. Time is whole
milliseconds advanced by `Advance(ms)`.

Module layout:

- `Outcomes`: `Option` and `Remote`.
- `JsText`: JavaScript's `length` of a string, in UTF-16 code units.
- `Debounce`: the timer effect as a pure state machine over keystroke and wait events. Both
  debounced inputs use it.
- `Inventory`: the pure add and remove functions on the stock and their lemmas.
- `Storage`: the storage item.
- `StockScreen`: class `Screen`, with the fields `query`, `estoque`, `suggestions` and `loading`.
- `Recommendation`: the pure parts of the home screen and the chain as a whole.
- `HomeScreen`: class `Screen`, with the fields `recommendedRecipes`, `loading` and `usingStock`.
- `SearchBar`: class `Box`, with the fields `query`, `resultados`, `loading` and `showSuggestions`.

Each class method says, in its `ensures`, the whole new state. It states that state in terms of
the old state and the pure functions. The lemmas prove what those functions guarantee.

No screen checks whether a response is stale. A response changes the state whenever it arrives,
including one that answers an older request. The model keeps this: it counts requests that have
not been answered only so that it never answers a request that was never sent.
`HomeScreen.LateStockResponseScenario` shows how this plays out. A late find-by-ingredients answer
shows stock-based cards while `usingStock` is false.

Behaviour of the code worth knowing, all of it modelled as written:

- No screen checks whether a response is stale.
- An empty `recipes` array from the random stage is shown as it is, not replaced by the defaults.
  So the home screen can settle on an empty list (`Recommendation.EmptyRandomCountsAsPresent`).
- The two debounced boxes use different thresholds. Ingredient autocomplete needs more than 2
  characters and waits 500 ms. Recipe search needs more than 1 character and waits 600 ms.
- A short query clears the list only when the timer fires, not at the keystroke.
- Query lengths are JavaScript `length` values, counted in UTF-16 code units. A character
  below U+10000 (such as ☕) counts as one. A character at or above U+10000 (such as 🍅)
  counts as two (`JsText.Length`, `JsText.AstralCountsTwo`).

## Model

| member | source | states |
|---|---|---|
| `Debounce.Step` | AppReceita/src/screens/Estoque.js:43-53 | a keystroke never fires; a changed text arms a timer `delay` ms ahead, replacing the old one, and an unchanged text leaves the timer alone; waiting fires if and only if a timer is pending and its deadline falls within the wait, and the firing carries the current query and leaves no timer pending |
| `Debounce.Run` | AppReceita/src/screens/Estoque.js:43-53 | over any trace of keystrokes and waits, the timer fires at most once per wait, and the clock advances by exactly the time waited |
| `Debounce.RunAppend` | AppReceita/src/screens/Estoque.js:43-53 | running two traces one after the other is the same as running their concatenation, in both the final state and the calls made |
| `Debounce.BurstThenQuiet` | AppReceita/src/screens/Estoque.js:43-53 | keystrokes with gaps shorter than the delay, then `quiet` ms without a keystroke: the timer fires once, with the last text, if and only if `quiet` reaches the delay; no timer armed earlier fires |
| `Debounce.IdleStaysQuiet` | AppReceita/src/components/SearchBar.js:29-39 | once the timer has fired, waiting without a keystroke never makes another call |
| `Debounce.ExactlyOneFiring` | AppReceita/src/components/SearchBar.js:29-39 | a burst, then at least the delay of silence, then any further waiting: exactly one call, carrying the latest text |
| `Inventory.ImageUrl` | AppReceita/src/screens/Estoque.js:97 | the stored image is always the CDN prefix followed by the file name; the placeholder fallback is unreachable |
| `Inventory.Contains` | AppReceita/src/screens/Estoque.js:93 | the `some` scan is true exactly when some entry has the id |
| `Inventory.Add` | AppReceita/src/screens/Estoque.js:91-104 | an id already stocked leaves the list as it is; a new id appends exactly one entry with the CDN image and keeps every earlier entry in order; the id is stocked afterwards |
| `Inventory.Remove` | AppReceita/src/screens/Estoque.js:106-108 | an entry is kept exactly when it was in the stock with a different id; the id is gone afterwards |
| `Inventory.AddKeepsUnique` | AppReceita/src/screens/Estoque.js:93-100 | unique ids before an add imply unique ids after it |
| `Inventory.AddIdempotent` | AppReceita/src/screens/Estoque.js:93-103 | adding the same suggestion twice gives the same stock as adding it once |
| `Inventory.AddAllDeduplicates` | AppReceita/src/screens/Estoque.js:91-104 | after any sequence of adds, in any order and with repeats, ids stay unique, every added id is present, and the earlier stock is a prefix |
| `Inventory.AddAllKeepsIds` | AppReceita/src/screens/Estoque.js:93-100 | an id in the stock stays there under any further adds |
| `Inventory.RemoveAbsent` | AppReceita/src/screens/Estoque.js:106-108 | removing an id that is not stocked leaves the stock unchanged |
| `Inventory.RemoveAppend` | AppReceita/src/screens/Estoque.js:107 | remove works entry by entry over a concatenation, so the kept entries stay in their relative order |
| `Inventory.RemoveKeepsUnique` | AppReceita/src/screens/Estoque.js:107 | unique ids before a remove imply unique ids after it |
| `Inventory.RemoveUndoesAdd` | AppReceita/src/screens/Estoque.js:91-108 | removing a freshly added id gives back the stock from before the add |
| `Inventory.RemoveStockedDropsOne` | AppReceita/src/screens/Estoque.js:107 | on a stock with unique ids, removing a stocked id shortens it by exactly one |
| `JsText.Length` | AppReceita/src/screens/Estoque.js:45 | `length` counts UTF-16 units: at least one and at most two per character |
| `JsText.UnitLength` | AppReceita/src/screens/Estoque.js:45 | one character is one unit below U+10000 and two units at or above it |
| `JsText.AstralCountsTwo` | AppReceita/src/components/SearchBar.js:31 | any character at or above U+10000, such as 🍅 (U+1F345), has `length` 2 |
| `JsText.LengthAppend` | AppReceita/src/components/SearchBar.js:31 | `length` adds up over concatenation, so with `UnitLength` it is the sum of the units of every character |
| `JsText.BmpLength` | AppReceita/src/components/SearchBar.js:31 | for text within the Basic Multilingual Plane, `length` is the number of characters |
| `Inventory.ApplyAllKeepsUnique` | AppReceita/src/screens/Estoque.js:91-108 | applying any sequence of adds and removes, in order, keeps unique ids unique |
| `StockScreen.Screen.constructor` | AppReceita/src/screens/Estoque.js:18-53 | on mount, every field has its initial value and the debounce effect has armed a 500 ms timer |
| `StockScreen.Screen.Load` | AppReceita/src/screens/Estoque.js:27-40 | a saved list replaces the stock; an absent or unparsable item keeps the current stock; nothing else changes |
| `StockScreen.Screen.SetQuery` | AppReceita/src/screens/Estoque.js:43-53 | the text becomes the query; the timer is re-armed 500 ms ahead exactly when the text changed |
| `StockScreen.Screen.Advance` | AppReceita/src/screens/Estoque.js:44-81 | a due timer sends exactly one lookup with the current query when its `length` exceeds 2, and otherwise clears the suggestions; a timer not yet due does nothing |
| `StockScreen.Screen.LookupDone` | AppReceita/src/screens/Estoque.js:82-88 | an answer, whichever lookup it belongs to, sets the suggestions; a failure sets them to empty; `loading` is false either way |
| `StockScreen.Screen.Add` | AppReceita/src/screens/Estoque.js:56-104 | a stocked id changes nothing at all, including storage; a new id gives the stock `Inventory.Add` describes, an empty query (re-arming the timer) and no suggestions; a successful write stores the new stock |
| `StockScreen.Screen.Remove` | AppReceita/src/screens/Estoque.js:56-108 | the stock becomes `Inventory.Remove` of the old one; a successful write stores it; the rest is unchanged |
| `Recommendation.Names` | AppReceita/src/screens/Home.js:59 | one name per stock entry, in stock order |
| `Recommendation.JoinSplit` | AppReceita/src/screens/Home.js:59 | joining comma-free names with `,` and splitting at commas gives back the same names in the same order |
| `Recommendation.Join` | AppReceita/src/screens/Home.js:59 | the joined text starts with the first name, ends with the last, and has the length of all names plus one separator between each pair of neighbours; the empty list joins to the empty text |
| `Recommendation.JoinSnoc` | AppReceita/src/screens/Home.js:59 | appending a name to any non-empty list appends exactly one comma and that name, so the separator is `,` for every list of names, commas inside names included |
| `Recommendation.IngredientsParamSnoc` | AppReceita/src/screens/Home.js:59 | the `ingredients` parameter of a one-item stock is that item's name, and one more item adds a comma and its name at the end, so the parameter is the stock's names in stock order separated by commas |
| `Recommendation.IngredientsParamRoundTrip` | AppReceita/src/screens/Home.js:59 | for a non-empty stock with comma-free names, the `ingredients` parameter splits back into the stock's names in stock order |
| `Recommendation.FromMatches` | AppReceita/src/screens/Home.js:72-79 | one card per response record, in order; id, title and image copied; the used and missed counts renamed |
| `Recommendation.Badge` | AppReceita/src/screens/Home.js:168 | the badge exists if and only if `usingStock`; the numerator is the used count and the denominator exceeds it by the missed count, each missing count read as 0; for non-negative counts, 0 <= numerator <= denominator |
| `Recommendation.RandomStage` | AppReceita/src/screens/Home.js:106-113 | a present `recipes` field is used unchanged; a missing field or a failed call gives the four defaults; the list is empty only for a present empty array |
| `Recommendation.Recommend` | AppReceita/src/screens/Home.js:45-116 | `usingStock` holds if and only if the stock stage produced the list, which happens if and only if the stock and its answer are both non-empty; the random stage's `recipes` is used whenever present; otherwise the four defaults; the list is empty only when the random stage returned an empty array |
| `Recommendation.EmptyStockSkipsStageOne` | AppReceita/src/screens/Home.js:49-54 | with an empty stock, the find-by-ingredients outcome does not affect the result, and the stock stage never produces the list |
| `Recommendation.EmptyRandomCountsAsPresent` | AppReceita/src/screens/Home.js:106-110 | an empty `recipes` array from the random stage is shown as an empty list, not replaced by the defaults |
| `HomeScreen.GetEstoque` | AppReceita/src/screens/Home.js:34-42 | a saved list is returned as it is; an absent or unparsable item gives an empty stock |
| `HomeScreen.SavedStockReadsBack` | AppReceita/src/screens/Home.js:34-42 | starting with storage in step with the stock screen, after any sequence of adds and removes on the stock screen, each saved successfully, `getEstoque` reads exactly the stock the stock screen holds, which is the changes applied in order, with unique ids kept unique |
| `HomeScreen.Screen.constructor` | AppReceita/src/screens/Home.js:21-23 | on mount there are no recipes, `loading` is true and `usingStock` is false |
| `HomeScreen.Screen.FetchRecipesFromStock` | AppReceita/src/screens/Home.js:45-70 | an empty stock starts the random stage, clears `usingStock`, ends `loading`, and sends no find-by-ingredients request; a non-empty stock sets `usingStock` and sends one request with the joined names |
| `HomeScreen.Screen.StockResponded` | AppReceita/src/screens/Home.js:72-91 | a non-empty answer becomes the cards and leaves `usingStock` as it was; an empty answer or an error starts the random stage and clears `usingStock`; `loading` ends on every path |
| `HomeScreen.Screen.RandomResponded` | AppReceita/src/screens/Home.js:95-116 | the list becomes the `recipes` field when present, even if empty, and the four defaults otherwise; only a failure ends `loading` |
| `HomeScreen.SettledRefresh` | AppReceita/src/screens/Home.js:45-116 | a refresh whose requests are answered in turn settles on exactly the list and `usingStock` that `Recommend` gives for the stored stock, with `loading` false; a find-by-ingredients request is sent only for a non-empty stock |
| `SearchBar.Settle` | AppReceita/src/components/SearchBar.js:54-59 | after a search finishes, the list is never empty: it holds the results when there are any, and the initial suggestions after an empty answer or an error |
| `SearchBar.Render` | AppReceita/src/components/SearchBar.js:76-78 | the spinner shows exactly while loading; the list shows if and only if not loading, suggestions are enabled, the query's `length` exceeds 1 and there are results; the list shown is `resultados` |
| `SearchBar.AstralQueryIsLongEnough` | AppReceita/src/components/SearchBar.js:78 | for any query of one character at or above U+10000 and any non-empty results, the list is shown when not loading and suggestions are enabled |
| `SearchBar.Box.constructor` | AppReceita/src/components/SearchBar.js:17-39 | on mount, every field has its initial value and the debounce effect has armed a 600 ms timer |
| `SearchBar.Box.SetQuery` | AppReceita/src/components/SearchBar.js:29-39 | the text becomes the query; the timer is re-armed 600 ms ahead exactly when the text changed |
| `SearchBar.Box.Advance` | AppReceita/src/components/SearchBar.js:30-53 | a due timer sends exactly one search with the current query when its `length` exceeds 1, and otherwise sets the initial suggestions |
| `SearchBar.Box.SearchDone` | AppReceita/src/components/SearchBar.js:54-62 | an answer, whichever search it belongs to, sets the list that `Settle` gives, which is never empty; `loading` ends |
| `SearchBar.Box.Focus` | AppReceita/src/components/SearchBar.js:73 | focusing the field turns suggestions back on |
| `SearchBar.Box.Select` | AppReceita/src/components/SearchBar.js:86-89 | pressing a result returns its id as the navigation target and hides the list |

## Left out

- HTTP calls are abstract outcomes supplied by the caller. The endpoints, API key, `number`, `language`, `ranking` and `ignorePantry` parameters are not modelled.
- AsyncStorage and JSON are left out. The storage item holds the decoded list directly, assuming `JSON.stringify` followed by `JSON.parse` returns the list unchanged. An item that decodes to something other than a list is not modelled.
- Storage reads and writes complete at once: `getEstoque` awaits its read, but nothing happens in between in this model. The success of a write is a `persisted` parameter, and a failed write is only logged.
- Mount-time ordering between the stock screen's load and save effects is not modelled. The save of the initial empty stock can race the load.
- `fetchRandomRecipes` is not awaited. The model gives it its own pending request, answered by `RandomResponded`. The overlap of several refreshes is modelled only through the pending-request counters. Overlapping searches and lookups are treated the same way.
- Wall-clock timers are abstracted. Time advances in whole milliseconds. A timer fires during the `Advance` whose interval reaches its deadline. Teardown cleanup is not modelled.
- The badge's rendering as text is not modelled. The model gives the two numbers shown.
- A find-by-ingredients body that is missing, or a search response whose `results` field is missing, is not modelled as its own case. The first is modelled as an empty list and the second as a failure, which is how the code treats them.
- `Keyboard.dismiss`, `console.error`, the image `onError` fallback, the `|| PLACEHOLDER_IMAGE` of search result images, layout and styles are left out.
- Navigation and focus-listener wiring is left out: `App.js`, `src/routes/StackRoutes.js` and the top-level `Home.js`. `HomeScreen.SettledRefresh` stands for one run triggered by mount or by focus.
- The recipe-details screens and the presentational `RecipeCard` and `Header` components are not part of this model.
