# Colletr — a verified model of the collection manager's core

Colletr is a single-page app for cataloguing retro consoles, games and
accessories. A user keeps several **collections**, each holding
**items**. An item records a name, a manufacturer, a console type, a
condition, an image, an optional market **valuation** and an optional
**price alert**. Collections have a type: one of the four built-in types
(`CONSOLES`, `GAMES`, `ACCESSORIES`, `MIXED`) or the name of a
user-defined **custom category**. Everything is kept in the browser's
local storage.

This project models, in Dafny:

- **the app state** (`CatalogStore.Store`): the collections, the active
  collection id, the custom categories and the storage map. It covers
  loading, first-visit migration of the legacy single list, the save
  effects, and the handlers that create a collection, add an item, save a
  price alert, and add, rename (with the cascade to collections) and
  delete a custom category (refused while the category is in use);
- **gamification** (`Gamification`): the price-based rarity bands, the
  XP/level/title computation and the eight achievements;
- **the list view** (`ConsoleList`): the search and filter predicate, the
  sorted distinct manufacturer list, and the filter panel state;
- **the dashboard** (`Dashboard`): the total value and the
  per-manufacturer tally behind the pie chart;
- **the two AI-backed services** (`GeminiService`, `PriceSearchService`,
  over `AiResponse`): how a model response is turned into an
  identification or a price estimate. This covers fence stripping, the
  `{…}` extraction, the grounding-URI list, the defaults for falsy fields
  and every error path;
- **the dialogs** (`AddItemModal`, `EditItemModal`, `PriceAlertModal`,
  `CategoryManager`, `CreateCollectionModal`): each as a class holding
  the form state, with its open/reset effect and its save handler.

Shared modules: `Wrappers` (Option, Result), `Strings` (ASCII lower-casing,
trimming, substring search, first/last index, `split(c)[1]`, and the
code-unit string order used by `sort()`), and `Seqs` (subsequence).

The React state of each component becomes a class with `modifies` on its
handlers. Derived values (`useMemo`, computed constants) and the services'
pure logic become functions with lemmas. Loops the code writes out
(`forEach` over grounding chunks, the `reduce` that tallies manufacturers)
become methods with loop invariants, proved against specification
functions.

Design points the proofs make explicit:

- Custom categories share one namespace with the built-in collection
  types. Renaming a custom category called `CONSOLES` moves every
  `CONSOLES` collection to the new name (`CatalogStore.CascadeReachesBuiltIn`).
- Collection ids are never checked for uniqueness. When a new collection
  repeats an existing collection's id, activating it shows the earliest
  collection with that id (`CatalogStore.DuplicateIdShowsOlder`).
- The create-collection dialog offers only the four built-in types. A
  collection of a custom type can only come from renaming a category.
  `App.tsx` hands the dialog the custom categories as well (App.tsx:268),
  but the dialog's props do not declare them and it never reads them.
- Start-up writes before it reads everything. If the saved collections or
  legacy items cannot be parsed, the save-categories effect of the first
  render has already replaced the saved categories with the list that
  render held (empty at start-up) before the load throws
  (`CatalogStore.Store.Mount`).
- `hasActiveFilters` ignores the search text, while the clear button
  resets the search text too.

## Model

| member | source | states |
|---|---|---|
| Types.ConsoleTypeValuesDistinct | types.ts:1-7 | the five console-type string values are pairwise distinct, so a value determines its type |
| Types.ConditionValuesDistinct | types.ts:16-21 | the four condition string values are pairwise distinct |
| Types.BuiltInCollectionTypesDistinct | types.ts:9-14 | the four built-in collection types are distinct strings |
| Types.ItemPrice | services/gamificationUtils.ts:51 | an item's price is its valuation's average price, or 0 when it has no valuation |
| Types.TotalValue | components/Dashboard.tsx:12 | no items give 0; with non-negative prices the total is non-negative and at least every single item's price |
| Types.TotalValueConcat | services/gamificationUtils.ts:22 | the total value of a concatenation is the sum of the two totals |
| Strings.Lower | services/gamificationUtils.ts:52 | lower-casing keeps the length and maps every character through the ASCII lower-case map |
| Strings.Trim | components/CategoryManager.tsx:27-28 | the trimmed text is the slice `s[i..j]` of the input whose prefix before i and suffix from j are all white space, and which starts and ends on a non-space character; it is empty exactly when the input is all white space |
| Strings.TrimDropsTrailingSpace | components/CategoryManager.tsx:27-28 | adding trailing white space does not change the trimmed text |
| Strings.SecondFieldOfThree | components/AddItemModal.tsx:59 | `split(',')[1]` of a text with separator-free first and second fields is the second field |
| Strings.LessTransitive | components/ConsoleList.tsx:22 | the string order used by `sort()` is transitive |
| Strings.LessTotal | components/ConsoleList.tsx:22 | any two different strings are ordered one way or the other |
| Gamification.RarityOf | services/gamificationUtils.ts:4-18 | the rarity band of a price, each band given as an exact price interval (both directions) |
| Gamification.RarityStyle | services/gamificationUtils.ts:4-10 | the style chain picks the style of the price's band as `RarityOf` defines it, for every price |
| Gamification.RarityName | services/gamificationUtils.ts:12-18 | the name chain picks the name of the price's band as `RarityOf` defines it, for every price |
| Gamification.RarityBoundaries | services/gamificationUtils.ts:12-18 | worked example, not a further property: the names on both sides of each threshold (100, 400, 1500, 5000) |
| Gamification.RarityMonotone | services/gamificationUtils.ts:4-18 | a higher price never gets a lower rarity |
| Gamification.TotalXp | services/gamificationUtils.ts:22 | the xp is 500 per item plus the floor of a fifth of the total value (as bounds on the value), and at least 500 per item when no price is negative |
| Gamification.Title | services/gamificationUtils.ts:34-39 | the title for each level interval left by the overriding `if` chain |
| Gamification.TitleRank | services/gamificationUtils.ts:34-39 | every level's title is one of the six titles, at the given rank |
| Gamification.CalculateLevel | services/gamificationUtils.ts:21-48 | the level is xp div 2500 plus 1, the in-level xp is the remainder (0 up to 2499), progress equals in-level xp / 2500 × 100 and stays below 100, and the title is the level's title |
| Gamification.LevelExamples | services/gamificationUtils.ts:21-48 | worked example, not a further property: no items give level 1 with 0 xp; five items with no valuation give exactly level 2 at 0 % |
| Gamification.LevelMonotoneOnAdd | services/gamificationUtils.ts:22-39 | adding an item with a non-negative price, prepended or appended, never lowers the level or the title rank |
| Gamification.BrandCount | services/gamificationUtils.ts:75 | the brand count never exceeds the number of items |
| Gamification.ManufacturerKeys | services/gamificationUtils.ts:52 | a string is a key exactly when it is non-empty and some item's manufacturer lower-cases to it; there are no more keys than items |
| Gamification.CheckAchievements | services/gamificationUtils.ts:51-122 | eight achievements, each with its table id, title, description and image, unlocked exactly when its condition holds |
| Gamification.AchievementOrder | services/gamificationUtils.ts:56-113 | the achievement ids in order: start, stack, nintendo, sega, sony, rich, hoarder, variety |
| Gamification.AchievementThresholds | services/gamificationUtils.ts:56-113 | each achievement's condition as its stated threshold (1 and 5 items, 3 per brand, one item ≥ 2000, total ≥ 10000, 4 manufacturers), both directions |
| Gamification.HoldsMonotone | services/gamificationUtils.ts:56-113 | every condition that holds still holds after an item with a non-negative price is prepended, as `handleAddItem` adds it |
| Gamification.HoldsMonotoneAppend | services/gamificationUtils.ts:56-113 | every condition that holds still holds after an item with a non-negative price is appended |
| Gamification.AchievementsNeverRelock | services/gamificationUtils.ts:51-122 | adding an item with a non-negative price, prepended or appended, never locks an unlocked achievement |
| Gamification.NintendoExample | services/gamificationUtils.ts:75 | worked example, not a further property: three Nintendo items unlock SUPER FANBOY and two do not |
| Gamification.NintendoSpellings | services/gamificationUtils.ts:75 | "Nintendo", "NINTENDO" and "nintendo Co" all count as Nintendo |
| Gamification.BrandCountAllMatch | services/gamificationUtils.ts:75 | when every manufacturer contains the brand, every item is counted |
| ConsoleList.MatchesSearch | components/ConsoleList.tsx:28-29 | the empty query matches every item |
| ConsoleList.MatchesSearchIgnoresCase | components/ConsoleList.tsx:28-29 | lower-casing the query never changes whether an item matches |
| ConsoleList.Keep | components/ConsoleList.tsx:27-36 | a kept item matches the search and has the selected manufacturer; with every selector at ALL, keeping is matching the search |
| ConsoleList.FilterItems | components/ConsoleList.tsx:26-37 | the filtered list is a subsequence of the items; each item occurs in it as often as in the input when it passes all four tests and not at all otherwise |
| ConsoleList.FilterKeepsExactly | components/ConsoleList.tsx:26-37 | an item is shown exactly when it passes the search and the three selectors |
| ConsoleList.NoFilterShowsAll | components/ConsoleList.tsx:28-33 | an empty search with every selector at ALL shows the whole list in order |
| ConsoleList.InsertSorted | components/ConsoleList.tsx:21-22 | inserting into a strictly sorted list keeps it strictly sorted and adds exactly the new element |
| ConsoleList.Manufacturers | components/ConsoleList.tsx:20-23 | the manufacturer list is strictly sorted, holds only non-empty manufacturers of the items, and holds each of them |
| ConsoleList.ManufacturersDistinct | components/ConsoleList.tsx:21-22 | the manufacturer list has no duplicates |
| ConsoleList.FilterPanel.constructor | components/ConsoleList.tsx:11-17 | the panel starts with an empty search, hidden filters and every selector at ALL |
| ConsoleList.FilterPanel.HasActiveFilters | components/ConsoleList.tsx:47 | with the badge off, the selectors let through every item that matches the search |
| ConsoleList.FilterPanel.FilteredItems | components/ConsoleList.tsx:26-37 | the shown list is the filter applied with the panel's query and selectors, so a subsequence of the items, and all the items when nothing filters |
| ConsoleList.FilterPanel.ClearFilters | components/ConsoleList.tsx:39-47 | clearing empties the search, hides the panel, resets every selector and leaves no active filter |
| ConsoleList.FilterPanel.SetSearchQuery | components/ConsoleList.tsx:70 | typing changes only the search text and never the active-filter badge |
| ConsoleList.FilterPanel.ToggleShowFilters | components/ConsoleList.tsx:84 | the toggle flips only the panel's visibility |
| ConsoleList.FilterPanel.SetFilterType | components/ConsoleList.tsx:100 | the type selector changes only the type filter |
| ConsoleList.FilterPanel.SetFilterCondition | components/ConsoleList.tsx:109 | the condition selector changes only the condition filter |
| ConsoleList.FilterPanel.SetFilterManufacturer | components/ConsoleList.tsx:118 | the manufacturer selector changes only the manufacturer filter |
| Dashboard.ManufacturerKey | components/Dashboard.tsx:16 | an empty manufacturer is counted under "Outro", any other under itself |
| Dashboard.CountKey | components/Dashboard.tsx:15-19 | a key's count never exceeds the number of items |
| Dashboard.FindEntry | components/Dashboard.tsx:17 | the lookup finds an entry with the key, or reports that none has it |
| Dashboard.Tally | components/Dashboard.tsx:17 | tallying a new key appends it with count 1; a known key keeps the entry count |
| Dashboard.TallyStep | components/Dashboard.tsx:15-21 | one tally step keeps the entries matching the items seen so far: distinct names, exact counts, exactly the keys seen, total = items seen |
| Dashboard.SumValuesIncrement | components/Dashboard.tsx:17 | incrementing one entry raises the slice total by one |
| Dashboard.ManufacturerStats | components/Dashboard.tsx:15-21 | one slice per distinct key (names distinct, exactly the keys of the items), each slice's value is that key's count, and the values add up to the number of items |
| CatalogStore.CollectionIndex | App.tsx:81 | `find` gives the first collection with the id, and none exactly when no collection has it |
| CatalogStore.ActiveCollection | App.tsx:81 | the active collection is the first collection with the active id; there is none when the id is missing or unmatched |
| CatalogStore.CurrentItems | App.tsx:156 | the shown items are the active collection's items, or none |
| CatalogStore.CurrentCollectionType | App.tsx:157 | the current type is the active collection's type when it is not empty, and CONSOLES when there is no active collection or its type is empty |
| CatalogStore.CreatedIsShown | App.tsx:83-86 | a newly created collection with a fresh id becomes the active one |
| CatalogStore.DuplicateIdShowsOlder | App.tsx:81-86 | a created collection whose id some earlier collection already has is shadowed by the first such collection |
| CatalogStore.PrependToActive | App.tsx:88-97 | adding puts the item first in every collection with the active id and changes no other collection |
| CatalogStore.AddItemShowsItemFirst | App.tsx:88-97 | after adding, the shown list is the new item followed by the old list |
| CatalogStore.AddItemKeepsProgress | App.tsx:88-97 | adding an item with a non-negative price never lowers the level and never locks an achievement |
| CatalogStore.SetAlert | App.tsx:99-114 | saving an alert replaces the alert of each item with the id and changes nothing else |
| CatalogStore.SetAlertInActive | App.tsx:99-114 | the alert update reaches only the active collection |
| CatalogStore.SetAlertKeepsValue | App.tsx:99-114 | saving an alert changes neither the total value nor the level |
| CatalogStore.FindCategory | App.tsx:128 | the lookup gives the first category with the id, or none exactly when none has it |
| CatalogStore.RenameCategory | App.tsx:129 | every category with the id gets the new name; the others are unchanged |
| CatalogStore.CascadeRename | App.tsx:132-138 | every collection of the old category's type moves to the new name; the others are unchanged |
| CatalogStore.UsageCount | App.tsx:146-151 | the usage count is 0 exactly when no collection has the type |
| CatalogStore.CascadeMovesUsage | App.tsx:126-139 | after a rename no collection keeps the old name, and the new name gains exactly the old name's collections |
| CatalogStore.CascadeReachesBuiltIn | App.tsx:132-138 | renaming a category called CONSOLES also renames the built-in CONSOLES collections |
| CatalogStore.RenameUnknownId | App.tsx:126-139 | editing an unknown id changes neither the categories nor the collections |
| CatalogStore.RemoveCategory | App.tsx:153 | deleting keeps the other categories in order, each as often as before, and removes every category with the id |
| CatalogStore.MigratedCollection | App.tsx:57-64 | the migrated collection carries the new id, the saved items and the time, is named "Minha Coleção" / "Coleção importada" and is of type CONSOLES |
| CatalogStore.SavedBoth | App.tsx:35-79 | after both save effects the categories key holds the categories, the collections key holds the collections when there are any and is untouched otherwise, and every other key is unchanged |
| CatalogStore.WriteCollections | App.tsx:75-79 | the save-collections effect writes the collections key when the list is not empty, leaves storage alone when it is, and never touches another key |
| CatalogStore.RemoveAbsentCategory | App.tsx:153 | deleting an absent id leaves the list unchanged |
| CatalogStore.Store.constructor | App.tsx:16-24 | the app starts with no collections, no active id, no categories and the dialog closed |
| CatalogStore.Store.LoadCategories | App.tsx:27-32 | saved categories are loaded; a missing entry or one of the wrong shape leaves the state unchanged; an unparsable entry is reported as thrown and changes nothing |
| CatalogStore.Store.SaveCategories | App.tsx:35-39 | the category list is always written back |
| CatalogStore.Store.SaveCollections | App.tsx:75-79 | the collections are written back only when there is at least one |
| CatalogStore.Store.LoadOrMigrate | App.tsx:42-72 | saved collections are loaded with the first made active, or the dialog opens when the list is empty; otherwise legacy items are wrapped in "Minha Coleção" and their key removed; a first visit opens the dialog; an unparsable value under the key read is reported as thrown and changes nothing, and a value of the wrong shape changes nothing |
| CatalogStore.Store.Mount | App.tsx:27-79 | start-up crashes exactly when a load meets an unparsable value: on the categories nothing is written, on the collections or legacy items the categories key has already been overwritten with the pre-load list; otherwise saved categories are loaded, saved collections are loaded with the first active or open the dialog when empty, legacy items become one shown collection and their key is dropped, a first visit opens the dialog, and storage is the old storage after the first pass's writes and both lists written back |
| CatalogStore.Store.CreateCollection | App.tsx:83-86 | the new collection is appended, made active and stored |
| CatalogStore.Store.AddItem | App.tsx:88-97 | with no active id nothing changes; otherwise the item is put first in the active collection and the collections are stored |
| CatalogStore.Store.SaveAlert | App.tsx:99-114 | with no active id nothing changes; otherwise the alert is set on the item in the active collection and stored |
| CatalogStore.Store.AddCategory | App.tsx:117-124 | the new category is appended and stored |
| CatalogStore.Store.EditCategory | App.tsx:126-139 | the category is renamed, its collections move to the new name, and storage is the old storage with the categories written and the collections written when there are any |
| CatalogStore.Store.DeleteCategory | App.tsx:141-154 | an unknown id changes nothing; a category in use is kept and its usage count reported; otherwise it is removed and stored |
| AiResponse.TruthyUris | services/geminiService.ts:120-128 | the source list holds only non-empty chunk URIs, and every non-empty chunk URI |
| AiResponse.TruthyUrisAppend | services/geminiService.ts:120-128 | the URIs keep the chunks' order |
| AiResponse.CollectSources | services/geminiService.ts:120-128 | the `forEach` loop collects exactly the non-empty URIs, in order, and nothing without grounding metadata |
| AiResponse.BraceSpan | services/geminiService.ts:133-136 | the regex matches exactly when some `{` comes before some `}`, from the first `{` to the last `}` |
| AiResponse.JsonMatch | services/geminiService.ts:133-136 | the matched text starts with `{` and ends with `}` |
| AiResponse.JsonMatchOf | services/geminiService.ts:133-136 | JSON wrapped in brace-free prose is extracted exactly |
| AiResponse.Take | services/geminiService.ts:144 | `slice(0, n)` gives the prefix of the sources of length n, or the whole list when it is not longer than n |
| AiResponse.FromParsed | services/geminiService.ts:140-146 | missing prices become 0, and a missing or empty reasoning takes the default |
| GeminiService.FenceLength | services/geminiService.ts:20 | the fence matched at a position is 0, 3, 7 or 8 characters long, fits in the text and starts with a backtick |
| GeminiService.FenceLengthAlternatives | services/geminiService.ts:20 | the match length picks the regex alternative: "```json" then a newline (8), "```json" alone (7), a bare "```" (3), or no fence (0), both directions |
| GeminiService.RemoveFences | services/geminiService.ts:19-21 | removing fences never lengthens the text |
| GeminiService.RemoveFencesKeepsPlainText | services/geminiService.ts:19-21 | text without a backtick passes through fence removal unchanged |
| GeminiService.CleanJsonString | services/geminiService.ts:19-21 | the cleaned text has no surrounding white space |
| GeminiService.CleanWithoutFences | services/geminiService.ts:19-21 | cleaning text without fences is trimming |
| GeminiService.CleanFencedBlock | services/geminiService.ts:19-21 | a fenced ```json block is cleaned to its trimmed body |
| GeminiService.ContextPrompt | services/geminiService.ts:27-38 | the prompt is the game, accessory or console prompt |
| GeminiService.ContextPromptCases | services/geminiService.ts:27-38 | GAMES gives the game prompt, ACCESSORIES the accessory prompt, and every other type (CONSOLES, MIXED, custom types) the console prompt |
| GeminiService.MapConsoleType | services/geminiService.ts:75-79 | a string equal to a type's value maps to that type; any other string maps to Other |
| GeminiService.MapConsoleTypeRoundTrip | services/geminiService.ts:75-79 | mapping a type's own value gives the type back, and a mapped non-Other type has the string as its value |
| GeminiService.IdentifyConsoleFromImage | services/geminiService.ts:69-90 | no text is an error, unparsable JSON is an error, and otherwise the parsed name, manufacturer and mapped type are returned |
| GeminiService.GetMarketValuation | services/geminiService.ts:93-157 | no text or unparsable JSON gives the connection-error estimate with no sources; text without braces gives zero prices with every source; success gives the parsed prices (missing ones 0) with the first 3 sources; the reasoning is never empty |
| PriceSearchService.SearchPriceAcrossMarketplaces | services/priceSearchService.ts:61-116 | no text gives the connection-error estimate with no sources; text without braces and unparsable JSON each give zero prices with their own reasoning and every source; success gives the parsed prices with the first 10 sources; the reasoning is never empty and every source is a non-empty URI |
| AddItemModal.DefaultItemType | components/AddItemModal.tsx:27-33 | GAMES gives Game, ACCESSORIES Accessory, CONSOLES Home, and every other type Other (both directions); never Handheld |
| AddItemModal.BuildItem | components/AddItemModal.tsx:84-101 | the new item has the form's fields, the placeholder image when no image was taken, no alert, the first clock reading as `addedAt`, and a valuation made from the estimate stamped with the second reading |
| AddItemModal.BuiltItemPrice | components/AddItemModal.tsx:84-101 | the new item's price is the estimate's average |
| AddItemModal.PayloadOfDataUri | components/AddItemModal.tsx:59 | the payload after the comma of a data URI is what is sent for identification |
| AddItemModal.AddItemForm.constructor | components/AddItemModal.tsx:14-23 | the dialog opens on the photo step with empty fields, a home console and a loose condition |
| AddItemModal.AddItemForm.ApplyDefaultType | components/AddItemModal.tsx:27-33 | opening sets the type for the collection type and nothing else |
| AddItemModal.AddItemForm.Reset | components/AddItemModal.tsx:35-42 | reset returns to the photo step with empty fields and keeps the type |
| AddItemModal.AddItemForm.SkipToDetails | components/AddItemModal.tsx:167 | skipping moves to the details step and changes nothing else |
| AddItemModal.AddItemForm.HandleFileChange | components/AddItemModal.tsx:44-75 | no file changes nothing; otherwise the image is kept, a successful identification fills the fields, a failure leaves them, and a cleared loading flag ends on the details step |
| AddItemModal.AddItemForm.HandleSave | components/AddItemModal.tsx:77-112 | a throw inside the save block (None) adds nothing, keeps the form and leaves the dialog open; an awaited estimate adds the built item and resets and closes the dialog |
| AddItemModal.AddItemForm.SaveWithValuation | components/AddItemModal.tsx:77-112 | with the service's valuation the save always adds an item and closes the dialog; a missing answer, one without braces or an unparsable one is saved at price zero, with the error estimate where the service gives it |
| AddItemModal.AddItemForm.SaveEnabled | components/AddItemModal.tsx:234 | the save button is enabled exactly when the name is not empty; a name of white space alone enables it |
| EditItemModal.UpdatedItem | components/EditItemModal.tsx:30-36 | the edited item takes the four form fields and keeps every other field |
| EditItemModal.UneditedSaveIsIdentity | components/EditItemModal.tsx:18-36 | saving without edits gives the item back unchanged |
| EditItemModal.EditKeepsPrice | components/EditItemModal.tsx:30-36 | editing never changes the item's price |
| EditItemModal.EditItemForm.constructor | components/EditItemModal.tsx:13-16 | the form starts empty with a home console and a loose condition |
| EditItemModal.EditItemForm.Init | components/EditItemModal.tsx:18-25 | opening on an item copies its four fields; no item leaves the form alone |
| EditItemModal.EditItemForm.HandleSave | components/EditItemModal.tsx:27-40 | no item saves nothing and keeps the dialog open; otherwise the item updated with the form's fields is saved and the dialog closes |
| EditItemModal.EditItemForm.SaveEnabled | components/EditItemModal.tsx:115 | the save button is enabled exactly when the name is not empty; a name of white space alone enables it |
| EditItemModal.OpenAndSave | components/EditItemModal.tsx:18-40 | opening and saving at once returns the item unchanged |
| PriceAlertModal.CurrentPrice | components/PriceAlertModal.tsx:28 | the current price is the average price, or 0 without a valuation |
| PriceAlertModal.UpperTrigger | components/PriceAlertModal.tsx:40 | the upper trigger is the price at threshold 0 and never below a non-negative price for a non-negative threshold |
| PriceAlertModal.LowerTrigger | components/PriceAlertModal.tsx:41 | the lower trigger is the price at threshold 0 and lies between 0 and a non-negative price for thresholds 0 to 100 |
| PriceAlertModal.TriggersBracketPrice | components/PriceAlertModal.tsx:40-41 | for thresholds 1 to 50 the two trigger prices lie symmetrically around the price, the lower one at least half of it |
| PriceAlertModal.AlertForm.constructor | components/PriceAlertModal.tsx:13-14 | alerts start disabled at 10 % |
| PriceAlertModal.AlertForm.Init | components/PriceAlertModal.tsx:16-24 | opening copies an existing alert, and otherwise resets to disabled at 10 % |
| PriceAlertModal.AlertForm.Toggle | components/PriceAlertModal.tsx:74 | the toggle flips only the enabled flag |
| PriceAlertModal.AlertForm.SetThreshold | components/PriceAlertModal.tsx:88-92 | the slider sets only the threshold, within 1 to 50 |
| PriceAlertModal.AlertForm.HandleSave | components/PriceAlertModal.tsx:30-37 | the saved alert has the form's flag and threshold, keyed by the item's id, with the current price |
| PriceAlertModal.OpenAndSave | components/PriceAlertModal.tsx:16-37 | opening and saving at once keeps the item's alert settings (or the defaults) and records the current price |
| CategoryManager.CategoryForm.constructor | components/CategoryManager.tsx:22-24 | the manager starts with an empty input and nothing being edited |
| CategoryManager.CategoryForm.AddEnabled | components/CategoryManager.tsx:93 | the add button is enabled exactly when the input has a character that is not white space |
| CategoryManager.CategoryForm.HandleAdd | components/CategoryManager.tsx:26-32 | a blank name emits nothing; otherwise the trimmed name is emitted and the input cleared |
| CategoryManager.CategoryForm.HandleEdit | components/CategoryManager.tsx:34-37 | editing starts on the given id and name |
| CategoryManager.CategoryForm.HandleSaveEdit | components/CategoryManager.tsx:39-45 | with a non-empty id being edited and a non-blank name, the trimmed rename is emitted and editing ends; otherwise nothing is emitted and nothing changes |
| CategoryManager.CategoryForm.HandleCancelEdit | components/CategoryManager.tsx:47-50 | cancelling clears the edit state |
| CategoryManager.ConfirmDelete | components/CategoryManager.tsx:153-157 | a delete is emitted exactly when the user confirms |
| CreateCollectionModal.NewCollection | components/CreateCollectionModal.tsx:18-25 | the new collection is empty and carries the form's fields |
| CreateCollectionModal.SelectableTypes | components/CreateCollectionModal.tsx:66-69 | the selector offers exactly the four built-in types, each once |
| CreateCollectionModal.CollectionForm.constructor | components/CreateCollectionModal.tsx:12-14 | the form starts empty on CONSOLES |
| CreateCollectionModal.CollectionForm.SetName | components/CreateCollectionModal.tsx:56 | typing a name changes only the name |
| CreateCollectionModal.CollectionForm.SetDescription | components/CreateCollectionModal.tsx:77 | typing a description changes only the description |
| CreateCollectionModal.CollectionForm.SetType | components/CreateCollectionModal.tsx:66-69 | choosing one of the offered types changes only the type |
| CreateCollectionModal.CollectionForm.HandleSubmit | components/CreateCollectionModal.tsx:16-31 | submitting creates the collection from the form, always of a built-in type, and resets the form |
| CreateCollectionModal.CollectionForm.SubmitEnabled | components/CreateCollectionModal.tsx:85 | the submit button is enabled exactly when the name is not empty |

## Left out

- Local storage is an abstract map of already-parsed values, and JSON serialisation is not modelled. A value on which `JSON.parse` throws is `Text`. The mount effects have no `try`, so such a value aborts start-up; the model reports this as `crashed` from `CatalogStore.Store.Mount` and does not model the component being torn down. A value that parses but has the wrong shape (a list of items under the categories key, say) would be put into the state as it is; the model cannot represent it and treats it as unusable, so the load leaves the state unchanged.
- The AI calls (`getAI`, `generateContent`), the prompts sent with them, the network and the `async`/`await` ordering are not modelled. A response arrives as a value of type `AiResponse.Response`. `JSON.parse` is a function parameter that returns None where it would throw. A request that itself fails lands in the same catch-all result as a missing answer, so it is not a separate case.
- `AddItemModal.AddItemForm.HandleFileChange`: `FileReader` and the loading-text rotation are left out. The identification outcome is a parameter.
- `window.alert` and `window.confirm` are left out. The confirm answer is a parameter of `CategoryManager.ConfirmDelete`, and the in-use alert is the `InUse` outcome of `CatalogStore.Store.DeleteCategory`.
- `crypto.randomUUID()`, which makes the ids of new collections, items and the migrated collection, and `new Date().toISOString()`, which makes their timestamps, are parameters (`id`/`newId`, `now`; a new item's `addedAt` and `updatedAt` are two separate readings). Id uniqueness is never checked, which `CatalogStore.DuplicateIdShowsOlder` records.
- `services/imageUtils.ts` (image compression) is not part of this model, and neither is `components/CollectionSwitcher.tsx` (switching the active collection).
- JSX rendering, recharts and `toLocaleString` formatting are not modelled. The disabled conditions of the save buttons are modelled only as predicates (`SaveEnabled`, `AddEnabled`, `SubmitEnabled`); nothing in the model stops a handler from running while its button is disabled.
- Prices are whole numbers (`int`), not IEEE doubles. NaN and fractional prices are not modelled. Progress and alert trigger prices use `real`.
- `Strings.Lower`: lower-cases ASCII only, because Dafny has no Unicode case tables. `Strings.Trim` trims ASCII white space only. `Strings.Less` orders by Dafny characters, not UTF-16 code units, which differs only outside the Basic Multilingual Plane.
- `Dashboard.ManufacturerStats`: slices come in first-seen key order. `Object.entries` would list integer-like keys first, and that order is not modelled.
- `Dashboard.ManufacturerStats`: the accumulator is a plain `{}` object, so in `Dashboard.tsx` a manufacturer named after an `Object.prototype` member goes wrong: `constructor`, `toString` or `valueOf` starts from the inherited function, so its count becomes a string, and `__proto__` is never stored, so the item gets no slice at all. The model treats every name as an ordinary key.
- `AiResponse.ParsedPrices`: JSON value types are abstracted. A number field is a number or absent, so a truthy value of another type, which `|| 0` would pass through unchanged, is not modelled.
- `CustomCategory` is imported by `App.tsx` but not declared in `types.ts`. It is modelled from its use as id, name and creation time.
- `App.tsx` has no handler to update or delete an item. `EditItemModal` is not connected in `App.tsx`, so its save is modelled on its own.
- `GeminiService.IdentifyConsoleFromImage`: a parsed identification without a name or manufacturer is not modelled. The parse parameter returns all three fields or None.
- A collection's `type` field is named `collectionType`, and an item's `type` field is named `itemType`, because `type` is a Dafny keyword.
