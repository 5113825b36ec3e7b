# MoodBased mood layer in Dafny

This project models the mood layer of the MoodBased web app. The user picks one of five moods: happy, sad, energetic, calm or angry. That mood drives four things:

- **Session mood.** The `MoodProvider` context remembers the mood for the browsing session in session storage under `currentMood`.
- **Mood diary.** Diary entries are kept by the `useMoodHistory` hook, which persists them in local storage under `mood-history`. The `MoodDiary` form appends entries and shows the five newest.
- **Mood chart.** `MoodChart` averages the entries per day over the last ten days.
- **Theme and shop.** `useDynamicTheme` maps the mood to a colour theme written into CSS custom properties. `ShopGrid` filters the catalogue and sorts it, putting mood-matching items first.

Where the source updates state in place, the model does too: the storage areas, the hook instance, the provider, the diary form and the document are classes whose methods carry `modifies` clauses. Each method is specified against a pure function, and lemmas prove properties of those functions. Pure computations are functions over datatypes. These include the category list, the filter-and-sort pipeline, the chart data, the theme table and the recent-entries list.

Modules, one per file:

- `MoodTypes` (`mood_types.dfy`): moods, their labels, diary entries and shop items.
- `Storage` (`storage.dfy`): a Web Storage area as a class, and the JSON codec as a pair of functions.
- `StableSort` (`stable_sort.dfy`): `Array.prototype.sort`, which is stable. It is modelled as a stable insertion sort driven by the comparator's sign.
- `MoodHistory`, `MoodContext`, `MoodChart`, `DynamicTheme`, `ShopGrid`, `MoodDiary`: one per source file.

Parameters stand in for the things the model cannot see:

- **Identifiers and clocks.** The UUID generator, `new Date()`, `toISOString` and `Date.now()` are the arguments `id`, `date` and `now`.
- **Failed storage writes.** A storage write the browser refuses is the argument `accept`.
- **JSON.** `JSON.stringify` and `JSON.parse` form a `Codec`, a pair of functions. The hypothesis `RoundTrips` says that decoding an encoding gives the list back.
- **Dates.** The date-fns calls `format(..., 'MMM dd')` and `subDays` form a `Calendar`.
- **String locale.** `toLowerCase` and `localeCompare` form a `Locale`.

## Model

| member | source | states |
|---|---|---|
| MoodTypes.ParseMood | shadcn-ui/src/types.ts:2 | a string parses to a mood only if it is that mood's label |
| MoodTypes.ParseLabel | shadcn-ui/src/types.ts:2 | every mood's label parses back to that mood, so the five labels are distinct |
| MoodTypes.LabelsParse | shadcn-ui/src/types.ts:2 | every label parses back to its own mood, for all five moods at once |
| MoodTypes.MoodName | shadcn-ui/src/components/MoodDiary.tsx:32-38 | a mood's display name is its label with the first letter upper-cased |
| MoodTypes.MoodEmoji | shadcn-ui/src/components/MoodDiary.tsx:32-38 | each mood has one emoji character |
| MoodTypes.NamesAndEmojisDistinct | shadcn-ui/src/components/MoodDiary.tsx:32-38 | no two moods share a display name or an emoji |
| MoodTypes.AppendFreshId | shadcn-ui/src/hooks/useMoodHistory.ts:28-41 | appending an entry whose id is new keeps ids pairwise distinct and adds exactly that id |
| Storage.KeyValueStore.GetItem | shadcn-ui/src/hooks/useMoodHistory.ts:11 | `getItem` returns a value exactly when the key is present, and that value is the stored one |
| Storage.KeyValueStore.SetItem | shadcn-ui/src/hooks/useMoodHistory.ts:22 | an accepted write binds the key to the value; a refused write changes nothing |
| Storage.KeyValueStore.RemoveItem | shadcn-ui/src/hooks/useMoodHistory.ts:45 | the key is gone and every other key is kept |
| StableSort.Insert | shadcn-ui/src/components/shop/ShopGrid.tsx:33-53 | one insertion step keeps the elements (same multiset), grows the array by one and adds only the new element |
| StableSort.Sort | shadcn-ui/src/components/shop/ShopGrid.tsx:33-53 | the sorted array is a permutation of its input (same multiset, same length) |
| StableSort.KeyDifferenceIsPreorder | shadcn-ui/src/components/shop/ShopGrid.tsx:36-39 | a comparator returning the difference of numeric keys is total and transitive |
| StableSort.InsertKeepsSorted | shadcn-ui/src/components/shop/ShopGrid.tsx:33-53 | inserting into a sorted array under a consistent comparator keeps it sorted |
| StableSort.SortIsSorted | shadcn-ui/src/components/shop/ShopGrid.tsx:33-53 | under a consistent comparator, sort output is in comparator order |
| StableSort.SortAllTiesIsIdentity | shadcn-ui/src/components/shop/ShopGrid.tsx:42-51 | a comparator that ties every pair leaves the array as it was (stability) |
| MoodHistory.Loaded | shadcn-ui/src/hooks/useMoodHistory.ts:9-18 | the loaded list is the one before, or the decoded stored value; a missing key leaves the list unchanged |
| MoodHistory.LoadAfterSave | shadcn-ui/src/hooks/useMoodHistory.ts:9-26 | saving a list and then loading gives back exactly that list |
| MoodHistory.LoadIdempotent | shadcn-ui/src/hooks/useMoodHistory.ts:9-18 | loading twice from the same storage is the same as loading once |
| MoodHistory.LoadAfterClear | shadcn-ui/src/hooks/useMoodHistory.ts:44-47 | after the key is removed, a load leaves the in-memory list unchanged |
| MoodHistory.MoodHistoryStore.constructor | shadcn-ui/src/hooks/useMoodHistory.ts:7 | a new hook instance starts with an empty list |
| MoodHistory.MoodHistoryStore.LoadHistory | shadcn-ui/src/hooks/useMoodHistory.ts:9-18 | the in-memory list becomes `Loaded` of the old list and the storage contents |
| MoodHistory.MoodHistoryStore.SaveHistory | shadcn-ui/src/hooks/useMoodHistory.ts:20-26 | an accepted write stores the encoded list under `mood-history`; a refused write is swallowed and changes nothing |
| MoodHistory.MoodHistoryStore.AddEntry | shadcn-ui/src/hooks/useMoodHistory.ts:28-42 | the new entry is appended after the old list, which stays a prefix; the whole new list is persisted when accepted; distinct ids stay distinct given a fresh id |
| MoodHistory.MoodHistoryStore.ClearHistory | shadcn-ui/src/hooks/useMoodHistory.ts:44-47 | the list is empty and the storage key is gone; other keys are kept |
| MoodHistory.ClearThroughOneAppendThroughOther | shadcn-ui/src/hooks/useMoodHistory.ts:38-46 | two hook instances share one storage: clearing through one and then appending through the other writes the other's old entries back |
| MoodHistory.ClearTwice | shadcn-ui/src/hooks/useMoodHistory.ts:44-47 | clearing twice is the same as clearing once |
| MoodContext.Restored | shadcn-ui/src/contexts/MoodContext.tsx:24-27 | a non-empty stored session value becomes the current mood, exactly as stored; a missing or empty value leaves the mood unchanged |
| MoodContext.RestoreDoesNotValidate | shadcn-ui/src/contexts/MoodContext.tsx:24-27 | a stored string that names no mood is still restored (a cast, not a check) |
| MoodContext.Step | shadcn-ui/src/contexts/MoodContext.tsx:30-42 | after one `setMood` or `clearMood`, a session record implies a current mood, a current mood is a real mood, and every other session key is kept |
| MoodContext.Run | shadcn-ui/src/contexts/MoodContext.tsx:30-42 | after a non-empty sequence of calls the same two facts hold, and every other session key is kept |
| MoodContext.SetThenReload | shadcn-ui/src/contexts/MoodContext.tsx:20-33 | after any calls, an accepted `setMood(m)` followed by a remount restores exactly `m`'s label |
| MoodContext.ClearMoodTwice | shadcn-ui/src/contexts/MoodContext.tsx:39-42 | a second `clearMood` changes neither the mood nor the session record |
| MoodContext.RunAppend | shadcn-ui/src/contexts/MoodContext.tsx:30-42 | running calls and then one more call is one step after the run |
| MoodContext.LastCallWins | shadcn-ui/src/contexts/MoodContext.tsx:30-42 | after any call history, the last `setMood` decides the mood (and the session record, when the write is accepted); a last `clearMood` unsets both |
| MoodContext.ClearThenReloadIsUnset | shadcn-ui/src/contexts/MoodContext.tsx:20-28 | after `clearMood`, a reloaded provider restores no mood |
| MoodContext.MoodProvider.constructor | shadcn-ui/src/contexts/MoodContext.tsx:16-18 | the provider starts with no mood and a fresh, empty history hook |
| MoodContext.MoodProvider.Init | shadcn-ui/src/contexts/MoodContext.tsx:20-28 | the mount effect loads the history and then restores the session mood |
| MoodContext.MoodProvider.SetMood | shadcn-ui/src/contexts/MoodContext.tsx:30-33 | the mood is set and the label written to session storage; the history is untouched |
| MoodContext.MoodProvider.ClearMood | shadcn-ui/src/contexts/MoodContext.tsx:39-42 | the mood is unset and the session key removed; the history is untouched |
| MoodContext.MoodProvider.AddMoodEntry | shadcn-ui/src/contexts/MoodContext.tsx:35-37 | delegates to the hook's append; the current mood and session storage are unchanged |
| MoodContext.ClearThenReload | shadcn-ui/src/contexts/MoodContext.tsx:20-42 | `clearMood` followed by a remount leaves the new provider without a mood |
| MoodChart.MoodToValue | shadcn-ui/src/components/MoodChart.tsx:13-19 | every stored label charts at an ordinal between 1 and 5 |
| MoodChart.MoodOrdinals | shadcn-ui/src/components/MoodChart.tsx:13-19 | the five moods chart at 5, 4, 3, 2, 1 (injective); any other string charts as calm (line 50) |
| MoodChart.ValueToMood | shadcn-ui/src/components/MoodChart.tsx:22-28 | an ordinal has a caption exactly when it is between 1 and 5 |
| MoodChart.CaptionOfMood | shadcn-ui/src/components/MoodChart.tsx:13-28 | the caption of one mood's ordinal is that mood's name, a space and its emoji |
| MoodChart.ValueToMoodInvertsMoodToValue | shadcn-ui/src/components/MoodChart.tsx:13-28 | the caption of a mood's ordinal is that mood's name and emoji; every captioned ordinal is some mood's; different moods get different captions |
| MoodChart.Window | shadcn-ui/src/components/MoodChart.tsx:39-43 | ten labels, oldest first; label `i` is the day `9 - i` days before today |
| MoodChart.Bucket | shadcn-ui/src/components/MoodChart.tsx:46-56 | a day's values are the ordinals of the entries on that day, each between 1 and 5; the bucket is empty exactly when no entry falls on that day |
| MoodChart.DayScore | shadcn-ui/src/components/MoodChart.tsx:59-66 | a day has no score exactly when it has no values |
| MoodChart.ChartOf | shadcn-ui/src/components/MoodChart.tsx:59-71 | the labels are the window, with one data point per label: that day's average |
| MoodChart.BucketByDay | shadcn-ui/src/components/MoodChart.tsx:46-56 | after the loop, a day is in the map exactly when it has entries, and it maps to that day's bucket |
| MoodChart.GetChartData | shadcn-ui/src/components/MoodChart.tsx:38-71 | the imperative computation gives exactly `ChartOf` |
| MoodChart.Render | shadcn-ui/src/components/MoodChart.tsx:131-137 | the placeholder shows exactly when there are no entries; otherwise the chart shows `ChartOf` |
| MoodChart.NoDataIffNoEntries | shadcn-ui/src/components/MoodChart.tsx:59-61 | a window day has no data exactly when no entry falls on it (never a score of 0) |
| MoodChart.SumFromFront | shadcn-ui/src/components/MoodChart.tsx:64 | the left fold of `reduce` equals the sum taken from the front |
| MoodChart.SumBounds | shadcn-ui/src/components/MoodChart.tsx:64 | a sum of values in [lo, hi] lies between `lo * n` and `hi * n` |
| MoodChart.MeanBounds | shadcn-ui/src/components/MoodChart.tsx:64-65 | the average of values in [lo, hi] lies in [lo, hi] |
| MoodChart.DivBounds | shadcn-ui/src/components/MoodChart.tsx:65 | dividing a sum in [lo n, hi n] by n gives a value in [lo, hi] |
| MoodChart.ScoreWithinBucket | shadcn-ui/src/components/MoodChart.tsx:59-66 | a day's score is the sum over the count of its bucket, and lies within any range holding all its values |
| MoodChart.ScoreWithinOrdinals | shadcn-ui/src/components/MoodChart.tsx:59-66 | every charted score lies between 1 and 5 |
| MoodChart.SumAppend | shadcn-ui/src/components/MoodChart.tsx:64 | the sum of a concatenation is the sum of the sums |
| MoodChart.BucketAppend | shadcn-ui/src/components/MoodChart.tsx:48-56 | bucketing a concatenation concatenates the buckets |
| MoodChart.EntryInOwnBucketOnly | shadcn-ui/src/components/MoodChart.tsx:48-56 | an appended entry lands in its own day's bucket and in no other |
| MoodChart.BucketTotalsOrderFree | shadcn-ui/src/components/MoodChart.tsx:48-65 | a day's total and count do not depend on the order of the entries |
| MoodChart.ChartOrderFree | shadcn-ui/src/components/MoodChart.tsx:38-71 | the chart data do not depend on the order of the entries |
| MoodChart.OutOfWindowIgnored | shadcn-ui/src/components/MoodChart.tsx:59-66 | an entry whose day label is not among the window's ten labels does not change the chart |
| MoodChart.SameLabelCounts | shadcn-ui/src/components/MoodChart.tsx:46-66 | an entry whose day label equals a window day's label, whatever its year, is added to that day's bucket; alone, it makes that day's score its ordinal |
| DynamicTheme.MoodThemesTotal | shadcn-ui/src/hooks/useDynamicTheme.ts:6-62 | the theme table has an entry for every mood, and no two moods share a theme |
| DynamicTheme.GetThemeColors | shadcn-ui/src/hooks/useDynamicTheme.ts:65-67 | the lookup is defined for every mood and returns that mood's table entry |
| DynamicTheme.LookupTheme | shadcn-ui/src/hooks/useDynamicTheme.ts:65-67 | indexing the table by a string gives a theme exactly when the string is a mood's label, and then that mood's theme |
| DynamicTheme.LookupLabel | shadcn-ui/src/hooks/useDynamicTheme.ts:65-67 | looking up a mood's label gives that mood's theme |
| DynamicTheme.UnknownRestoredMoodHasNoTheme | shadcn-ui/src/contexts/MoodContext.tsx:24-27 | a non-empty session value that names no mood is restored, and the table has no theme for it |
| DynamicTheme.ThemeStyle | shadcn-ui/src/hooks/useDynamicTheme.ts:74-88 | a theme sets exactly the ten custom properties |
| DynamicTheme.Styled | shadcn-ui/src/hooks/useDynamicTheme.ts:74-88 | applying overwrites the ten properties with the theme's values and keeps every other property |
| DynamicTheme.Unstyled | shadcn-ui/src/hooks/useDynamicTheme.ts:100-109 | resetting removes exactly the ten properties and keeps the rest |
| DynamicTheme.StyledByUpdates | shadcn-ui/src/hooks/useDynamicTheme.ts:74-88 | the ten `setProperty` calls in source order amount to `Styled` |
| DynamicTheme.UnstyledByRemovals | shadcn-ui/src/hooks/useDynamicTheme.ts:100-109 | the ten `removeProperty` calls in source order amount to `Unstyled` |
| DynamicTheme.StyledValues | shadcn-ui/src/hooks/useDynamicTheme.ts:74-88 | each property's value after applying: the theme colour, white for the primary and secondary foregrounds, and the text colour for the other foregrounds |
| DynamicTheme.ApplyOverwrites | shadcn-ui/src/hooks/useDynamicTheme.ts:69-94 | applying a second theme leaves no trace of the first |
| DynamicTheme.ApplyIdempotent | shadcn-ui/src/hooks/useDynamicTheme.ts:69-94 | applying the same theme twice is the same as applying it once |
| DynamicTheme.ResetIdempotent | shadcn-ui/src/hooks/useDynamicTheme.ts:96-112 | resetting twice is the same as resetting once |
| DynamicTheme.ResetUndoesApply | shadcn-ui/src/hooks/useDynamicTheme.ts:69-112 | apply followed by reset leaves none of the ten properties and restores everything else |
| DynamicTheme.Document.SetProperty | shadcn-ui/src/hooks/useDynamicTheme.ts:74 | `style.setProperty` binds one property; the body attributes are unchanged |
| DynamicTheme.Document.RemoveProperty | shadcn-ui/src/hooks/useDynamicTheme.ts:100 | `style.removeProperty` removes one property |
| DynamicTheme.Document.SetAttribute | shadcn-ui/src/hooks/useDynamicTheme.ts:91 | writing `dataset.moodAnimation` binds the body attribute |
| DynamicTheme.Document.RemoveAttribute | shadcn-ui/src/hooks/useDynamicTheme.ts:111 | `removeAttribute` removes the body attribute |
| DynamicTheme.ApplyThemeStyles | shadcn-ui/src/hooks/useDynamicTheme.ts:69-94 | returns the mood's theme; the root style becomes `Styled`, with each of the ten values given; the body gets the animation attribute |
| DynamicTheme.ResetTheme | shadcn-ui/src/hooks/useDynamicTheme.ts:96-112 | the root style becomes `Unstyled`, and the animation attribute is removed |
| ShopGrid.Distinct | shadcn-ui/src/components/shop/ShopGrid.tsx:23 | the `Set` holds the same strings as its input, each once |
| ShopGrid.FirstIndex | shadcn-ui/src/components/shop/ShopGrid.tsx:23 | the index holds the string, and no earlier index does |
| ShopGrid.DistinctFirstOccurrenceOrder | shadcn-ui/src/components/shop/ShopGrid.tsx:23 | the `Set` lists its strings in order of first occurrence |
| ShopGrid.CategoryLabels | shadcn-ui/src/components/shop/ShopGrid.tsx:23 | the mapped array has one category per item, in catalogue order |
| ShopGrid.Categories | shadcn-ui/src/components/shop/ShopGrid.tsx:21-24 | 'All' first, then exactly the categories some item has, each once |
| ShopGrid.CategoriesInFirstOccurrenceOrder | shadcn-ui/src/components/shop/ShopGrid.tsx:21-24 | the categories after 'All' are in order of first appearance in the catalogue |
| ShopGrid.Includes | shadcn-ui/src/components/shop/ShopGrid.tsx:28-29 | `includes` holds exactly when the substring occurs at some index |
| ShopGrid.IncludesEmpty | shadcn-ui/src/components/shop/ShopGrid.tsx:28-29 | every string includes the empty string |
| ShopGrid.MatchesSearch | shadcn-ui/src/components/shop/ShopGrid.tsx:28-29 | an item matches exactly when the lowered term occurs in its lowered name or in its lowered description; so an empty term matches every item, and a match needs a name or description at least as long as the term |
| ShopGrid.MatchesCategory | shadcn-ui/src/components/shop/ShopGrid.tsx:30 | no category or 'All' matches every item; any other non-empty category matches exactly the items of that category |
| ShopGrid.CategoryChoiceNonEmpty | shadcn-ui/src/components/shop/ShopGrid.tsx:21-32 | with an empty search, choosing any offered category after 'All' leaves at least one item |
| ShopGrid.FilterItems | shadcn-ui/src/components/shop/ShopGrid.tsx:26-32 | an item is kept exactly when it is in the catalogue and matches both the search and the category |
| ShopGrid.EmptySearchKeepsAll | shadcn-ui/src/components/shop/ShopGrid.tsx:26-32 | an empty search with no category keeps the whole catalogue, in order |
| ShopGrid.HasMood | shadcn-ui/src/components/shop/ShopGrid.tsx:45 | a set mood that names a real mood counts as present |
| ShopGrid.TagsInclude | shadcn-ui/src/components/shop/ShopGrid.tsx:46-47 | `includes` on the tags holds exactly when the string names a mood that is among the tags |
| ShopGrid.MatchesMood | shadcn-ui/src/components/shop/ShopGrid.tsx:45-47 | an item matches exactly when a mood is set, names a real mood, and that mood is among the item's tags |
| ShopGrid.UnknownMoodMatchesNothing | shadcn-ui/src/components/shop/ShopGrid.tsx:46-47 | a mood string that names no mood matches no item |
| ShopGrid.FilteredItems | shadcn-ui/src/components/shop/ShopGrid.tsx:26-53 | the result is a permutation of the filtered items, holding exactly the items that pass the filter |
| ShopGrid.Comparator | shadcn-ui/src/components/shop/ShopGrid.tsx:33-52 | every comparator but the name one is antisymmetric (`cmp(a, b) == -cmp(b, a)`) and returns -1, 0 or 1 |
| ShopGrid.PriceAscending | shadcn-ui/src/components/shop/ShopGrid.tsx:36-37 | under 'price-asc', prices are non-decreasing |
| ShopGrid.PriceDescending | shadcn-ui/src/components/shop/ShopGrid.tsx:38-39 | under 'price-desc', prices are non-increasing |
| ShopGrid.NameOrdered | shadcn-ui/src/components/shop/ShopGrid.tsx:40-41 | under 'name', names follow the collation whenever the collation is a consistent total preorder |
| ShopGrid.Matching | shadcn-ui/src/components/shop/ShopGrid.tsx:45-49 | every item kept matches the mood |
| ShopGrid.NotMatching | shadcn-ui/src/components/shop/ShopGrid.tsx:45-49 | no item kept matches the mood |
| ShopGrid.RecommendedCompare | shadcn-ui/src/components/shop/ShopGrid.tsx:42-51 | the recommended comparator returns -1 when only the first item matches the mood, 1 when only the second does, 0 otherwise |
| ShopGrid.InsertIntoPartition | shadcn-ui/src/components/shop/ShopGrid.tsx:42-51 | inserting into matching-then-other items puts the new item at the front of its own group |
| ShopGrid.RecommendedIsStablePartition | shadcn-ui/src/components/shop/ShopGrid.tsx:42-51 | 'recommended' gives the matching items and then the others, each group in its original order |
| ShopGrid.NoMoodMatchesNothing | shadcn-ui/src/components/shop/ShopGrid.tsx:45 | with no mood, nothing matches and every item is in the second group |
| ShopGrid.RecommendedOrder | shadcn-ui/src/components/shop/ShopGrid.tsx:26-53 | the recommended pipeline is a stable mood partition of the filtered items; with no mood it keeps the filtered order |
| ShopGrid.RenderShopItems | shadcn-ui/src/components/shop/ShopGrid.tsx:55-70 | the "no items" message shows exactly when the list is empty; otherwise there is one card per item, in order, each with its mood flag |
| ShopGrid.FlaggedFirst | shadcn-ui/src/components/shop/ShopGrid.tsx:42-51 | under 'recommended', every item flagged as matching the mood comes before every unflagged one |
| MoodDiary.MoodDiaryForm.constructor | shadcn-ui/src/components/MoodDiary.tsx:16-17 | the form starts with 'happy' selected and an empty note |
| MoodDiary.MoodDiaryForm.SelectMood | shadcn-ui/src/components/MoodDiary.tsx:16 | the selected mood changes and the note is kept |
| MoodDiary.MoodDiaryForm.SetNoteText | shadcn-ui/src/components/MoodDiary.tsx:17 | the note changes and the selected mood is kept |
| MoodDiary.MoodDiaryForm.HandleSubmit | shadcn-ui/src/components/MoodDiary.tsx:19-30 | one entry with the selected mood and note is appended and persisted when accepted; the note is cleared; the selected mood and the session mood are kept |
| MoodDiary.NewestFirst | shadcn-ui/src/components/MoodDiary.tsx:128 | the comparator's sign puts a later timestamp first, and ties equal timestamps |
| MoodDiary.NewestFirstIsPreorder | shadcn-ui/src/components/MoodDiary.tsx:128 | newest-first is a consistent comparator |
| MoodDiary.ByNewest | shadcn-ui/src/components/MoodDiary.tsx:127-128 | the sorted copy is a permutation of the history, with timestamps non-increasing |
| MoodDiary.NewestInOrder | shadcn-ui/src/components/MoodDiary.tsx:127-128 | sorting with the comparator gives non-increasing timestamps |
| MoodDiary.RecentEntries | shadcn-ui/src/components/MoodDiary.tsx:127-129 | at most five entries, drawn from the history, newest first |
| MoodDiary.OmittedAreOlder | shadcn-ui/src/components/MoodDiary.tsx:127-129 | every entry left out is no newer than any entry shown |
| MoodDiary.ShortHistoryShownWhole | shadcn-ui/src/components/MoodDiary.tsx:127-129 | a history of at most five entries is shown whole |
| MoodDiary.EntryEmoji | shadcn-ui/src/components/MoodDiary.tsx:32-38 | an entry has an emoji exactly when its mood string names a mood (line 135), and it is that mood's emoji |
| MoodDiary.RecentPanel | shadcn-ui/src/components/MoodDiary.tsx:121-147 | the empty message shows exactly when there are no entries; otherwise card `k` shows the `k`-th recent entry with its mood's emoji, and shows its note exactly when the note is non-empty |
| MoodDiary.SubmittedEntriesHaveEmoji | shadcn-ui/src/components/MoodDiary.tsx:27-38 | an entry written through the form always has an emoji |

## Left out

- **React state and effects.** State updates are applied at once. React's batching, re-rendering, StrictMode double-run effects and the `useCallback` identities are not modelled. An updater `(prev) => ...` is modelled as acting on the list as it stands at the call.
- **Runtime shape of stored JSON.** The stored history is whatever `JSON.parse` returns. The source neither validates its shape nor checks that moods are valid, and `currentMood` is read back with a type cast. The model therefore keeps stored moods as strings rather than the `Mood` type. It does not model a parsed value that is not an array of entries.
- **Identifiers and clocks.** The UUID generator, `new Date().toISOString()` and `Date.now()` are parameters, so uniqueness of ids is a hypothesis (`AppendFreshId`). The date-fns `format` and `subDays` are likewise the parameters of `Calendar`.
- **Locale.** Unicode `toLowerCase` and `localeCompare` are the parameters of `Locale`. `NameOrdered` assumes the collation is a total preorder.
- **Numbers.** JavaScript floating-point numbers are not modelled:
  - Prices are exact reals, and so are the chart averages.
  - The division in the chart and the tooltip's `Math.round` are not floating-point.
  - A NaN price or timestamp is not modelled.
  - Timestamps are unbounded integers.
- **Prototype keys.** `moodToValue[entry.mood]` on a key of `Object.prototype`, such as `constructor`, is not modelled. The model charts every unknown string as 3.
- **Session write errors.** The `sessionStorage.setItem` in `setMood` is not wrapped in `try`. A thrown quota error would propagate to the caller after the mood state was set. The model only records the write as refused (`accept` false).
- **Missing provider.** The error thrown by `useMoodContext` outside a provider is not modelled, because every modelled consumer takes the provider as an argument.
- **Dead guard in `handleSubmit`.** The `!selectedMood` branch cannot be reached, since `selectedMood` is always one of the five moods. It is not modelled.
- **Chart.js.** Chart.js options, the tooltip formatter, rendering, the toast messages and all markup are left out. The emoji and caption strings are kept.
- DynamicTheme.GetThemeColors, DynamicTheme.ApplyThemeStyles: take a `Mood`, so they cannot be called with a string that names no mood. `Layout.tsx:26-30` passes the restored `currentMood`, which may be any non-empty session string (`UnknownRestoredMoodHasNoTheme`). For such a string `moodThemes[mood]` is undefined (`LookupTheme` gives `None`), and `useDynamicTheme.ts:74` then throws a `TypeError` on every reload. The crash itself is not modelled.
- **Theme on clear.** The code never calls `resetTheme`, so clearing the mood does not revert the theme. `ResetTheme` is modelled as the hook offers it, and `ResetUndoesApply` states what it would achieve.
- **Other files.** The content feed, the animation components, the pages, `theme-config.ts` and `MoodSelector` are outside the mood layer and are not part of this model. Settings-page clearing appears only as two hook instances sharing one storage (`ClearThroughOneAppendThroughOther`).

## Where the code differs from what its types and names suggest

The model follows the code in each place:

- **Restoring the session.** `MoodContext.tsx:24` reads the session value with the cast `as Mood | null`, which the type checker trusts and nothing checks at run time. So any non-empty string is restored as the current mood (`RestoreDoesNotValidate`). Likewise, `useMoodHistory.ts:9-18` leaves the in-memory list unchanged when the stored history is missing, empty or fails to parse (`Loaded`).
- **Day labels without a year.** The chart buckets entries by their `'MMM dd'` label (`MoodChart.tsx:48`), which has no year. An entry from an earlier year whose month and day match a window day is averaged into that day (`SameLabelCounts`). Only an entry whose label is none of the ten window labels is ignored (`OutOfWindowIgnored`).
- **Reverting the theme.** The `Layout.tsx:26-30` effect applies the theme whenever `currentMood` is set. It never calls `resetTheme` when the mood is cleared, so the last theme stays in place.
