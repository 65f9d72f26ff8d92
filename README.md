# Shuangpin lesson engine, modelled in Dafny

This project models the lesson engine of a two-key ("shuangpin") Chinese
typing tutor. Each pinyin syllable is typed as a lead key followed by a
follow key. The engine covers five parts:

- **Combination index** (`pinyin.dfy`). The key lists of the scheme and the
  load-time loops that build `validCombines`, `leadMap` and `followMap`.
  The first loop is the product of lead keys (plus the empty lead) and
  follow keys, filtered by the dictionary. The second pass pushes every
  stored combination onto the same lists again, so every combination is
  listed twice.
- **Reverse dictionary** (`hanzi.dfy`). The character-to-spellings index,
  built by nested loops, and the lookups and validity tests.
- **Progressive lessons** (`progressive.dfy`). The unlocked keys of a
  lesson, the cyclic sampling of ten characters per combination, and the
  split into new and old characters. Also the preview-plus-pool list and
  the wrapping cursor that hands out characters, held in a
  `ProgressiveLogic` object whose `SetIndex` stands in for the watcher on
  the lesson index.
- **Typing statistics** (`summary.dfy`). The `TypingSummary` object: a
  50-entry FIFO window of match records with idle-gap suppression, running
  totals, and the four derived rates. The achievement tables appear as
  constants.
- **Proficiency ledger** (`store.dfy`). The `progresses` dictionary of the
  store, with one 50-bit rolling window and an incrementally kept sum per
  key name. One match updates the lead, the follow and their combination.

Shared pieces:

- `dictionary.dfy`: the dictionary as an ordered list of unique spellings
  with their character groups, and ASCII lower-casing.
- `window.dfy`: the push-then-shift window used by both the statistics and
  the ledger.
- `ratio.dfy`: a bound on ratios.
- `wrappers.dfy`: `Option`.

The loops of the source are methods proved equal to functions that
specify them (`BuildCombinationIndex == IndexOf`,
`BuildCharToPinyinMap == CharToPinyinMap`, `CategorizeHanzi == Categorized`,
`InterleaveLists == Interleaved`). The properties are lemmas about those
functions. State that the source updates in place is held in classes:

- `ProgressiveLogic` holds the cursor and the list;
- `TypingSummary` holds the window and the counters;
- `ProgressStore` holds the ledger.

Their methods state the whole new state. `ProgressiveLogic` and
`TypingSummary` also keep a class invariant (`Valid`). `ProgressStore`
has none, because `updateProgress` stores whatever record it is given;
that every record built by matches stays consistent is the lemma
`Store.RecordAllConsistent` about `RecordAll`.

## Model

| member | source | states |
|---|---|---|
| Dictionary.Lookup | src/utils/pinyin.ts:26 | a key is found exactly when the dictionary has it, and then the value is that entry's group |
| Dictionary.LookupAt | src/utils/hanzi.ts:3 | looking up any entry's spelling yields that entry's group |
| Dictionary.ToLower | src/utils/hanzi.ts:19 | lower-casing keeps the length and maps each ASCII capital to its small letter, leaving every other character alone |
| Window.SlideKeepsNewest | src/utils/summary.ts:37-45 | push then shift keeps at most `capacity` items, puts the new item last, and keeps the newest part of the pushed history |
| Window.SlideEvictsOldest | src/store.ts:58-64 | on a full window, the oldest item is the one evicted |
| Window.SlideIsNewest | src/utils/summary.ts:37-45 | sliding the newest `capacity` items of a history by one entry gives the newest `capacity` items of the extended history |
| Pinyin.SummaryCounts | src/utils/pinyin.ts:18 | `followKeys` is the single-vowel keys followed by the multi-vowel keys; the summary counts are the list lengths (23, 34, 6, 28) |
| Pinyin.DiscoveredIff | src/utils/pinyin.ts:28-38 | a combination is accepted exactly when its lead is a lead key or empty, its follow is a follow key, it spells `lead + follow`, and that spelling is a dictionary key |
| Pinyin.GetCombineOf | src/utils/pinyin.ts:68-70 | the spelling is the lead followed by the follow, so both are read back from it, and it is the stored spelling of any well-formed combination |
| Pinyin.CombineOfDiscovered | src/utils/pinyin.ts:68-70 | `getCombineOf` of every accepted combination is its stored spelling |
| Pinyin.SpellingDeterminesPair | src/utils/pinyin.ts:8-16 | a vowel-free lead followed by a vowel-initial follow splits back in only one way |
| Pinyin.LeadKeysShape | src/utils/pinyin.ts:8-9 | the lead keys plus the empty lead are distinct and contain no vowel |
| Pinyin.FollowKeysShape | src/utils/pinyin.ts:11-18 | the follow keys are distinct and each starts with a vowel |
| Pinyin.KeyListsInjective | src/utils/pinyin.ts:28-29 | no two (lead, follow) pairs of the key lists share a spelling |
| Pinyin.DiscoveredDistinct | src/utils/pinyin.ts:28-38 | the combinations the product loop accepts have pairwise distinct spellings |
| Pinyin.PushMap | src/utils/pinyin.ts:48-54 | `pushMap` appends `v` to the list under `k`, creating that list first, and leaves every other list alone |
| Pinyin.GroupAt | src/utils/pinyin.ts:40-44 | after pushing a sequence of combinations, the list under a key is the old list followed by the matching combinations, in order; the key is present exactly when it was already present or something matched |
| Pinyin.MatchingMember | src/utils/pinyin.ts:43-44 | a combination is under a key exactly when it uses that key, and as many times as it was pushed |
| Pinyin.ProductRow | src/utils/pinyin.ts:28-45 | one lead's row of the product loop extends the tables exactly by that lead's accepted combinations |
| Pinyin.ProductPass | src/utils/pinyin.ts:28-46 | the product loop leaves the tables of all accepted combinations, leads outer and follows inner |
| Pinyin.RevisitPass | src/utils/pinyin.ts:56-59 | the second pass pushes each stored value of `validCombines`, in key order, onto its lead and follow lists |
| Pinyin.BuildCombinationIndex | src/utils/pinyin.ts:28-59 | the load-time code builds exactly `IndexOf(dict)` |
| Pinyin.RevisitDistinct | src/utils/pinyin.ts:56-59 | with distinct spellings, the second pass visits the accepted combinations again in discovery order |
| Pinyin.ValidCombinesShape | src/utils/pinyin.ts:29-38 | `validCombines` keys are the accepted spellings in discovery order; each stored record is stored under its own spelling, spells `lead + follow`, and is an accepted combination |
| Pinyin.ListsRepeatDiscovery | src/utils/pinyin.ts:40-44 | each lead or follow list is that key's accepted combinations in discovery order, twice over (also cites lines 56-59) |
| Pinyin.KeyedListsShape | src/utils/pinyin.ts:40-44 | a key is in `leadMap`/`followMap` exactly when an accepted combination uses it; every list is non-empty and holds only combinations with that key; each accepted combination occurs exactly twice in its list (also cites lines 48-59) |
| Hanzi.BuildCharToPinyinMap | src/utils/hanzi.ts:6-12 | the nested loop builds exactly `CharToPinyinMap(dict)` |
| Hanzi.AddEntry | src/utils/hanzi.ts:8-11 | the inner loop over one group adds that entry's spelling once per occurrence of each of its characters |
| Hanzi.FilledStep | src/utils/hanzi.ts:9-10 | creating the empty list when absent and then pushing keeps the index equal to the spellings of the entries and characters seen so far |
| Hanzi.AllHanziList | src/utils/hanzi.ts:15 | a character is in `allHanziList` exactly when some group contains it |
| Hanzi.SpellingsPerOccurrence | src/utils/hanzi.ts:7-11 | a character's spelling list has one entry per occurrence of the character in all groups |
| Hanzi.SpellingMultiplicity | src/utils/hanzi.ts:7-11 | an entry's spelling appears in a character's list as often as the character occurs in that entry's group, so a repeated character gives duplicates |
| Hanzi.GetHanziOf | src/utils/hanzi.ts:18-20 | the result is the group under the lower-cased spelling, or empty when that key is absent |
| Hanzi.EveryEntryListed | src/utils/hanzi.ts:23-25 | every entry's spelling is listed by `getPinyinOf` for each character of its group |
| Hanzi.GetPinyinOfFirstCharOnly | src/utils/hanzi.ts:23-25 | `getPinyinOf` depends only on the first character of its argument |
| Hanzi.GetPinyinOf | src/utils/hanzi.ts:23-25 | empty for the empty string; otherwise the reverse-index list of the first character, with one spelling per occurrence of that character in all groups (empty for a character no group holds) |
| Hanzi.IsValidHanzi | src/utils/hanzi.ts:28-30 | `isValidHanzi` holds exactly for a single character that occurs in some group, and such a character has at least one spelling |
| Hanzi.IsValidPinyin | src/utils/hanzi.ts:33-35 | `isValidPinyin` holds exactly when the lookup of the lower-cased spelling succeeds, and when it fails `getHanziOf` returns empty |
| Hanzi.ValidPinyinIff | src/utils/hanzi.ts:33-35 | `isValidPinyin` holds exactly when the lower-cased spelling is a key, whose group `getHanziOf` returns; a non-empty `getHanziOf` implies validity (also cites lines 18-20) |
| Progressive.GetActiveContext | src/utils/useProgressiveLogic.ts:11-19 | the unlocked keys are the curriculum prefix of length `min(idx+1, 57)`; the newest key is `progressiveKeys[idx]` (none past the end); the unlocked leads are exactly the empty lead and the lead keys among the unlocked keys |
| Progressive.ActiveFollows | src/utils/useProgressiveLogic.ts:32 | the unlocked follows are exactly the unlocked keys that are follow keys |
| Progressive.PickTopCharacters | src/utils/useProgressiveLogic.ts:21-24 | empty for empty input, otherwise exactly `count` items |
| Progressive.PickTopAt | src/utils/useProgressiveLogic.ts:23 | item `i` is `chars[i mod |chars|]` |
| Progressive.PickTopCovers | src/utils/useProgressiveLogic.ts:21-24 | the sample holds only characters of the input, starts with its first `min(count, |chars|)` characters, and holds all of them once `count` reaches the input length |
| Progressive.CategorizeList | src/utils/useProgressiveLogic.ts:37-49 | the inner loop extends the two lists exactly as `Route` does for one follow key's combinations |
| Progressive.CategorizeHanzi | src/utils/useProgressiveLogic.ts:27-53 | the nested loop returns exactly `Categorized(dict, followMap, idx)` |
| Progressive.RouteIff | src/utils/useProgressiveLogic.ts:38-48 | a character is in the new list exactly when a visited combination with an unlocked lead that uses the newest key sampled it; it is in the old list exactly when such a combination not using the newest key did |
| Progressive.RouteInTens | src/utils/useProgressiveLogic.ts:26 | each contributing combination adds exactly ten characters, so both lists have lengths divisible by ten (also cites lines 41-48) |
| Progressive.VisitedTwice | src/utils/useProgressiveLogic.ts:32-35 | over the loaded `followMap`, the loop meets each accepted combination twice per listing of its follow key, and nothing else (also cites src/utils/pinyin.ts:56-59) |
| Progressive.VisitedAreActive | src/utils/useProgressiveLogic.ts:32-35 | every combination the loop visits is accepted, and its follow is an unlocked follow key |
| Progressive.LastKeyIsNg | src/utils/pinyin.ts:4-9 | the last curriculum key is `ng`, which is neither a lead key nor a follow key (also cites lines 11-18) |
| Progressive.NothingNewFromNg | src/utils/useProgressiveLogic.ts:47-48 | from the last lesson on, the new list is always empty |
| Progressive.Shuffle | src/utils/useProgressiveLogic.ts:83 | the shuffle keeps the length and the multiset of its input |
| Progressive.TrainingPoolAsWritten | src/utils/useProgressiveLogic.ts:62-66 | the pool as written has `2 * |old|` slots |
| Progressive.PoolUndefinedWithoutNew | src/utils/useProgressiveLogic.ts:64 | with no new characters and some old ones, the pool as written holds undefined slots |
| Progressive.TrainingPool | src/utils/useProgressiveLogic.ts:62-66 | the corrected pool has `2 * |old|` characters, or `|old|` when nothing is new |
| Progressive.TrainingPoolAt | src/utils/useProgressiveLogic.ts:63-65 | slot `2i` is `new[i mod |new|]` and slot `2i+1` is `old[i]` |
| Progressive.TrainingPoolAgrees | src/utils/useProgressiveLogic.ts:62-66 | whenever some character is new, the corrected pool is the pool as written |
| Progressive.TrainingPoolWithoutNew | src/utils/useProgressiveLogic.ts:64 | with no new characters, the corrected pool is the old characters |
| Progressive.TrainingPoolMembers | src/utils/useProgressiveLogic.ts:62-66 | the pool holds only new or old characters, and every old character |
| Progressive.InterleaveLists | src/utils/useProgressiveLogic.ts:56-69 | the loop builds exactly `Interleaved`: the preview, then the shuffled pool |
| Progressive.InterleavedShape | src/utils/useProgressiveLogic.ts:61-67 | the result has length `min(10, |new|)` plus the pool length; it starts with the first `min(10, |new|)` new characters; the rest is a permutation of the pool |
| Progressive.InterleavedMembers | src/utils/useProgressiveLogic.ts:56-69 | the result starts with new characters, holds every old character, and holds nothing but new and old characters |
| Progressive.HanziListFor | src/utils/useProgressiveLogic.ts:75-84 | empty for a negative index; otherwise up to ten new characters first, then a pool of the right length holding every old character and only new or old ones |
| Progressive.LastLessonsReviewOnly | src/utils/useProgressiveLogic.ts:75-84 | from the last lesson on, the list is a permutation of the old characters alone |
| Progressive.NextCursor | src/utils/useProgressiveLogic.ts:102-106 | the cursor moves one step; past the end it wraps to 10 when the list is longer than 10, else to 0; it stays in bounds |
| Progressive.CursorCycles | src/utils/useProgressiveLogic.ts:95-110 | after `t` characters the cursor is `t` until the end, then cycles through positions 10 to `n-1` (or 0 to `n-1` for lists of at most ten) |
| Progressive.ProgressiveLogic.constructor | src/utils/useProgressiveLogic.ts:71-93 | given the `followMap` loaded from the dictionary, the immediate watcher starts the cursor at 0 with the list for the initial index |
| Progressive.ProgressiveLogic.UpdateHanziList | src/utils/useProgressiveLogic.ts:75-84 | the list is empty for a negative index; otherwise it is the preview-plus-pool of the shuffled new and old lists |
| Progressive.ProgressiveLogic.SetIndex | src/utils/useProgressiveLogic.ts:86-93 | a changed index resets the cursor to 0 and rebuilds the list; an unchanged one changes nothing |
| Progressive.ProgressiveLogic.GetNextChar | src/utils/useProgressiveLogic.ts:95-110 | on an empty list it returns `""` and keeps the cursor; otherwise it returns the character under the cursor, advances the cursor by `NextCursor`, and keeps it in bounds |
| Summary.IdleFiltered | src/utils/summary.ts:30-35 | the recorded duration is 0 when `lastTime` is 0 or the gap exceeds 5000, and the gap otherwise |
| Summary.FoldBounds | src/utils/summary.ts:53 | a window never has more correct entries than entries, nor more correct presses than presses |
| Summary.TalliedRecord | src/utils/summary.ts:26-49 | recording a match keeps the window equal to the newest 50 records and the totals equal to counts over all records |
| Summary.TypingSummary.ValidBounds | src/utils/summary.ts:2 | the window holds at most 50 entries, none longer than the idle limit; correct matches never exceed matches (also cites lines 27-28) |
| Summary.TypingSummary.constructor | src/utils/summary.ts:1-14 | everything starts empty or zero |
| Summary.TypingSummary.OnKeyPressed | src/utils/summary.ts:16-24 | both press counters go up by one; `lastTime` is set to `now` only while it is 0 |
| Summary.TypingSummary.OnValid | src/utils/summary.ts:26-49 | the match count goes up by one and the correct count only on success; the window gets the entry `(result, filtered gap, pending presses)` with the oldest evicted past 50; `lastTime := now` and the pending presses reset to 0 |
| Summary.TypingSummary.PushEntry | src/utils/summary.ts:37-45 | push, then shift past fifty |
| Summary.TypingSummary.SlidingAccuracy | src/utils/summary.ts:51-55 | 0 on an empty window, otherwise correct entries over entries, within [0, 1] |
| Summary.TypingSummary.HanziPerMinutes | src/utils/summary.ts:57-63 | 0 when the window's total duration or correct count is 0, otherwise correct count over duration times 60000 |
| Summary.TypingSummary.PressPerHanzi | src/utils/summary.ts:65-71 | 0 with no correct entries, otherwise the mean presses over the correct entries, never negative |
| Summary.TypingSummary.TotalAccuracy | src/utils/summary.ts:73-77 | 0 with no matches, otherwise correct matches over matches, within [0, 1] whenever correct ≤ matches |
| Summary.FinalThresholdsAreLevels | src/utils/summary.ts:139-161 | every certification threshold is a titled level of the same measure (also cites lines 88-138) |
| Store.RecordAll | src/store.ts:55-67 | recording a sequence of names adds exactly those names to the ledger |
| Store.Record | src/store.ts:58-66 | one recording appends the bit and evicts the oldest past 50, adds one to `total`, keeps `currentIndex`, and keeps `correctSum` equal to the window's sum |
| Store.RecordAllOthers | src/store.ts:52-68 | records not named are untouched, and exactly the named ones are added |
| Store.RecordAllConsistent | src/store.ts:59-64 | recording bits keeps every record's window at most 50 bits, with `correctSum` equal to its sum |
| Store.RecordAllLast | src/store.ts:55-67 | recording one more name records that record once more and keeps every other |
| Store.RecordThreeDistinct | src/store.ts:55-67 | with three distinct names, each named record is recorded once, starting from the zero record when new |
| Store.EmptyLeadRecordsFollowTwice | src/store.ts:55-67 | with the empty lead, the combination is the follow itself, so the follow's record is recorded twice |
| Store.NamesDistinct | src/store.ts:55 | with a non-empty lead and follow, the combination names a record of its own |
| Store.ProgressStore.constructor | src/store.ts:12-31 | the ledger starts empty |
| Store.ProgressStore.GetProgress | src/store.ts:38-48 | an absent name gets the zeroed record; a present one is returned with the ledger unchanged |
| Store.ProgressStore.UpdateProgress | src/store.ts:49-51 | the named record is replaced wholesale and the others are kept |
| Store.ProgressStore.UpdateProgressOnValid | src/store.ts:52-68 | the ledger becomes the bit recorded on the lead, the follow and the combination, in that order |
| Store.ProgressStore.RecordOne | src/store.ts:56-66 | one pass of the loop records the bit on one name, creating the record when absent |
| Store.ProgressStore.GetAccuracy | src/store.ts:69-73 | 0 when the record is missing or empty, otherwise `correctSum` over the window length, within [0, 1] for a consistent record |

## Left out

- `vite.config.ts`: build configuration; nothing to model.
- Vue `ref`/`shallowRef`/`watch` and pinia `defineStore`/`persist` become plain class fields. `ProgressiveLogic.SetIndex` plays the watcher: it fires only when the index changes.
- `mode`, `saveConfig`, `deleteConfig`, `getAllConfigs`, `loadConfig` and the config `cache` of `src/store.ts` are not modelled. They depend on the keyboard configuration module, which is not part of this model.
- The JSON dictionary asset is a parameter: an ordered list of entries with unique spellings, standing for the object's key order. The `product` helper is not part of this model; it is taken to enumerate leads outer and follows inner.
- lodash `shuffle` is random. `Shuffle` is a selection shuffle driven by a parameter sequence of rolls. Only its length and multiset are promised.
- `performance.now()` is the `now` parameter of `OnKeyPressed`/`OnValid`, as integer milliseconds.
- Floating-point division is exact `real` division; rounding is not modelled.
- JavaScript artefacts are not modelled:
  - the prototype keys that `in` sees on plain objects;
  - `split('')` working on UTF-16 units;
  - lower-casing beyond ASCII.

  Characters are sequence elements, and `ToLower` maps only `A`-`Z`.
- The `Achievement` class is not modelled, since its `check()` is empty. Only the `lowerIsBetter`, `achievementConds` and `finalAchievement` tables are transcribed.
- The `Progress` object that `updateProgress` stores is a value here. Aliasing between a caller's object and the stored one is not modelled.
- `GetActiveContext` takes a non-negative index. Its only caller is `categorizeHanzi` (useProgressiveLogic.ts:28), which `updateHanziList` reaches only after returning the empty list for a negative index.
- Summary.TypingSummary.TotalAccuracy: the [0, 1] bound is stated under `correct ≤ matches`. `ValidBounds` proves that condition from the class invariant.

Two behaviours of the code worth naming:

- `interleaveLists` builds its pool by pairing `new[i mod |new|]` with `old[i]` for each old character, then shuffles the pool. It is not a round-robin merge.
- No code evaluates the achievement conditions.

## Findings

| source | as written | input that shows it | evidently intended | confidence | as-written member | corrected member |
|---|---|---|---|---|---|---|
| src/utils/useProgressiveLogic.ts:63-66 | the pool pairs each old character with `shuffledNew[i % shuffledNew.length]`; with no new characters this indexes with `NaN` and pushes `undefined` | lesson index 56 (the key `ng`, neither lead nor follow, so nothing is new) with any dictionary that yields old characters; `interleaveLists([], ["x"])` gives the pool `[undefined, "x"]` | with no new characters the pool is the old characters alone | not executed | Progressive.PoolUndefinedWithoutNew | Progressive.TrainingPool |

`Progressive.NothingNewFromNg` shows that the new list is empty from the last lesson on. `Progressive.TrainingPoolAgrees` shows that the corrected pool equals the as-written one whenever some character is new. `InterleaveLists`, `Interleaved` and `HanziListFor` use the corrected pool.
