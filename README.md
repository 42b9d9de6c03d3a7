# Year Wrapped: state and progression model

A Dafny model of the client-side core of *Year Wrapped*, a web app where
users fill in "wrapped" cards about their year. The card categories come
from a fixed catalog. Saving cards unlocks achievements. The model covers:

- the category catalog (10 main categories, 45 subcategories) and its
  lookups (`Catalog`, from `src/types/wrapped.ts`);
- card form validation (`Validation`, from `src/lib/validation.ts`);
- the achievement engine (`Achievements`, from `src/lib/achievements.ts`);
- the persistent store behind the app context: drafts, saved cards,
  achievement state and user name, each in a `localStorage` key, with
  in-memory mirrors (`Store.AppStore`, from `src/context/AppContext.tsx`);
- the page navigation handlers (`Navigation.Navigator`, from
  `src/pages/Index.tsx`);
- the quick-wrapped picker (`QuickSelector`), the custom category editor
  (`CustomCreator`), the achievements page filter (`AchievementsPage`), the
  category accordion (`CategoryBrowser`) and the rotating card stack on the
  landing page (`CardStack`).

Shared value types, the generic list filter and decimal rendering live in
`Shared`. Each source file is one module. Code that updates state in place
is a class with `modifies` clauses: the store, the navigation state, the
picker selection, the editor's field list, the accordion set and the card
array. Each of those methods is specified against a pure function, and the
lemmas are proved about that function.

Assumptions of the model:

- `localStorage` is a map from the four keys to a document. A document is
  raw text or an already-parsed JSON value.
- Each write handler takes the outcome of its write as a parameter
  (`WriteFault`).
- The clock (`Date.now()`) and the local hour (`getHours()`) are parameters.
- The achievement catalog (`ACHIEVEMENTS` in `src/lib/achievementsData`) is
  not part of this model. It is a parameter, a sequence of achievements.

Behaviour of the code worth noting:

- An empty `subcategories_complete` list counts as met. No guard stops a zero
  total.
- `markAchievementSeen` does not check that the id is unlocked.
- `unlockAchievement` and `markAchievementSeen` work from the in-memory
  mirror. They do not re-read storage.
- `unlockAchievement` and `markAchievementSeen` update the mirror even when
  the storage write fails.

## Model

| member | source | states |
|---|---|---|
| `Shared.Filter` | src/context/AppContext.tsx:112 | `Array.filter`: the result has exactly the elements of the input that pass the test, and is no longer than the input |
| `Shared.FilterAppend` | src/context/AppContext.tsx:203 | filtering keeps the order: filtering a concatenation gives the filtered parts, concatenated in order |
| `Shared.FilterKeepsAll` | src/context/AppContext.tsx:112-113 | a filter keeps the length exactly when every element passes, and then returns the list unchanged |
| `Shared.NatToStringRoundTrip` | src/context/AppContext.tsx:156 | a timestamp's decimal text reads back as that timestamp, so ids built from different timestamps differ |
| `Shared.NatToStringInjective` | src/components/CustomCategoryCreator.tsx:82 | two different timestamps never render to the same decimal text |
| `Catalog.FindById` | src/types/wrapped.ts:716-722 | returns nothing exactly when no subcategory has the id; otherwise returns the first one with the id |
| `Catalog.FindSubcategoryIsFirst` | src/types/wrapped.ts:716-722 | `getSubcategoryById` returns nothing exactly when the flattened catalog lacks the id; otherwise it returns the first match in catalog order |
| `Catalog.FindMainCategoryCorrect` | src/types/wrapped.ts:725-729 | `getMainCategoryBySubcategoryId` returns a main category that lists the id, and nothing exactly when none does |
| `Catalog.LookupsAgree` | src/types/wrapped.ts:716-729 | both lookups are defined on the same ids, and the subcategory found belongs to the main category found |
| `Catalog.FindMainById` | src/lib/achievements.ts:38-40 | the main category found by id is in the list and has that id; nothing is found exactly when no main category has it |
| `Catalog.FlattenIds` | src/types/wrapped.ts:711-713 | an id occurs in `CATEGORIES` exactly when some main category lists it |
| `Catalog.CategoryIdList` | src/types/wrapped.ts:58-713 | the ids of `CATEGORIES`, in order, are the ten main categories' id lists concatenated |
| `Catalog.CatalogWellFormed` | src/types/wrapped.ts:58-713 | 10 main categories, 45 subcategories, subcategory ids pairwise distinct across the catalog, field ids distinct within each subcategory |
| `Validation.CreateCardFormSchema` | src/lib/validation.ts:8-19 | the loop builds a shape whose keys are exactly the ids of text and textarea fields, each with the rule "string, length at least 1" |
| `Validation.SchemaOfKeys` | src/lib/validation.ts:11-16 | the schema function has the same keys and rules as the loop's shape |
| `Validation.ValidateCardForm` | src/lib/validation.ts:25-32 | true exactly when the form data passes the field schema: each text or textarea id maps to a string of length at least 1 |
| `Validation.OptionalFieldsIgnored` | src/lib/validation.ts:12-15 | inserting a number or image field anywhere never changes the result |
| `Validation.RequiredFlagIgnored` | src/lib/validation.ts:11-16 | the per-field `required` flag is never consulted |
| `Validation.ValueKinds` | src/lib/validation.ts:13 | a number value fails a text field, an empty string fails, and a whitespace-only string passes because nothing is trimmed |
| `Validation.UnnamedKeysIgnored` | src/lib/validation.ts:9-18 | an empty field list validates, and keys that name no text or textarea field do not matter |
| `Achievements.GetAchievementById` | src/context/AppContext.tsx:238-239 | the achievement found is in the catalog and has the id; nothing is found exactly when no achievement has the id |
| `Achievements.CheckAchievementCriteria` | src/lib/achievements.ts:18-96 | a criterion that is met is never of the custom kind |
| `Achievements.CardCountMet` | src/lib/achievements.ts:26-35 | `card_count` is met exactly when the number of distinct saved category ids reaches the target; progress is the distinct count capped at the target, out of the target; the text is `<distinct count>/<target> cards` |
| `Achievements.DuplicateCardsIgnored` | src/lib/achievements.ts:27 | saving another card for a category already saved changes no criterion's result |
| `Achievements.CategoryCompleteMet` | src/lib/achievements.ts:37-55 | `category_complete` is met exactly when every subcategory of the main category has a saved card; an unknown main category gives not met, progress 0 and "0/0" |
| `Achievements.SubcategoriesCompleteMet` | src/lib/achievements.ts:57-70 | `subcategories_complete` is met exactly when every listed id has a saved card |
| `Achievements.AllCategoriesCompleteMet` | src/lib/achievements.ts:72-87 | `all_categories_complete` is met exactly when every catalog subcategory has a saved card |
| `Achievements.EmptyRequirementMet` | src/lib/achievements.ts:63-66 | an empty `subcategories_complete` list is met, with progress 0 of 0 |
| `Achievements.CustomNeverMet` | src/lib/achievements.ts:89-91 | custom criteria always give not met, progress 0 and "Special" |
| `Achievements.IntersectionFull` | src/lib/achievements.ts:45-51 | the count of completed required ids reaches the total exactly when every required id is completed |
| `Achievements.GetAllAchievementProgress` | src/lib/achievements.ts:101-123 | one entry per catalog achievement, in catalog order; unlocked exactly when recorded as unlocked or met now; `unlockedAt` present exactly when recorded; progress and progress text are those of the criteria check |
| `Achievements.UnlockedAtFirstEntry` | src/lib/achievements.ts:106-108 | an entry's `unlockedAt` is the timestamp of the first recorded unlock of that achievement |
| `Achievements.FindUnlockedFirst` | src/lib/achievements.ts:106-108 | `find` over the unlocked entries returns the first entry recorded for the id |
| `Achievements.CheckForNewAchievements` | src/lib/achievements.ts:128-157 | the loop returns the specification list: one entry per qualifying achievement, in catalog order |
| `Achievements.NewlyMetMembers` | src/lib/achievements.ts:137-153 | an entry is reported exactly for each achievement that is not unlocked, not custom and met, stamped with the clock reading and the saved-card count |
| `Achievements.NewlyMetInOrder` | src/lib/achievements.ts:137 | reports follow catalog order: the report for two catalog parts is the first part's report followed by the second's |
| `Achievements.NewlyMetDistinct` | src/lib/achievements.ts:133-139 | with distinct catalog ids, no id is reported twice and no already-unlocked id is reported |
| `Achievements.CheckSpecialAchievements` | src/lib/achievements.ts:162-188 | "night-owl" exactly for hours 0-3 when not yet unlocked, "early-bird" exactly for hours 4-5 when not yet unlocked, otherwise nothing; never more than one entry |
| `Achievements.CheckPerfectionistAchievement` | src/lib/achievements.ts:193-216 | nothing once "perfectionist" is unlocked; otherwise an entry exactly when the count of non-empty values reaches the field count |
| `Achievements.PerfectionistOnce` | src/lib/achievements.ts:198-202 | after its entry is recorded, "perfectionist" is never reported again |
| `Achievements.SubcategoryTotalIsFlatten` | src/lib/achievements.ts:223-226 | the `reduce` sum of subcategory counts equals the length of the flattened catalog |
| `Achievements.RoundRatio` | src/lib/achievements.ts:231 | `Math.round(n / d)` is the nearest integer, with halves rounded up |
| `Achievements.GetCompletionStats` | src/lib/achievements.ts:221-233 | completed cards is the number of distinct saved ids, catalog or not; the total is 45; the percentage is the nearest integer to 100 × completed / 45 |
| `Store.InitialDefaults` | src/context/AppContext.tsx:66-91 | keys that are missing, empty or do not hold a document of their shape (no user name) give the defaults: empty list mirror, empty achievement state, empty name, no drafts |
| `Store.ReadSaved` | src/context/AppContext.tsx:76-82 | a missing key or an empty string reads as the empty list, a stored list reads as itself, anything else fails to parse |
| `Store.ReadDrafts` | src/context/AppContext.tsx:125 | a missing key or an empty string reads as the empty drafts object, a stored object reads as itself, anything else fails to parse |
| `Store.PrependCapped` | src/context/AppContext.tsx:169-175 | the new entry comes first, followed by the stored list in order; only the last entry is dropped, and only when the result exceeds 50 |
| `Store.PrependCappedBound` | src/context/AppContext.tsx:172-175 | a stored list of at most 50 stays at most 50 |
| `Store.PrependCappedOverfull` | src/context/AppContext.tsx:173-174 | a stored list already over 50 keeps its length, because only one entry is dropped |
| `Store.PrependCappedNewestFirst` | src/context/AppContext.tsx:170 | prepending an entry no older than the stored ones keeps the list newest first |
| `Store.FilterNewestFirst` | src/context/AppContext.tsx:112 | deletion and cleanup keep a newest-first list newest first |
| `Store.WithoutIdCorrect` | src/context/AppContext.tsx:203 | deleting removes exactly the entries with the id; an absent id leaves the list unchanged |
| `Store.KeepUnexpiredCorrect` | src/context/AppContext.tsx:111-113 | cleanup keeps exactly the entries younger than 30 days; nothing is removed when nothing has expired; a second cleanup at the same time removes nothing more |
| `Store.RecordKeepsConsistent` | src/context/AppContext.tsx:241-252 | recording a new id adds exactly its points, so the total stays the sum of the recorded points and ids stay distinct |
| `Store.Unseen` | src/context/AppContext.tsx:273-275 | exactly the recorded entries whose id has not been seen |
| `Store.UnseenInOrder` | src/context/AppContext.tsx:273-275 | the unseen entries keep their recorded order, each as often as it is recorded |
| `Store.AppStore.constructor` | src/context/AppContext.tsx:66-91 | each mirror starts from its key's read, or from its default |
| `Store.AppStore.SetUserName` | src/context/AppContext.tsx:93-100 | a successful write stores and mirrors the name; a failed write changes nothing |
| `Store.AppStore.CleanupExpiredWrappeds` | src/context/AppContext.tsx:107-120 | re-reads the list; writes and mirrors the unexpired entries only when something expired and the write succeeds; otherwise changes nothing |
| `Store.AppStore.GetDraft` | src/context/AppContext.tsx:133-140 | a draft is returned exactly when the drafts object reads and holds the id, and it is the stored draft |
| `Store.AppStore.NoDraftWithoutDrafts` | src/context/AppContext.tsx:133-140 | storage without a drafts object gives no draft for any category |
| `Store.AppStore.SaveDraft` | src/context/AppContext.tsx:123-131 | after a successful save the draft reads back as saved and every other draft is unchanged; an unreadable object or a failed write changes nothing |
| `Store.AppStore.ClearDraft` | src/context/AppContext.tsx:142-150 | removes only that draft; every other draft is unchanged |
| `Store.AppStore.SaveWrapped` | src/context/AppContext.tsx:153-194 | re-reads the stored list and writes the new entry plus the capped list; the mirror follows only a successful write; a failed write changes neither storage nor mirror; quota errors are told apart |
| `Store.AppStore.DeleteWrapped` | src/context/AppContext.tsx:200-209 | re-reads the stored list and writes and mirrors it without the entries carrying the id |
| `Store.AppStore.ClearAllWrappeds` | src/context/AppContext.tsx:211-218 | removes the key and empties the mirror; a failed removal changes nothing |
| `Store.AppStore.UnlockAchievement` | src/context/AppContext.tsx:233-256 | a recorded or unknown id changes nothing; otherwise one entry is appended and its points added; the mirror is set even if the write fails; the points invariant is kept |
| `Store.AppStore.MarkAchievementSeen` | src/context/AppContext.tsx:258-270 | an id already seen changes nothing; otherwise it is appended; afterwards no unseen entry has the id |
| `Store.AppStore.GetUnseenAchievements` | src/context/AppContext.tsx:272-276 | exactly the mirrored unlocked entries whose id is not in the seen list, in recorded order |
| `Navigation.SelectCategory` | src/pages/Index.tsx:25-28 | selecting or custom-saving opens the editor on that category and leaves the queue alone |
| `Navigation.BackToCategories` | src/pages/Index.tsx:30-34 | the selection is cleared, the queue emptied and the category view shown |
| `Navigation.ShowView` | src/pages/Index.tsx:36-44 | view-only handlers change the view and nothing else |
| `Navigation.QuickWrappedStart` | src/pages/Index.tsx:51-57 | a non-empty list opens its head in the editor and queues its tail; an empty list changes nothing |
| `Navigation.NextInQueue` | src/pages/Index.tsx:59-66 | a non-empty queue opens its head and drops it, view unchanged; an empty queue goes back to the categories |
| `Navigation.HandlersKeepSelection` | src/pages/Index.tsx:23-66 | no handler opens the editor without a selected category |
| `Navigation.QueueVisitsInOrder` | src/pages/Index.tsx:51-66 | after k presses of "next" in a run started on a list, the editor shows the k-th category with the later ones queued |
| `Navigation.QueueRunEnds` | src/pages/Index.tsx:59-66 | the press after the last queued category returns to the category view with nothing selected or queued |
| `Navigation.Navigator.constructor` | src/context/AppContext.tsx:61-63 | starts on the landing view, nothing selected, empty queue |
| `Navigation.Navigator.SetAppState` | src/pages/Index.tsx:23 | changes the view only |
| `Navigation.Navigator.HandleSelectCategory` | src/pages/Index.tsx:46-49 | the new state is the selection step of the old one |
| `Navigation.Navigator.HandleBackToCategories` | src/pages/Index.tsx:30-34 | the new state is the back-to-categories step |
| `Navigation.Navigator.HandleQuickWrappedStart` | src/pages/Index.tsx:51-57 | the new state is the quick-start step of the old one |
| `Navigation.Navigator.HandleNextInQueue` | src/pages/Index.tsx:59-66 | the new state is the next-in-queue step of the old one |
| `QuickSelector.ChosenSubcategories` | src/components/QuickWrappedSelector.tsx:38-41 | exactly the catalog subcategories whose ids are chosen |
| `QuickSelector.ChosenCount` | src/components/QuickWrappedSelector.tsx:69-71 | with distinct ids, the filter yields one subcategory per chosen id that the list contains |
| `QuickSelector.PopularIdsInCatalog` | src/components/QuickWrappedSelector.tsx:26-35 | 'highlights-2025' is not a catalog id, while every corrected popular id is one |
| `QuickSelector.PopularAsWrittenDropsOne` | src/components/QuickWrappedSelector.tsx:26-45 | as written, 8 popular ids show 7 subcategories, and the 5 initially selected ids start only 4 cards |
| `QuickSelector.PopularCorrected` | src/components/QuickWrappedSelector.tsx:26-45 | with 'highlights-2026', all 8 popular ids show and the 5 initial ids start 5 cards |
| `QuickSelector.Selector.constructor` | src/components/QuickWrappedSelector.tsx:43-45 | the initial selection is the first five (corrected) popular ids, five in all |
| `QuickSelector.Selector.ToggleSelection` | src/components/QuickWrappedSelector.tsx:47-60 | a selected id is removed; an unselected id is added below 10 and refused at 10; a selection of at most 10 stays at most 10 |
| `QuickSelector.Selector.HandleStart` | src/components/QuickWrappedSelector.tsx:68-73 | the selected catalog subcategories in catalog order, one per selected id the catalog has; unknown ids are dropped |
| `CustomCreator.Trim` | src/components/CustomCategoryCreator.tsx:70 | `String.trim`: a slice of the input with only white space cut off either end, and no white space at either end of the result |
| `CustomCreator.TrimEmptyIffBlank` | src/components/CustomCategoryCreator.tsx:70-75 | a string trims to nothing exactly when it is all white space |
| `CustomCreator.RemoveAt` | src/components/CustomCategoryCreator.tsx:60 | removes exactly the entry at the index and keeps the order; an index out of range removes nothing |
| `CustomCreator.ApplyUpdateOnlyItsKey` | src/components/CustomCategoryCreator.tsx:65 | an update changes only its own attribute of the field |
| `CustomCreator.SaveRefusals` | src/components/CustomCategoryCreator.tsx:69-79 | the save is refused for a blank title first, then when every label is blank, and accepted otherwise |
| `CustomCreator.SavedCategoryShape` | src/components/CustomCategoryCreator.tsx:81-94 | id starts 'custom-'; title trimmed; a blank description becomes 'Custom category'; only labelled fields, in order, labels untrimmed, types kept; a placeholder kept exactly when not empty; only the first is required |
| `CustomCreator.Creator.constructor` | src/components/CustomCategoryCreator.tsx:36-42 | an empty form with one empty text field 'field1' |
| `CustomCreator.Creator.AddField` | src/components/CustomCategoryCreator.tsx:44-53 | refused at 6 fields; otherwise appends one empty text field 'field<now>'; keeps 1 to 6 fields |
| `CustomCreator.Creator.RemoveField` | src/components/CustomCategoryCreator.tsx:55-61 | refused with one field left; otherwise removes the entry at the index; keeps 1 to 6 fields |
| `CustomCreator.Creator.UpdateField` | src/components/CustomCategoryCreator.tsx:63-67 | rewrites one attribute of field i; every other field is unchanged |
| `CustomCreator.Creator.HandleSave` | src/components/CustomCategoryCreator.tsx:69-98 | the save result for the form's current values; refused exactly when the title is blank or no label is filled |
| `AchievementsPage.FilteredProgressCorrect` | src/components/AchievementsPage.tsx:38-45 | the 'all' tab keeps exactly the entries that are not hidden or are unlocked; a category tab keeps exactly those of its category; either way the result is the progress list with entries left out, in order |
| `Shared.FilterSubsequence` | src/components/AchievementsPage.tsx:38-45 | a filtered list is a subsequence of its input |
| `AchievementsPage.UnlockedCountAdds` | src/components/AchievementsPage.tsx:47 | `unlockedCount` counts each unlocked entry once: additive over a split list, one for an unlocked entry and zero otherwise |
| `AchievementsPage.VisibleTotalAdds` | src/components/AchievementsPage.tsx:48 | `visibleTotal` counts each achievement that is not hidden once: additive over a split list, one for a visible achievement and zero for a hidden one |
| `AchievementsPage.UnlockedCanExceedVisible` | src/components/AchievementsPage.tsx:47-48 | one hidden achievement, unlocked, gives 1 unlocked out of 0 visible |
| `CategoryBrowser.Toggled` | src/components/CategoryBrowser.tsx:36-46 | a present id is removed, an absent id is added, other ids are untouched |
| `CategoryBrowser.ToggleTwice` | src/components/CategoryBrowser.tsx:36-46 | toggling the same id twice restores the set |
| `CategoryBrowser.Browser.constructor` | src/components/CategoryBrowser.tsx:33 | the expanded set starts as exactly {'people'} |
| `CategoryBrowser.Browser.ToggleCategory` | src/components/CategoryBrowser.tsx:36-46 | the new set is the toggled old set |
| `CardStack.RotatedIsPermutation` | src/components/ui/CardStack.tsx:21-25 | a tick keeps the length and the multiset of cards |
| `CardStack.RotatedTimesShape` | src/components/ui/CardStack.tsx:20-26 | after k ticks the last k cards lead, in order, followed by the rest |
| `CardStack.FullTurnRestores` | src/components/ui/CardStack.tsx:9-26 | as many ticks as there are cards restore the order; three ticks restore the three initial cards |
| `CardStack.Stack.constructor` | src/components/ui/CardStack.tsx:9-16 | the stack holds the three initial cards |
| `CardStack.Stack.Step` | src/components/ui/CardStack.tsx:20-26 | the array after a tick is the rotated old array: last card first, the others shifted right; an empty array is unchanged |

## Findings

| source | as written | input that shows it | evidently intended | confidence | as-written member | corrected member |
|---|---|---|---|---|---|---|
| src/components/QuickWrappedSelector.tsx:31 | the popular list names 'highlights-2025', which no subcategory has (the catalog's "Highlights of 2026" is 'highlights-2026', src/types/wrapped.ts:447-448) | the initial selection: 5 ids are selected but starting opens 4 cards, and the popular grid shows 7 of 8 ids | 'highlights-2026', so all 8 popular subcategories show and the initial run opens 5 cards; but src/components/WrappedCardPreview.tsx:247 also keys on 'highlights-2025', so the catalog id may instead be the stale one | high (not executed) | `QuickSelector.PopularAsWrittenDropsOne` | `QuickSelector.PopularCorrected` |

## Left out

- Rendering, animation, toasts and `confirm()`, image conversion, sharing and downloads are not modelled. The components that only render are not part of this model.
- Floating-point progress is not modelled. Each progress value is an exact pair (completed, total); the percentage would be `completed / total × 100`. A zero total, which gives NaN or Infinity in the application, is kept as the pair (0, 0).
- The 4 MB storage-size warning in `saveWrapped` is left out. It measures the byte size of serialised JSON and only shows a toast.
- JSON text is not modelled. A key holds a parsed document of the expected shape, or raw text. Raw text that is not empty stands for text that does not parse. A document of another shape is treated like text that does not parse.
- A storage read that throws is not modelled separately. It ends in the same `catch` as text that does not parse.
- Store.InitialUserName: a user-name key holding a JSON document reads as the empty name. The application can only write raw text there.
- `getSavedWrappeds` and `getAchievementState` only return a mirror, so they have no separate member. The mirrors are the fields of `Store.AppStore`.
- Achievements.CheckAchievementCriteria: the `default` branch is left out. It cannot be reached with the five criteria kinds. The third argument is unused, as in the application.
- The achievement catalog, its points total and the rarity style lookups are not part of this model. The catalog is a parameter.
- Achievements.CheckAchievementCriteria and the functions that call it take the main categories as a parameter `mains`. The application always passes its static catalog.
- Achievements.GetCompletionStats: the percentage is computed exactly. No fraction with denominator 45 is exactly halfway between two integers, so `Math.round` of the float gives the same value.
- The random picks `handleRandomPick` and `selectRandom` are left out. They depend on `Math.random`.
- The title, description, icon and gradient setters of the custom editor are plain assignments and are not modelled as methods.
- CustomCreator.Creator.UpdateField: only the three keys the editor passes (label, type, placeholder) are modelled. The index must be in range, as it always is for a rendered field.
- The trim in `CustomCreator.Trim` covers the white-space and line-terminator characters of the ECMAScript `trim`.
- QuickSelector.Selector.constructor: starts from the corrected popular list ('highlights-2026'), not the list as written ('highlights-2025'), following the finding above; the as-written list is `QuickSelector.PopularSubcategoryIdsAsWritten`, and `QuickSelector.PopularAsWrittenDropsOne` states what the as-written start selects.
- Store.AppStore.SaveWrapped: one clock reading `now` stands for the two separate `Date.now()` calls that give the id and `createdAt`, which can differ by a millisecond in the application.
- React state batching and re-rendering are not modelled. Each setter is an immediate assignment.
