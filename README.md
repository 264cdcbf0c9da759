# Zoho-round practice browser: data layer in Dafny

This project models the data layer of a static, client-side practice-question
browser. The app shows coding questions grouped by dataset category
(`c-programming`, `zoho-dsa`, `lld`, `zoho-docs`). Users can filter and search
them, mark each question's status and bookmark, and see per-category counts.
The model covers three parts:

- **The progress store** (`ProgressTracker`, `js/progress.js`). It holds a
  nested map `category -> questionId -> {status, bookmarked}`. An absent entry
  reads as `{unsolved, false}`. Entries are created lazily by the first
  mutation. Every mutation is followed by a save to the storage slot.
  Module `ProgressStore` has value-level functions (`WithStatus`,
  `WithToggledBookmark`, `Cleared`, `Lookup`) and the class `ProgressTracker`.
  The class's methods update the field `progress` in place, step by step as
  the source does, and their `ensures` tie the new map to those functions.
- **The page filter** (`SearchFilter`, `js/search.js:3-97`). Module
  `QuestionSearch` holds a base list, a four-axis filter specification and a
  derived view. `allQuestions` and `filteredQuestions` are `array`s, which
  keeps the source's aliasing: after `SetQuestions` both fields are the same
  array, so a sort before any filter also reorders the base list (and the
  page's `questions`). `SortQuestions`' contract states this. Every
  `applyFilters` scans the whole base list and allocates a new view array.
- **The global search** (`js/search.js:100-142`). Module `GlobalSearch` is a
  pure function over the four already-loaded lists. It tags them, joins them
  in the order C, DSA, LLD, docs, and filters them.
- **Page wiring** (`js/main.js`). Module `QuestionPage` holds the status cycle
  table, the status label, how the statistics total is chosen, `cycleStatus`,
  and `QuestionManager`'s `filterQuestions` / `updateStats`.

Models of foreign behaviour:

- `toLowerCase` is modelled as ASCII lower-casing (`Text.Lower`), which is
  idempotent.
- `String.prototype.includes` is `Text.Includes`. It is proved equal to the
  positional definition of a substring.
- The emptiness test `term.trim() == ""` is proved equivalent to
  `Text.TrimsToEmpty`: every character is an ECMAScript WhiteSpace or
  LineTerminator code point.
- `localeCompare` is a parameter `localeLeq(x, y)`, read as
  "`x.localeCompare(y) <= 0`". The ordering results assume only that it is a
  total preorder.
- `Array.prototype.sort` must be stable (ECMAScript 2019 and later). It is
  modelled by the insertion sort `Sequences.SortBy`, whose stability is proved
  (`Sequences.SortByStable`).
- `s.trim()` is `Text.Trim`, which removes the leading and trailing
  characters `Text.IsTrimmable` accepts.
- The ambient `CATEGORY` global and the `progressTracker` singleton are
  explicit parameters (`page: Option<string>`, `store`). `page == None` is the
  case where `typeof CATEGORY === 'undefined'`, which makes the bookmark axis
  inert.
- Persistence is the field `saved: Option<Progress>` (the local-storage slot).
  `SaveProgress` sets it to the current map. The constructor's argument is
  the parsed slot. `None` means absent or empty, and both load the four empty
  categories.
- `importProgress` takes the parse outcome, `None` for a parse error.

Behaviour of the source the model keeps:

- The global search does not match the term against the display category
  label (`js/search.js:132-136`), while the page filter does
  (`js/search.js:30`).
- The global search uses the untrimmed term. Only the "run a query at all"
  guard trims it.
- `setQuestions` does not copy (the aliasing above).
- `clearProgress('')` resets every category, because `''` is false in
  JavaScript.
- A configured total of `0` falls back to the number of loaded questions,
  because `updateStats` uses `||`.
- The configured totals differ between the two tables: `updateStats` uses 10
  for `zoho-docs` (`js/main.js:178`), while the progress bars use 106
  (`js/progress.js:75`). `UpdateStats` takes the totals as a parameter.
  `QuestionPage.PageTotals` records the `updateStats` table.

`Status` has a fourth constructor, `Unrecognised`. It stands for any stored
value other than the three names, for example an entry from an imported file,
or `undefined`, which the status table gives for a value outside it. This is
what gives `getStatusIcon`'s default arm and the statistics' exclusion rule
something to say.

## Model

| member | source | states |
|---|---|---|
| Text.LowerIdempotent | js/search.js:24-30 | lower-casing twice equals lower-casing once |
| Text.Lower | js/search.js:24-30 | the result has the input's length, each character lower-cased (ASCII capitals to small letters, everything else kept), and no capital letter remains |
| Text.Includes | js/search.js:26-30 | a needle that is a prefix of the hay is found (the empty needle always is), and a found needle is no longer than the hay; `IncludesIff` gives the exact meaning |
| Text.TrimStart | js/search.js:104 | a suffix of the input with only trimmable characters removed before it, and starting with a kept character when non-empty |
| Text.TrimEnd | js/search.js:104 | a prefix of the input with only trimmable characters removed after it, and ending with a kept character when non-empty |
| Text.Trim | js/search.js:104 | `trim()` is empty exactly when every character is trimmable (`TrimsToEmpty`); otherwise it starts and ends with a kept character; it is always a substring of the input |
| Text.IncludesIff | js/search.js:26-30 | `includes(hay, needle)` holds iff the needle occurs at some position of the hay |
| Sequences.Filter | js/search.js:21-53 | the result is no longer than the input and every element of it is accepted; the lemmas below give order and membership |
| Sequences.FilterNone | js/search.js:21-53 | when no element is accepted the result is empty |
| Sequences.FilterAppend | js/search.js:21-53 | filtering a concatenation is the concatenation of the filtered parts, in the same order |
| Sequences.FilterIsSubsequence | js/search.js:21-53 | a filter result is an order-preserving subsequence of its input |
| Sequences.FilterMembership | js/search.js:21-53 | an element is in a filter result iff it is in the input and accepted |
| Sequences.FilterKeepsAll | js/search.js:21-53 | when every element is accepted the filter returns its input unchanged |
| Sequences.InsertBy | js/search.js:77-89 | one insertion step lengthens the sequence by one |
| Sequences.SortBy | js/search.js:77-89 | the sort keeps the length; `SortByPermutes`, `SortBySorted` and `SortByStable` give its meaning |
| Sequences.InsertByPermutes | js/search.js:77-89 | one insertion step adds exactly the inserted element |
| Sequences.InsertBySorted | js/search.js:77-89 | under a total preorder, inserting into a sorted sequence keeps it sorted |
| Sequences.SortByPermutes | js/search.js:77-89 | the sort result is a permutation of its input |
| Sequences.SortBySorted | js/search.js:77-89 | under a total preorder, every earlier element of the sort result is ordered before every later one |
| Sequences.InsertByAfterTies | js/search.js:77-89 | inserting into a sorted sequence places the new element after every element tied with it |
| Sequences.SortByStable | js/search.js:77-89 | under a total preorder, elements that are pairwise tied appear in the result in their input order |
| ProgressStore.Lookup | js/progress.js:23-25 | the stored entry when the category and the id are both present, otherwise `{unsolved, false}` |
| ProgressStore.LoadProgress | js/progress.js:9-17 | with nothing saved: exactly the four dataset categories, each with no entries; otherwise the saved state |
| ProgressStore.WithStatus | js/progress.js:27-37 | the entry gets the new status and keeps its bookmark (false if just created); it and its category are created if absent; every other (category, id) reads as before and other categories are identical |
| ProgressStore.WithToggledBookmark | js/progress.js:39-49 | the bookmark flips, the status is kept, the entry is created if absent, and nothing else changes |
| ProgressStore.Cleared | js/progress.js:127-137 | a named category becomes empty and the others stay identical; a missing or empty name resets to the four empty categories |
| ProgressStore.HavingStatusStep | js/progress.js:60-63 | examining one more entry adds one to a count exactly when its status matches |
| ProgressStore.NothingSavedReadsDefault | js/progress.js:9-25 | with nothing saved, every (category, id) reads as `{unsolved, false}` |
| ProgressStore.SetStatusOverwrites | js/progress.js:27-37 | a second status write to the same question overwrites the first (the stores are equal) |
| ProgressStore.ToggleTwiceRestores | js/progress.js:39-49 | two toggles restore every read of the store |
| ProgressStore.ClearOneCategory | js/progress.js:128-129 | after clearing a category all its questions read as default; other categories' reads are unchanged |
| ProgressStore.StatsWithinEntries | js/progress.js:55-66 | solved plus attempted never exceeds the number of entries of the category |
| ProgressStore.SubsetCardinality | js/progress.js:60-63 | a subset of the entry ids is no larger than the whole set |
| ProgressStore.ProgressTracker.constructor | js/progress.js:4-7 | the state is `loadProgress` of the stored slot |
| ProgressStore.ProgressTracker.SaveProgress | js/progress.js:19-21 | the slot holds the current state, which is unchanged |
| ProgressStore.ProgressTracker.GetQuestionStatus | js/progress.js:23-25 | the stored entry if present, otherwise `{unsolved, false}`; total |
| ProgressStore.ProgressTracker.SetQuestionStatus | js/progress.js:27-37 | the new state is `WithStatus` of the old one, and it is saved |
| ProgressStore.ProgressTracker.ToggleBookmark | js/progress.js:39-49 | returns the new flag, which is the negation of the previous `isBookmarked`; the new state is `WithToggledBookmark` of the old one, and it is saved |
| ProgressStore.ProgressTracker.IsBookmarked | js/progress.js:51-53 | equals the bookmark of `getQuestionStatus`; false for an untouched question |
| ProgressStore.ProgressTracker.GetCategoryStats | js/progress.js:55-66 | `solved` is the number of entries with status solved, `attempted` the number with status attempted, their sum is at most the entry count, and `total` is passed through |
| ProgressStore.ProgressTracker.GetBookmarkedQuestions | js/progress.js:99-102 | exactly the bookmarked ids of the category, each once; empty for an absent category |
| ProgressStore.ProgressTracker.ImportProgress | js/progress.js:115-125 | a failed parse changes nothing; a successful one replaces the state wholly and saves it |
| ProgressStore.ProgressTracker.ClearProgress | js/progress.js:127-140 | the new state is `Cleared` of the old one, and it is saved |
| QuestionSearch.DifficultyRank | js/search.js:76 | rank 1 exactly for Easy, 2 exactly for Medium, 3 exactly for Hard, so Easy sorts before Medium and Medium before Hard |
| QuestionSearch.Updated | js/search.js:58-59 | `updateFilter` writes the named axis and leaves the other three unchanged |
| QuestionSearch.UpdatesCommute | js/search.js:58-61 | updates of different axes commute |
| QuestionSearch.AllAxesDetermineSpec | js/main.js:109-112 | writing the four axes in turn gives `{search, difficulty, category, bookmarked}`, whatever the specification was before |
| QuestionSearch.SearchMatches | js/search.js:23-33 | an empty term accepts every question; a term found in the title, description, a tag, a company or the category label (lower-cased) is accepted |
| QuestionSearch.Matches | js/search.js:21-53 | with no filters every question passes; a question that passes meets the search axis, has the chosen difficulty and category when those are set, and is bookmarked under the page's category when that axis is on and the page has one |
| QuestionSearch.SearchIgnoresCase | js/search.js:24-30 | lower-casing the search term beforehand does not change which questions match |
| QuestionSearch.SearchMatchesIff | js/search.js:23-33 | with a non-empty term, a question passes the search axis iff the lower-cased term is a substring of the lower-cased title, description, some tag, some company or the category label |
| QuestionSearch.FilterViewProperties | js/search.js:20-56 | the view is an order-preserving subsequence of the base list; a question is in it iff it passes every active axis (difficulty equal, category equal, bookmarked under the page's category when that axis is on and the page has one) |
| QuestionSearch.NoFiltersKeepsAll | js/search.js:63-71 | with all axes cleared the view is the whole base list in its original order |
| QuestionSearch.SortOrder | js/search.js:74-94 | there is an ordering exactly for `difficulty`, `title` and `category`; it compares the difficulty rank, or `localeCompare` of the title, or of the category label |
| QuestionSearch.SortView | js/search.js:73-96 | the view keeps its length and its elements (a permutation); any other key leaves it as it was |
| QuestionSearch.SortViewStable | js/search.js:77-89 | questions of one difficulty, or with one title or one category label, keep their relative order when sorted by that key |
| QuestionSearch.SortViewProperties | js/search.js:73-96 | sorting permutes the view; by difficulty ranks are non-decreasing; by title or category keys are ordered by the comparator; any other key leaves the view unchanged |
| QuestionSearch.KeyedOrderIsTotalPreorder | js/search.js:81-90 | comparing questions by `localeCompare` of one field is a total preorder when `localeCompare` is |
| QuestionSearch.SearchFilter.constructor | js/search.js:4-13 | two distinct empty lists and no filters |
| QuestionSearch.SearchFilter.SetQuestions | js/search.js:15-18 | both the base list and the view become the given array itself; filters are kept |
| QuestionSearch.SearchFilter.ApplyFilters | js/search.js:20-56 | the view is a new array equal to the filter of the whole base list under the current specification; base list and specification are unchanged |
| QuestionSearch.SearchFilter.UpdateFilter | js/search.js:58-61 | the specification changes on one axis and the view is recomputed from the base list |
| QuestionSearch.SearchFilter.ResetFilters | js/search.js:63-71 | all axes cleared and the view equals the base list, in order |
| QuestionSearch.SearchFilter.SortQuestions | js/search.js:73-96 | the view array is reordered in place to `SortView` by the key (a permutation, stable by `SortViewStable`); the base list changes too exactly when it is the same array |
| GlobalSearch.WithSource | js/search.js:123-126 | each question of a list is tagged with the list's `source` and `sourceName`, order and length kept |
| GlobalSearch.Combined | js/search.js:122-127 | the joined list holds every C question, then every DSA, then every LLD, then every docs question, each at its position and with its dataset's tag |
| GlobalSearch.GlobalMatches | js/search.js:130-141 | no term, difficulty or category accepts every question; a match also passes the page filter's search axis, and has the chosen difficulty and category when those are set |
| GlobalSearch.PerformGlobalSearch | js/search.js:100-142 | no query when the trimmed term, the difficulty and the category are all empty; otherwise the matches of C, then DSA, then LLD, then docs |
| GlobalSearch.GlobalSearchProperties | js/search.js:122-142 | the result is an order-preserving subsequence of the tagged concatenation; an entry is in it iff it passes the global filter; each entry carries its own list's tag |
| GlobalSearch.TaggedOrigin | js/search.js:123-126 | an entry of a tagged list holds a question of that list and that list's tag |
| GlobalSearch.SearchAxesDiffer | js/search.js:130-136 | the page filter's search axis equals the global one plus a match on the category label |
| GlobalSearch.CategoryLabelIgnoredExample | js/search.js:130-136 | a question filed under "Trees" passes the page filter's search for "tree" but not the global search's |
| QuestionPage.NextStatus | js/main.js:306-307 | unsolved goes to attempted, attempted to solved, solved to unsolved, and each successor comes from exactly that status; any other value has none |
| QuestionPage.NextStatusCycle | js/main.js:306-307 | unsolved, attempted, solved form one cycle of length three; three steps are the identity |
| QuestionPage.StatusIcon | js/main.js:165-171 | the solved label iff solved, the attempted label iff attempted, the unsolved label for every other value |
| QuestionPage.SelectTotal | js/main.js:174-181 | the configured total for a category that has a non-zero one, otherwise the number of loaded questions |
| QuestionPage.CycleStatus | js/main.js:303-309 | the question's status becomes the successor of its previous one, its bookmark is kept, every other question reads as before, and the store is saved |
| QuestionPage.QuestionManager.constructor | js/main.js:39-45 | the page's category, no questions, a fresh filter with no filters set |
| QuestionPage.QuestionManager.LoadQuestions | js/main.js:56-58 | the page's list, the filter's base list and its view are the loaded array |
| QuestionPage.QuestionManager.FilterQuestions | js/main.js:103-112 | the specification becomes exactly the four given values and the view is the filter of the base list under it, whatever the earlier specification |
| QuestionPage.QuestionManager.UpdateStats | js/main.js:173-182 | the total is the selected total, and solved/attempted are the store's counts for the page's category |

## Left out

- DOM rendering and event wiring are not modelled. This covers
  `renderQuestions`, `renderQuestionCard`, `showQuestionDetail`,
  `setupModal`, `showError`, `setupEventListeners`, the button text and class
  updates in `toggleBookmark`/`cycleStatus`, the text updates in
  `updateStats`, the search-result HTML, and the `<option>` population of the
  index page.
- `ThemeManager` is not modelled: it is local storage plus a DOM attribute.
- `updateCategoryProgress` is not modelled: it is a floating-point percentage
  and DOM styling.
- `fetch`/`async` loading is not modelled, nor is its `Promise.all` failure
  behaviour. The loaded lists are inputs (`LoadQuestions`,
  `PerformGlobalSearch`). A load that fails is not modelled.
- `localStorage` and `JSON.parse`/`JSON.stringify` are replaced by the
  `saved` field and `Option`-valued parse outcomes. The model does not
  capture a stored blob that fails to parse at start-up (the source throws
  there), or imported JSON outside the `{category: {id: {status,
  bookmarked}}}` shape.
- `exportProgress` and `location.reload()` are not modelled: they are browser
  I/O.
- Question fields that only the UI shows are not part of the model: hints,
  complexities and practice links.
- `ProgressStore.ProgressTracker.GetBookmarkedQuestions`: does not model the
  order of the returned ids. `Object.keys` order depends on JavaScript's
  property-ordering rules, which a Dafny `map` does not have. Only the
  contents and the absence of duplicates are stated.
- Unicode case mapping beyond ASCII is not modelled. Neither is locale-aware
  ordering; `localeCompare` is an abstract parameter.
- A difficulty label outside Easy, Medium and Hard is not modelled, so the
  sort comparator's `undefined` ranks do not arise. Difficulties are an
  enumeration.
- Storage writes are taken to succeed. In the source a `setItem` failure
  (a full quota) at `js/progress.js:20` throws after the in-memory change has
  been made; the model's `saved` field is always updated.
- Default arguments are passed explicitly: `sortBy = 'id'`
  (`js/search.js:73`) is the other-key case of `SortView`, and
  `difficulty = ''`, `category = ''` (`js/search.js:100`) are the empty axes
  of `PerformGlobalSearch`.
