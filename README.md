# Travel checklist — a Dafny model

This project models the logic of an offline travel checklist web application.

**Data and import.** The checklist is a list of places to visit, things to buy and dishes to taste, grouped by city. The items come from a bundled spreadsheet:
- On first load they are synced once into a local browser database (a Dexie/IndexedDB `items` table keyed by id, plus an `app-settings` record).
- Users then mark items visited/purchased/tasted, set a priority, rate them with stars and write notes.
- An admin screen adds and edits custom entries.
- A server route writes the items back into the bundled spreadsheet.

**What is modelled, one module per source file:**
- the item record and its closed enumerations (`Types`);
- the spreadsheet row importer and the download exporter (`ExcelParser`);
- the local database (`Db`, a class over a `map` from id to item and an optional settings record);
- the first-load sync and the two re-import strategies (`DataSync`);
- the hooks the screens read through (`UseItems`);
- the admin add/edit screen (`AdminPage`) and the admin list (`AdminManage`);
- the export route (`ExportRoute`);
- the small state transitions of the UI components (`ItemCard`, `PriorityBadge`, `StarRating`, `FilterSortPanel`, `ActiveFilters`, `UserNotes`, `AppStore`).

**Support modules.** `Text` models the JavaScript string operations the code relies on: `toLowerCase`, `trim`, `includes`, default string order, and `[...new Set(s)].sort()`. `Seqs` models `Array.prototype.filter` and an index-aware `map`.

**Inputs.** Generated ids and clock readings are parameters:
- `newId: nat -> string` is the k-th generated id;
- `now: Time` is the clock;
- a workbook arrives as `Result<seq<Row>>`, a failure to fetch or decode it being `Err`.

**Form of the model.**
- Code that changes state step by step is imperative Dafny: the database class, the parser's row loop, the summaries' grouping loop, the admin form, the notes box and the UI store.
- Each such method is proved against a specification function: `ParsedItems`, `Sync`, `Reimport`, `SummaryFor`, `AddAll`, `ApplyPatch`, `MergeFilters`, and so on.
- The lemmas state what the source promises about those functions.

## Model

| member | source | states |
|---|---|---|
| Types.CategoryFromName | types/index.ts:3 | a category string read back names a category whose string value it is |
| Types.CategoryNameRoundTrip | types/index.ts:3 | every category's string value reads back as that category |
| Types.StatusFromName | types/index.ts:5 | a status string read back names a status whose string value it is |
| Types.StatusNameRoundTrip | types/index.ts:5 | every status's string value reads back as that status |
| Types.CompletedStatus | components/ItemCard.tsx:31-33 | each category's completed status is a completed status |
| Text.Trim | lib/excel-parser.ts:88-92 | `trim` leaves no whitespace at either end |
| Text.SortedDistinct | lib/db.ts:90-91 | `[...new Set(s)].sort()` is strictly ascending and has exactly the elements of `s` |
| ExcelParser.MapCategoryIgnoresCase | lib/excel-parser.ts:22-35 | mapCategory gives the same category for a string and its lower case |
| ExcelParser.MapCategoryIgnoresSurroundingWhitespace | lib/excel-parser.ts:22-35 | mapCategory gives the same category for a string and its trimmed form |
| ExcelParser.MapCategoryKeywordOrder | lib/excel-parser.ts:25-34 | shopping iff 'shop' occurs and neither 'place' nor 'visit' does; food iff only 'food' occurs among the keywords; places otherwise (the default) |
| ExcelParser.MapCategoryOfName | lib/excel-parser.ts:22-35 | each category's own name maps back to that category |
| ExcelParser.DetectSubcategory | lib/excel-parser.ts:41-60 | the result is null or one of 'abaya-thobe', 'historical', 'modern' |
| ExcelParser.DetectSubcategoryKeywordOrder | lib/excel-parser.ts:41-60 | 'abaya-thobe' iff abaya or thobe occurs in the lower-cased `name details`; 'historical' iff neither does and historical or history does; 'modern' iff none of those does and modern does; null iff no keyword occurs |
| ExcelParser.KeywordInEitherField | lib/excel-parser.ts:42 | a keyword found in the lower-cased name or in the lower-cased details is found in the combined text |
| ExcelParser.AbayaThobeInEitherField | lib/excel-parser.ts:42-47 | abaya or thobe, in any letter case, in either field gives 'abaya-thobe' whatever else the text holds |
| ExcelParser.DetectSubcategoryIgnoresCase | lib/excel-parser.ts:42 | detectSubcategory does not depend on letter case in name or details |
| ExcelParser.ParseRows | lib/excel-parser.ts:79-119 | the row loop returns exactly `ParsedItems` of the rows |
| ExcelParser.ParseExcelFile | lib/excel-parser.ts:65-126 | a failed fetch or decode gives 'Failed to parse Excel file'; otherwise the parsed items of the sheet |
| ExcelParser.ParseExcelFileFromUpload | lib/excel-parser.ts:131-192 | a read error gives 'Failed to read file', a decode error its own message, otherwise the same items as parseExcelFile on the same rows |
| ExcelParser.HeaderIgnored | lib/excel-parser.ts:82 | replacing row 0 never changes the result |
| ExcelParser.ParsedCountBound | lib/excel-parser.ts:82 | at most one item per data row (at most rows − 1); no rows give no items |
| ExcelParser.ParseAppendRow | lib/excel-parser.ts:80-118 | a further row adds exactly one item when it is kept, and nothing otherwise. Kept means the first cell is truthy and the trimmed city and name are non-empty. The new item comes last and is numbered next. |
| ExcelParser.RowToItemWellFormed | lib/excel-parser.ts:86-116 | a kept row gives trimmed non-empty city and name, the given id and order, status pending, null priority and rating, empty notes, not admin-added, not pinned |
| ExcelParser.ParsedItemsWellFormed | lib/excel-parser.ts:88-113 | every parsed item k has sort order k and the k-th id, trimmed non-empty city and name, and default user fields |
| ExcelParser.ParsedItemId | lib/excel-parser.ts:101 | the item at position k carries the k-th generated id |
| ExcelParser.ExportRows | lib/excel-parser.ts:199-212 | one export record per item, in order |
| ExcelParser.ExportRowFaithful | lib/excel-parser.ts:199-212 | two items with the same export record agree on every exported field; null and '' subcategory are not told apart |
| Db.SnapshotUnique | lib/db.ts:89 | a table has a single `toArray()` listing |
| Db.SnapshotSize | lib/db.ts:89 | the listing has one element per record |
| Db.SnapshotMembers | lib/db.ts:89 | the listing holds exactly the table's records |
| Db.InsertByOrder | lib/db.ts:104 | inserting keeps the list sorted by sortOrder and adds exactly that item |
| Db.SortBySortOrder | lib/db.ts:104 | `sortBy('sortOrder')` is sorted by sortOrder and a permutation of its input |
| Db.SortBySortOrderStable | lib/db.ts:101-104 | sorting an id-ordered listing is stable: ties stay in id order |
| Db.PatchSettings | lib/db.ts:74-76 | an update never changes the settings record's id |
| Db.PatchSettingsLaws | lib/db.ts:74-76 | an empty update changes nothing; applying an update twice equals applying it once |
| Db.Initialized | lib/db.ts:39-57 | after initialisation a record exists; an existing record is kept as it is |
| Db.InitializedLaws | lib/db.ts:39-57 | initialising twice is initialising once whatever the clock says; the defaults are PIN '1234', theme 'auto', manual sort for all three categories |
| Db.ApplyPatch | lib/db.ts:117-122 | an update keeps the id and stamps updatedAt |
| Db.ApplyPatchLaws | lib/db.ts:117-122 | an empty update only stamps the time; two updates are one merged update where the later fields win |
| Db.Unpinned | lib/db.ts:24-29 | the upgrade keeps every key, sets isPinned false, and changes no other field |
| Db.UnpinnedLaws | lib/db.ts:24-29 | the upgrade keeps every record under its id and is idempotent |
| Db.Failures | lib/data-sync.ts:34 | bulkAdd rejects at most the whole batch |
| Db.AddAllKeeps | lib/data-sync.ts:34 | bulkAdd keeps the table keyed by id and never changes an existing record |
| Db.AddAllFresh | lib/data-sync.ts:34 | a batch of new distinct ids is added whole, with no failure, and the keys grow by exactly its ids |
| Db.AddAllFreshValues | lib/data-sync.ts:34 | each record of a fresh batch is stored as given, and old records are unchanged |
| Db.AddAllTwice | lib/data-sync.ts:34 | a second bulkAdd of the same batch changes nothing and fails on every record |
| Db.AddAllGrows | lib/data-sync.ts:34 | bulkAdd only adds keys, and every batch id is present afterwards |
| Db.AddAllAllPresent | lib/data-sync.ts:34 | when every batch id is present, bulkAdd changes nothing and fails on every record |
| Db.TravelDb.constructor | lib/db.ts:11-18 | a new database is empty with no settings |
| Db.TravelDb.UpgradeToV2 | lib/db.ts:20-29 | the items become `Unpinned(old items)`; the settings are unchanged |
| Db.TravelDb.InitializeSettings | lib/db.ts:39-57 | the settings become `Initialized(old settings, now)`; the items are unchanged |
| Db.TravelDb.GetSettings | lib/db.ts:62-69 | always returns a record, the one stored afterwards, creating the defaults first if absent |
| Db.TravelDb.UpdateSettings | lib/db.ts:74-76 | the stored record is patched; without a record nothing happens |
| Db.TravelDb.SortedKeys | lib/db.ts:89 | the keys in ascending order, each once |
| Db.TravelDb.ToArray | lib/db.ts:89 | returns the table's listing in id order |
| Db.TravelDb.GetItemsByCity | lib/db.ts:81-83 | exactly the records of that city, in id order |
| Db.TravelDb.SortedQuery | lib/db.ts:101-104 | exactly the records satisfying the query, sorted by sortOrder with ties in id order |
| Db.TravelDb.GetItemsByCityAndCategory | lib/db.ts:97-105 | exactly the records matching both city and category, ordered by sortOrder |
| Db.TravelDb.GetCities | lib/db.ts:88-92 | every city of some record exactly once, ascending |
| Db.TravelDb.AddItem | lib/db.ts:110-112 | an existing id fails with a constraint error and changes nothing; otherwise the item is stored under its id and the id returned |
| Db.TravelDb.UpdateItem | lib/db.ts:117-122 | only that record changes, to `ApplyPatch` of it; a missing id changes nothing |
| Db.TravelDb.DeleteItem | lib/db.ts:127-129 | removes that id only |
| Db.TravelDb.ClearAllItems | lib/db.ts:134-136 | the items table becomes empty; the settings stay |
| Db.TravelDb.GetItemCount | lib/db.ts:141-143 | the table size; zero exactly when the table is empty |
| Db.TravelDb.BulkAdd | lib/data-sync.ts:34 | the table becomes `AddAll(old, batch)`; the result is success with the batch size exactly when no record is rejected |
| DataSync.NeedsInitialSync | lib/data-sync.ts:8-11 | true iff the items table is empty |
| DataSync.SyncDataFromExcel | lib/data-sync.ts:17-51 | the result and the new state are `Sync` of the old state: a non-empty table is reported and left alone; a parse failure, or no items, fails and changes nothing; otherwise bulkAdd, initialise the settings, and stamp lastSync |
| DataSync.ParsedFresh | lib/data-sync.ts:27-34 | with a never-repeating id source the parsed items form a fresh batch |
| DataSync.FirstSyncAddsParsed | lib/data-sync.ts:34-42 | a first sync stores exactly the parsed items, reports their number, and sets lastSync to the sync time |
| DataSync.SyncIdempotent | lib/data-sync.ts:20-23 | after a successful sync, any further sync changes nothing and reports the current count |
| DataSync.NothingToImport | lib/data-sync.ts:29-31 | no parsed items on an empty table: failure, count 0, 'No items found in Excel file', state unchanged |
| DataSync.IndexByKeySound | lib/data-sync.ts:74-77 | every entry of the key map is an existing record stored under its own key |
| DataSync.IndexByKeyLastWins | lib/data-sync.ts:74-77 | among existing records with the same key, the later one wins |
| DataSync.IndexByKeyComplete | lib/data-sync.ts:74-77 | every existing record's key is in the map |
| DataSync.MergeOneFields | lib/data-sync.ts:79-98 | a matched row takes id, status, priority, rating, notes and sort order from the existing record and stamps updatedAt. It keeps its own key and base fields. An unmatched row is unchanged. Re-merging changes nothing. |
| DataSync.MergeKeepUserData | lib/data-sync.ts:79-98 | one merged record per new row, in order |
| DataSync.ReimportData | lib/data-sync.ts:57-114 | the result and the new state are `Reimport` of the old state and its listing, for either strategy |
| DataSync.ReplaceAllHoldsParsed | lib/data-sync.ts:64-70 | after replace-all the table holds exactly the parsed items, whatever it held before, and the count is their number |
| DataSync.KeepUserDataCount | lib/data-sync.ts:79-105 | keep-user-data reports one record per parsed row |
| DataSync.KeepUserDataDropsUnmatched | lib/data-sync.ts:100-102 | an existing record whose key matches no parsed row is gone afterwards, admin-added or not |
| DataSync.GetSyncStatus | lib/data-sync.ts:119-132 | initialised iff the table is non-empty; the count is the table size; lastSync comes from the settings record or is null |
| UseItems.Summarize | hooks/useItems.ts:48-66 | a summary names its city, totals the city's items, and completed ≤ total |
| UseItems.CategoryCountsPartition | hooks/useItems.ts:54-58 | the three category counts add up to the number of items |
| UseItems.SummaryCountsAddUp | hooks/useItems.ts:49-58 | in each summary the category counts add up to the total, and completed ≤ total |
| UseItems.InsertByCity | hooks/useItems.ts:68 | inserting adds exactly that summary |
| UseItems.SortByCity | hooks/useItems.ts:68 | the sort is a permutation |
| UseItems.SortByCityCities | hooks/useItems.ts:68 | summaries of distinct cities come out in ascending city order |
| UseItems.FirstSeen | hooks/useItems.ts:40-45 | the insertion order of a `Map` keyed by city: each city of the list exactly once, and no other |
| UseItems.GroupByCity | hooks/useItems.ts:36-45 | the map's keys are the cities, and the key order is `FirstSeen` of the items' cities, the order they first occur; each group is exactly that city's items in list order |
| UseItems.CitySummaries | hooks/useItems.ts:33-69 | one summary per distinct city, ascending by city, each the summary of that city's items; a list still loading gives none |
| UseItems.CountByCitiesCovers | hooks/useItems.ts:48-49 | counting city by city over distinct cities covering all items counts every item once |
| UseItems.SumTotalsByCity | hooks/useItems.ts:49 | the summaries' totals are the per-city counts |
| UseItems.SummaryTotalsSum | hooks/useItems.ts:48-49 | the totals of the summaries add up to the number of items |
| UseItems.ItemsOf | hooks/useItems.ts:74-82 | exactly the city's items (of the category when one is given), ordered by sortOrder |
| UseItems.ErrorText | hooks/useItems.ts:131 | the sync's own non-empty message, else 'Failed to sync data' |
| UseItems.SettledStatus | hooks/useItems.ts:116-140 | loading ends; initialised iff no sync was needed or it succeeded, and exactly then there is no error; after a failed sync the error is `result.error || 'Failed to sync data'` |
| UseItems.FailedSyncShowsReason | hooks/useItems.ts:123-132 | a failed first sync shows the sync's own message: 'Failed to parse Excel file' for an unreadable workbook, 'No items found in Excel file' for a sheet without items |
| UseItems.DataSyncHook | hooks/useItems.ts:107-140 | a non-empty table settles initialised and untouched; an empty one runs `Sync` and settles on its result |
| UseItems.InitializedHasItems | hooks/useItems.ts:116-126 | when the hook reports the data initialised, the table holds items |
| AdminPage.FilteredItems | app/admin/page.tsx:37-46 | at most 50 results |
| AdminPage.FilteredItemsPrefix | app/admin/page.tsx:37-46 | the results are the first matches in list order, as many as there are up to 50 |
| AdminPage.FilteredItemsSound | app/admin/page.tsx:38-43 | each result is an item that passes the city, category and lower-cased name-or-details query tests |
| AdminPage.FilteredItemsComplete | app/admin/page.tsx:37-46 | with at most 50 matches every matching item is listed |
| AdminPage.EmptySearchListsAll | app/admin/page.tsx:37-46 | an empty search lists the first 50 items unchanged |
| AdminPage.SubcategoryOf | app/admin/page.tsx:95 | '' becomes null; any other text is kept |
| AdminPage.SubcategoryText | app/admin/page.tsx:54 | null and '' become '' |
| AdminPage.FormOf | app/admin/page.tsx:51-58 | the form holds the item's city, name and category |
| AdminPage.EditChangesOnlyBaseFields | app/admin/page.tsx:92-100 | an edit writes the six base fields and updatedAt; every other field is unchanged |
| AdminPage.EditRoundTrip | app/admin/page.tsx:51-58 | saving an unchanged form changes only updatedAt; a null subcategory round-trips through '' |
| AdminPage.EditMayBreakStatusFit | app/admin/page.tsx:92-100 | an edit can change the category of a visited place to food, so the new status no longer fits |
| AdminPage.NextOrderUnique | app/admin/page.tsx:110-112 | the next order of a group is unique |
| AdminPage.MaxOrder | app/admin/page.tsx:111 | `Math.max` of the sort orders bounds them all and is one of them |
| AdminPage.NewItem | app/admin/page.tsx:114-130 | a new item is admin-added, unpinned and pending, with null priority and rating, empty notes, and no '' subcategory |
| AdminPage.ResetAfterAdd | app/admin/page.tsx:137-145 | the form is cleared; the city is kept exactly when it is not one of the known cities, and emptied otherwise |
| AdminPage.AdminForm.constructor | app/admin/page.tsx:18-30 | add mode, no editing id, the empty form, no message |
| AdminPage.AdminForm.HandleEditItem | app/admin/page.tsx:48-61 | edit mode on that id with the item's fields; message cleared |
| AdminPage.AdminForm.HandleCancelEdit | app/admin/page.tsx:63-75 | add mode, no editing id, the empty form, no message |
| AdminPage.AdminForm.HandleSubmit | app/admin/page.tsx:77-153 | a blank city or name sets the required message and writes nothing. Edit mode with an id writes the base fields, then resets the form. Otherwise the item is added with the next order of its group, or fails with the save message on a taken id. |
| AdminPage.AdminForm.SubmitEdit | app/admin/page.tsx:90-103 | only the edited record changes, to its base fields from the form; the form returns to add mode |
| AdminPage.AdminForm.SubmitAdd | app/admin/page.tsx:104-149 | the new record is stored with the next order of its group; the form resets keeping a new city; a taken id reports the failure and changes nothing |
| AdminPage.NextOrderOfGroup | app/admin/page.tsx:106-126 | max + 1 of the group (1 for an empty group) is the next order, above every order in the group |
| AdminManage.AdminItems | app/admin/manage/page.tsx:12-15 | no longer than the listing |
| AdminManage.AdminItemsExact | app/admin/manage/page.tsx:12-15 | exactly the admin-added items, none duplicated |
| AdminManage.AdminItemsInOrder | app/admin/manage/page.tsx:12-15 | the list of two consecutive parts is their lists in sequence, so listing order is kept |
| AdminManage.FilteredItemsExact | app/admin/manage/page.tsx:17-22 | 'all' gives every admin item; a city gives exactly its admin items |
| AdminManage.AdminCities | app/admin/manage/page.tsx:24-27 | the admin items' cities, each once, ascending |
| AdminManage.OptionCountsSum | app/admin/manage/page.tsx:62-65 | every listed city's option shows a positive count, and the option counts add up to the 'all' count |
| AdminManage.HandleDelete | app/admin/manage/page.tsx:29-38 | after confirmation exactly that id is removed; otherwise nothing changes |
| ExportRoute.TextOr | app/api/export-excel/route.ts:17-24 | `value \|\| fallback` for text: '' or missing gives the fallback |
| ExportRoute.NumOr | app/api/export-excel/route.ts:25 | `value \|\| fallback` for numbers: 0 or missing gives the fallback |
| ExportRoute.Flag | app/api/export-excel/route.ts:26-27 | 'Yes' iff the flag is true, else 'No' |
| ExportRoute.RecordDefaults | app/api/export-excel/route.ts:14-28 | falsy text fields become '' (status 'pending'), a falsy rating '', a falsy sort order 0; the flags read 'Yes' exactly when set; city, category and name pass through |
| ExportRoute.NatText | app/api/export-excel/route.ts:25 | a number's cell text is never empty |
| ExportRoute.RowText | app/api/export-excel/route.ts:14-28 | one read-back cell per written cell |
| ExportRoute.WrittenCells | app/api/export-excel/route.ts:14-28 | thirteen cells, one per written column |
| ExportRoute.WrittenSheet | app/api/export-excel/route.ts:14-31 | a header row, then one row per item |
| ExportRoute.WrittenColumnsShifted | app/api/export-excel/route.ts:15-19 | the importer reads the written Subcategory as the name, Name as the details and Details as the location |
| ExportRoute.WrittenRowDropsUnclassified | app/api/export-excel/route.ts:17 | a row written for an item without a subcategory is skipped by the importer |
| ExportRoute.WrittenSheetLosesItem | app/api/export-excel/route.ts:14-39 | exporting one unclassified item and importing the file yields no item |
| ExportRoute.ImportableCells | app/api/export-excel/route.ts:14-28 | corrected layout of the route Findings row: thirteen cells, City, Category, Name, Details, Location first |
| ExportRoute.ImportableSheet | app/api/export-excel/route.ts:14-31 | corrected layout of the route Findings row: a header row, then one row per item |
| ExportRoute.ImportableRowRoundTrip | app/api/export-excel/route.ts:14-28 | in the importable order an item's row is kept and reads back with its own city, category, name, details and location |
| ExportRoute.ImportableSheetRoundTrip | app/api/export-excel/route.ts:14-39 | exporting importable items and importing the file gives one item per exported item, in order, with the same base fields |
| ExportRoute.Post | app/api/export-excel/route.ts:6-54 | success iff the body is read and the file written; the saved file is the worksheet in the route's own column order; the count is the number of items; every failure is HTTP 500 'Failed to update Excel file' |
| ExportRoute.PostOneRowPerItem | app/api/export-excel/route.ts:14-31 | the saved file is the header City, Category, Subcategory, Name, … followed by one row per item, in order, in the route's key order |
| ExportRoute.PostedFileLosesItem | app/api/export-excel/route.ts:14-44 | the handler saves a file for one unclassified item and reports one item, yet that file reads back as no item |
| ItemCard.CompletedIffNotPending | components/ItemCard.tsx:18 | completed iff the status is not pending |
| ItemCard.StatusLabel | components/ItemCard.tsx:20-26 | 'Not Yet' exactly for pending |
| ItemCard.StatusLabelNamesCompletedStatus | components/ItemCard.tsx:20-26 | a completed item's label names its category's completed status |
| ItemCard.ToggleStatus | components/ItemCard.tsx:28-38 | pending becomes the category's completed status; anything else becomes pending |
| ItemCard.ToggleFits | components/ItemCard.tsx:28-38 | the toggled status always fits the category, flips completion, and undoes itself on a fitting status |
| ItemCard.ToggleChangesOnlyStatus | components/ItemCard.tsx:28-38 | through updateItem the toggle changes only status and updatedAt; two toggles from pending restore the record except for the time |
| PriorityBadge.MustPressed | components/PriorityBadge.tsx:29 | null exactly when the priority was 'must', otherwise 'must' |
| PriorityBadge.OptionalPressed | components/PriorityBadge.tsx:39 | null exactly when the priority was 'optional', otherwise 'optional' |
| PriorityBadge.ClearPressed | components/PriorityBadge.tsx:48-54 | offered exactly when a priority is set, and sends null |
| PriorityBadge.PressTwice | components/PriorityBadge.tsx:29-39 | pressing the same button twice from null, or from its own value, returns to the start |
| PriorityBadge.ReadonlyLabel | components/PriorityBadge.tsx:12-23 | nothing exactly when the priority is null |
| PriorityBadge.ReadonlyLabelDistinct | components/PriorityBadge.tsx:21 | 'must' and 'optional' get different badges |
| StarRating.CurrentRating | components/StarRating.tsx:14 | the hover value if set, else the rating if set, else 0 |
| StarRating.Stars | components/StarRating.tsx:36 | five stars |
| StarRating.FilledPrefix | components/StarRating.tsx:36-50 | the filled stars are the first n, with n the displayed rating held between 0 and 5 |
| StarRating.Band | components/StarRating.tsx:16-22 | five bands |
| StarRating.RatingColorPerBand | components/StarRating.tsx:16-22 | two ratings share a colour exactly when they lie in the same band (below 2, 2, 3, 4, 5 or more) |
| StarRating.RatingLabel | components/StarRating.tsx:24-31 | '' exactly for a null or zero rating |
| StarRating.RatingLabelInjective | components/StarRating.tsx:24-31 | the five ratings get five different labels |
| StarRating.StarClicked | components/StarRating.tsx:36-41 | a click sends the star's value in 1..5, and nothing when read-only |
| StarRating.Hovered | components/StarRating.tsx:42-43 | hovering changes the preview only when not read-only |
| StarRating.ReadonlyShowsRating | components/StarRating.tsx:14-43 | a read-only control shows the stored rating, or 0 without one |
| FilterSortPanel.ActiveFiltersCount | components/FilterSortPanel.tsx:34-38 | at most 4 |
| FilterSortPanel.CountZeroIffDefaults | components/FilterSortPanel.tsx:34-38 | zero iff sort manual, priority and status 'all', and search empty |
| FilterSortPanel.ButtonsOmitValues | components/FilterSortPanel.tsx:103-181 | the sort buttons send every sort but 'status'; no priority button sends null |
| FilterSortPanel.CompletedButtonCoversAllCompleted | components/FilterSortPanel.tsx:191-216 | Completed sends 'visited' yet is highlighted for every completed status; every status filter highlights exactly one button |
| FilterSortPanel.ClearAllShown | components/FilterSortPanel.tsx:225-234 | shown iff some filter or the sort differs from its default |
| ActiveFilters.HiddenIffCountZero | components/ActiveFilters.tsx:26-32 | the strip is hidden exactly when the panel counts no active filter |
| ActiveFilters.SortLabel | components/ActiveFilters.tsx:34-41 | no label exactly for manual and 'status' |
| ActiveFilters.PriorityLabel | components/ActiveFilters.tsx:43-47 | a label exactly for 'must' and 'optional' |
| ActiveFilters.StatusLabel | components/ActiveFilters.tsx:49-53 | no label exactly for 'all'; 'Pending' for pending, 'Completed' for any completed status |
| ActiveFilters.ChipsMatchCount | components/ActiveFilters.tsx:26-99 | hidden iff the count is zero; otherwise one chip per counted filter, except the unlabelled 'status' sort and null priority |
| ActiveFilters.EmptyStrip | components/ActiveFilters.tsx:26-99 | the 'status' sort with a null priority shows the strip with no chip |
| UserNotes.Truncate | components/UserNotes.tsx:54 | a prefix of the text of length min(length, 500) |
| UserNotes.TruncateIdempotent | components/UserNotes.tsx:54 | truncating twice is truncating once; short text is kept whole |
| UserNotes.NotesBox.constructor | components/UserNotes.tsx:12-14 | the box opens on the stored notes, not saving, nothing scheduled |
| UserNotes.NotesBox.Remaining | components/UserNotes.tsx:30-31 | 500 − length, never negative while the text is within the cap |
| UserNotes.NotesBox.Effect | components/UserNotes.tsx:17-28 | the effect as written: a save is scheduled iff the text differs from the stored notes, and then the indicator is on; when equal the indicator is left as it was |
| UserNotes.NotesBox.EffectCorrected | components/UserNotes.tsx:17-28 | the corrected effect of the UserNotes Findings row: a save is scheduled iff the text differs, and the indicator is on exactly while a save is scheduled |
| UserNotes.NotesBox.Type | components/UserNotes.tsx:54 | the box keeps the first 500 characters and the count stays non-negative; then the as-written effect runs |
| UserNotes.NotesBox.TypeCorrected | components/UserNotes.tsx:54 | typing with the corrected effect of the Findings row: the indicator is on exactly while a save is scheduled |
| UserNotes.NotesBox.Fire | components/UserNotes.tsx:21-25 | the save hands exactly the box's text to onChange, clears the indicator and records the time |
| UserNotes.NotesBox.NotesChanged | components/UserNotes.tsx:17-28 | new stored notes re-run the as-written effect: nothing is scheduled when the box matches them, and the indicator is then left as it was |
| UserNotes.TypeThenSave | components/UserNotes.tsx:17-54 | typing, saving and receiving the saved text back leaves the truncated text stored and nothing scheduled; the indicator stays on only if the typed text was already stored and the indicator was already on, so a settled box ends settled |
| UserNotes.SavingIndicatorSticks | components/UserNotes.tsx:17-28 | as written, typing 'a' then deleting it leaves "Saving..." on with no save scheduled |
| UserNotes.SavingIndicatorClears | components/UserNotes.tsx:17-28 | with the corrected effect the same edits leave the indicator off |
| AppStore.MergeLaws | stores/appStore.ts:56-58 | an empty patch is the identity; two merges are one merge of the composed patch; a full patch replaces; merging the same patch twice is merging once |
| AppStore.Store.constructor | stores/appStore.ts:38-72 | theme 'auto', no city or category, default filters, sort manual, admin/loading/offline false |
| AppStore.Store.SetTheme | stores/appStore.ts:47 | only the theme changes |
| AppStore.Store.SetSelectedCity | stores/appStore.ts:50 | only the selected city changes |
| AppStore.Store.SetSelectedCategory | stores/appStore.ts:53 | only the selected category changes |
| AppStore.Store.SetFilters | stores/appStore.ts:56-58 | the supplied filter fields replace, the others stay; nothing else changes |
| AppStore.Store.ResetFilters | stores/appStore.ts:59 | the filters become the defaults from any state; nothing else changes |
| AppStore.Store.SetSortBy | stores/appStore.ts:62 | only the sort changes |
| AppStore.Store.SetAdminMode | stores/appStore.ts:65 | only the admin flag changes |
| AppStore.Store.SetLoading | stores/appStore.ts:68 | only the loading flag changes |
| AppStore.Store.SetOffline | stores/appStore.ts:71 | only the offline flag changes |
| AppStore.ResetIdempotent | stores/appStore.ts:56-59 | resetting twice, then an empty setFilters, leaves exactly the default filters |

## Left out

**I/O and library calls**
- Spreadsheet decoding and encoding (`XLSX.read`, `sheet_to_json`, `json_to_sheet`, `write`, `writeFile`) are library calls. A workbook is its rows, with decode and fetch failures folded into `Err`.
- `fetch`, `FileReader` and the route's `fs.writeFile` are I/O. They appear as a `Result` input and the `writeOk` flag of `ExportRoute.Post`.
- The route reads its body with `request.json()`. A body that is not JSON, or has no `items` array, is `None`.
- Dexie internals, live queries and IndexedDB are replaced by the in-memory `Db.TravelDb`.
  - `where(...).equals(...)` and `where({city, category})` are modelled as filters over the table.
- Db.TravelDb.GetItemsByCityAndCategory: as written the call fails. It queries the `'[city+category]'` compound index (lib/db.ts:102), which the schema (lib/db.ts:15-22) never declares, so Dexie rejects it with a schema error. Nothing in the application calls it. The model returns the result the query evidently intends, not the rejection.
- Exceptions from database calls other than a rejected `add`/`bulkAdd` are not modelled.
  - The catch branches that only handle them (hooks/useItems.ts:141-148) are therefore unreachable in the model.
  - In `DataSync`, the message of an error raised inside a sync is kept only for parse and bulk-add failures.
- Db.TravelDb.BulkAdd: Dexie's error object is reduced to the message 'BulkError'. Dexie's own wording is not modelled.
- Db.TravelDb.AddItem: Dexie's error object is reduced to the message 'ConstraintError'.

**Ids, clocks, timers and rendering**
- `generateId`, the admin id built from `Date.now()` and `Math.random()`, and every `new Date()` are parameters: `newId`, `now`.
- The cancellation flag of `useDataSync` is not modelled. The hook's run is one method.
- The one-second debounce timer is not modelled. `UserNotes` models its two events as methods (`Effect`/`NotesChanged` and `Fire`), not the time between them.
- `useCities`, `useUpdateItem` and `useOffline` are not modelled. The admin screen's known-city list is the `knownCities` parameter.
- Rendering, CSS classes other than the rating colours, `isExpanded`, `isOpen`, `isSubmitting`, `window.scrollTo` and `confirm` are not modelled. The user's answer to `confirm` is the `confirmed` parameter.
- The callbacks a component receives are what the model returns: `onUpdate`, `onChange`, `onSortChange`, `onClearAll` and the chip remove handlers. What the page does with them is not part of this model.

**Approximations**
- `toLowerCase` is modelled on ASCII letters only.
- `localeCompare` and the default `sort()` are both modelled as lexicographic order on code points.
- Text.Less: strings are sequences of Unicode scalar values. JavaScript's default comparison works on UTF-16 code units, so for characters above U+FFFF the model's order can differ: it puts U+1F600 after U+E000, and JavaScript puts it before.
- UserNotes.Truncate: the cap counts Unicode scalar values. `slice(0, 500)` counts UTF-16 code units, so text with characters above U+FFFF is cut at a different point: 500 emoji are kept whole in the model, but only 250 are kept in the source.
- `toArray()` is modelled as returning the table in id order, its primary-key order.
- Parsed and admin-added items leave `isPinned` undefined. The model stores `false`, the value every reader sees.
- UserNotes.NotesBox.Remaining: non-negativity is stated only while the box's text is within 500 characters. Stored notes longer than that, which no modelled writer produces, would show a negative count. The count is taken in Unicode scalar values, while `.length` counts UTF-16 code units, so it differs for characters above U+FFFF.
- ExcelParser.ExportRows: the download's `updatedAt.toISOString()` column is kept as the timestamp itself, not its text.
- AdminPage.AdminForm.HandleSubmit: a failed save is modelled only for a taken id. In that case the form keeps its input, as in the source.

## Findings

| source | as written | input that shows it | evidently intended | confidence | as-written member | corrected member |
|---|---|---|---|---|---|---|
| app/api/export-excel/route.ts:14-28 | The route writes the columns City, Category, Subcategory, Name, Details, Location, … into public/data/MM_data.xlsx, the file the first-load sync and the re-import read. The importer reads column 2 as the name, 3 as the details and 4 as the location. | one item `{city: 'Riyadh', category: 'food', name: 'Najd Village', subcategory: null}`: its row has an empty third cell, so the importer skips it and the next sync or re-import loses it; a classified item comes back with its subcategory as its name | write City, Category, Name, Details, Location first, the order the importer reads, so an export followed by an import gives back every item with its base fields | high (not executed) | ExportRoute.PostedFileLosesItem | ExportRoute.ImportableSheetRoundTrip |
| components/UserNotes.tsx:17-28 | When the text returns to the stored notes before the save fires, the cleanup cancels the timer. The effect then returns early without clearing `isSaving`. | notes '' → type 'a' → delete it within one second: no save is pending, yet "Saving..." stays on | clear `isSaving` when the pending save is cancelled, so the indicator is on exactly while a save is scheduled | medium (not executed) | UserNotes.SavingIndicatorSticks | UserNotes.SavingIndicatorClears |
