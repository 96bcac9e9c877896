/** First-load sync and re-import of the bundled spreadsheet into the local
    database. The spreadsheet arrives already decoded (or as the decoding
    error); ids and the clock are parameters. */
module DataSync {
  import opened Types
  import opened Text
  import opened Seqs
  import opened ExcelParser
  import opened Db

  /** `{ success, itemCount, error? }`. */
  datatype SyncResult = SyncResult(success: bool, itemCount: nat, error: Option<string>)

  /** The two tables. */
  datatype StoreState = StoreState(items: map<string, Item>, settings: Option<AppSettings>)

  const ParseFailed: string := "Failed to parse Excel file"
  const NoItemsFound: string := "No items found in Excel file"

  /** `updateSettings({ lastSync })` on the settings table. */
  function WithLastSync(s: Option<AppSettings>, now: Time): Option<AppSettings> {
    if s.Some? then Some(PatchSettings(s.value, SettingsPatch(None, None, Some(now), None))) else None
  }

  /** syncDataFromExcel, as a function of the state before the call. */
  function Sync(st: StoreState, workbook: Result<seq<Row>>, newId: nat -> string, now: Time): (SyncResult, StoreState) {
    if |st.items| > 0 then (SyncResult(true, |st.items|, None), st)
    else if workbook.Err? then (SyncResult(false, 0, Some(ParseFailed)), st)
    else
      var parsed := ParsedItems(workbook.value, newId, now);
      if parsed == [] then (SyncResult(false, 0, Some(NoItemsFound)), st)
      else
        var added := AddAll(st.items, parsed);
        if Failures(st.items, parsed) > 0 then
          (SyncResult(false, 0, Some(BulkAddError)), StoreState(added, st.settings))
        else
          (SyncResult(true, |parsed|, None), StoreState(added, WithLastSync(Initialized(st.settings, now), now)))
  }

  /** needsInitialSync: the items table is empty. */
  method NeedsInitialSync(db: TravelDb) returns (b: bool)
    ensures b <==> db.items == map[]
  {
    var count := db.GetItemCount();
    b := count == 0;
  }

  /** syncDataFromExcel: guarded by the item count, then parse, bulk-add,
      initialise the settings and stamp the sync time. */
  method SyncDataFromExcel(db: TravelDb, workbook: Result<seq<Row>>, newId: nat -> string, now: Time)
    returns (r: SyncResult)
    requires db.Valid()
    modifies db
    ensures db.Valid()
    ensures (r, StoreState(db.items, db.settings))
      == Sync(StoreState(old(db.items), old(db.settings)), workbook, newId, now)
  {
    var currentCount := db.GetItemCount();
    if currentCount > 0 {
      return SyncResult(true, currentCount, None);
    }
    var parsed := ParseExcelFile(workbook, newId, now);
    if parsed.Err? {
      return SyncResult(false, 0, Some(parsed.message));
    }
    var items := parsed.value;
    if |items| == 0 {
      return SyncResult(false, 0, Some(NoItemsFound));
    }
    var added := db.BulkAdd(items);
    if added.Err? {
      return SyncResult(false, 0, Some(added.message));
    }
    db.InitializeSettings(now);
    db.UpdateSettings(SettingsPatch(None, None, Some(now), None));
    r := SyncResult(true, |items|, None);
  }

  /** The items of a first sync get distinct ids when the id source never
      repeats. */
  lemma ParsedFresh(rows: seq<Row>, newId: nat -> string, now: Time)
    requires forall a: nat, b: nat :: a != b ==> newId(a) != newId(b)
    ensures FreshBatch(map[], ParsedItems(rows, newId, now))
  {
    var parsed := ParsedItems(rows, newId, now);
    forall i, j | 0 <= i < j < |parsed| ensures parsed[i].id != parsed[j].id {
      ParsedItemId(rows, newId, now, i);
      ParsedItemId(rows, newId, now, j);
    }
  }

  /** A first sync on an empty table with a never-repeating id source stores
      exactly the parsed items, reports their number, and initialises the
      settings with the sync time. */
  lemma FirstSyncAddsParsed(settings: Option<AppSettings>, rows: seq<Row>, newId: nat -> string, now: Time)
    requires forall a: nat, b: nat :: a != b ==> newId(a) != newId(b)
    requires ParsedItems(rows, newId, now) != []
    ensures var parsed := ParsedItems(rows, newId, now);
      var (r, st) := Sync(StoreState(map[], settings), Ok(rows), newId, now);
      && r == SyncResult(true, |parsed|, None)
      && st.items.Keys == Elems(Ids(parsed))
      && (forall i :: 0 <= i < |parsed| ==> parsed[i].id in st.items && st.items[parsed[i].id] == parsed[i])
      && st.settings.Some? && st.settings.value.lastSync == now
  {
    var parsed := ParsedItems(rows, newId, now);
    ParsedFresh(rows, newId, now);
    AddAllFresh(map[], parsed);
    AddAllFreshValues(map[], parsed);
    var s1 := WithLastSync(Initialized(settings, now), now);
    assert Sync(StoreState(map[], settings), Ok(rows), newId, now)
      == (SyncResult(true, |parsed|, None), StoreState(AddAll(map[], parsed), s1));
  }

  /** Repeating a successful sync changes nothing and reports the same count:
      the guard makes the sync idempotent. */
  lemma SyncIdempotent(st: StoreState, w1: Result<seq<Row>>, id1: nat -> string, t1: Time,
                       w2: Result<seq<Row>>, id2: nat -> string, t2: Time)
    requires Sync(st, w1, id1, t1).0.success
    ensures var (r1, st1) := Sync(st, w1, id1, t1);
      Sync(st1, w2, id2, t2) == (SyncResult(true, |st1.items|, None), st1)
  {
    var (r1, st1) := Sync(st, w1, id1, t1);
    if |st.items| == 0 {
      var parsed := ParsedItems(w1.value, id1, t1);
      AddAllGrows(st.items, parsed);
      assert parsed[0].id in st1.items;
    }
  }

  /** An empty table with nothing to import stays as it was. */
  lemma NothingToImport(st: StoreState, rows: seq<Row>, newId: nat -> string, now: Time)
    requires st.items == map[] && ParsedItems(rows, newId, now) == []
    ensures Sync(st, Ok(rows), newId, now) == (SyncResult(false, 0, Some(NoItemsFound)), st)
  {
  }

  /** `${city}-${category}-${name}`. */
  function ItemKey(it: Item): string {
    it.city + "-" + CategoryName(it.category) + "-" + it.name
  }

  /** `new Map(existing.map(item => [key(item), item]))`: later entries
      overwrite earlier ones. */
  function IndexByKey(all: seq<Item>): map<string, Item> {
    if all == [] then map[]
    else
      var x := all[|all| - 1];
      IndexByKey(all[..|all| - 1])[ItemKey(x) := x]
  }

  /** Every entry of the index is an element of the listing under its own
      key. */
  lemma {:induction false} IndexByKeySound(all: seq<Item>, k: string)
    requires k in IndexByKey(all)
    ensures IndexByKey(all)[k] in all && ItemKey(IndexByKey(all)[k]) == k
    decreases |all|
  {
    var x := all[|all| - 1];
    if k != ItemKey(x) {
      IndexByKeySound(all[..|all| - 1], k);
    }
  }

  /** Among listing elements with equal keys the last one wins. */
  lemma {:induction false} IndexByKeyLastWins(all: seq<Item>, i: int)
    requires 0 <= i < |all|
    requires forall j :: i < j < |all| ==> ItemKey(all[j]) != ItemKey(all[i])
    ensures ItemKey(all[i]) in IndexByKey(all) && IndexByKey(all)[ItemKey(all[i])] == all[i]
    decreases |all|
  {
    if i < |all| - 1 {
      IndexByKeyLastWins(all[..|all| - 1], i);
    }
  }

  /** Every key of the listing is in the index. */
  lemma {:induction false} IndexByKeyComplete(all: seq<Item>, i: int)
    requires 0 <= i < |all|
    ensures ItemKey(all[i]) in IndexByKey(all)
    decreases |all|
  {
    if i < |all| - 1 {
      IndexByKeyComplete(all[..|all| - 1], i);
    }
  }

  /** The keep-user-data merge of one new row: when an existing record has
      the same key, its id and its five user fields are kept and the time is
      stamped; every other field comes from the new row. */
  function MergeOne(index: map<string, Item>, n: Item, now: Time): Item {
    if ItemKey(n) in index then
      var e := index[ItemKey(n)];
      n.(id := e.id, status := e.status, priority := e.priority, rating := e.rating,
         userNotes := e.userNotes, sortOrder := e.sortOrder, updatedAt := now)
    else n
  }

  /** A merged row keeps the new row's key and base fields; it takes the
      matched record's id and user fields; an unmatched row is unchanged.
      Merging again against the same index changes nothing. */
  lemma MergeOneFields(index: map<string, Item>, n: Item, now: Time)
    ensures var r := MergeOne(index, n, now);
      && ItemKey(r) == ItemKey(n)
      && r.city == n.city && r.category == n.category && r.subcategory == n.subcategory
      && r.name == n.name && r.details == n.details && r.location == n.location
      && r.isAdminAdded == n.isAdminAdded && r.isPinned == n.isPinned && r.createdAt == n.createdAt
      && (ItemKey(n) in index ==>
            var e := index[ItemKey(n)];
            r.id == e.id && r.status == e.status && r.priority == e.priority && r.rating == e.rating
            && r.userNotes == e.userNotes && r.sortOrder == e.sortOrder && r.updatedAt == now)
      && (ItemKey(n) !in index ==> r == n)
      && MergeOne(index, r, now) == r
  {
  }

  /** `newItems.map(...)`: one merged record per new row, in order. */
  function MergeKeepUserData(index: map<string, Item>, news: seq<Item>, now: Time): (r: seq<Item>)
    ensures |r| == |news|
    ensures forall i :: 0 <= i < |news| ==> r[i] == MergeOne(index, news[i], now)
  {
    seq(|news|, i requires 0 <= i < |news| => MergeOne(index, news[i], now))
  }

  datatype MergeStrategy = KeepUserData | ReplaceAll

  /** The records reimportData writes back: the parsed rows, or the parsed
      rows merged with the listing `all`. */
  function ReimportBatch(all: seq<Item>, strategy: MergeStrategy, parsed: seq<Item>, now: Time): seq<Item> {
    if strategy == ReplaceAll then parsed else MergeKeepUserData(IndexByKey(all), parsed, now)
  }

  /** reimportData, as a function of the state before the call and of the
      listing `all` of its items table. */
  function Reimport(st: StoreState, all: seq<Item>, strategy: MergeStrategy,
                    workbook: Result<seq<Row>>, newId: nat -> string, now: Time): (SyncResult, StoreState)
  {
    if workbook.Err? then (SyncResult(false, 0, Some(ParseFailed)), st)
    else
      var parsed := ParsedItems(workbook.value, newId, now);
      var batch := ReimportBatch(all, strategy, parsed, now);
      var added := AddAll(map[], batch);
      if Failures(map[], batch) > 0 then
        (SyncResult(false, 0, Some(BulkAddError)), StoreState(added, st.settings))
      else
        (SyncResult(true, |batch|, None), StoreState(added, WithLastSync(st.settings, now)))
  }

  /** reimportData: parse, then either clear and add the parsed rows, or
      merge them with the existing records by key, clear, and add the merged
      rows; then stamp the sync time. */
  method ReimportData(db: TravelDb, strategy: MergeStrategy, workbook: Result<seq<Row>>,
                      newId: nat -> string, now: Time) returns (r: SyncResult)
    requires db.Valid()
    modifies db
    ensures db.Valid()
    ensures exists all :: (IsSnapshot(all, old(db.items)) &&
      (r, StoreState(db.items, db.settings))
        == Reimport(StoreState(old(db.items), old(db.settings)), all, strategy, workbook, newId, now))
  {
    var existingItems := db.ToArray();
    ghost var st := StoreState(db.items, db.settings);
    var parsed := ParseExcelFile(workbook, newId, now);
    if parsed.Err? {
      assert (SyncResult(false, 0, Some(parsed.message)), st) == Reimport(st, existingItems, strategy, workbook, newId, now);
      return SyncResult(false, 0, Some(parsed.message));
    }
    var newItems := parsed.value;
    var batch;
    if strategy == ReplaceAll {
      batch := newItems;
    } else {
      var existingMap := IndexByKey(existingItems);
      batch := MergeKeepUserData(existingMap, newItems, now);
    }
    db.ClearAllItems();
    var added := db.BulkAdd(batch);
    if added.Err? {
      return SyncResult(false, 0, Some(added.message));
    }
    db.UpdateSettings(SettingsPatch(None, None, Some(now), None));
    r := SyncResult(true, |batch|, None);
  }

  /** After a successful replace-all the table holds exactly the parsed rows,
      whatever it held before. */
  lemma ReplaceAllHoldsParsed(st: StoreState, all: seq<Item>, rows: seq<Row>, newId: nat -> string, now: Time)
    requires forall a: nat, b: nat :: a != b ==> newId(a) != newId(b)
    ensures var parsed := ParsedItems(rows, newId, now);
      var (r, st1) := Reimport(st, all, ReplaceAll, Ok(rows), newId, now);
      && r == SyncResult(true, |parsed|, None)
      && st1.items.Keys == Elems(Ids(parsed))
      && (forall i :: 0 <= i < |parsed| ==> parsed[i].id in st1.items && st1.items[parsed[i].id] == parsed[i])
  {
    var parsed := ParsedItems(rows, newId, now);
    ParsedFresh(rows, newId, now);
    AddAllFresh(map[], parsed);
    AddAllFreshValues(map[], parsed);
    assert Reimport(st, all, ReplaceAll, Ok(rows), newId, now)
      == (SyncResult(true, |parsed|, None), StoreState(AddAll(map[], parsed), WithLastSync(st.settings, now)));
  }

  /** Keep-user-data reports one merged record per parsed row. */
  lemma KeepUserDataCount(st: StoreState, all: seq<Item>, rows: seq<Row>, newId: nat -> string, now: Time)
    requires Reimport(st, all, KeepUserData, Ok(rows), newId, now).0.success
    ensures Reimport(st, all, KeepUserData, Ok(rows), newId, now).0.itemCount
      == |ParsedItems(rows, newId, now)|
  {
  }

  /** Keep-user-data replaces the table wholesale: an existing record whose
      key matches no parsed row, and whose id is not a generated one, is gone
      afterwards, whether or not an administrator added it. */
  lemma KeepUserDataDropsUnmatched(st: StoreState, all: seq<Item>, rows: seq<Row>,
                                   newId: nat -> string, now: Time, e: Item)
    requires KeyedById(st.items) && IsSnapshot(all, st.items)
    requires e in st.items.Values
    requires forall i :: 0 <= i < |ParsedItems(rows, newId, now)| ==>
      ItemKey(ParsedItems(rows, newId, now)[i]) != ItemKey(e)
    requires forall k: nat :: newId(k) != e.id
    ensures e.id !in Reimport(st, all, KeepUserData, Ok(rows), newId, now).1.items
  {
    var parsed := ParsedItems(rows, newId, now);
    forall i | 0 <= i < |parsed| ensures parsed[i].id != e.id {
      ParsedItemId(rows, newId, now, i);
    }
    MergedBatchAvoids(st.items, all, parsed, now, e);
    AddAllOnlyBatch(map[], MergeKeepUserData(IndexByKey(all), parsed, now), e.id);
    ReimportItems(st, all, KeepUserData, rows, newId, now);
  }

  /** A reimport of a parsed workbook leaves exactly the batch in the table. */
  lemma ReimportItems(st: StoreState, all: seq<Item>, strategy: MergeStrategy, rows: seq<Row>,
                      newId: nat -> string, now: Time)
    ensures Reimport(st, all, strategy, Ok(rows), newId, now).1.items
      == AddAll(map[], ReimportBatch(all, strategy, ParsedItems(rows, newId, now), now))
  {
  }

  /** No merged row takes the id of a record none of the new rows matches. */
  lemma MergedBatchAvoids(m: map<string, Item>, all: seq<Item>, parsed: seq<Item>, now: Time, e: Item)
    requires KeyedById(m) && IsSnapshot(all, m) && e in m.Values
    requires forall i :: 0 <= i < |parsed| ==> ItemKey(parsed[i]) != ItemKey(e) && parsed[i].id != e.id
    ensures forall i :: 0 <= i < |parsed| ==> MergeKeepUserData(IndexByKey(all), parsed, now)[i].id != e.id
  {
    forall i | 0 <= i < |parsed| ensures MergeKeepUserData(IndexByKey(all), parsed, now)[i].id != e.id {
      MergedIdDiffers(m, all, parsed[i], now, e);
    }
  }

  /** A merged row takes an existing id only from the record with its own
      key. */
  lemma MergedIdDiffers(m: map<string, Item>, all: seq<Item>, n: Item, now: Time, e: Item)
    requires KeyedById(m) && IsSnapshot(all, m) && e in m.Values
    requires ItemKey(n) != ItemKey(e) && n.id != e.id
    ensures MergeOne(IndexByKey(all), n, now).id != e.id
  {
    var index := IndexByKey(all);
    if ItemKey(n) in index {
      var x := index[ItemKey(n)];
      IndexByKeySound(all, ItemKey(n));
      SnapshotSameId(m, all, x, e);
    }
  }

  /** In a listing of a table keyed by id, the id determines the record. */
  lemma SnapshotSameId(m: map<string, Item>, all: seq<Item>, x: Item, e: Item)
    requires KeyedById(m) && IsSnapshot(all, m) && x in all && e in m.Values
    ensures x.id == e.id ==> x == e
  {
    var j :| 0 <= j < |all| && all[j] == x;
    var k :| k in m && m[k] == e;
  }

  /** `bulkAdd` into an empty table stores only ids of the batch. */
  lemma {:induction false} AddAllOnlyBatch(m: map<string, Item>, batch: seq<Item>, id: string)
    requires id !in m
    requires forall i :: 0 <= i < |batch| ==> batch[i].id != id
    ensures id !in AddAll(m, batch)
    decreases |batch|
  {
    if batch != [] {
      AddAllOnlyBatch(m, batch[..|batch| - 1], id);
    }
  }

  /** `{ isInitialized, itemCount, lastSync }`. */
  datatype SyncStatus = SyncStatus(isInitialized: bool, itemCount: nat, lastSync: Option<Time>)

  /** getSyncStatus: initialised exactly when the table is non-empty. */
  method GetSyncStatus(db: TravelDb) returns (s: SyncStatus)
    ensures s.isInitialized <==> db.items != map[]
    ensures s.itemCount == |db.items|
    ensures s.lastSync == if db.settings.Some? then Some(db.settings.value.lastSync) else None
  {
    var itemCount := db.GetItemCount();
    var settings := db.settings;
    var lastSync := if settings.Some? then Some(settings.value.lastSync) else None;
    s := SyncStatus(itemCount > 0, itemCount, lastSync);
  }
}
