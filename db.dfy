/** The local database: an items table keyed by id and a settings table
    holding at most the one record keyed 'app-settings'. The IndexedDB
    wrapper is replaced by an in-memory map; a read of the whole table lists
    the records in primary-key order, as an IndexedDB cursor does. */
module Db {
  import opened Types
  import opened Text
  import opened Seqs

  /** Every record is stored under its own id. */
  predicate KeyedById(m: map<string, Item>) {
    forall k :: k in m ==> m[k].id == k
  }

  function Ids(s: seq<Item>): seq<string> {
    seq(|s|, i requires 0 <= i < |s| => s[i].id)
  }

  /** `all` is what `toArray()` returns for the table `m`: every record once,
      in ascending id order. */
  predicate IsSnapshot(all: seq<Item>, m: map<string, Item>) {
    && StrictlySorted(Ids(all))
    && Elems(Ids(all)) == m.Keys
    && forall i :: 0 <= i < |all| ==> all[i].id in m && m[all[i].id] == all[i]
  }

  /** A table has one listing only. */
  lemma SnapshotUnique(a: seq<Item>, b: seq<Item>, m: map<string, Item>)
    requires IsSnapshot(a, m) && IsSnapshot(b, m)
    ensures a == b
  {
    StrictlySortedUnique(Ids(a), Ids(b));
    assert |a| == |Ids(a)| == |Ids(b)| == |b|;
    forall i | 0 <= i < |a| ensures a[i] == b[i] {
      assert Ids(a)[i] == Ids(b)[i];
    }
  }

  /** The listing has one element per record. */
  lemma SnapshotSize(all: seq<Item>, m: map<string, Item>)
    requires IsSnapshot(all, m)
    ensures |all| == |m|
  {
    StrictlySortedCard(Ids(all));
  }

  /** The listing holds exactly the records of the table. */
  lemma SnapshotMembers(all: seq<Item>, m: map<string, Item>, x: Item)
    requires IsSnapshot(all, m) && KeyedById(m)
    ensures x in all <==> x in m.Values
  {
    if x in m.Values {
      var k :| k in m && m[k] == x;
      assert k in Elems(Ids(all));
      var i :| 0 <= i < |Ids(all)| && Ids(all)[i] == k;
      assert all[i] == x;
    }
  }

  /** Sorted by `sortOrder`, ties broken by id: the order of
      `sortBy('sortOrder')` applied to a listing in id order. */
  predicate OrderedBefore(a: Item, b: Item) {
    a.sortOrder < b.sortOrder || (a.sortOrder == b.sortOrder && Less(a.id, b.id))
  }

  predicate SortedByOrder(s: seq<Item>) {
    forall i, j :: 0 <= i < j < |s| ==> s[i].sortOrder <= s[j].sortOrder
  }

  predicate StrictlyOrdered(s: seq<Item>) {
    forall i, j :: 0 <= i < j < |s| ==> OrderedBefore(s[i], s[j])
  }

  /** Inserts `x` after every element whose sortOrder is not larger. */
  function InsertByOrder(x: Item, s: seq<Item>): (r: seq<Item>)
    requires SortedByOrder(s)
    ensures SortedByOrder(r)
    ensures multiset(r) == multiset(s) + multiset{x}
  {
    if s == [] then [x]
    else if x.sortOrder < s[0].sortOrder then [x] + s
    else
      var t := InsertByOrder(x, s[1..]);
      assert s == [s[0]] + s[1..];
      LowerBoundKept(s[0].sortOrder, x, s[1..], t);
      [s[0]] + t
  }

  lemma LowerBoundKept(b: int, x: Item, s: seq<Item>, t: seq<Item>)
    requires b <= x.sortOrder
    requires forall j :: 0 <= j < |s| ==> b <= s[j].sortOrder
    requires multiset(t) == multiset(s) + multiset{x}
    ensures forall j :: 0 <= j < |t| ==> b <= t[j].sortOrder
  {
    forall j | 0 <= j < |t| ensures b <= t[j].sortOrder {
      assert t[j] in multiset(t);
      if t[j] != x {
        assert t[j] in multiset(s);
        var i :| 0 <= i < |s| && s[i] == t[j];
      }
    }
  }

  /** `sortBy('sortOrder')`: a stable sort on the sort order. */
  function SortBySortOrder(s: seq<Item>): (r: seq<Item>)
    ensures SortedByOrder(r)
    ensures multiset(r) == multiset(s)
  {
    if s == [] then []
    else
      assert s == s[..|s| - 1] + [s[|s| - 1]];
      InsertByOrder(s[|s| - 1], SortBySortOrder(s[..|s| - 1]))
  }

  /** Inserting an item whose id exceeds every id present keeps the
      sortOrder-then-id order. */
  lemma {:induction false} InsertByOrderStable(x: Item, s: seq<Item>)
    requires SortedByOrder(s) && StrictlyOrdered(s)
    requires forall y :: y in s ==> Less(y.id, x.id)
    ensures StrictlyOrdered(InsertByOrder(x, s))
    decreases |s|
  {
    if s == [] {
    } else if x.sortOrder >= s[0].sortOrder {
      var rest := s[1..];
      assert forall y :: y in rest ==> y in s;
      InsertByOrderStable(x, rest);
      var t := InsertByOrder(x, rest);
      assert s[0] in s;
      forall k | 0 <= k < |rest| ensures OrderedBefore(s[0], rest[k]) {
        assert rest[k] == s[k + 1];
      }
      BeforeAllInserted(s[0], x, rest, t);
      ConsOrdered(s[0], t);
    } else {
      forall j | 0 <= j < |s| ensures OrderedBefore(x, s[j]) {
        assert s[0].sortOrder <= s[j].sortOrder;
      }
      ConsOrdered(x, s);
    }
  }

  /** An item ordered before every element of `rest` and before `x` is
      ordered before every element of `rest` with `x` added. */
  lemma BeforeAllInserted(a: Item, x: Item, rest: seq<Item>, t: seq<Item>)
    requires OrderedBefore(a, x)
    requires forall k :: 0 <= k < |rest| ==> OrderedBefore(a, rest[k])
    requires multiset(t) == multiset(rest) + multiset{x}
    ensures forall k :: 0 <= k < |t| ==> OrderedBefore(a, t[k])
  {
    forall k | 0 <= k < |t| ensures OrderedBefore(a, t[k]) {
      assert t[k] in multiset(t);
      if t[k] != x {
        assert t[k] in multiset(rest);
        var j :| 0 <= j < |rest| && rest[j] == t[k];
      }
    }
  }

  /** Putting an item ordered before every element in front of a strictly
      ordered list keeps it strictly ordered. */
  lemma ConsOrdered(a: Item, t: seq<Item>)
    requires StrictlyOrdered(t)
    requires forall k :: 0 <= k < |t| ==> OrderedBefore(a, t[k])
    ensures StrictlyOrdered([a] + t)
  {
    var r := [a] + t;
    forall i, j | 0 <= i < j < |r| ensures OrderedBefore(r[i], r[j]) {
      assert r[j] == t[j - 1];
      if i > 0 {
        assert r[i] == t[i - 1];
      }
    }
  }

  /** Sorting a listing in id order by sortOrder yields the sortOrder-then-id
      order. */
  lemma {:induction false} SortBySortOrderStable(s: seq<Item>)
    requires StrictlySorted(Ids(s))
    ensures StrictlyOrdered(SortBySortOrder(s))
    decreases |s|
  {
    if s != [] {
      var init := s[..|s| - 1];
      var x := s[|s| - 1];
      assert Ids(init) == Ids(s)[..|s| - 1];
      SortBySortOrderStable(init);
      forall y | y in SortBySortOrder(init) ensures Less(y.id, x.id) {
        assert y in multiset(SortBySortOrder(init));
        assert y in multiset(init);
        var i :| 0 <= i < |init| && init[i] == y;
        assert Ids(s)[i] == y.id && Ids(s)[|s| - 1] == x.id;
      }
      InsertByOrderStable(x, SortBySortOrder(init));
    }
  }

  /** Fields a settings update may supply (`Partial<Omit<AppSettings, 'id'>>`). */
  datatype SettingsPatch = SettingsPatch(
    adminPIN: Option<string>,
    theme: Option<Theme>,
    lastSync: Option<Time>,
    sortPreference: Option<SortPreference>)

  /** Dexie's `update`: supplied fields replace, the others stay. */
  function PatchSettings(s: AppSettings, p: SettingsPatch): (r: AppSettings)
    ensures r.id == s.id
    ensures p.adminPIN.Some? ==> r.adminPIN == p.adminPIN.value
    ensures p.theme.Some? ==> r.theme == p.theme.value
    ensures p.lastSync.Some? ==> r.lastSync == p.lastSync.value
    ensures p.sortPreference.Some? ==> r.sortPreference == p.sortPreference.value
    ensures p == NoSettingsChange ==> r == s
  {
    AppSettings(
      id := s.id,
      adminPIN := if p.adminPIN.Some? then p.adminPIN.value else s.adminPIN,
      theme := if p.theme.Some? then p.theme.value else s.theme,
      lastSync := if p.lastSync.Some? then p.lastSync.value else s.lastSync,
      sortPreference := if p.sortPreference.Some? then p.sortPreference.value else s.sortPreference)
  }

  const NoSettingsChange := SettingsPatch(None, None, None, None)

  /** An empty update changes nothing, and applying an update twice is
      applying it once. */
  lemma PatchSettingsLaws(s: AppSettings, p: SettingsPatch)
    ensures PatchSettings(s, NoSettingsChange) == s
    ensures PatchSettings(PatchSettings(s, p), p) == PatchSettings(s, p)
  {
  }

  /** The record initializeSettings creates. */
  function DefaultSettings(now: Time): AppSettings {
    AppSettings(
      id := SettingsKey,
      adminPIN := "1234",
      theme := Auto,
      lastSync := now,
      sortPreference := SortPreference(Manual, Manual, Manual))
  }

  /** The settings table after initializeSettings. */
  function Initialized(s: Option<AppSettings>, now: Time): (r: Option<AppSettings>)
    ensures r.Some?
    ensures s.Some? ==> r == s
  {
    if s.Some? then s else Some(DefaultSettings(now))
  }

  /** Initialising twice is initialising once, whatever the clock says, and a
      fresh record holds the defaults. */
  lemma InitializedLaws(s: Option<AppSettings>, now: Time, later: Time)
    ensures Initialized(Initialized(s, now), later) == Initialized(s, now)
    ensures s.None? ==> var d := Initialized(s, now).value;
      d.adminPIN == "1234" && d.theme == Auto && d.lastSync == now
      && d.sortPreference == SortPreference(Manual, Manual, Manual)
  {
  }

  /** Fields an item update may supply (`Partial<TravelItem>` without the
      primary key and without updatedAt, which updateItem always sets). A
      nullable field is `Some(None)` when set to null. */
  datatype ItemPatch = ItemPatch(
    city: Option<string>,
    category: Option<Category>,
    subcategory: Option<Option<string>>,
    name: Option<string>,
    details: Option<string>,
    location: Option<string>,
    status: Option<Status>,
    priority: Option<Option<Priority>>,
    rating: Option<Option<Rating>>,
    userNotes: Option<string>,
    sortOrder: Option<int>,
    isPinned: Option<bool>,
    isAdminAdded: Option<bool>,
    createdAt: Option<Time>)

  const NoItemChange := ItemPatch(None, None, None, None, None, None, None, None, None, None, None, None, None, None)

  function Pick<T>(o: Option<T>, d: T): T {
    if o.Some? then o.value else d
  }

  /** `{ ...item, ...updates, updatedAt: now }`. */
  function ApplyPatch(it: Item, p: ItemPatch, now: Time): (r: Item)
    ensures r.id == it.id && r.updatedAt == now
  {
    Item(
      id := it.id,
      city := Pick(p.city, it.city),
      category := Pick(p.category, it.category),
      subcategory := Pick(p.subcategory, it.subcategory),
      name := Pick(p.name, it.name),
      details := Pick(p.details, it.details),
      location := Pick(p.location, it.location),
      status := Pick(p.status, it.status),
      priority := Pick(p.priority, it.priority),
      rating := Pick(p.rating, it.rating),
      userNotes := Pick(p.userNotes, it.userNotes),
      sortOrder := Pick(p.sortOrder, it.sortOrder),
      isPinned := Pick(p.isPinned, it.isPinned),
      isAdminAdded := Pick(p.isAdminAdded, it.isAdminAdded),
      createdAt := Pick(p.createdAt, it.createdAt),
      updatedAt := now)
  }

  /** `{ ...p, ...q }`: the later update's fields win. */
  function MergePatch(p: ItemPatch, q: ItemPatch): ItemPatch {
    ItemPatch(
      city := if q.city.Some? then q.city else p.city,
      category := if q.category.Some? then q.category else p.category,
      subcategory := if q.subcategory.Some? then q.subcategory else p.subcategory,
      name := if q.name.Some? then q.name else p.name,
      details := if q.details.Some? then q.details else p.details,
      location := if q.location.Some? then q.location else p.location,
      status := if q.status.Some? then q.status else p.status,
      priority := if q.priority.Some? then q.priority else p.priority,
      rating := if q.rating.Some? then q.rating else p.rating,
      userNotes := if q.userNotes.Some? then q.userNotes else p.userNotes,
      sortOrder := if q.sortOrder.Some? then q.sortOrder else p.sortOrder,
      isPinned := if q.isPinned.Some? then q.isPinned else p.isPinned,
      isAdminAdded := if q.isAdminAdded.Some? then q.isAdminAdded else p.isAdminAdded,
      createdAt := if q.createdAt.Some? then q.createdAt else p.createdAt)
  }

  /** An empty update only stamps the time; two updates in a row are one
      merged update stamped with the later time. */
  lemma ApplyPatchLaws(it: Item, p: ItemPatch, q: ItemPatch, t1: Time, t2: Time)
    ensures ApplyPatch(it, NoItemChange, t1) == it.(updatedAt := t1)
    ensures ApplyPatch(ApplyPatch(it, p, t1), q, t2) == ApplyPatch(it, MergePatch(p, q), t2)
  {
  }

  /** The v2 upgrade's `modify`: isPinned false on every record. */
  function Unpinned(m: map<string, Item>): (r: map<string, Item>)
    ensures r.Keys == m.Keys
    ensures forall k :: k in r ==> !r[k].isPinned && r[k].(isPinned := m[k].isPinned) == m[k]
  {
    map k | k in m :: m[k].(isPinned := false)
  }

  /** The upgrade keeps every record under its id and is idempotent. */
  lemma UnpinnedLaws(m: map<string, Item>)
    requires KeyedById(m)
    ensures KeyedById(Unpinned(m))
    ensures Unpinned(Unpinned(m)) == Unpinned(m)
  {
  }

  /** What `bulkAdd` leaves in the table: each record is added in order
      unless its id is already present, in which case it fails and is
      skipped. */
  function AddAll(m: map<string, Item>, batch: seq<Item>): map<string, Item> {
    if batch == [] then m
    else
      var before := AddAll(m, batch[..|batch| - 1]);
      var x := batch[|batch| - 1];
      if x.id in before then before else before[x.id := x]
  }

  /** How many of the records `bulkAdd` rejects. */
  function Failures(m: map<string, Item>, batch: seq<Item>): (n: nat)
    ensures n <= |batch|
  {
    if batch == [] then 0
    else
      var before := AddAll(m, batch[..|batch| - 1]);
      var x := batch[|batch| - 1];
      Failures(m, batch[..|batch| - 1]) + (if x.id in before then 1 else 0)
  }

  /** `bulkAdd` keeps the table keyed by id and never changes a record that
      was already there. */
  lemma {:induction false} AddAllKeeps(m: map<string, Item>, batch: seq<Item>)
    requires KeyedById(m)
    ensures KeyedById(AddAll(m, batch))
    ensures m.Keys <= AddAll(m, batch).Keys
    ensures forall k :: k in m ==> AddAll(m, batch)[k] == m[k]
    decreases |batch|
  {
    if batch != [] {
      AddAllKeeps(m, batch[..|batch| - 1]);
    }
  }

  /** Distinct ids, none of them in the table. */
  predicate FreshBatch(m: map<string, Item>, batch: seq<Item>) {
    && (forall i, j :: 0 <= i < j < |batch| ==> batch[i].id != batch[j].id)
    && (forall i :: 0 <= i < |batch| ==> batch[i].id !in m)
  }

  /** A fresh batch is added whole: no failure, and the table gains exactly
      the batch's ids. */
  lemma {:induction false} AddAllFresh(m: map<string, Item>, batch: seq<Item>)
    requires FreshBatch(m, batch)
    ensures Failures(m, batch) == 0
    ensures AddAll(m, batch).Keys == m.Keys + Elems(Ids(batch))
    decreases |batch|
  {
    if batch != [] {
      var n := |batch| - 1;
      assert FreshBatch(m, batch[..n]);
      AddAllFresh(m, batch[..n]);
      AddAllFreshStep(m, batch);
    }
  }

  lemma AddAllFreshStep(m: map<string, Item>, batch: seq<Item>)
    requires FreshBatch(m, batch) && batch != []
    requires var init := batch[..|batch| - 1];
      Failures(m, init) == 0 && AddAll(m, init).Keys == m.Keys + Elems(Ids(init))
    ensures Failures(m, batch) == 0
    ensures AddAll(m, batch).Keys == m.Keys + Elems(Ids(batch))
  {
    var n := |batch| - 1;
    var init := batch[..n];
    var x := batch[n];
    assert Ids(batch) == Ids(init) + [x.id];
    assert x.id !in Elems(Ids(init)) by {
      forall i | 0 <= i < n ensures Ids(init)[i] != x.id {
        assert batch[i] == init[i];
      }
    }
    assert x.id !in AddAll(m, init);
  }

  /** Each record of a fresh batch is stored as given, and the old records
      are untouched. */
  lemma {:induction false} AddAllFreshValues(m: map<string, Item>, batch: seq<Item>)
    requires FreshBatch(m, batch)
    ensures forall i :: 0 <= i < |batch| ==>
      batch[i].id in AddAll(m, batch) && AddAll(m, batch)[batch[i].id] == batch[i]
    ensures forall k :: k in m ==> k in AddAll(m, batch) && AddAll(m, batch)[k] == m[k]
    decreases |batch|
  {
    if batch != [] {
      var init := batch[..|batch| - 1];
      assert FreshBatch(m, init);
      AddAllFreshValues(m, init);
      AddAllFreshValuesStep(m, batch);
    }
  }

  lemma AddAllFreshValuesStep(m: map<string, Item>, batch: seq<Item>)
    requires FreshBatch(m, batch) && batch != []
    requires var init := batch[..|batch| - 1];
      && (forall i :: 0 <= i < |init| ==> init[i].id in AddAll(m, init) && AddAll(m, init)[init[i].id] == init[i])
      && (forall k :: k in m ==> k in AddAll(m, init) && AddAll(m, init)[k] == m[k])
    ensures forall i :: 0 <= i < |batch| ==>
      batch[i].id in AddAll(m, batch) && AddAll(m, batch)[batch[i].id] == batch[i]
    ensures forall k :: k in m ==> k in AddAll(m, batch) && AddAll(m, batch)[k] == m[k]
  {
    var n := |batch| - 1;
    var init := batch[..n];
    var x := batch[n];
    assert FreshBatch(m, init);
    AddAllFresh(m, init);
    assert x.id !in Elems(Ids(init)) by {
      forall i | 0 <= i < n ensures Ids(init)[i] != x.id {
        assert batch[i] == init[i];
      }
    }
    var before := AddAll(m, init);
    assert x.id !in before;
    assert AddAll(m, batch) == before[x.id := x];
    forall i | 0 <= i < n
      ensures batch[i].id in AddAll(m, batch) && AddAll(m, batch)[batch[i].id] == batch[i]
    {
      assert batch[i] == init[i];
    }
  }

  /** A second `bulkAdd` of the same batch adds nothing and fails on every
      record. */
  lemma {:induction false} AddAllTwice(m: map<string, Item>, batch: seq<Item>)
    ensures AddAll(AddAll(m, batch), batch) == AddAll(m, batch)
    ensures Failures(AddAll(m, batch), batch) == |batch|
    decreases |batch|
  {
    if batch != [] {
      var init := batch[..|batch| - 1];
      var x := batch[|batch| - 1];
      AddAllGrows(m, batch);
      AddAllAllPresent(AddAll(m, batch), batch);
    }
  }

  /** `bulkAdd` only ever adds keys, and every batch id ends up present. */
  lemma {:induction false} AddAllGrows(m: map<string, Item>, batch: seq<Item>)
    ensures m.Keys <= AddAll(m, batch).Keys
    ensures forall i :: 0 <= i < |batch| ==> batch[i].id in AddAll(m, batch)
    decreases |batch|
  {
    if batch != [] {
      AddAllGrows(m, batch[..|batch| - 1]);
    }
  }

  /** When every batch id is present, `bulkAdd` changes nothing. */
  lemma {:induction false} AddAllAllPresent(m: map<string, Item>, batch: seq<Item>)
    requires forall i :: 0 <= i < |batch| ==> batch[i].id in m
    ensures AddAll(m, batch) == m
    ensures Failures(m, batch) == |batch|
    decreases |batch|
  {
    if batch != [] {
      AddAllAllPresent(m, batch[..|batch| - 1]);
    }
  }

  /** The message of the error `bulkAdd` rejects with when some record
      failed; its exact text is Dexie's. */
  const BulkAddError: string := "BulkError"

  /** The message of the error `add` rejects with on an existing key. */
  const ConstraintError: string := "ConstraintError"

  class TravelDb {
    var items: map<string, Item>
    var settings: Option<AppSettings>

    ghost predicate Valid()
      reads this
    {
      KeyedById(items)
    }

    /** A freshly opened, empty database. */
    constructor ()
      ensures Valid() && items == map[] && settings == None
    {
      items := map[];
      settings := None;
    }

    /** Version 2's upgrade: isPinned = false on every existing record. */
    method UpgradeToV2()
      requires Valid()
      modifies this
      ensures Valid()
      ensures items == Unpinned(old(items)) && settings == old(settings)
    {
      ghost var before := items;
      var todo := items.Keys;
      while todo != {}
        invariant todo <= before.Keys && items.Keys == before.Keys
        invariant forall k :: k in todo ==> items[k] == before[k]
        invariant forall k :: k in items && k !in todo ==> items[k] == before[k].(isPinned := false)
        invariant settings == old(settings)
        decreases |todo|
      {
        var k :| k in todo;
        items := items[k := items[k].(isPinned := false)];
        todo := todo - {k};
      }
      assert items == Unpinned(before);
      UnpinnedLaws(before);
    }

    /** initializeSettings: adds the defaults only when no record exists. */
    method InitializeSettings(now: Time)
      modifies this
      ensures settings == Initialized(old(settings), now)
      ensures items == old(items)
    {
      var existing := settings;
      if existing.None? {
        settings := Some(DefaultSettings(now));
      }
    }

    /** getSettings: always a record, creating the defaults first if absent. */
    method GetSettings(now: Time) returns (s: AppSettings)
      modifies this
      ensures settings == Some(s) && Some(s) == Initialized(old(settings), now)
      ensures items == old(items)
    {
      var existing := settings;
      if existing.None? {
        InitializeSettings(now);
        return settings.value;
      }
      return existing.value;
    }

    /** updateSettings: Dexie's `update` of the 'app-settings' record, which
        does nothing when the record is absent. */
    method UpdateSettings(p: SettingsPatch)
      modifies this
      ensures old(settings).Some? ==> settings == Some(PatchSettings(old(settings).value, p))
      ensures old(settings).None? ==> settings == None
      ensures items == old(items)
    {
      if settings.Some? {
        settings := Some(PatchSettings(settings.value, p));
      }
    }

    /** The table's keys in ascending order. */
    method SortedKeys() returns (keys: seq<string>)
      ensures StrictlySorted(keys) && Elems(keys) == items.Keys
    {
      keys := [];
      var todo := items.Keys;
      while todo != {}
        invariant todo <= items.Keys
        invariant StrictlySorted(keys) && Elems(keys) == items.Keys - todo
        decreases |todo|
      {
        var k :| k in todo;
        keys := InsertSorted(k, keys);
        todo := todo - {k};
      }
    }

    /** `db.items.toArray()`. */
    method ToArray() returns (all: seq<Item>)
      requires Valid()
      ensures IsSnapshot(all, items)
    {
      var keys := SortedKeys();
      all := [];
      var i := 0;
      while i < |keys|
        invariant 0 <= i <= |keys|
        invariant |all| == i
        invariant forall j :: 0 <= j < i ==> all[j] == items[keys[j]]
      {
        assert keys[i] in Elems(keys);
        all := all + [items[keys[i]]];
        i := i + 1;
      }
      assert Ids(all) == keys;
    }

    /** getItemsByCity: the records of one city, in id order. */
    method GetItemsByCity(city: string) returns (r: seq<Item>)
      requires Valid()
      ensures StrictlySorted(Ids(r))
      ensures forall x :: x in r <==> x in items.Values && x.city == city
    {
      var all := ToArray();
      r := Filter(all, (x: Item) => x.city == city);
      FilterSubsequenceIds(all, (x: Item) => x.city == city);
      forall x ensures x in r <==> x in items.Values && x.city == city {
        FilterMembers(all, (x: Item) => x.city == city, x);
        SnapshotMembers(all, items, x);
      }
    }

    /** A query sorted by sortOrder: the records satisfying `p`, in the
        sortOrder-then-id order. */
    method SortedQuery(p: Item -> bool) returns (r: seq<Item>)
      requires Valid()
      ensures StrictlyOrdered(r) && SortedByOrder(r)
      ensures forall x :: x in r <==> x in items.Values && p(x)
    {
      var all := ToArray();
      var selected := Filter(all, p);
      FilterSubsequenceIds(all, p);
      r := SortBySortOrder(selected);
      SortBySortOrderStable(selected);
      forall x ensures x in r <==> x in items.Values && p(x) {
        assert x in r <==> x in multiset(r);
        assert x in selected <==> x in multiset(selected);
        FilterMembers(all, p, x);
        SnapshotMembers(all, items, x);
      }
    }

    /** getItemsByCityAndCategory: the records matching both keys, ordered
        by sortOrder. */
    method GetItemsByCityAndCategory(city: string, category: string) returns (r: seq<Item>)
      requires Valid()
      ensures StrictlyOrdered(r) && SortedByOrder(r)
      ensures forall x :: x in r <==> x in items.Values && x.city == city && CategoryName(x.category) == category
    {
      r := SortedQuery((x: Item) => x.city == city && CategoryName(x.category) == category);
    }

    /** getCities: every city of some record, once each, ascending. */
    method GetCities() returns (cities: seq<string>)
      requires Valid()
      ensures StrictlySorted(cities)
      ensures Elems(cities) == set k | k in items :: items[k].city
    {
      var all := ToArray();
      var names := seq(|all|, i requires 0 <= i < |all| => all[i].city);
      cities := SortedDistinct(names);
      forall c | c in set k | k in items :: items[k].city ensures c in Elems(names) {
        var k :| k in items && items[k].city == c;
        assert k in Elems(Ids(all));
        var i :| 0 <= i < |Ids(all)| && Ids(all)[i] == k;
        assert names[i] == c;
      }
    }

    /** addItem: fails on an existing id and changes nothing then. */
    method AddItem(item: Item) returns (r: Result<string>)
      requires Valid()
      modifies this
      ensures Valid()
      ensures item.id in old(items) ==> r == Err(ConstraintError) && items == old(items)
      ensures item.id !in old(items) ==> r == Ok(item.id) && items == old(items)[item.id := item]
      ensures settings == old(settings)
    {
      if item.id in items {
        return Err(ConstraintError);
      }
      items := items[item.id := item];
      r := Ok(item.id);
    }

    /** updateItem: overwrites only the supplied fields and stamps updatedAt;
        a missing id is left alone. */
    method UpdateItem(id: string, p: ItemPatch, now: Time)
      requires Valid()
      modifies this
      ensures Valid()
      ensures id in old(items) ==> items == old(items)[id := ApplyPatch(old(items)[id], p, now)]
      ensures id !in old(items) ==> items == old(items)
      ensures settings == old(settings)
    {
      if id in items {
        items := items[id := ApplyPatch(items[id], p, now)];
      }
    }

    /** deleteItem: removes that id only. */
    method DeleteItem(id: string)
      requires Valid()
      modifies this
      ensures Valid()
      ensures items == old(items) - {id} && settings == old(settings)
    {
      items := items - {id};
    }

    /** clearAllItems: the table becomes empty. */
    method ClearAllItems()
      modifies this
      ensures Valid()
      ensures items == map[] && settings == old(settings)
    {
      items := map[];
    }

    /** getItemCount. */
    method GetItemCount() returns (n: nat)
      ensures n == |items|
      ensures n == 0 <==> items == map[]
    {
      n := |items|;
      if n == 0 {
        assert items == map[];
      } else {
        var k :| k in items;
      }
    }

    /** `db.items.bulkAdd(batch)`: adds the records in order, skipping and
        counting those whose id is already present; some failure rejects the
        call. */
    method BulkAdd(batch: seq<Item>) returns (r: Result<nat>)
      requires Valid()
      modifies this
      ensures Valid()
      ensures items == AddAll(old(items), batch) && settings == old(settings)
      ensures Failures(old(items), batch) == 0 ==> r == Ok(|batch|)
      ensures Failures(old(items), batch) > 0 ==> r == Err(BulkAddError)
    {
      ghost var before := items;
      var failures := 0;
      var i := 0;
      while i < |batch|
        invariant 0 <= i <= |batch|
        invariant items == AddAll(before, batch[..i])
        invariant failures == Failures(before, batch[..i])
        invariant settings == old(settings)
      {
        assert batch[..i + 1][..i] == batch[..i];
        var x := batch[i];
        if x.id in items {
          failures := failures + 1;
        } else {
          items := items[x.id := x];
        }
        i := i + 1;
      }
      assert batch[..i] == batch;
      AddAllKeeps(before, batch);
      if failures > 0 {
        return Err(BulkAddError);
      }
      r := Ok(|batch|);
    }
  }

  /** A filter of a listing in id order is again in id order. */
  lemma FilterSubsequenceIds(all: seq<Item>, p: Item -> bool)
    requires StrictlySorted(Ids(all))
    ensures StrictlySorted(Ids(Filter(all, p)))
  {
    FilterSortedIds(all, p);
  }

  lemma {:induction false} FilterSortedIds(all: seq<Item>, p: Item -> bool)
    requires StrictlySorted(Ids(all))
    ensures StrictlySorted(Ids(Filter(all, p)))
    ensures forall i :: 0 <= i < |Filter(all, p)| ==> Filter(all, p)[i] in all
    decreases |all|
  {
    if all != [] {
      var init := all[..|all| - 1];
      var x := all[|all| - 1];
      assert Ids(init) == Ids(all)[..|all| - 1];
      FilterSortedIds(init, p);
      var f := Filter(init, p);
      if p(x) {
        forall i | 0 <= i < |f| ensures Less(f[i].id, x.id) {
          var j :| 0 <= j < |init| && init[j] == f[i];
          assert Ids(all)[j] == f[i].id;
          assert Ids(all)[|all| - 1] == x.id;
        }
        assert Filter(all, p) == f + [x];
        var ids := Ids(f + [x]);
        forall i, j | 0 <= i < j < |ids| ensures Less(ids[i], ids[j]) {
          if j == |f| {
            assert ids[i] == f[i].id;
          } else {
            assert ids[i] == Ids(f)[i] && ids[j] == Ids(f)[j];
          }
        }
        forall i | 0 <= i < |f + [x]| ensures (f + [x])[i] in all {
          if i < |f| {
            assert f[i] in init;
          }
        }
      } else {
        assert Filter(all, p) == f;
        forall i | 0 <= i < |f| ensures f[i] in all {
          assert f[i] in init;
        }
      }
    }
  }
}
