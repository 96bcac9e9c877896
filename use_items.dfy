/** The hooks the checklist screens read through: the per-city summaries, the
    per-city item list, and the first-load sync status. */
module UseItems {
  import opened Types
  import opened Text
  import opened Seqs
  import opened ExcelParser
  import opened Db
  import opened DataSync

  function InCity(city: string): Item -> bool {
    (x: Item) => x.city == city
  }

  function InCategory(c: Category): Item -> bool {
    (x: Item) => x.category == c
  }

  function Completed(): Item -> bool {
    (x: Item) => IsCompleted(x.status)
  }

  /** The city of every item, in order. */
  function CityNames(all: seq<Item>): seq<string> {
    seq(|all|, i requires 0 <= i < |all| => all[i].city)
  }

  function CitiesOf(ss: seq<CitySummary>): seq<string> {
    seq(|ss|, i requires 0 <= i < |ss| => ss[i].city)
  }

  /** The summary of one city's items. */
  function Summarize(city: string, cityItems: seq<Item>): (s: CitySummary)
    ensures s.city == city && s.totalItems == |cityItems|
    ensures s.completedItems <= s.totalItems
  {
    CitySummary(city, |cityItems|, |Filter(cityItems, Completed())|,
      CategoryCounts(|Filter(cityItems, InCategory(Places))|,
                     |Filter(cityItems, InCategory(Shopping))|,
                     |Filter(cityItems, InCategory(Food))|))
  }

  /** The summary the screen shows for `city`. */
  function SummaryFor(all: seq<Item>, city: string): CitySummary {
    Summarize(city, Filter(all, InCity(city)))
  }

  /** The three category counts partition the city's items. */
  lemma {:induction false} CategoryCountsPartition(cityItems: seq<Item>)
    ensures var c := Summarize("", cityItems).categoryCounts;
      c.places + c.shopping + c.food == |cityItems|
    decreases |cityItems|
  {
    if cityItems != [] {
      CategoryCountsPartition(cityItems[..|cityItems| - 1]);
    }
  }

  /** Every summary's category counts add up to its total. */
  lemma SummaryCountsAddUp(all: seq<Item>, city: string)
    ensures var s := SummaryFor(all, city);
      s.categoryCounts.places + s.categoryCounts.shopping + s.categoryCounts.food == s.totalItems
      && s.completedItems <= s.totalItems
  {
    CategoryCountsPartition(Filter(all, InCity(city)));
  }

  /** Inserts a summary by city; `localeCompare` is the string order. */
  function InsertByCity(x: CitySummary, s: seq<CitySummary>): (r: seq<CitySummary>)
    ensures multiset(r) == multiset(s) + multiset{x}
  {
    if s == [] then [x]
    else if !Less(s[0].city, x.city) then [x] + s
    else
      assert s == [s[0]] + s[1..];
      [s[0]] + InsertByCity(x, s[1..])
  }

  /** `summaries.sort((a, b) => a.city.localeCompare(b.city))`. */
  function SortByCity(s: seq<CitySummary>): (r: seq<CitySummary>)
    ensures multiset(r) == multiset(s)
  {
    if s == [] then []
    else
      assert s == s[..|s| - 1] + [s[|s| - 1]];
      InsertByCity(s[|s| - 1], SortByCity(s[..|s| - 1]))
  }

  /** On a new city, inserting a summary inserts its city into the sorted
      city list. */
  lemma {:induction false} InsertByCityCities(x: CitySummary, s: seq<CitySummary>)
    requires StrictlySorted(CitiesOf(s)) && x.city !in Elems(CitiesOf(s))
    ensures CitiesOf(InsertByCity(x, s)) == InsertSorted(x.city, CitiesOf(s))
    decreases |s|
  {
    if s != [] {
      assert CitiesOf(s)[0] == s[0].city;
      if !Less(s[0].city, x.city) {
        LessTotal(x.city, s[0].city);
      } else {
        LessAsymmetric(s[0].city, x.city);
        assert CitiesOf(s)[1..] == CitiesOf(s[1..]);
        InsertByCityCities(x, s[1..]);
      }
    }
  }

  /** Sorting summaries of distinct cities sorts their cities. */
  lemma {:induction false} SortByCityCities(s: seq<CitySummary>)
    requires Distinct(CitiesOf(s))
    ensures CitiesOf(SortByCity(s)) == SortedDistinct(CitiesOf(s))
    decreases |s|
  {
    if s != [] {
      var n := |s| - 1;
      assert CitiesOf(s[..n]) == CitiesOf(s)[..n];
      assert CitiesOf(s) == CitiesOf(s)[..n] + [s[n].city];
      SortByCityCities(s[..n]);
      var t := SortByCity(s[..n]);
      forall k | 0 <= k < n ensures CitiesOf(s[..n])[k] != s[n].city {
        assert CitiesOf(s)[k] != CitiesOf(s)[n];
      }
      assert s[n].city !in Elems(CitiesOf(t));
      InsertByCityCities(s[n], t);
    }
  }

  /** The cities of `s` in the order they first occur, each once: the
      insertion order of a `Map` keyed by them. */
  function FirstSeen(s: seq<string>): (r: seq<string>)
    ensures Distinct(r)
    ensures Elems(r) == Elems(s)
  {
    if s == [] then []
    else
      var init := s[..|s| - 1];
      var c := s[|s| - 1];
      var p := FirstSeen(init);
      assert Elems(s) == Elems(init) + {c} by {
        assert s == init + [c];
      }
      if c in p then p else p + [c]
  }

  /** One more city joins the first-seen list exactly when it is new. */
  lemma FirstSeenSnoc(s: seq<string>, c: string)
    ensures FirstSeen(s + [c]) == if c in FirstSeen(s) then FirstSeen(s) else FirstSeen(s) + [c]
  {
    assert (s + [c])[..|s|] == s;
  }

  /** The grouping pass of useCitySummaries: `cityMap` holds each city's
      items in order, and `order` lists the cities as first seen (the Map's
      iteration order). */
  method GroupByCity(items: seq<Item>) returns (cityMap: map<string, seq<Item>>, order: seq<string>)
    ensures order == FirstSeen(CityNames(items))
    ensures cityMap.Keys == Elems(order) == Elems(CityNames(items))
    ensures Distinct(order)
    ensures forall c :: c in cityMap ==> cityMap[c] == Filter(items, InCity(c))
  {
    cityMap := map[];
    order := [];
    for i := 0 to |items|
      invariant order == FirstSeen(CityNames(items[..i]))
      invariant cityMap.Keys == Elems(order)
      invariant forall c :: c in cityMap ==> cityMap[c] == Filter(items[..i], InCity(c))
    {
      var item := items[i];
      GroupStep(items, i, cityMap, order);
      var group := if item.city in cityMap then cityMap[item.city] else [];
      if item.city !in cityMap {
        order := order + [item.city];
      }
      cityMap := cityMap[item.city := group + [item]];
    }
    assert items[..|items|] == items;
  }

  /** One scanning step of `GroupByCity` keeps its three loop invariants. */
  lemma GroupStep(items: seq<Item>, i: nat, m: map<string, seq<Item>>, order: seq<string>)
    requires i < |items| && order == FirstSeen(CityNames(items[..i]))
    requires m.Keys == Elems(order)
    requires forall c :: c in m ==> m[c] == Filter(items[..i], InCity(c))
    ensures var city := items[i].city;
      var group := if city in m then m[city] else [];
      var order' := if city in m then order else order + [city];
      var m' := m[city := group + [items[i]]];
      && order' == FirstSeen(CityNames(items[..i + 1]))
      && m'.Keys == Elems(order')
      && forall c :: c in m' ==> m'[c] == Filter(items[..i + 1], InCity(c))
  {
    var city := items[i].city;
    GroupOrderStep(items, i, order);
    if city in m {
      GroupMapStep(items, i, m, m[city]);
    } else {
      assert Elems(order + [city]) == Elems(order) + {city};
      GroupMapStep(items, i, m, []);
    }
  }

  /** Scanning one more item extends the first-seen list by its city exactly
      when the city is new, and a new city has no items yet. */
  lemma GroupOrderStep(items: seq<Item>, i: nat, order: seq<string>)
    requires i < |items| && order == FirstSeen(CityNames(items[..i]))
    ensures FirstSeen(CityNames(items[..i + 1]))
      == if items[i].city in order then order else order + [items[i].city]
    ensures items[i].city !in order ==> Filter(items[..i], InCity(items[i].city)) == []
  {
    CityNamesStep(items, i);
    FirstSeenSnoc(CityNames(items[..i]), items[i].city);
    if items[i].city !in order {
      assert items[i].city !in Elems(CityNames(items[..i]));
      NoItemsYet(items, i, items[i].city);
    }
  }

  lemma CityNamesStep(items: seq<Item>, i: nat)
    requires i < |items|
    ensures CityNames(items[..i + 1]) == CityNames(items[..i]) + [items[i].city]
  {
    assert items[..i + 1] == items[..i] + [items[i]];
  }

  /** A city not yet seen has no items in the scanned prefix. */
  lemma NoItemsYet(items: seq<Item>, i: nat, c: string)
    requires i <= |items|
    requires c !in Elems(CityNames(items[..i]))
    ensures Filter(items[..i], InCity(c)) == []
  {
    forall k | 0 <= k < i ensures !InCity(c)(items[..i][k]) {
      assert CityNames(items[..i])[k] in Elems(CityNames(items[..i]));
    }
    FilterNone(items[..i], InCity(c));
  }

  /** Scanning one more item adds it to its own city's group only. */
  /** Appending the scanned item to its city's group keeps every group equal
      to that city's items so far. */
  lemma GroupMapStep(items: seq<Item>, i: nat, m: map<string, seq<Item>>, group: seq<Item>)
    requires i < |items| && group == Filter(items[..i], InCity(items[i].city))
    requires forall c :: c in m ==> m[c] == Filter(items[..i], InCity(c))
    ensures var m' := m[items[i].city := group + [items[i]]];
      forall c :: c in m' ==> m'[c] == Filter(items[..i + 1], InCity(c))
  {
    var m' := m[items[i].city := group + [items[i]]];
    forall c | c in m'
      ensures m'[c] == Filter(items[..i + 1], InCity(c))
    {
      CityFilterStep(items, i, c);
    }
  }

  lemma CityFilterStep(items: seq<Item>, i: nat, c: string)
    requires i < |items|
    ensures Filter(items[..i + 1], InCity(c))
      == Filter(items[..i], InCity(c)) + (if items[i].city == c then [items[i]] else [])
  {
    assert items[..i + 1][..i] == items[..i];
  }

  /** useCitySummaries: group the live item list by city in first-seen
      order, summarise each group, sort by city. A list still loading reads
      as empty. */
  method CitySummaries(loaded: Option<seq<Item>>) returns (summaries: seq<CitySummary>)
    ensures var all := if loaded.Some? then loaded.value else [];
      && StrictlySorted(CitiesOf(summaries))
      && Elems(CitiesOf(summaries)) == Elems(CityNames(all))
      && forall i :: 0 <= i < |summaries| ==> summaries[i] == SummaryFor(all, summaries[i].city)
  {
    var items := if loaded.Some? then loaded.value else [];
    var cityMap, order := GroupByCity(items);
    var unsorted: seq<CitySummary> := [];
    for j := 0 to |order|
      invariant |unsorted| == j
      invariant forall k :: 0 <= k < j ==> unsorted[k] == SummaryFor(items, order[k])
    {
      var city := order[j];
      assert city in Elems(order);
      var cityItems := cityMap[city];
      var summary := Summarize(city, cityItems);
      SummaryStep(items, order, unsorted, summary);
      unsorted := unsorted + [summary];
    }
    assert CitiesOf(unsorted) == order;
    assert forall k :: 0 <= k < |unsorted| ==> unsorted[k].city == order[k] by {
      forall k | 0 <= k < |unsorted| ensures unsorted[k].city == order[k] {
        assert CitiesOf(unsorted)[k] == unsorted[k].city;
      }
    }
    summaries := SortByCity(unsorted);
    SortByCityCities(unsorted);
    SortKeepsSummaries(items, unsorted);
  }

  /** Appending the next city's summary keeps the list summary-for-summary
      in step with the city order. */
  lemma SummaryStep(items: seq<Item>, order: seq<string>, unsorted: seq<CitySummary>, summary: CitySummary)
    requires |unsorted| < |order|
    requires forall k :: 0 <= k < |unsorted| ==> unsorted[k] == SummaryFor(items, order[k])
    requires summary == SummaryFor(items, order[|unsorted|])
    ensures forall k :: 0 <= k < |unsorted| + 1 ==> (unsorted + [summary])[k] == SummaryFor(items, order[k])
  {
  }

  /** Sorting a list of faithful summaries leaves every summary faithful. */
  lemma SortKeepsSummaries(items: seq<Item>, unsorted: seq<CitySummary>)
    requires forall k :: 0 <= k < |unsorted| ==> unsorted[k] == SummaryFor(items, unsorted[k].city)
    ensures var summaries := SortByCity(unsorted);
      forall i :: 0 <= i < |summaries| ==> summaries[i] == SummaryFor(items, summaries[i].city)
  {
    var summaries := SortByCity(unsorted);
    forall i | 0 <= i < |summaries| ensures summaries[i] == SummaryFor(items, summaries[i].city) {
      assert summaries[i] in multiset(unsorted);
      var k :| 0 <= k < |unsorted| && unsorted[k] == summaries[i];
    }
  }

  lemma CityNamed(all: seq<Item>, i: int)
    requires 0 <= i < |all|
    ensures all[i].city in Elems(CityNames(all))
  {
    assert CityNames(all)[i] == all[i].city;
  }

  /** The total of a summary list. */
  function SumTotals(ss: seq<CitySummary>): nat {
    if ss == [] then 0 else SumTotals(ss[..|ss| - 1]) + ss[|ss| - 1].totalItems
  }

  /** How many items lie in the cities of `cs`, city by city. */
  function CountByCities(all: seq<Item>, cs: seq<string>): nat {
    if cs == [] then 0 else CountByCities(all, cs[..|cs| - 1]) + |Filter(all, InCity(cs[|cs| - 1]))|
  }

  /** How often `city` occurs in `cs`. */
  function Occurrences(cs: seq<string>, city: string): nat {
    if cs == [] then 0 else Occurrences(cs[..|cs| - 1], city) + (if cs[|cs| - 1] == city then 1 else 0)
  }

  lemma {:induction false} CountByCitiesAppend(all: seq<Item>, x: Item, cs: seq<string>)
    ensures CountByCities(all + [x], cs) == CountByCities(all, cs) + Occurrences(cs, x.city)
    decreases |cs|
  {
    if cs != [] {
      CountByCitiesAppend(all, x, cs[..|cs| - 1]);
      FilterAppend(all, [x], InCity(cs[|cs| - 1]));
      assert [x][..0] == [];
    }
  }

  lemma {:induction false} OccursOnce(cs: seq<string>, city: string)
    requires Distinct(cs) && city in cs
    ensures Occurrences(cs, city) == 1
    decreases |cs|
  {
    var n := |cs| - 1;
    if cs[n] == city {
      forall k | 0 <= k < n ensures cs[..n][k] != city {
        assert cs[k] != cs[n];
      }
      OccursNever(cs[..n], city);
    } else {
      var k :| 0 <= k < |cs| && cs[k] == city;
      assert cs[..n][k] == city;
      OccursOnce(cs[..n], city);
    }
  }

  lemma {:induction false} OccursNever(cs: seq<string>, city: string)
    requires forall k :: 0 <= k < |cs| ==> cs[k] != city
    ensures Occurrences(cs, city) == 0
    decreases |cs|
  {
    if cs != [] {
      OccursNever(cs[..|cs| - 1], city);
    }
  }

  /** Counting city by city over a list of distinct cities that covers every
      item counts every item once. */
  lemma {:induction false} CountByCitiesCovers(all: seq<Item>, cs: seq<string>)
    requires Distinct(cs)
    requires forall i :: 0 <= i < |all| ==> all[i].city in cs
    ensures CountByCities(all, cs) == |all|
    decreases |all|
  {
    if all == [] {
      CountByCitiesEmpty(cs);
    } else {
      var n := |all| - 1;
      assert all == all[..n] + [all[n]];
      CountByCitiesCovers(all[..n], cs);
      CountByCitiesAppend(all[..n], all[n], cs);
      OccursOnce(cs, all[n].city);
    }
  }

  lemma {:induction false} CountByCitiesEmpty(cs: seq<string>)
    ensures CountByCities([], cs) == 0
    decreases |cs|
  {
    if cs != [] {
      CountByCitiesEmpty(cs[..|cs| - 1]);
    }
  }

  lemma {:induction false} SumTotalsByCity(all: seq<Item>, ss: seq<CitySummary>)
    requires forall i :: 0 <= i < |ss| ==> ss[i] == SummaryFor(all, ss[i].city)
    ensures SumTotals(ss) == CountByCities(all, CitiesOf(ss))
    decreases |ss|
  {
    if ss != [] {
      var n := |ss| - 1;
      assert CitiesOf(ss[..n]) == CitiesOf(ss)[..n];
      SumTotalsByCity(all, ss[..n]);
    }
  }

  /** The summaries' totals add up to the number of items: every item is
      counted in exactly one summary. */
  lemma SummaryTotalsSum(all: seq<Item>, ss: seq<CitySummary>)
    requires StrictlySorted(CitiesOf(ss)) && Elems(CitiesOf(ss)) == Elems(CityNames(all))
    requires forall i :: 0 <= i < |ss| ==> ss[i] == SummaryFor(all, ss[i].city)
    ensures SumTotals(ss) == |all|
  {
    var cs := CitiesOf(ss);
    forall i, j | 0 <= i < j < |cs| ensures cs[i] != cs[j] {
      StrictlySortedDistinct(cs, i, j);
    }
    forall i | 0 <= i < |all| ensures all[i].city in cs {
      CityNamed(all, i);
    }
    SumTotalsByCity(all, ss);
    CountByCitiesCovers(all, cs);
  }

  /** useItems: the items of a city, and of a category when one is given, by
      sortOrder (ties by id). */
  method ItemsOf(db: TravelDb, city: string, category: Option<Category>) returns (items: seq<Item>)
    requires db.Valid()
    ensures StrictlyOrdered(items) && SortedByOrder(items)
    ensures forall x :: x in items <==>
      x in db.items.Values && x.city == city && (category.Some? ==> x.category == category.value)
  {
    if category.Some? {
      items := db.SortedQuery((x: Item) => x.city == city && x.category == category.value);
    } else {
      items := db.SortedQuery((x: Item) => x.city == city);
    }
  }

  /** The state useDataSync exposes. */
  datatype HookStatus = HookStatus(isInitialized: bool, isLoading: bool, error: Option<string>)

  const InitialHookStatus: HookStatus := HookStatus(false, true, None)

  const SyncFailed: string := "Failed to sync data"

  /** `result.error || 'Failed to sync data'`: an absent or empty message
      falls back to the generic one. */
  function ErrorText(e: Option<string>): (r: string)
    ensures r != ""
    ensures e.Some? && e.value != "" ==> r == e.value
    ensures e.None? || e.value == "" ==> r == SyncFailed
  {
    if e.Some? && e.value != "" then e.value else SyncFailed
  }

  /** The status the hook settles on after the check and the sync. */
  function SettledStatus(needsSync: bool, r: SyncResult): (s: HookStatus)
    ensures !s.isLoading
    ensures s.isInitialized <==> s.error.None?
    ensures s.isInitialized <==> !needsSync || r.success
    ensures !s.isInitialized ==> s.error == Some(ErrorText(r.error))
  {
    if !needsSync || r.success then HookStatus(true, false, None)
    else HookStatus(false, false, Some(ErrorText(r.error)))
  }

  /** useDataSync's effect: starting from the loading state, check whether a
      first sync is needed, run it if so, and settle. */
  method DataSyncHook(db: TravelDb, workbook: Result<seq<Row>>, newId: nat -> string, now: Time)
    returns (status: HookStatus)
    requires db.Valid()
    modifies db
    ensures db.Valid()
    ensures old(db.items) != map[] ==>
      status == SettledStatus(false, SyncResult(true, 0, None))
      && db.items == old(db.items) && db.settings == old(db.settings)
    ensures old(db.items) == map[] ==>
      var (r, st) := Sync(StoreState(old(db.items), old(db.settings)), workbook, newId, now);
      status == SettledStatus(true, r) && StoreState(db.items, db.settings) == st
  {
    status := InitialHookStatus;
    var needsSync := NeedsInitialSync(db);
    if needsSync {
      var result := SyncDataFromExcel(db, workbook, newId, now);
      status := SettledStatus(true, result);
    } else {
      status := HookStatus(true, false, None);
    }
  }

  /** A failed first sync shows the sync's own message: the parse error for
      an unreadable workbook, the empty-sheet message for a sheet without
      items. */
  lemma FailedSyncShowsReason(st: StoreState, workbook: Result<seq<Row>>, newId: nat -> string, now: Time)
    requires st.items == map[]
    ensures workbook.Err? ==>
      SettledStatus(true, Sync(st, workbook, newId, now).0).error == Some(ParseFailed)
    ensures workbook.Ok? && ParsedItems(workbook.value, newId, now) == [] ==>
      SettledStatus(true, Sync(st, workbook, newId, now).0).error == Some(NoItemsFound)
  {
  }

  /** When the hook reports the data initialised, the table holds items. */
  lemma InitializedHasItems(st: StoreState, workbook: Result<seq<Row>>, newId: nat -> string, now: Time)
    ensures var (r, st1) := Sync(st, workbook, newId, now);
      SettledStatus(st.items == map[], r).isInitialized ==> st1.items != map[]
  {
    var (r, st1) := Sync(st, workbook, newId, now);
    if st.items == map[] && r.success {
      var parsed := ParsedItems(workbook.value, newId, now);
      AddAllGrows(st.items, parsed);
      assert parsed[0].id in st1.items;
    }
  }
}
