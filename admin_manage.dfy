/** The screen listing the administrator-added records, with its city filter
    and delete button. */
module AdminManage {
  import opened Types
  import opened Text
  import opened Seqs
  import opened Db
  import opened UseItems

  /** The selector value that shows every city. */
  const AllCities: string := "all"

  function IsAdminAdded(): Item -> bool {
    (x: Item) => x.isAdminAdded
  }

  /** `allItems.filter(item => item.isAdminAdded)`. */
  function AdminItems(all: seq<Item>): (r: seq<Item>)
    ensures |r| <= |all|
  {
    Filter(all, IsAdminAdded())
  }

  /** The admin list holds exactly the administrator-added records, each at
      most as often as in the listing. */
  lemma AdminItemsExact(all: seq<Item>, x: Item)
    ensures x in AdminItems(all) <==> x in all && x.isAdminAdded
    ensures multiset(AdminItems(all)) <= multiset(all)
  {
    FilterMembers(all, IsAdminAdded(), x);
    FilterSubMultiset(all, IsAdminAdded());
  }

  /** The admin list keeps listing order: the list of two consecutive parts
      is the two parts' lists, one after the other. */
  lemma AdminItemsInOrder(a: seq<Item>, b: seq<Item>)
    ensures AdminItems(a + b) == AdminItems(a) + AdminItems(b)
  {
    FilterAppend(a, b, IsAdminAdded());
  }

  /** The list shown under the city selector. */
  function FilteredItems(adminItems: seq<Item>, selectedCity: string): seq<Item> {
    if selectedCity == AllCities then adminItems else Filter(adminItems, InCity(selectedCity))
  }

  /** 'all' shows the whole admin list; a city shows exactly its records. */
  lemma FilteredItemsExact(adminItems: seq<Item>, selectedCity: string, x: Item)
    ensures selectedCity == AllCities ==> FilteredItems(adminItems, selectedCity) == adminItems
    ensures selectedCity != AllCities ==>
      (x in FilteredItems(adminItems, selectedCity) <==> x in adminItems && x.city == selectedCity)
  {
    FilterMembers(adminItems, InCity(selectedCity), x);
  }

  /** `Array.from(new Set(cities)).sort()`. */
  function AdminCities(adminItems: seq<Item>): (r: seq<string>)
    ensures StrictlySorted(r)
    ensures Elems(r) == Elems(CityNames(adminItems))
  {
    SortedDistinct(CityNames(adminItems))
  }

  /** The count shown beside a city option. */
  function OptionCount(adminItems: seq<Item>, city: string): nat {
    |Filter(adminItems, InCity(city))|
  }

  /** The counts shown beside the options of `cs`, added up. */
  function OptionTotal(adminItems: seq<Item>, cs: seq<string>): nat {
    if cs == [] then 0 else OptionTotal(adminItems, cs[..|cs| - 1]) + OptionCount(adminItems, cs[|cs| - 1])
  }

  lemma {:induction false} OptionTotalCounts(adminItems: seq<Item>, cs: seq<string>)
    ensures OptionTotal(adminItems, cs) == CountByCities(adminItems, cs)
    decreases |cs|
  {
    if cs != [] {
      OptionTotalCounts(adminItems, cs[..|cs| - 1]);
    }
  }

  /** Every listed city shows a positive count, and the option counts of
      all listed cities add up to the 'all' count. */
  lemma OptionCountsSum(adminItems: seq<Item>)
    ensures forall c :: c in AdminCities(adminItems) ==> OptionCount(adminItems, c) > 0
    ensures OptionTotal(adminItems, AdminCities(adminItems)) == |adminItems|
  {
    var cs := AdminCities(adminItems);
    forall c | c in cs ensures OptionCount(adminItems, c) > 0 {
      assert c in Elems(CityNames(adminItems));
      var i :| 0 <= i < |adminItems| && CityNames(adminItems)[i] == c;
      FilterMembers(adminItems, InCity(c), adminItems[i]);
    }
    forall i, j | 0 <= i < j < |cs| ensures cs[i] != cs[j] {
      StrictlySortedDistinct(cs, i, j);
    }
    forall i | 0 <= i < |adminItems| ensures adminItems[i].city in cs {
      CityNamed(adminItems, i);
    }
    CountByCitiesCovers(adminItems, cs);
    OptionTotalCounts(adminItems, cs);
  }

  /** handleDelete: after the confirmation, delete that one record; a
      declined confirmation changes nothing. */
  method HandleDelete(db: TravelDb, itemId: string, confirmed: bool)
    requires db.Valid()
    modifies db
    ensures db.Valid() && db.settings == old(db.settings)
    ensures confirmed ==> db.items == old(db.items) - {itemId}
    ensures !confirmed ==> db.items == old(db.items)
  {
    if !confirmed {
      return;
    }
    db.DeleteItem(itemId);
  }
}
