/** The admin screen: the capped search list and the add/edit form over the
    items table. */
module AdminPage {
  import opened Types
  import opened Text
  import opened Seqs
  import opened Db

  /** At most this many search results are listed. */
  const SearchLimit: nat := 50

  /** The three search inputs; an empty city or query does not filter. */
  datatype Search = Search(city: string, category: CategoryFilter, query: string)

  /** The per-item test of the search list. */
  predicate SearchMatches(q: Search, item: Item) {
    && (q.city == "" || item.city == q.city)
    && (q.category.AnyCategory? || item.category == q.category.category)
    && (q.query == "" ||
        Contains(Lower(item.name), Lower(q.query)) || Contains(Lower(item.details), Lower(q.query)))
  }

  function Matching(q: Search): Item -> bool {
    (item: Item) => SearchMatches(q, item)
  }

  /** `allItems.filter(...).slice(0, 50)`. */
  function FilteredItems(all: seq<Item>, q: Search): (r: seq<Item>)
    ensures |r| <= SearchLimit
  {
    var matches := Filter(all, Matching(q));
    if |matches| <= SearchLimit then matches else matches[..SearchLimit]
  }

  /** The search list keeps the first matches in list order: it is a prefix
      of the order-preserving filter, of length at most 50 and no shorter
      than the matches allow. */
  lemma FilteredItemsPrefix(all: seq<Item>, q: Search)
    ensures var r := FilteredItems(all, q);
      var matches := Filter(all, Matching(q));
      && r == matches[..|r|]
      && |r| == if |matches| < SearchLimit then |matches| else SearchLimit
  {
  }

  /** Every listed item is one of the items and passes all three tests. */
  lemma FilteredItemsSound(all: seq<Item>, q: Search, x: Item)
    requires x in FilteredItems(all, q)
    ensures x in all
    ensures q.city != "" ==> x.city == q.city
    ensures q.category.CategoryIs? ==> x.category == q.category.category
    ensures q.query != "" ==>
      Contains(Lower(x.name), Lower(q.query)) || Contains(Lower(x.details), Lower(q.query))
  {
    var matches := Filter(all, Matching(q));
    assert x in matches;
    FilterMembers(all, Matching(q), x);
  }

  /** While there are at most 50 matches, every matching item is listed. */
  lemma FilteredItemsComplete(all: seq<Item>, q: Search, x: Item)
    requires |Filter(all, Matching(q))| <= SearchLimit
    requires x in all && SearchMatches(q, x)
    ensures x in FilteredItems(all, q)
  {
    FilterMembers(all, Matching(q), x);
  }

  /** An empty search lists the first 50 items unchanged. */
  lemma EmptySearchListsAll(all: seq<Item>)
    ensures var r := FilteredItems(all, Search("", AnyCategory, ""));
      r == all[..|r|]
  {
    FilterKeepsAll(all, Matching(Search("", AnyCategory, "")));
  }

  datatype FormMode = Add | Edit

  /** The six text inputs of the form; the subcategory is '' for none. */
  datatype FormData = FormData(
    city: string,
    category: Category,
    subcategory: string,
    name: string,
    details: string,
    location: string)

  const EmptyForm: FormData := FormData("", Places, "", "", "", "")

  datatype MessageKind = Success | Failure

  datatype Message = Message(kind: MessageKind, text: string)

  const RequiredMessage: string := "City and Item Name are required!"
  const SaveFailedMessage: string := "\U{274C} Failed to save item. Please try again."

  /** `value || null` for the subcategory input. */
  function SubcategoryOf(s: string): (r: Option<string>)
    ensures r.None? <==> s == ""
    ensures r.Some? ==> r.value == s
  {
    if s == "" then None else Some(s)
  }

  /** `item.subcategory || ''`. */
  function SubcategoryText(o: Option<string>): (r: string)
    ensures r == "" <==> o.None? || o.value == ""
  {
    if o.Some? then o.value else ""
  }

  /** The form loaded from an item. */
  function FormOf(item: Item): (f: FormData)
    ensures f.city == item.city && f.name == item.name && f.category == item.category
  {
    FormData(item.city, item.category, SubcategoryText(item.subcategory),
             item.name, item.details, item.location)
  }

  /** The edit's update: exactly the six base fields. */
  function BaseFieldsPatch(f: FormData): ItemPatch {
    NoItemChange.(city := Some(f.city), category := Some(f.category),
                  subcategory := Some(SubcategoryOf(f.subcategory)), name := Some(f.name),
                  details := Some(f.details), location := Some(f.location))
  }

  /** An edit writes the form's base fields and the time; the user fields,
      the sort order, the flags and the creation time are untouched. */
  lemma EditChangesOnlyBaseFields(item: Item, f: FormData, now: Time)
    ensures var r := ApplyPatch(item, BaseFieldsPatch(f), now);
      && r.city == f.city && r.category == f.category && r.subcategory == SubcategoryOf(f.subcategory)
      && r.name == f.name && r.details == f.details && r.location == f.location
      && r == item.(city := r.city, category := r.category, subcategory := r.subcategory,
                    name := r.name, details := r.details, location := r.location, updatedAt := now)
  {
  }

  /** Loading an item into the form and saving it unchanged writes back its
      own base fields, so only the time changes; a missing subcategory
      round-trips through ''. */
  lemma EditRoundTrip(item: Item, now: Time)
    requires item.subcategory != Some("")
    ensures ApplyPatch(item, BaseFieldsPatch(FormOf(item)), now) == item.(updatedAt := now)
  {
  }

  /** An edit can change the category and keep the status, so the
      status-fits-category rule is not an invariant of the table. */
  lemma EditMayBreakStatusFit(item: Item, now: Time)
    requires item.category == Places && item.status == Visited
    ensures StatusFits(item.category, item.status)
    ensures var r := ApplyPatch(item, BaseFieldsPatch(FormOf(item).(category := Food)), now);
      !StatusFits(r.category, r.status)
  {
  }

  /** The sort orders already used by a city and category. */
  function GroupOrders(m: map<string, Item>, city: string, c: Category): set<int> {
    set k | k in m && m[k].city == city && m[k].category == c :: m[k].sortOrder
  }

  /** `order` is one more than the largest sort order of the group, or 1 for
      an empty group. */
  predicate IsNextOrder(orders: set<int>, order: int) {
    && (orders == {} ==> order == 1)
    && (orders != {} ==> (forall o :: o in orders ==> o < order) && order - 1 in orders)
  }

  lemma NextOrderUnique(orders: set<int>, a: int, b: int)
    requires IsNextOrder(orders, a) && IsNextOrder(orders, b)
    ensures a == b
  {
    if orders != {} {
      assert a - 1 < b && b - 1 < a;
    }
  }

  /** `Math.max(...existing.map(i => i.sortOrder))`, for a non-empty list. */
  function MaxOrder(s: seq<Item>): (m: int)
    requires s != []
    ensures forall i :: 0 <= i < |s| ==> s[i].sortOrder <= m
    ensures exists i :: 0 <= i < |s| && s[i].sortOrder == m
  {
    if |s| == 1 then s[0].sortOrder
    else
      var m := MaxOrder(s[1..]);
      assert forall i :: 1 <= i < |s| ==> s[i] == s[1..][i - 1];
      if s[0].sortOrder > m then s[0].sortOrder else m
  }

  /** The new item the add path writes. */
  function NewItem(f: FormData, id: string, order: int, now: Time): (it: Item)
    ensures it.isAdminAdded && !it.isPinned && it.status == Pending && StatusFits(it.category, it.status)
    ensures it.priority == None && it.rating == None && it.userNotes == ""
    ensures it.subcategory.Some? ==> it.subcategory.value != ""
  {
    Item(id, f.city, f.category, SubcategoryOf(f.subcategory), f.name, f.details, f.location,
         Pending, None, None, "", order, false, true, now, now)
  }

  /** `!formData.city.trim() || !formData.name.trim()`. */
  predicate Blank(f: FormData) {
    Trim(f.city) == "" || Trim(f.name) == ""
  }

  /** The form after a successful add: cleared, keeping the city only when
      it is not one of the known cities. */
  function ResetAfterAdd(f: FormData, knownCities: seq<string>): (r: FormData)
    ensures f.city in knownCities ==> r.city == ""
    ensures f.city !in knownCities ==> r.city == f.city
    ensures r.(city := "") == EmptyForm
  {
    EmptyForm.(city := if f.city !in knownCities then f.city else "")
  }

  function AddedMessage(f: FormData): string {
    "\U{2705} Successfully added \"" + f.name + "\" to " + f.city + "!"
  }

  /** The form's state. */
  class AdminForm {
    var mode: FormMode
    var editingItemId: Option<string>
    var form: FormData
    var message: Option<Message>

    constructor ()
      ensures mode == Add && editingItemId == None && form == EmptyForm && message == None
    {
      mode := Add;
      editingItemId := None;
      form := EmptyForm;
      message := None;
    }

    /** handleEditItem: switch to editing `item`. */
    method HandleEditItem(item: Item)
      modifies this
      ensures mode == Edit && editingItemId == Some(item.id) && form == FormOf(item) && message == None
    {
      mode := Edit;
      editingItemId := Some(item.id);
      form := FormOf(item);
      message := None;
    }

    /** handleCancelEdit: back to an empty add form. */
    method HandleCancelEdit()
      modifies this
      ensures mode == Add && editingItemId == None && form == EmptyForm && message == None
    {
      mode := Add;
      editingItemId := None;
      form := EmptyForm;
      message := None;
    }

    /** handleSubmit: validate; in edit mode with an id, update the base
        fields and leave edit mode; otherwise add a new item numbered after
        its group. `newId` and `now` stand for the generated id and the
        clock. */
    method HandleSubmit(db: TravelDb, knownCities: seq<string>, newId: string, now: Time)
      requires db.Valid()
      modifies this, db
      ensures db.Valid() && db.settings == old(db.settings)
      ensures Blank(old(form)) ==>
        && db.items == old(db.items)
        && message == Some(Message(Failure, RequiredMessage))
        && mode == old(mode) && editingItemId == old(editingItemId) && form == old(form)
      ensures !Blank(old(form)) && EditsExisting(old(mode), old(editingItemId)) ==>
        EditedState(old(db.items), db.items, old(editingItemId).value, old(form), now)
        && mode == Add && editingItemId == None && form == EmptyForm && message == None
      ensures !Blank(old(form)) && !EditsExisting(old(mode), old(editingItemId)) ==>
        && mode == old(mode) && editingItemId == old(editingItemId)
        && AddedState(old(db.items), db.items, old(form), form, message, knownCities, newId, now)
    {
      if Blank(form) {
        message := Some(Message(Failure, RequiredMessage));
        return;
      }
      message := None;
      if mode == Edit && editingItemId.Some? && editingItemId.value != "" {
        SubmitEdit(db, editingItemId.value, now);
      } else {
        SubmitAdd(db, knownCities, newId, now);
      }
    }

    /** The edit path: write the base fields, report, and leave edit mode
        (which clears the report again). */
    method SubmitEdit(db: TravelDb, id: string, now: Time)
      requires db.Valid()
      modifies this, db
      ensures db.Valid() && db.settings == old(db.settings)
      ensures EditedState(old(db.items), db.items, id, old(form), now)
      ensures mode == Add && editingItemId == None && form == EmptyForm && message == None
    {
      db.UpdateItem(id, BaseFieldsPatch(form), now);
      message := Some(Message(Success, "\U{2705} Successfully updated \"" + form.name + "\"!"));
      HandleCancelEdit();
    }

    /** The add path: number the item after its city and category group,
        add it, report, and reset the form. */
    method SubmitAdd(db: TravelDb, knownCities: seq<string>, newId: string, now: Time)
      requires db.Valid()
      modifies this, db
      ensures db.Valid() && db.settings == old(db.settings)
      ensures mode == old(mode) && editingItemId == old(editingItemId)
      ensures AddedState(old(db.items), db.items, old(form), form, message, knownCities, newId, now)
    {
      var city := form.city;
      var category := form.category;
      var existingItems := db.SortedQuery((x: Item) => x.city == city && x.category == category);
      var maxSortOrder := if |existingItems| > 0 then MaxOrder(existingItems) else 0;
      NextOrderOfGroup(db.items, city, category, existingItems, maxSortOrder + 1);
      var newItem := NewItem(form, newId, maxSortOrder + 1, now);
      var added := db.AddItem(newItem);
      if added.Err? {
        message := Some(Message(Failure, SaveFailedMessage));
        return;
      }
      message := Some(Message(Success, AddedMessage(form)));
      form := ResetAfterAdd(form, knownCities);
    }
  }

  /** Edit mode with a non-empty id. */
  predicate EditsExisting(mode: FormMode, id: Option<string>) {
    mode == Edit && id.Some? && id.value != ""
  }

  /** The table after an edit: the record, if present, has the form's base
      fields; every other record is unchanged. */
  ghost predicate EditedState(before: map<string, Item>, after: map<string, Item>, id: string, f: FormData, now: Time) {
    && (id in before ==> after == before[id := ApplyPatch(before[id], BaseFieldsPatch(f), now)])
    && (id !in before ==> after == before)
  }

  /** The table, form and report after an add: a taken id fails and changes
      nothing; otherwise the new record is added with the next order of its
      group and the form is reset. */
  ghost predicate AddedState(before: map<string, Item>, after: map<string, Item>, f: FormData, f': FormData,
                       message: Option<Message>, knownCities: seq<string>, newId: string, now: Time) {
    && (newId in before ==>
          after == before && f' == f && message == Some(Message(Failure, SaveFailedMessage)))
    && (newId !in before ==>
          (exists order :: IsNextOrder(GroupOrders(before, f.city, f.category), order)
             && after == before[newId := NewItem(f, newId, order, now)])
          && f' == ResetAfterAdd(f, knownCities)
          && message == Some(Message(Success, AddedMessage(f))))
  }

  /** The add path's number is the next order of the group it joins. */
  lemma NextOrderOfGroup(m: map<string, Item>, city: string, c: Category, group: seq<Item>, order: int)
    requires forall x :: x in group <==> x in m.Values && x.city == city && x.category == c
    requires group == [] ==> order == 1
    requires group != [] ==> order == MaxOrder(group) + 1
    ensures IsNextOrder(GroupOrders(m, city, c), order)
  {
    var orders := GroupOrders(m, city, c);
    forall o | o in orders ensures exists j :: 0 <= j < |group| && group[j].sortOrder == o {
      var k :| k in m && m[k].city == city && m[k].category == c && m[k].sortOrder == o;
      assert m[k] in m.Values;
      assert m[k] in group;
    }
    if group == [] {
      assert forall o :: o !in orders;
    } else {
      var i :| 0 <= i < |group| && group[i].sortOrder == order - 1;
      assert group[i] in m.Values;
      var k :| k in m && m[k] == group[i];
      assert order - 1 in orders;
      forall o | o in orders ensures o < order {
        var k' :| k' in m && m[k'].city == city && m[k'].category == c && m[k'].sortOrder == o;
        assert m[k'] in m.Values;
        var j :| 0 <= j < |group| && group[j] == m[k'];
      }
    }
  }
}
