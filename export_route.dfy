/** The POST handler that writes the items back to the bundled workbook,
    the same file the first-load sync and the re-import read. */
module ExportRoute {
  import opened Types
  import opened Text
  import opened Seqs
  import opened ExcelParser

  /** One element of the request's `items` array, as JSON: `None` is a
      missing or `null` field. The handler trusts no type, so every field
      other than city, category and name is optional. */
  datatype RequestItem = RequestItem(
    city: string,
    category: string,
    subcategory: Option<string>,
    name: string,
    details: Option<string>,
    location: Option<string>,
    status: Option<string>,
    priority: Option<string>,
    rating: Option<int>,
    userNotes: Option<string>,
    sortOrder: Option<int>,
    isPinned: Option<bool>,
    isAdminAdded: Option<bool>)

  /** `value || fallback` for a string: '' and a missing value are falsy. */
  function TextOr(s: Option<string>, fallback: string): (r: string)
    ensures s.Some? && s.value != "" ==> r == s.value
    ensures s.None? || s.value == "" ==> r == fallback
  {
    if s.Some? && s.value != "" then s.value else fallback
  }

  /** `value || fallback` for a number: 0 and a missing value are falsy. */
  function NumOr(n: Option<int>, fallback: int): (r: int)
    ensures n.Some? && n.value != 0 ==> r == n.value
    ensures n.None? || n.value == 0 ==> r == fallback
  {
    if n.Some? && n.value != 0 then n.value else fallback
  }

  /** `flag ? 'Yes' : 'No'`. */
  function Flag(b: Option<bool>): (r: string)
    ensures r == "Yes" <==> b == Some(true)
    ensures r == "No" <==> b != Some(true)
  {
    if b == Some(true) then "Yes" else "No"
  }

  /** The object each item becomes, one field per column. */
  datatype SheetRecord = SheetRecord(
    city: string,
    category: string,
    subcategory: string,
    name: string,
    details: string,
    location: string,
    status: string,
    priority: string,
    rating: Cell,
    userNotes: string,
    sortOrder: int,
    isPinned: string,
    isAdminAdded: string)

  /** The `items.map(...)` callback. */
  function ToRecord(it: RequestItem): SheetRecord {
    SheetRecord(
      city := it.city,
      category := it.category,
      subcategory := TextOr(it.subcategory, ""),
      name := it.name,
      details := TextOr(it.details, ""),
      location := TextOr(it.location, ""),
      status := TextOr(it.status, "pending"),
      priority := TextOr(it.priority, ""),
      rating := if it.rating.Some? && it.rating.value != 0 then Num(it.rating.value) else Text(""),
      userNotes := TextOr(it.userNotes, ""),
      sortOrder := NumOr(it.sortOrder, 0),
      isPinned := Flag(it.isPinned),
      isAdminAdded := Flag(it.isAdminAdded))
  }

  /** The defaults: falsy text fields become '' (the status 'pending'), a
      falsy rating becomes '', a falsy sort order 0, and the flags read
      'Yes' exactly when set. City, category and name pass through. */
  lemma RecordDefaults(it: RequestItem)
    ensures var r := ToRecord(it);
      && r.city == it.city && r.category == it.category && r.name == it.name
      && (r.subcategory == "" <==> it.subcategory.None? || it.subcategory.value == "")
      && (r.details == "" <==> it.details.None? || it.details.value == "")
      && (r.location == "" <==> it.location.None? || it.location.value == "")
      && (r.userNotes == "" <==> it.userNotes.None? || it.userNotes.value == "")
      && (r.priority == "" <==> it.priority.None? || it.priority.value == "")
      && (it.status.None? || it.status.value == "" ==> r.status == "pending")
      && (r.rating == Text("") <==> it.rating.None? || it.rating.value == 0)
      && (it.sortOrder.None? || it.sortOrder.value == 0 ==> r.sortOrder == 0)
      && (r.isPinned == "Yes" <==> it.isPinned == Some(true))
      && (r.isAdminAdded == "Yes" <==> it.isAdminAdded == Some(true))
  {
  }

  /** An item of the table as the client serialises it. */
  function RequestOf(x: Item): RequestItem {
    RequestItem(
      x.city, CategoryName(x.category), x.subcategory, x.name, Some(x.details), Some(x.location),
      Some(StatusName(x.status)),
      if x.priority.Some? then Some(PriorityName(x.priority.value)) else None,
      if x.rating.Some? then Some(x.rating.value) else None,
      Some(x.userNotes), Some(x.sortOrder), Some(x.isPinned), Some(x.isAdminAdded))
  }

  /** Decimal digits of a natural number. */
  function NatText(n: nat): (r: string)
    ensures r != []
    decreases n
  {
    var d := "0123456789"[n % 10];
    if n < 10 then [d] else NatText(n / 10) + [d]
  }

  /** What `String(cell || '')` reads back from a written cell: a number's
      decimal text, with 0 read as empty since it is falsy. */
  function CellText(c: Cell): string {
    match c
    case Text(t) => t
    case Num(n) => if n == 0 then "" else if n < 0 then "-" + NatText(-n) else NatText(n)
  }

  function RowText(cells: seq<Cell>): (r: Row)
    ensures |r| == |cells|
  {
    seq(|cells|, i requires 0 <= i < |cells| => CellText(cells[i]))
  }

  /** The column order the handler writes: the object's key order. */
  const WrittenHeader: Row := ["City", "Category", "Subcategory", "Name", "Details", "Location", "Status",
    "Priority", "Rating", "UserNotes", "SortOrder", "IsPinned", "IsAdminAdded"]

  function WrittenCells(r: SheetRecord): (c: seq<Cell>)
    ensures |c| == |WrittenHeader|
  {
    [Text(r.city), Text(r.category), Text(r.subcategory), Text(r.name), Text(r.details), Text(r.location),
     Text(r.status), Text(r.priority), r.rating, Text(r.userNotes), Num(r.sortOrder),
     Text(r.isPinned), Text(r.isAdminAdded)]
  }

  /** The worksheet as written, as the row loop of the parser sees it. */
  function WrittenSheet(items: seq<RequestItem>): (rows: seq<Row>)
    ensures |rows| == |items| + 1 && rows[0] == WrittenHeader
  {
    [WrittenHeader] + seq(|items|, i requires 0 <= i < |items| => RowText(WrittenCells(ToRecord(items[i]))))
  }

  /** As written, the parser reads the Subcategory column as the name, the
      Name column as the details and the Details column as the location. */
  lemma WrittenColumnsShifted(it: RequestItem)
    ensures var row := RowText(WrittenCells(ToRecord(it)));
      && CellAt(row, 0) == it.city
      && CellAt(row, 2) == TextOr(it.subcategory, "")
      && CellAt(row, 3) == it.name
      && CellAt(row, 4) == TextOr(it.details, "")
  {
  }

  /** As written, an item without a subcategory gives a row with no name,
      which the parser skips: it is lost on the next sync or re-import. */
  lemma WrittenRowDropsUnclassified(it: RequestItem)
    requires it.subcategory.None? || it.subcategory.value == ""
    ensures !RowKept(RowText(WrittenCells(ToRecord(it))))
  {
    var cells := WrittenCells(ToRecord(it));
    assert cells[2] == Text("");
    var row := RowText(cells);
    assert CellAt(row, 2) == CellText(cells[2]) == "";
    assert Trim("") == "";
  }

  /** A concrete case: exporting one unclassified item and reading the file
      back yields no item at all. */
  lemma WrittenSheetLosesItem(newId: nat -> string, now: Time)
    ensures var it := RequestItem("Riyadh", "food", None, "Najd Village", Some("Traditional food"), None,
                                  Some("pending"), None, None, None, Some(0), Some(false), Some(false));
      ParsedItems(WrittenSheet([it]), newId, now) == []
  {
    var it := RequestItem("Riyadh", "food", None, "Najd Village", Some("Traditional food"), None,
                          Some("pending"), None, None, None, Some(0), Some(false), Some(false));
    var sheet := WrittenSheet([it]);
    WrittenRowDropsUnclassified(it);
    assert DataRows(sheet) == [sheet[1]];
    assert Filter([sheet[1]], RowKept) == [] by {
      assert [sheet[1]][..0] == [];
    }
  }

  /** The column order the parser reads: city, category, name, details and
      location first, then the rest. */
  const ImportableHeader: Row := ["City", "Category", "Name", "Details", "Location", "Subcategory", "Status",
    "Priority", "Rating", "UserNotes", "SortOrder", "IsPinned", "IsAdminAdded"]

  function ImportableCells(r: SheetRecord): (c: seq<Cell>)
    ensures |c| == |ImportableHeader|
  {
    [Text(r.city), Text(r.category), Text(r.name), Text(r.details), Text(r.location), Text(r.subcategory),
     Text(r.status), Text(r.priority), r.rating, Text(r.userNotes), Num(r.sortOrder),
     Text(r.isPinned), Text(r.isAdminAdded)]
  }

  /** The worksheet in the importable order. */
  function ImportableSheet(items: seq<RequestItem>): (rows: seq<Row>)
    ensures |rows| == |items| + 1 && rows[0] == ImportableHeader
  {
    [ImportableHeader] + seq(|items|, i requires 0 <= i < |items| => RowText(ImportableCells(ToRecord(items[i]))))
  }

  /** An item as the parser produces it: non-blank trimmed city and name,
      trimmed details and location. */
  predicate Importable(x: Item) {
    && x.city != "" && Trim(x.city) == x.city
    && x.name != "" && Trim(x.name) == x.name
    && Trim(x.details) == x.details && Trim(x.location) == x.location
  }

  /** The first five cells of an item's row in the importable order. */
  lemma ImportableCellsRead(x: Item)
    ensures var row := RowText(ImportableCells(ToRecord(RequestOf(x))));
      && CellAt(row, 0) == x.city && CellAt(row, 1) == CategoryName(x.category)
      && CellAt(row, 2) == x.name && CellAt(row, 3) == x.details && CellAt(row, 4) == x.location
  {
  }

  /** A row whose first five cells are an importable item's city, category
      name, name, details and location reads back as those fields. */
  lemma RowReadsBack(row: Row, x: Item, id: string, order: int, now: Time)
    requires Importable(x)
    requires CellAt(row, 0) == x.city && CellAt(row, 1) == CategoryName(x.category)
    requires CellAt(row, 2) == x.name && CellAt(row, 3) == x.details && CellAt(row, 4) == x.location
    ensures RowKept(row)
    ensures var y := RowToItem(row, id, order, now);
      && y.city == x.city && y.category == x.category && y.name == x.name
      && y.details == x.details && y.location == x.location
      && y.subcategory == DetectSubcategory(x.name, x.details)
  {
    CategoryNameTrimmed(x.category);
    MapCategoryOfName(x.category);
  }

  /** In the importable order one item's row reads back with its own city,
      category, name, details and location. */
  lemma ImportableRowRoundTrip(x: Item, id: string, order: int, now: Time)
    requires Importable(x)
    ensures var row := RowText(ImportableCells(ToRecord(RequestOf(x))));
      && RowKept(row)
      && var y := RowToItem(row, id, order, now);
      && y.city == x.city && y.category == x.category && y.name == x.name
      && y.details == x.details && y.location == x.location
      && y.subcategory == DetectSubcategory(x.name, x.details)
  {
    ImportableCellsRead(x);
    RowReadsBack(RowText(ImportableCells(ToRecord(RequestOf(x)))), x, id, order, now);
  }

  /** Exporting importable items in the importable order and parsing the file
      gives back one item per exported item, in order, with the same base
      fields. */
  lemma ImportableSheetRoundTrip(items: seq<Item>, newId: nat -> string, now: Time)
    requires forall k :: 0 <= k < |items| ==> Importable(items[k])
    ensures var parsed := ParsedItems(ImportableSheet(seq(|items|, k requires 0 <= k < |items| => RequestOf(items[k]))), newId, now);
      && |parsed| == |items|
      && forall k :: 0 <= k < |items| ==>
           && parsed[k].city == items[k].city && parsed[k].category == items[k].category
           && parsed[k].name == items[k].name && parsed[k].details == items[k].details
           && parsed[k].location == items[k].location
  {
    var reqs := seq(|items|, k requires 0 <= k < |items| => RequestOf(items[k]));
    var sheet := ImportableSheet(reqs);
    var data := DataRows(sheet);
    assert |data| == |items|;
    forall k | 0 <= k < |data| ensures RowKept(data[k]) {
      assert data[k] == RowText(ImportableCells(ToRecord(RequestOf(items[k]))));
      ImportableRowRoundTrip(items[k], newId(k), k, now);
    }
    FilterKeepsAll(data, RowKept);
    var parsed := ParsedItems(sheet, newId, now);
    forall k | 0 <= k < |items|
      ensures && parsed[k].city == items[k].city && parsed[k].category == items[k].category
              && parsed[k].name == items[k].name && parsed[k].details == items[k].details
              && parsed[k].location == items[k].location
    {
      assert parsed[k] == RowToItem(data[k], newId(k), k, now);
      assert data[k] == RowText(ImportableCells(ToRecord(RequestOf(items[k]))));
      ImportableRowRoundTrip(items[k], newId(k), k, now);
    }
  }

  /** The handler's JSON answer. */
  datatype Response =
    | Saved(message: string, itemCount: nat)
    | Failed(status: nat, error: string)

  /** POST: the request body's items (`None` when the body cannot be read),
      and whether the file write succeeds. On success the file holds the
      worksheet in the route's own column order. */
  function Post(body: Option<seq<RequestItem>>, writeOk: bool): (out: (Response, Option<seq<Row>>))
    ensures out.0.Saved? <==> body.Some? && writeOk
    ensures out.0.Saved? ==> out.0.itemCount == |body.value| && out.1 == Some(WrittenSheet(body.value))
    ensures out.0.Failed? ==> out.0 == Failed(500, "Failed to update Excel file")
    ensures body.None? ==> out.1 == None
  {
    if body.None? then (Failed(500, "Failed to update Excel file"), None)
    else
      var sheet := WrittenSheet(body.value);
      if !writeOk then (Failed(500, "Failed to update Excel file"), None)
      else (Saved("Excel file updated successfully", |body.value|), Some(sheet))
  }

  /** One data row per item, in order, after the header. */
  lemma PostOneRowPerItem(items: seq<RequestItem>)
    ensures var out := Post(Some(items), true);
      && out.1.Some? && |out.1.value| == |items| + 1 && out.1.value[0] == WrittenHeader
      && forall k :: 0 <= k < |items| ==> out.1.value[k + 1] == RowText(WrittenCells(ToRecord(items[k])))
  {
  }

  /** The file the handler saves for one unclassified item reads back as no
      item at all. */
  lemma PostedFileLosesItem(newId: nat -> string, now: Time)
    ensures var it := RequestItem("Riyadh", "food", None, "Najd Village", Some("Traditional food"), None,
                                  Some("pending"), None, None, None, Some(0), Some(false), Some(false));
      var out := Post(Some([it]), true);
      && out.0 == Saved("Excel file updated successfully", 1)
      && out.1.Some? && ParsedItems(out.1.value, newId, now) == []
  {
    WrittenSheetLosesItem(newId, now);
  }
}
