/** The row-level logic of the spreadsheet importer and exporter: category and
    subcategory detection, the row loop that turns worksheet rows into items,
    and the item-to-row mapping of the download export. Decoding and encoding
    the workbook itself is outside the model; a worksheet arrives as rows of
    cell texts. */
module ExcelParser {
  import opened Types
  import opened Text
  import opened Seqs

  /** One worksheet row as `sheet_to_json(sheet, { header: 1 })` gives it:
      the cells in column order, an empty or missing cell being "". */
  type Row = seq<string>

  /** A cell of a written worksheet: text, or a number. */
  datatype Cell = Text(text: string) | Num(n: int)

  /** `String(row[i] || '')`. */
  function CellAt(row: Row, i: nat): string {
    if i < |row| then row[i] else ""
  }

  /** `categoryStr.toLowerCase().trim()`. */
  function NormalizeCategory(raw: string): string {
    Trim(Lower(raw))
  }

  /** mapCategory: keyword tests in a fixed order on the normalised text,
      defaulting to places. */
  function MapCategory(raw: string): Category {
    CategoryOfKeywords(NormalizeCategory(raw))
  }

  function CategoryOfKeywords(n: string): Category {
    if Contains(n, "place") || Contains(n, "visit") then Places
    else if Contains(n, "shop") then Shopping
    else if Contains(n, "food") then Food
    else Places
  }

  /** mapCategory does not depend on letter case. */
  lemma MapCategoryIgnoresCase(raw: string)
    ensures MapCategory(Lower(raw)) == MapCategory(raw)
  {
    LowerIdempotent(raw);
    assert NormalizeCategory(Lower(raw)) == NormalizeCategory(raw);
  }

  /** mapCategory does not depend on surrounding whitespace. */
  lemma MapCategoryIgnoresSurroundingWhitespace(raw: string)
    ensures MapCategory(Trim(raw)) == MapCategory(raw)
  {
    TrimLower(raw);
    TrimIdempotent(Lower(raw));
    assert NormalizeCategory(Trim(raw)) == NormalizeCategory(raw);
  }

  /** Shopping is chosen exactly when "shop" occurs and neither place keyword
      does; food exactly when only "food" occurs among the keywords. */
  lemma MapCategoryKeywordOrder(raw: string)
    ensures var n := NormalizeCategory(raw);
      && (MapCategory(raw) == Shopping <==>
            !Contains(n, "place") && !Contains(n, "visit") && Contains(n, "shop"))
      && (MapCategory(raw) == Food <==>
            !Contains(n, "place") && !Contains(n, "visit") && !Contains(n, "shop") && Contains(n, "food"))
  {
  }

  /** Each category's own name maps back to it, so an exported category
      column re-imports unchanged. */
  lemma MapCategoryOfName(c: Category)
    ensures MapCategory(CategoryName(c)) == c
  {
    NormalizeName(CategoryName(c));
    KeywordsOfName(c);
  }

  lemma KeywordsOfName(c: Category)
    ensures CategoryOfKeywords(CategoryName(c)) == c
  {
    match c {
      case Places =>
        PrefixContained("places", "place");
      case Shopping =>
        PrefixContained("shopping", "shop");
        MissingCharNotContained("shopping", "place", 1);
        MissingCharNotContained("shopping", "visit", 0);
      case Food =>
        PrefixContained("food", "food");
        MissingCharNotContained("food", "place", 0);
        MissingCharNotContained("food", "visit", 0);
        MissingCharNotContained("food", "shop", 0);
    }
  }

  /** A lower-case name without surrounding whitespace is its own
      normalisation. */
  lemma NormalizeName(n: string)
    requires n == "places" || n == "shopping" || n == "food"
    ensures NormalizeCategory(n) == n && Trim(n) == n
  {
    LowerNoUpper(n);
    TrimStartNoop(n);
    TrimEndNoop(n);
  }

  /** A category's name carries no surrounding whitespace. */
  lemma CategoryNameTrimmed(c: Category)
    ensures Trim(CategoryName(c)) == CategoryName(c)
  {
    NormalizeName(CategoryName(c));
  }

  const AbayaThobe: string := "abaya-thobe"
  const Historical: string := "historical"
  const Modern: string := "modern"

  /** detectSubcategory: the first keyword group found in the lower-cased
      `name + " " + details`. */
  function DetectSubcategory(name: string, details: string): (r: Option<string>)
    ensures r == None || r == Some(AbayaThobe) || r == Some(Historical) || r == Some(Modern)
  {
    var combined := Lower(name + " " + details);
    if Contains(combined, "abaya") || Contains(combined, "thobe") then Some(AbayaThobe)
    else if Contains(combined, "historical") || Contains(combined, "history") then Some(Historical)
    else if Contains(combined, "modern") then Some(Modern)
    else None
  }

  /** detectSubcategory does not depend on letter case in either field. */
  lemma DetectSubcategoryIgnoresCase(name: string, details: string)
    ensures DetectSubcategory(Lower(name), Lower(details)) == DetectSubcategory(name, details)
  {
    LowerConcat(name, " ");
    LowerConcat(name + " ", details);
    LowerConcat(Lower(name), " ");
    LowerConcat(Lower(name) + " ", Lower(details));
    LowerIdempotent(name);
    LowerIdempotent(details);
    assert Lower(" ") == " ";
  }

  /** The keyword groups are tried in order: abaya/thobe, then
      historical/history, then modern; with none of them there is no
      subcategory. */
  lemma DetectSubcategoryKeywordOrder(name: string, details: string)
    ensures var c := Lower(name + " " + details);
      var abaya := Contains(c, "abaya") || Contains(c, "thobe");
      var history := Contains(c, "historical") || Contains(c, "history");
      var modern := Contains(c, "modern");
      && (DetectSubcategory(name, details) == Some(AbayaThobe) <==> abaya)
      && (DetectSubcategory(name, details) == Some(Historical) <==> !abaya && history)
      && (DetectSubcategory(name, details) == Some(Modern) <==> !abaya && !history && modern)
      && (DetectSubcategory(name, details) == None <==> !abaya && !history && !modern)
  {
  }

  /** A keyword in either field, in any letter case, is found in the
      combined text. */
  lemma KeywordInEitherField(name: string, details: string, t: string)
    ensures Contains(Lower(name), t) || Contains(Lower(details), t) ==>
      Contains(Lower(name + " " + details), t)
  {
    LowerConcat(name, " ");
    LowerConcat(name + " ", details);
    ContainsInConcat(Lower(name), Lower(" "), t);
    ContainsInConcat(Lower(name) + Lower(" "), Lower(details), t);
  }

  /** An abaya or thobe in the name or in the details wins over every other
      keyword. */
  lemma AbayaThobeInEitherField(name: string, details: string)
    requires Contains(Lower(name), "abaya") || Contains(Lower(name), "thobe")
          || Contains(Lower(details), "abaya") || Contains(Lower(details), "thobe")
    ensures DetectSubcategory(name, details) == Some(AbayaThobe)
  {
    KeywordInEitherField(name, details, "abaya");
    KeywordInEitherField(name, details, "thobe");
  }

  /** The skip rules of the row loop: the first cell is non-empty, and the
      trimmed city and trimmed name are non-empty. */
  predicate RowKept(row: Row) {
    CellAt(row, 0) != "" && Trim(CellAt(row, 0)) != "" && Trim(CellAt(row, 2)) != ""
  }

  /** The item built from a kept row: trimmed cells 0, 2, 3 and 4, the mapped
      category, the detected subcategory, and every user field at its default. */
  function RowToItem(row: Row, id: string, order: int, now: Time): Item {
    var name := Trim(CellAt(row, 2));
    var details := Trim(CellAt(row, 3));
    Item(
      id := id,
      city := Trim(CellAt(row, 0)),
      category := MapCategory(Trim(CellAt(row, 1))),
      subcategory := DetectSubcategory(name, details),
      name := name,
      details := details,
      location := Trim(CellAt(row, 4)),
      status := Pending,
      priority := None,
      rating := None,
      userNotes := "",
      sortOrder := order,
      isPinned := false,
      isAdminAdded := false,
      createdAt := now,
      updatedAt := now)
  }

  /** The rows after the header row. */
  function DataRows(rows: seq<Row>): seq<Row> {
    if |rows| == 0 then [] else rows[1..]
  }

  /** The k-th kept row becomes the item with sort order k and the k-th
      generated id. */
  function Numbered(newId: nat -> string, now: Time): (Row, nat) -> Item {
    (row: Row, k: nat) => RowToItem(row, newId(k), k, now)
  }

  /** What the row loop of both parsers returns for a worksheet. */
  function ParsedItems(rows: seq<Row>, newId: nat -> string, now: Time): seq<Item> {
    MapIndexed(Filter(DataRows(rows), RowKept), Numbered(newId, now))
  }

  /** The row loop of parseExcelFile and parseExcelFileFromUpload: skip the
      header, skip rows without a first cell, a city or a name, and number the
      kept rows from 0. */
  method ParseRows(rows: seq<Row>, newId: nat -> string, now: Time) returns (items: seq<Item>)
    ensures items == ParsedItems(rows, newId, now)
  {
    var data := DataRows(rows);
    var number := Numbered(newId, now);
    ghost var kept: seq<Row> := [];
    items := [];
    var sortOrder := 0;
    var i := 1;
    while i < |rows|
      invariant 1 <= i && (|rows| > 0 ==> i <= |rows|)
      invariant |rows| > 0 ==> kept == Filter(data[..i - 1], RowKept)
      invariant |rows| == 0 ==> kept == []
      invariant items == MapIndexed(kept, number)
      invariant sortOrder == |items|
    {
      var row := rows[i];
      KeptStep(data, i);
      assert data[i - 1] == row;
      if RowKept(row) {
        MapIndexedAppend(kept, row, number);
        items := items + [number(row, sortOrder)];
        kept := kept + [row];
        sortOrder := sortOrder + 1;
      } else {
        assert kept + [] == kept;
      }
      i := i + 1;
    }
    if |rows| > 0 {
      assert data[..i - 1] == data;
    }
  }

  /** Extending the scanned prefix by one row keeps that row exactly when it
      passes the row test. */
  lemma KeptStep(data: seq<Row>, i: nat)
    requires 0 < i <= |data|
    ensures Filter(data[..i], RowKept)
      == Filter(data[..i - 1], RowKept) + (if RowKept(data[i - 1]) then [data[i - 1]] else [])
  {
    assert data[..i][..i - 1] == data[..i - 1];
  }

  /** parseExcelFile: any failure to fetch or decode the workbook surfaces as
      the one error 'Failed to parse Excel file'. */
  method ParseExcelFile(workbook: Result<seq<Row>>, newId: nat -> string, now: Time)
    returns (r: Result<seq<Item>>)
    ensures workbook.Err? ==> r == Err("Failed to parse Excel file")
    ensures workbook.Ok? ==> r == Ok(ParsedItems(workbook.value, newId, now))
  {
    if workbook.Err? {
      return Err("Failed to parse Excel file");
    }
    var items := ParseRows(workbook.value, newId, now);
    r := Ok(items);
  }

  /** What the FileReader delivers to parseExcelFileFromUpload. */
  datatype FileRead = ReadFailed | Loaded(workbook: Result<seq<Row>>)

  /** parseExcelFileFromUpload: a read error rejects with 'Failed to read
      file', a decoding error with its own message; otherwise the same row
      loop as parseExcelFile. */
  method ParseExcelFileFromUpload(file: FileRead, newId: nat -> string, now: Time)
    returns (r: Result<seq<Item>>)
    ensures file.ReadFailed? ==> r == Err("Failed to read file")
    ensures file.Loaded? && file.workbook.Err? ==> r == Err(file.workbook.message)
    ensures file.Loaded? && file.workbook.Ok? ==> r == Ok(ParsedItems(file.workbook.value, newId, now))
  {
    if file.ReadFailed? {
      return Err("Failed to read file");
    }
    if file.workbook.Err? {
      return Err(file.workbook.message);
    }
    var items := ParseRows(file.workbook.value, newId, now);
    r := Ok(items);
  }

  /** The header row never yields an item: replacing it changes nothing. */
  lemma HeaderIgnored(header: Row, header': Row, body: seq<Row>, newId: nat -> string, now: Time)
    ensures ParsedItems([header] + body, newId, now) == ParsedItems([header'] + body, newId, now)
  {
    assert DataRows([header] + body) == body == DataRows([header'] + body);
  }

  /** At most one item per data row. */
  lemma ParsedCountBound(rows: seq<Row>, newId: nat -> string, now: Time)
    ensures |rows| > 0 ==> |ParsedItems(rows, newId, now)| <= |rows| - 1
    ensures |rows| == 0 ==> ParsedItems(rows, newId, now) == []
  {
  }

  /** Appending a data row appends exactly one item, numbered next, when the
      row is kept, and nothing otherwise: the output follows row order and
      numbers the items 0, 1, 2, ... */
  lemma ParseAppendRow(rows: seq<Row>, row: Row, newId: nat -> string, now: Time)
    requires |rows| > 0
    ensures var n := |ParsedItems(rows, newId, now)|;
      ParsedItems(rows + [row], newId, now)
        == ParsedItems(rows, newId, now) + (if RowKept(row) then [RowToItem(row, newId(n), n, now)] else [])
  {
    var kept := Filter(DataRows(rows), RowKept);
    assert DataRows(rows + [row]) == DataRows(rows) + [row];
    FilterAppend(DataRows(rows), [row], RowKept);
    assert Filter([row], RowKept) == (if RowKept(row) then [row] else []) by {
      assert [row][..0] == [];
    }
    if RowKept(row) {
      MapIndexedAppend(kept, row, Numbered(newId, now));
    } else {
      assert kept + [] == kept;
    }
  }

  /** The item built from a kept row has a non-empty trimmed city and name
      and every user field at its default. */
  lemma RowToItemWellFormed(row: Row, id: string, order: int, now: Time)
    requires RowKept(row)
    ensures var it := RowToItem(row, id, order, now);
      && it.city != "" && Trim(it.city) == it.city
      && it.name != "" && Trim(it.name) == it.name
      && it.id == id && it.sortOrder == order
      && it.status == Pending && StatusFits(it.category, it.status)
      && it.priority == None && it.rating == None && it.userNotes == ""
      && !it.isAdminAdded && !it.isPinned
      && it.createdAt == now && it.updatedAt == now
  {
    TrimIdempotent(CellAt(row, 0));
    TrimIdempotent(CellAt(row, 2));
  }

  /** Every parsed item has a non-empty trimmed city and name, sort order equal
      to its position, the pending status that fits its category, and every
      other user field at its default. */
  lemma ParsedItemsWellFormed(rows: seq<Row>, newId: nat -> string, now: Time)
    ensures forall k :: 0 <= k < |ParsedItems(rows, newId, now)| ==>
      var it := ParsedItems(rows, newId, now)[k];
      && it.city != "" && Trim(it.city) == it.city
      && it.name != "" && Trim(it.name) == it.name
      && it.sortOrder == k && it.id == newId(k)
      && it.status == Pending && StatusFits(it.category, it.status)
      && it.priority == None && it.rating == None && it.userNotes == ""
      && !it.isAdminAdded && !it.isPinned
  {
    var kept := Filter(DataRows(rows), RowKept);
    var items := ParsedItems(rows, newId, now);
    forall k | 0 <= k < |items|
      ensures var it := items[k];
      && it.city != "" && Trim(it.city) == it.city
      && it.name != "" && Trim(it.name) == it.name
      && it.sortOrder == k && it.id == newId(k)
      && it.status == Pending && StatusFits(it.category, it.status)
      && it.priority == None && it.rating == None && it.userNotes == ""
      && !it.isAdminAdded && !it.isPinned
    {
      assert items[k] == RowToItem(kept[k], newId(k), k, now);
      assert kept[k] in kept;
      FilterMembers(DataRows(rows), RowKept, kept[k]);
      RowToItemWellFormed(kept[k], newId(k), k, now);
    }
  }

  /** The item at position `k` carries the `k`-th generated id. */
  lemma ParsedItemId(rows: seq<Row>, newId: nat -> string, now: Time, k: nat)
    requires k < |ParsedItems(rows, newId, now)|
    ensures ParsedItems(rows, newId, now)[k].id == newId(k)
  {
    var kept := Filter(DataRows(rows), RowKept);
    assert ParsedItems(rows, newId, now)[k] == RowToItem(kept[k], newId(k), k, now);
  }

  /** One row of the download export (exportToExcel), keyed by its column
      headers City, Category, Subcategory, Name, Details, Location, Status,
      Priority, Rating, User Notes, Admin Added, Last Updated. */
  datatype ExportRecord = ExportRecord(
    city: string,
    category: string,
    subcategory: string,
    name: string,
    details: string,
    location: string,
    status: string,
    priority: string,
    rating: Cell,
    userNotes: string,
    adminAdded: string,
    lastUpdated: Time)

  /** `value || ''` for an optional string: `null` and '' both become ''. */
  function OrEmpty(s: Option<string>): string {
    if s.Some? then s.value else ""
  }

  function PriorityOrEmpty(p: Option<Priority>): string {
    if p.Some? then PriorityName(p.value) else ""
  }

  function RatingOrEmpty(r: Option<Rating>): Cell {
    if r.Some? then Num(r.value) else Text("")
  }

  function YesNo(b: bool): string {
    if b then "Yes" else "No"
  }

  /** The per-item mapping of exportToExcel. */
  function ExportRow(item: Item): ExportRecord {
    ExportRecord(
      city := item.city,
      category := CategoryName(item.category),
      subcategory := OrEmpty(item.subcategory),
      name := item.name,
      details := item.details,
      location := item.location,
      status := StatusName(item.status),
      priority := PriorityOrEmpty(item.priority),
      rating := RatingOrEmpty(item.rating),
      userNotes := item.userNotes,
      adminAdded := YesNo(item.isAdminAdded),
      lastUpdated := item.updatedAt)
  }

  /** exportToExcel's `items.map(...)`: one record per item, in order. */
  function ExportRows(items: seq<Item>): (r: seq<ExportRecord>)
    ensures |r| == |items|
    ensures forall i :: 0 <= i < |items| ==> r[i] == ExportRow(items[i])
  {
    if items == [] then [] else [ExportRow(items[0])] + ExportRows(items[1..])
  }

  /** The export loses nothing but the difference between a null and an empty
      subcategory: two items with the same exported record agree on every
      exported field. */
  lemma ExportRowFaithful(a: Item, b: Item)
    requires ExportRow(a) == ExportRow(b)
    ensures a.city == b.city && a.category == b.category && a.name == b.name
    ensures a.details == b.details && a.location == b.location
    ensures a.status == b.status && a.priority == b.priority && a.rating == b.rating
    ensures a.userNotes == b.userNotes && a.isAdminAdded == b.isAdminAdded && a.updatedAt == b.updatedAt
    ensures OrEmpty(a.subcategory) == OrEmpty(b.subcategory)
  {
    CategoryNameRoundTrip(a.category);
    CategoryNameRoundTrip(b.category);
    StatusNameRoundTrip(a.status);
    StatusNameRoundTrip(b.status);
    if a.priority.Some? && b.priority.Some? {
      assert PriorityName(a.priority.value) == PriorityName(b.priority.value);
    }
  }
}
