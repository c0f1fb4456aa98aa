/** The sequential core of scraper.py: the page loop of `fetch_data_with_browser`
    and the row normalisation of `process_data`.

    The browser is not modelled: what each page yields is an input, one
    `PageOutcome` per page number, page 1 first. */
module Scraper {
  import opened JsonValues

  /** What the body of the page loop (lines 41-50) gets for one page: the list
      `json.loads` decoded from the `pre` element, or an exception raised while
      waiting for it, looking it up or parsing it. */
  datatype PageOutcome = Loaded(rows: seq<Json>) | Failed

  /** What `all_data.extend` adds for one page: nothing when the page failed. */
  function RowsOf(page: PageOutcome): seq<Json> {
    match page
    case Loaded(rows) => rows
    case Failed => []
  }

  /** `all_data` after the loop has gone through `pages`. */
  function Harvested(pages: seq<PageOutcome>): seq<Json> {
    Concat(RowsOf, pages)
  }

  /** A page contributes its own rows at its own place, between those of the
      pages before it and those of the pages after it. */
  lemma HarvestedAt(before: seq<PageOutcome>, page: PageOutcome, after: seq<PageOutcome>)
    ensures Harvested(before + [page] + after) == Harvested(before) + RowsOf(page) + Harvested(after)
  {
    ConcatAt(RowsOf, before, page, after);
  }

  /** A failed page adds nothing and does not stop the pages after it. */
  lemma HarvestedFailedPage(before: seq<PageOutcome>, after: seq<PageOutcome>)
    ensures Harvested(before + [Failed] + after) == Harvested(before) + Harvested(after)
  {
    HarvestedAt(before, Failed, after);
  }

  /** The number of rows is the sum of the successful pages' row counts. */
  function RowCount(pages: seq<PageOutcome>): nat {
    if pages == [] then 0 else RowCount(pages[..|pages| - 1]) + |RowsOf(pages[|pages| - 1])|
  }

  lemma {:induction false} HarvestedLength(pages: seq<PageOutcome>)
    ensures |Harvested(pages)| == RowCount(pages)
  {
    if pages != [] {
      HarvestedLength(pages[..|pages| - 1]);
    }
  }

  /** The loop of lines 38-50: pages 1..maxPages in ascending order (none when
      maxPages < 1); `outcomes[p - 1]` is what page p yields. */
  method FetchDataWithBrowser(maxPages: int, outcomes: seq<PageOutcome>) returns (allData: seq<Json>)
    requires maxPages <= |outcomes|
    ensures allData == Harvested(outcomes[..if maxPages < 1 then 0 else maxPages])
    ensures maxPages < 1 ==> allData == []
  {
    allData := [];
    var last := if maxPages < 1 then 0 else maxPages;
    for page := 1 to last + 1
      invariant allData == Harvested(outcomes[..page - 1])
    {
      assert outcomes[..page][..page - 1] == outcomes[..page - 1];
      var pageOutcome := outcomes[page - 1];
      if pageOutcome.Loaded? {
        allData := allData + pageOutcome.rows;
      }
    }
  }

  // ---------------------------------------------------------------------------
  // Row normalisation (lines 61-85)
  // ---------------------------------------------------------------------------

  /** HEADER_MAPPINGS (lines 9-16). */
  const HEADER_MAPPINGS: map<string, string> := map[
    "#" := "number",
    "Муниципальное образование" := "municipality",
    "Наименование территориальной зоны" := "zone_name",
    "Код территориальной зоны" := "zone_code",
    "Назначение и описание территориальной зоны" := "zone_description",
    "Дополнительная информация к Территориальной зоне (общие требования)" := "additional_info"]

  /** The source headers in the order of the columns they label. */
  const SOURCE_HEADERS: seq<string> := [
    "#",
    "Муниципальное образование",
    "Наименование территориальной зоны",
    "Код территориальной зоны",
    "Назначение и описание территориальной зоны",
    "Дополнительная информация к Территориальной зоне (общие требования)"]

  /** `t` occurs in `s` (Python's `t in s` on two strings). */
  predicate Occurs(t: string, s: string)
    decreases |s|
  {
    |t| <= |s| && (s[..|t|] == t || (|s| > 0 && Occurs(t, s[1..])))
  }

  /** The number of cells `columns[i]` can reach: the entries of a list, the characters of a string. */
  function CellCount(columns: Json): nat {
    match columns
    case JArr(items) => |items|
    case JStr(s) => |s|
    case _ => 0
  }

  /** `columns[i]`: a list entry, or the one-character string at a string's position i. */
  function Cell(columns: Json, i: nat): Json
    requires i < CellCount(columns)
  {
    match columns
    case JArr(items) => items[i]
    case JStr(s) => JStr([s[i]])
  }

  /** `meta` admits the test `"card" in meta` of line 80 and, when it holds, the lookup:
      a dict, a list without the string "card", or a string not containing "card". */
  predicate CardReadable(meta: Json) {
    || meta.JObj?
    || (meta.JArr? && JStr("card") !in meta.items)
    || (meta.JStr? && !Occurs("card", meta.s))
  }

  /** `item["meta"]["card"] if "card" in item["meta"] else None` */
  function CardOf(meta: Json): Json {
    if meta.JObj? then Get(meta.fields, "card") else JNull
  }

  /** A row `process_data` reads without raising: a dict whose `columns` has at
      least six cells and whose `meta` answers the `card` test. */
  predicate WellFormedRow(item: Json) {
    && item.JObj?
    && "columns" in item.fields && CellCount(item.fields["columns"]) >= 6
    && "meta" in item.fields && CardReadable(item.fields["meta"])
  }

  /** The record built for one row (lines 67-81). */
  function ProcessRow(item: Json): Json
    requires WellFormedRow(item)
  {
    var columns := item.fields["columns"];
    JObj(map[
      HEADER_MAPPINGS["#"] := Cell(columns, 0),
      HEADER_MAPPINGS["Муниципальное образование"] := Cell(columns, 1),
      HEADER_MAPPINGS["Наименование территориальной зоны"] := Cell(columns, 2),
      HEADER_MAPPINGS["Код территориальной зоны"] := Cell(columns, 3),
      HEADER_MAPPINGS["Назначение и описание территориальной зоны"] := Cell(columns, 4),
      HEADER_MAPPINGS["Дополнительная информация к Территориальной зоне (общие требования)"] := Cell(columns, 5),
      "original_columns" := columns,
      "card_id" := CardOf(item.fields["meta"])])
  }

  /** The English name of each source header, in column order. */
  lemma HeaderNames()
    ensures HEADER_MAPPINGS[SOURCE_HEADERS[0]] == HEADER_MAPPINGS["#"] == "number"
    ensures HEADER_MAPPINGS[SOURCE_HEADERS[1]] == HEADER_MAPPINGS["Муниципальное образование"] == "municipality"
    ensures HEADER_MAPPINGS[SOURCE_HEADERS[2]] == HEADER_MAPPINGS["Наименование территориальной зоны"] == "zone_name"
    ensures HEADER_MAPPINGS[SOURCE_HEADERS[3]] == HEADER_MAPPINGS["Код территориальной зоны"] == "zone_code"
    ensures HEADER_MAPPINGS[SOURCE_HEADERS[4]] == HEADER_MAPPINGS["Назначение и описание территориальной зоны"] == "zone_description"
    ensures HEADER_MAPPINGS[SOURCE_HEADERS[5]] == HEADER_MAPPINGS["Дополнительная информация к Территориальной зоне (общие требования)"] == "additional_info"
  {
  }

  /** Each record holds exactly eight keys: the English name of the i-th header
      maps to cell i of `columns`, `original_columns` to `columns` itself, and
      `card_id` to `meta["card"]` for a dict with that key and to null otherwise. */
  lemma ProcessRowFields(item: Json)
    requires WellFormedRow(item)
    ensures var r := ProcessRow(item); var columns := item.fields["columns"]; var meta := item.fields["meta"];
      && r.JObj?
      && r.fields.Keys == {"number", "municipality", "zone_name", "zone_code", "zone_description",
                           "additional_info", "original_columns", "card_id"}
      && (forall i :: 0 <= i < 6 ==> r.fields[HEADER_MAPPINGS[SOURCE_HEADERS[i]]] == Cell(columns, i))
      && (columns.JArr? ==> forall i :: 0 <= i < 6 ==> r.fields[HEADER_MAPPINGS[SOURCE_HEADERS[i]]] == columns.items[i])
      && r.fields["original_columns"] == columns
      && r.fields["card_id"] == (if meta.JObj? && "card" in meta.fields then meta.fields["card"] else JNull)
  {
    var columns := item.fields["columns"];
    HeaderNames();
    assert ProcessRow(item).fields == map[
      "number" := Cell(columns, 0), "municipality" := Cell(columns, 1), "zone_name" := Cell(columns, 2),
      "zone_code" := Cell(columns, 3), "zone_description" := Cell(columns, 4), "additional_info" := Cell(columns, 5),
      "original_columns" := columns, "card_id" := CardOf(item.fields["meta"])];
  }

  /** `process_data`: one record per row, same length and order. */
  method ProcessData(data: seq<Json>) returns (processedData: seq<Json>)
    requires forall i :: 0 <= i < |data| ==> WellFormedRow(data[i])
    ensures |processedData| == |data|
    ensures forall i :: 0 <= i < |data| ==> processedData[i] == ProcessRow(data[i])
  {
    processedData := [];
    for i := 0 to |data|
      invariant |processedData| == i
      invariant forall k :: 0 <= k < i ==> processedData[k] == ProcessRow(data[k])
    {
      processedData := processedData + [ProcessRow(data[i])];
    }
  }
}
