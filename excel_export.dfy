/**
 * The spreadsheet report (excel_export.py): a workbook with one worksheet per
 * passenger terminal. A worksheet holds a header row of column names, then
 * one row per Master-codeshare flight in scheduled-time order, and each
 * column is as wide as its widest cell (non-ASCII characters counting double).
 *
 * openpyxl's worksheet is modelled by the grid of cell texts it ends up
 * holding, row by row, and the width of each column; fonts, fills, borders,
 * alignment and the auto-filter are presentation only.
 */
module ExcelExport {
  import opened Wrappers
  import opened Text
  import opened Api
  import opened Calendar
  import opened Utils
  import opened Sorting
  import opened Subsequence
  import Config

  /** One flight of a terminal's list: the record and its direction, `"A"` or `"D"`. */
  type Entry = (Record, string)

  // ---------------------------------------------------------------- _resolve_cell_value

  /**
   * The text of the cell for column `field` of a flight. Dates and times go
   * through `fmt_date` / `fmt_time`; the two airport columns are filled for one
   * direction each; any other field is copied, with `-` for a missing or empty value.
   */
  function ResolveCellValue(item: Record, field: string, flightType: string): string {
    if field == "_date" then FmtDate(GetOr(item, "scheduled_datetime", ""))
    else if field == "_flight_type" then flightType
    else if field == "scheduled_datetime" || field == "actual_datetime" then FmtTime(GetOr(item, field, ""))
    else if field == "_departure_airport" then (if flightType == "A" then GetOrDefault(item, "airport_name", "-") else "-")
    else if field == "_arrival_airport" then (if flightType == "D" then GetOrDefault(item, "airport_name", "-") else "-")
    else GetOr(item, field, "-")
  }

  /** The fields with a rule of their own; every other column copies its field. */
  predicate IsDerivedField(field: string) {
    field in {"_date", "_flight_type", "scheduled_datetime", "actual_datetime", "_departure_airport", "_arrival_airport"}
  }

  /**
   * The airport name lands in the departure-airport column of an arrival and
   * in the arrival-airport column of a departure; the other column shows `-`.
   */
  lemma AirportColumnsMirror(item: Record, flightType: string)
    ensures var dep := ResolveCellValue(item, "_departure_airport", flightType);
            var arr := ResolveCellValue(item, "_arrival_airport", flightType);
            var airport := GetOrDefault(item, "airport_name", "-");
            && (flightType == "A" ==> dep == airport && arr == "-")
            && (flightType == "D" ==> dep == "-" && arr == airport)
            && (flightType != "A" && flightType != "D" ==> dep == "-" && arr == "-")
  {
  }

  /** A copied field is never blank: `-` stands for a missing or empty value, otherwise the value itself. */
  lemma CopiedFieldCell(item: Record, field: string, flightType: string)
    requires !IsDerivedField(field)
    ensures var cell := ResolveCellValue(item, field, flightType);
            && cell != ""
            && (field !in item || item[field] == "" ==> cell == "-")
            && (field in item && item[field] != "" ==> cell == item[field])
  {
  }

  /** The direction column shows the tag exactly as the caller gave it. */
  lemma FlightTypeCell(item: Record, flightType: string)
    ensures ResolveCellValue(item, "_flight_type", flightType) == flightType
  {
  }

  /**
   * With a well-formed scheduled timestamp the date column is its `YYYY-MM-DD`
   * part and the scheduled-time column its `HHmm` part; without a scheduled
   * time both show `-`.
   */
  lemma ScheduleCells(item: Record, flightType: string)
    ensures var date := ResolveCellValue(item, "_date", flightType);
            var time := ResolveCellValue(item, "scheduled_datetime", flightType);
            && ("scheduled_datetime" !in item ==> date == "-" && time == "-")
            && ("scheduled_datetime" in item && ParseStamp(item["scheduled_datetime"]).Some? ==>
                  var s := item["scheduled_datetime"];
                  date == s[0..4] + "-" + s[4..6] + "-" + s[6..8] && time == s[8..12])
  {
    if "scheduled_datetime" in item && ParseStamp(item["scheduled_datetime"]).Some? {
      var s := item["scheduled_datetime"];
      StampIsTrimmed(s);
      assert GetOr(item, "scheduled_datetime", "") == s;
      FmtDateOfTimestamp(s);
      FmtTimeOfTimestamp(s);
    }
  }

  // ---------------------------------------------------------------- filter and sort

  /** `item.get("codeshare") == "Master"`. */
  predicate IsMaster(e: Entry) {
    "codeshare" in e.0 && e.0["codeshare"] == "Master"
  }

  function MasterMarks(items: seq<Entry>): (m: seq<bool>)
    ensures |m| == |items| && forall i :: 0 <= i < |items| ==> m[i] == IsMaster(items[i])
  {
    seq(|items|, i requires 0 <= i < |items| => IsMaster(items[i]))
  }

  /** `[(item, t) for item, t in all_items if item.get("codeshare") == "Master"]`. */
  function MasterItems(items: seq<Entry>): seq<Entry> {
    Pick(items, Positions(MasterMarks(items)))
  }

  /**
   * The filter keeps exactly the Master-codeshare flights, each once and in
   * their input order: the kept ones sit at strictly ascending positions, and a
   * position is among them exactly when its flight is a Master one.
   */
  lemma MasterItemsSpec(items: seq<Entry>)
    ensures var idx := Positions(MasterMarks(items));
            && MasterItems(items) == Pick(items, idx)
            && (forall j, k :: 0 <= j < k < |idx| ==> idx[j] < idx[k])
            && (forall i :: 0 <= i < |items| ==> (IsMaster(items[i]) <==> i in idx))
            && (forall j :: 0 <= j < |MasterItems(items)| ==> IsMaster(MasterItems(items)[j]))
  {
    PositionsSpec(MasterMarks(items));
  }

  /** The sort key `x[0].get("scheduled_datetime", "") or ""`. */
  function ScheduleKey(e: Entry): string {
    GetOr(e.0, "scheduled_datetime", "")
  }

  function KeyedBySchedule(items: seq<Entry>): (r: seq<(string, Entry)>)
    ensures |r| == |items| && forall i :: 0 <= i < |items| ==> r[i] == (ScheduleKey(items[i]), items[i])
  {
    seq(|items|, i requires 0 <= i < |items| => (ScheduleKey(items[i]), items[i]))
  }

  /** `items.sort(key=...)`: Python's stable sort by the scheduled-time string. */
  function SortedBySchedule(items: seq<Entry>): seq<Entry> {
    Sorting.Items(SortByKey(KeyedBySchedule(items), Less))
  }

  /**
   * The sort rearranges the flights into ascending scheduled-time order, and
   * flights with the same scheduled time keep their input order.
   */
  lemma SortedByScheduleSpec(items: seq<Entry>)
    ensures var keyed := KeyedBySchedule(items);
            var sorted := SortByKey(keyed, Less);
            && SortedBySchedule(items) == Sorting.Items(sorted)
            && multiset(sorted) == multiset(keyed)
            && Sorted(sorted, Less)
            && (forall k :: WithKey(sorted, k) == WithKey(keyed, k))
  {
    var keyed := KeyedBySchedule(items);
    SortPermutes(keyed, Less);
    StringLessIsStrictTotal();
    SortSorted(keyed, Less);
    forall k
      ensures WithKey(SortByKey(keyed, Less), k) == WithKey(keyed, k)
    {
      SortStable(keyed, Less, k);
    }
  }

  // ---------------------------------------------------------------- rows

  /** Row 1: the column names, in `EXCEL_COLUMNS` order. */
  function Header(): (h: seq<string>)
    ensures |h| == |Config.ExcelColumns| && forall c :: 0 <= c < |h| ==> h[c] == Config.ExcelColumns[c].0
  {
    seq(|Config.ExcelColumns|, c requires 0 <= c < |Config.ExcelColumns| => Config.ExcelColumns[c].0)
  }

  /** The data row of one flight: one cell per column. */
  function DataRow(e: Entry): (row: seq<string>)
    ensures |row| == |Config.ExcelColumns|
    ensures forall c :: 0 <= c < |row| ==> row[c] == ResolveCellValue(e.0, Config.ExcelColumns[c].1, e.1)
  {
    seq(|Config.ExcelColumns|, c requires 0 <= c < |Config.ExcelColumns| => ResolveCellValue(e.0, Config.ExcelColumns[c].1, e.1))
  }

  function DataRows(es: seq<Entry>): (rows: seq<seq<string>>)
    ensures |rows| == |es| && forall i :: 0 <= i < |es| ==> rows[i] == DataRow(es[i])
  {
    seq(|es|, i requires 0 <= i < |es| => DataRow(es[i]))
  }

  /** The rows `write_excel_sheet` writes for a terminal's flights. */
  function ReportRows(items: seq<Entry>): seq<seq<string>> {
    [Header()] + DataRows(SortedBySchedule(MasterItems(items)))
  }

  /**
   * The header comes first, then one row per Master flight, every row one cell
   * per column, the flights in the sorted order `SortedByScheduleSpec` describes.
   */
  lemma ReportRowsShape(items: seq<Entry>)
    ensures var rows := ReportRows(items);
            var sorted := SortedBySchedule(MasterItems(items));
            && |sorted| == |MasterItems(items)|
            && |rows| == 1 + |MasterItems(items)|
            && rows[0] == Header()
            && (forall r :: 0 <= r < |rows| ==> |rows[r]| == |Config.ExcelColumns|)
            && (forall i :: 0 <= i < |sorted| ==> rows[i + 1] == DataRow(sorted[i]))
  {
    var keyed := KeyedBySchedule(MasterItems(items));
    SortPermutes(keyed, Less);
  }

  /** Without a Master flight (in particular, with no flights at all) a sheet is its header row alone. */
  lemma NoMasterHeaderOnly(items: seq<Entry>)
    requires forall i :: 0 <= i < |items| ==> !IsMaster(items[i])
    ensures ReportRows(items) == [Header()]
  {
    NoneMarked(MasterMarks(items));
  }

  // ---------------------------------------------------------------- column widths

  /** `sum(2 if ord(ch) > 127 else 1 for ch in s)`. */
  function WeightedLength(s: string): nat {
    if s == [] then 0 else WeightedLength(s[..|s| - 1]) + (if s[|s| - 1] as int > 127 then 2 else 1)
  }

  /** Every character counts once or twice, and exactly once throughout when the text is ASCII. */
  lemma {:induction false} WeightedLengthBounds(s: string)
    ensures |s| <= WeightedLength(s) <= 2 * |s|
    ensures WeightedLength(s) == |s| <==> forall i :: 0 <= i < |s| ==> s[i] as int <= 127
    decreases |s|
  {
    if s != [] {
      var init := s[..|s| - 1];
      WeightedLengthBounds(init);
      if s[|s| - 1] as int <= 127 {
        assert (forall i :: 0 <= i < |s| ==> s[i] as int <= 127) <==> (forall i :: 0 <= i < |init| ==> init[i] as int <= 127) by {
          if forall i :: 0 <= i < |init| ==> init[i] as int <= 127 {
            forall i | 0 <= i < |s|
              ensures s[i] as int <= 127
            {
              if i < |init| {
                assert s[i] == init[i];
              }
            }
          }
        }
      }
    }
  }

  /** The text a cell contributes to its column's width: an absent cell counts as `""`. */
  function CellText(row: seq<string>, c: nat): string {
    if c < |row| then row[c] else ""
  }

  /** The largest weighted length in column `c`. */
  function MaxWeighted(rows: seq<seq<string>>, c: nat): nat {
    if rows == [] then 0
    else
      var last := WeightedLength(CellText(rows[|rows| - 1], c));
      var rest := MaxWeighted(rows[..|rows| - 1], c);
      if rest < last then last else rest
  }

  /** `max(max_length + 3, 10)`. */
  function ColumnWidth(rows: seq<seq<string>>, c: nat): int {
    var m := MaxWeighted(rows, c) + 3;
    if m < 10 then 10 else m
  }

  function Widths(rows: seq<seq<string>>, n: nat): (w: seq<int>)
    ensures |w| == n && forall c :: 0 <= c < n ==> w[c] == ColumnWidth(rows, c)
  {
    seq(n, c requires 0 <= c < n => ColumnWidth(rows, c))
  }

  /** `MaxWeighted` is an upper bound of the column that some cell reaches (or 0 for no rows). */
  lemma {:induction false} MaxWeightedSpec(rows: seq<seq<string>>, c: nat)
    ensures forall r :: 0 <= r < |rows| ==> WeightedLength(CellText(rows[r], c)) <= MaxWeighted(rows, c)
    ensures (rows == [] && MaxWeighted(rows, c) == 0) ||
            (exists r :: 0 <= r < |rows| && WeightedLength(CellText(rows[r], c)) == MaxWeighted(rows, c))
    decreases |rows|
  {
    if rows != [] {
      var init := rows[..|rows| - 1];
      MaxWeightedSpec(init, c);
      forall r | 0 <= r < |init|
        ensures rows[r] == init[r]
      {
      }
    }
  }

  /**
   * A column is at least 10 wide, leaves at least 3 beyond every cell's
   * weighted length, and is either exactly 10 or exactly 3 beyond its widest cell.
   */
  lemma ColumnWidthSpec(rows: seq<seq<string>>, c: nat)
    ensures ColumnWidth(rows, c) >= 10
    ensures forall r :: 0 <= r < |rows| ==> WeightedLength(CellText(rows[r], c)) + 3 <= ColumnWidth(rows, c)
    ensures ColumnWidth(rows, c) == 10 ||
            exists r :: 0 <= r < |rows| && WeightedLength(CellText(rows[r], c)) + 3 == ColumnWidth(rows, c)
  {
    MaxWeightedSpec(rows, c);
  }

  /**
   * The width loops: for each column, the running maximum of the weighted
   * lengths of its cells, top to bottom, then `max(max_length + 3, 10)`.
   */
  method ColumnWidths(rows: seq<seq<string>>, n: nat) returns (widths: seq<int>)
    ensures widths == Widths(rows, n)
  {
    widths := [];
    for c := 0 to n
      invariant widths == Widths(rows, c)
    {
      var maxLength := ColumnMax(rows, c);
      var w := if maxLength + 3 < 10 then 10 else maxLength + 3;
      widths := widths + [w];
    }
  }

  /** The inner loop of the width computation: the running maximum down column `c`. */
  method ColumnMax(rows: seq<seq<string>>, c: nat) returns (maxLength: nat)
    ensures maxLength == MaxWeighted(rows, c)
  {
    maxLength := 0;
    for r := 0 to |rows|
      invariant maxLength == MaxWeighted(rows[..r], c)
    {
      var text := CellText(rows[r], c);
      var length := WeightedLength(text);
      assert rows[..r + 1][..r] == rows[..r];
      if maxLength < length {
        maxLength := length;
      }
    }
    assert rows[..|rows|] == rows;
  }

  // ---------------------------------------------------------------- workbook

  /** An openpyxl worksheet: its title, the texts of its cells row by row, and its column widths. */
  class Worksheet {
    var title: string
    var rows: seq<seq<string>>
    var widths: seq<int>

    /** `workbook.create_sheet(title=...)`: an empty sheet. */
    constructor(title: string)
      ensures this.title == title && rows == [] && widths == []
    {
      this.title := title;
      rows := [];
      widths := [];
    }

    /** Write the cells of the next row, left to right. */
    method WriteRow(cells: seq<string>)
      modifies this
      ensures title == old(title) && widths == old(widths)
      ensures rows == old(rows) + [cells]
    {
      rows := rows + [cells];
    }
  }

  /** An openpyxl workbook: its worksheets, in the order they were created. */
  class Workbook {
    var sheets: seq<Worksheet>

    /** `Workbook()` followed by `workbook.remove(workbook.active)`: no sheet at all. */
    constructor()
      ensures sheets == []
    {
      sheets := [];
    }
  }

  /** What a worksheet holds once `write_excel_sheet` has filled it. */
  ghost predicate IsReport(ws: Worksheet, title: string, items: seq<Entry>)
    reads ws
  {
    ws.title == title && ws.rows == ReportRows(items) && ws.widths == Widths(ws.rows, |Config.ExcelColumns|)
  }

  /** The cells of one flight's row, written column by column. */
  method WriteDataRow(e: Entry) returns (row: seq<string>)
    ensures row == DataRow(e)
  {
    row := [];
    for c := 0 to |Config.ExcelColumns|
      invariant row == DataRow(e)[..c]
    {
      row := row + [ResolveCellValue(e.0, Config.ExcelColumns[c].1, e.1)];
    }
  }

  /**
   * `write_excel_sheet(workbook, sheet_name, all_items)`: add a sheet, write the
   * header, keep the Master flights, sort them by scheduled time, write one row
   * each, then size the columns.
   */
  method WriteExcelSheet(wb: Workbook, sheetName: string, allItems: seq<Entry>)
    modifies wb
    ensures |wb.sheets| == |old(wb.sheets)| + 1 && wb.sheets[..|old(wb.sheets)|] == old(wb.sheets)
    ensures fresh(wb.sheets[|old(wb.sheets)|])
    ensures IsReport(wb.sheets[|old(wb.sheets)|], sheetName, allItems)
  {
    var ws := new Worksheet(sheetName);
    wb.sheets := wb.sheets + [ws];
    WriteHeader(ws);
    var items := MasterItems(allItems);
    items := SortedBySchedule(items);
    WriteDataRows(ws, items);
    ws.widths := ColumnWidths(ws.rows, |Config.ExcelColumns|);
  }

  /** Row 1: the column names, left to right. */
  method WriteHeader(ws: Worksheet)
    modifies ws
    ensures ws.title == old(ws.title) && ws.widths == old(ws.widths)
    ensures ws.rows == old(ws.rows) + [Header()]
  {
    var header := [];
    for c := 0 to |Config.ExcelColumns|
      invariant header == Header()[..c]
    {
      header := header + [Config.ExcelColumns[c].0];
    }
    assert header == Header();
    ws.WriteRow(header);
  }

  /** Rows 2, 3, …: one row per flight, in the order given. */
  method WriteDataRows(ws: Worksheet, items: seq<Entry>)
    modifies ws
    ensures ws.title == old(ws.title) && ws.widths == old(ws.widths)
    ensures ws.rows == old(ws.rows) + DataRows(items)
  {
    for i := 0 to |items|
      invariant ws.title == old(ws.title) && ws.widths == old(ws.widths)
      invariant ws.rows == old(ws.rows) + DataRows(items[..i])
    {
      var row := WriteDataRow(items[i]);
      ws.WriteRow(row);
      assert DataRows(items[..i + 1]) == DataRows(items[..i]) + [row];
    }
    assert items[..|items|] == items;
  }

  /** `terminal_items.get(terminal_id, [])`. */
  function ItemsOf<T>(terminalItems: map<string, seq<T>>, tid: string): seq<T> {
    if tid in terminalItems then terminalItems[tid] else []
  }

  /**
   * `create_excel_file(terminal_items)`: a new workbook with one report sheet per
   * `SHEET_ORDER` entry, in that order, each titled by the entry and filled with
   * that terminal's flights.
   */
  method CreateExcelFile(terminalItems: map<string, seq<Entry>>) returns (wb: Workbook)
    ensures fresh(wb)
    ensures |wb.sheets| == |Config.SheetOrder|
    ensures forall k :: 0 <= k < |Config.SheetOrder| ==>
              IsReport(wb.sheets[k], Config.SheetOrder[k].1, ItemsOf(terminalItems, Config.SheetOrder[k].0))
  {
    wb := new Workbook();
    for k := 0 to |Config.SheetOrder|
      invariant |wb.sheets| == k
      invariant forall j :: 0 <= j < k ==>
                  IsReport(wb.sheets[j], Config.SheetOrder[j].1, ItemsOf(terminalItems, Config.SheetOrder[j].0))
    {
      var (tid, sheetName) := Config.SheetOrder[k];
      WriteExcelSheet(wb, sheetName, ItemsOf(terminalItems, tid));
    }
  }

  /** A terminal with no list in the map still gets its sheet: the header row alone. */
  lemma MissingTerminalHeaderOnly(terminalItems: map<string, seq<Entry>>, tid: string)
    requires tid !in terminalItems
    ensures ReportRows(ItemsOf(terminalItems, tid)) == [Header()]
  {
    NoMasterHeaderOnly([]);
  }
}
