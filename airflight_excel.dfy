/**
 * The standalone command-line report (airflight_excel.py): the same per-day
 * fetch and terminal split as the download tab, but over the raw API items
 * (no field renaming), with its own eleven columns, no codeshare filter, a
 * range check against a window of days around today, and its own file name.
 *
 * The command-line arguments, the window bounds and today's date (all taken
 * from `sys.argv` and the clock) and the service key (from the environment)
 * are parameters; saving the file and the progress lines are left out.
 */
module AirflightExcel {
  import opened Wrappers
  import opened Text
  import opened Api
  import opened Calendar
  import opened Utils
  import opened Sorting
  import opened Subsequence
  import opened Report
  import opened ExcelExport
  import Config

  /** A raw item of a terminal's list and its direction, `"A"` or `"D"`. */
  type RawEntry = (RawItem, string)

  // ---------------------------------------------------------------- cell values

  /** `item.get(k, "") or ""`: missing, `null` and empty all give `""`. */
  function OrEmpty(item: RawItem, k: string): (r: string)
    ensures k in item && item[k].Some? ==> r == item[k].value
    ensures !(k in item && item[k].Some?) ==> r == ""
  {
    if k in item && item[k].Some? then item[k].value else ""
  }

  /** `item.get(k, "-") or "-"`: missing, `null` and empty all give `-`. */
  function OrDash(item: RawItem, k: string): (r: string)
    ensures k in item && item[k].Some? && item[k].value != "" ==> r == item[k].value
    ensures !(k in item && item[k].Some? && item[k].value != "") ==> r == "-"
  {
    if k in item && item[k].Some? && item[k].value != "" then item[k].value else "-"
  }

  /**
   * `item.get("airport", "-")`, as the cell shows it: `-` when the key is
   * missing, an empty cell for JSON `null`, and the value otherwise.
   */
  function AirportCell(item: RawItem): (r: string)
    ensures "airport" !in item ==> r == "-"
    ensures "airport" in item && item["airport"].None? ==> r == ""
    ensures "airport" in item && item["airport"].Some? ==> r == item["airport"].value
  {
    if "airport" !in item then "-"
    else if item["airport"].None? then ""
    else item["airport"].value
  }

  /** The text of the cell for column `field` of a raw flight, by the branches of the row loop. */
  function RawCellValue(item: RawItem, field: string, flightType: string): string {
    if field == "_date" then FmtDate(OrEmpty(item, "scheduleDatetime"))
    else if field == "_flight_type" then flightType
    else if field == "scheduleDatetime" || field == "estimatedDatetime" then FmtTime(OrEmpty(item, field))
    else if field == "_dep_airport" then (if flightType == "A" then AirportCell(item) else "-")
    else if field == "_arr_airport" then (if flightType == "D" then AirportCell(item) else "-")
    else OrDash(item, field)
  }

  /** `COLUMNS`: the header text and the raw field of each column. */
  const Columns: seq<(string, string)> := [
    ("운항일자", "_date"),
    ("출도착", "_flight_type"),
    ("편명", "flightId"),
    ("STA/STD", "scheduleDatetime"),
    ("등록기호", "aircraftRegNo"),
    ("ATA/ATD", "estimatedDatetime"),
    ("운항여부", "remark"),
    ("주기장", "fstandPosition"),
    ("기종", "aircraftSubtype"),
    ("출발지공항명", "_dep_airport"),
    ("도착지공항명", "_arr_airport")
  ]

  /** An arrival shows its airport as the origin and `-` as the destination; a departure the other way round. */
  lemma RawAirportColumns(item: RawItem, flightType: string)
    ensures RawCellValue(item, "_dep_airport", flightType) == (if flightType == "A" then AirportCell(item) else "-")
    ensures RawCellValue(item, "_arr_airport", flightType) == (if flightType == "D" then AirportCell(item) else "-")
    ensures flightType != "A" && flightType != "D" ==>
              RawCellValue(item, "_dep_airport", flightType) == "-" && RawCellValue(item, "_arr_airport", flightType) == "-"
  {
  }

  /**
   * A flight with a well-formed scheduled timestamp shows its date as
   * `YYYY-MM-DD` and its scheduled time as `HHMM` (the digits, without the
   * colon of the usage comment), both read back from the timestamp.
   */
  lemma RawScheduleCells(item: RawItem, flightType: string)
    requires "scheduleDatetime" in item && item["scheduleDatetime"].Some?
    requires ParseStamp(item["scheduleDatetime"].value).Some?
    ensures var s := item["scheduleDatetime"].value;
            && RawCellValue(item, "_date", flightType) == s[0..4] + "-" + s[4..6] + "-" + s[6..8]
            && RawCellValue(item, "scheduleDatetime", flightType) == s[8..12]
  {
    var s := item["scheduleDatetime"].value;
    StampIsTrimmed(s);
    FmtDateOfTimestamp(s);
    FmtTimeOfTimestamp(s);
  }

  /** Any other column copies its field, and shows `-` for a missing, `null` or empty one. */
  lemma CopiedRawCell(item: RawItem, c: nat, flightType: string)
    requires c < |Columns| && c !in {0, 1, 3, 5, 9, 10}
    ensures RawCellValue(item, Columns[c].1, flightType) == OrDash(item, Columns[c].1)
    ensures RawCellValue(item, Columns[c].1, flightType) != ""
  {
  }

  // ---------------------------------------------------------------- sort and rows

  /** The sort key `x[0].get("scheduleDatetime", "") or ""`. */
  function RawScheduleKey(e: RawEntry): string {
    OrEmpty(e.0, "scheduleDatetime")
  }

  function KeyedRaw(items: seq<RawEntry>): (r: seq<(string, RawEntry)>)
    ensures |r| == |items| && forall i :: 0 <= i < |items| ==> r[i] == (RawScheduleKey(items[i]), items[i])
  {
    seq(|items|, i requires 0 <= i < |items| => (RawScheduleKey(items[i]), items[i]))
  }

  /** `all_items.sort(key=...)`: Python's stable sort by the scheduled-time string. */
  function SortedRaw(items: seq<RawEntry>): seq<RawEntry> {
    Sorting.Items(SortByKey(KeyedRaw(items), Less))
  }

  /**
   * The sort rearranges all the flights (none is dropped) into ascending
   * scheduled-time order, and flights with the same key keep their order.
   */
  lemma SortedRawSpec(items: seq<RawEntry>)
    ensures var keyed := KeyedRaw(items);
            var sorted := SortByKey(keyed, Less);
            && SortedRaw(items) == Sorting.Items(sorted)
            && |SortedRaw(items)| == |items|
            && multiset(sorted) == multiset(keyed)
            && Sorted(sorted, Less)
            && (forall k :: WithKey(sorted, k) == WithKey(keyed, k))
  {
    var keyed := KeyedRaw(items);
    SortPermutes(keyed, Less);
    StringLessIsStrictTotal();
    SortSorted(keyed, Less);
    forall k
      ensures WithKey(SortByKey(keyed, Less), k) == WithKey(keyed, k)
    {
      SortStable(keyed, Less, k);
    }
  }

  /** Row 1: the column names, in `COLUMNS` order. */
  function RawHeader(): (h: seq<string>)
    ensures |h| == |Columns| && forall c :: 0 <= c < |h| ==> h[c] == Columns[c].0
  {
    seq(|Columns|, c requires 0 <= c < |Columns| => Columns[c].0)
  }

  /** The data row of one raw flight: one cell per column. */
  function RawRow(e: RawEntry): (row: seq<string>)
    ensures |row| == |Columns|
    ensures forall c :: 0 <= c < |row| ==> row[c] == RawCellValue(e.0, Columns[c].1, e.1)
  {
    seq(|Columns|, c requires 0 <= c < |Columns| => RawCellValue(e.0, Columns[c].1, e.1))
  }

  function RawRows(es: seq<RawEntry>): (rows: seq<seq<string>>)
    ensures |rows| == |es| && forall i :: 0 <= i < |es| ==> rows[i] == RawRow(es[i])
  {
    seq(|es|, i requires 0 <= i < |es| => RawRow(es[i]))
  }

  /** The rows `write_sheet` writes for a terminal's flights. */
  function SheetRows(items: seq<RawEntry>): seq<seq<string>> {
    [RawHeader()] + RawRows(SortedRaw(items))
  }

  /** The header, then one row for every flight of the list, each row one cell per column. */
  lemma SheetRowsShape(items: seq<RawEntry>)
    ensures var rows := SheetRows(items);
            && |rows| == 1 + |items|
            && rows[0] == RawHeader()
            && (forall r :: 0 <= r < |rows| ==> |rows[r]| == |Columns|)
            && (forall i :: 0 <= i < |items| ==> rows[i + 1] == RawRow(SortedRaw(items)[i]))
  {
    SortedRawSpec(items);
  }

  // ---------------------------------------------------------------- write_sheet

  /** What a worksheet holds once `write_sheet` has filled it. */
  ghost predicate IsSheet(ws: Worksheet, title: string, items: seq<RawEntry>)
    reads ws
  {
    ws.title == title && ws.rows == SheetRows(items) && ws.widths == Widths(ws.rows, |Columns|)
  }

  /**
   * `write_sheet(wb, sheet_name, all_items)`: add a sheet, write the header,
   * sort the flights by scheduled time, write one row each, then size the
   * columns. The sorted list is returned, as the sort reorders the caller's list.
   */
  method WriteSheet(wb: Workbook, sheetName: string, allItems: seq<RawEntry>) returns (sorted: seq<RawEntry>)
    modifies wb
    ensures |wb.sheets| == |old(wb.sheets)| + 1 && wb.sheets[..|old(wb.sheets)|] == old(wb.sheets)
    ensures fresh(wb.sheets[|old(wb.sheets)|])
    ensures IsSheet(wb.sheets[|old(wb.sheets)|], sheetName, allItems)
    ensures sorted == SortedRaw(allItems)
  {
    var ws := new Worksheet(sheetName);
    wb.sheets := wb.sheets + [ws];
    WriteRawHeader(ws);
    sorted := SortedRaw(allItems);
    WriteRawRows(ws, sorted);
    ws.widths := ColumnWidths(ws.rows, |Columns|);
  }

  /** Row 1: the column names, left to right. */
  method WriteRawHeader(ws: Worksheet)
    modifies ws
    ensures ws.title == old(ws.title) && ws.widths == old(ws.widths)
    ensures ws.rows == old(ws.rows) + [RawHeader()]
  {
    var header := [];
    for c := 0 to |Columns|
      invariant header == RawHeader()[..c]
    {
      header := header + [Columns[c].0];
    }
    assert header == RawHeader();
    ws.WriteRow(header);
  }

  /** The cells of one raw flight's row, written column by column. */
  method WriteRawRow(e: RawEntry) returns (row: seq<string>)
    ensures row == RawRow(e)
  {
    row := [];
    for c := 0 to |Columns|
      invariant row == RawRow(e)[..c]
    {
      row := row + [RawCellValue(e.0, Columns[c].1, e.1)];
    }
  }

  /** Rows 2, 3, …: one row per flight, in the order given. */
  method WriteRawRows(ws: Worksheet, items: seq<RawEntry>)
    modifies ws
    ensures ws.title == old(ws.title) && ws.widths == old(ws.widths)
    ensures ws.rows == old(ws.rows) + RawRows(items)
  {
    for i := 0 to |items|
      invariant ws.title == old(ws.title) && ws.widths == old(ws.widths)
      invariant ws.rows == old(ws.rows) + RawRows(items[..i])
    {
      var row := WriteRawRow(items[i]);
      ws.WriteRow(row);
      assert RawRows(items[..i + 1]) == RawRows(items[..i]) + [row];
    }
    assert items[..|items|] == items;
  }

  // ---------------------------------------------------------------- main

  /** `item.get("terminalId", "")` on a raw item; JSON `null` is no passenger terminal, like `""`. */
  function RawTerminal(item: RawItem): string {
    if "terminalId" in item && item["terminalId"].Some? then item["terminalId"].value else ""
  }

  /** The fetched items are kept as they come. */
  function AsIs(items: seq<RawItem>): (r: seq<RawItem>)
    ensures r == items
  {
    items
  }

  /** The start and end dates from the arguments after the program name: two, one (used twice), or today. */
  function ArgDates(args: seq<string>, today: string): (r: (string, string))
    ensures |args| >= 2 ==> r == (args[0], args[1])
    ensures |args| == 1 ==> r == (args[0], args[0])
    ensures args == [] ==> r == (today, today)
  {
    if |args| >= 2 then (args[0], args[1])
    else if |args| == 1 then (args[0], args[0])
    else (today, today)
  }

  /** The range check `start_date < min_date or end_date > max_date` fails, by string comparison. */
  predicate InWindow(startStr: string, endStr: string, minDate: string, maxDate: string) {
    !(Less(startStr, minDate) || Less(maxDate, endStr))
  }

  /** `인천공항_운항현황_<start>.xlsx`, or `_<start>_<end>` for a longer range. */
  function ReportFilename(startStr: string, endStr: string): string {
    RangeFilename("인천공항_운항현황_", ".xlsx", startStr, endStr)
  }

  /** Why no file is written: the range message and `sys.exit(1)`, or an exception. */
  datatype RunError =
    | OutOfRange
    | RangeFailed(rangeError: DateRangeError)
    | FetchFailed(fetchError: FetchError)

  /** What a run yields besides the workbook: the file name, the counts printed, and the lists. */
  datatype RunSummary = RunSummary(filename: string, dayCount: nat, departureCount: nat, arrivalCount: nat,
                                   terminalItems: map<string, seq<RawEntry>>)

  /** What `date_range` gives for two strings. */
  ghost function DatesFor(startStr: string, endStr: string): Result<seq<string>, DateRangeError> {
    if ParseDate(startStr).None? || ParseDate(endStr).None? then Failure(InvalidDate)
    else DateRangeOf(ParseDate(startStr).value, ParseDate(endStr).value)
  }

  /** The server ends the paging of every query a run makes: those of the days listed, once the range passes the window check. */
  ghost predicate RunTerminates(source: PageSource, serviceKey: string, args: seq<string>,
                                today: string, minDate: string, maxDate: string) {
    var (startStr, endStr) := ArgDates(args, today);
    InWindow(startStr, endStr, minDate, maxDate) && DatesFor(startStr, endStr).Success? ==>
      AllTerminate(source, serviceKey, DatesFor(startStr, endStr).value)
  }

  /** What a run of the program yields. */
  ghost function RunOutcome(source: PageSource, serviceKey: string, args: seq<string>,
                            today: string, minDate: string, maxDate: string): Result<RunSummary, RunError>
    requires RunTerminates(source, serviceKey, args, today, minDate, maxDate)
  {
    var (startStr, endStr) := ArgDates(args, today);
    if !InWindow(startStr, endStr, minDate, maxDate) then Failure(OutOfRange)
    else
      match DatesFor(startStr, endStr)
      case Failure(e) => Failure(RangeFailed(e))
      case Success(dates) =>
        match Collected(source, serviceKey, dates, AsIs)
        case Failure(e) => Failure(FetchFailed(e))
        case Success(lists) =>
          Success(RunSummary(ReportFilename(startStr, endStr), |dates|, |lists.0|, |lists.1|,
                             Buckets(lists.0, lists.1, RawTerminal)))
  }

  /**
   * `main`: pick the dates, check them against the window, list the days,
   * fetch them, split the flights by terminal, write one sheet per terminal in
   * sheet order, and name the file.
   */
  method Run(source: PageSource, serviceKey: string, args: seq<string>, today: string, minDate: string, maxDate: string)
    returns (r: Result<RunSummary, RunError>, wb: Workbook?)
    requires RunTerminates(source, serviceKey, args, today, minDate, maxDate)
    ensures r == RunOutcome(source, serviceKey, args, today, minDate, maxDate)
    ensures r.Failure? ==> wb == null
    ensures r.Success? ==> wb != null && fresh(wb) && |wb.sheets| == |Config.SheetOrder|
    ensures r.Success? ==> forall k :: 0 <= k < |Config.SheetOrder| ==>
              IsSheet(wb.sheets[k], Config.SheetOrder[k].1, ItemsOf(r.value.terminalItems, Config.SheetOrder[k].0))
  {
    var (startStr, endStr) := ArgDates(args, today);
    if Less(startStr, minDate) || Less(maxDate, endStr) {
      return Failure(OutOfRange), null;
    }
    var dates := DateRange(startStr, endStr);
    if dates.Failure? {
      return Failure(RangeFailed(dates.error)), null;
    }
    var fetched := FetchDays(source, serviceKey, dates.value, AsIs);
    if fetched.Failure? {
      return Failure(FetchFailed(fetched.error)), null;
    }
    var (departures, arrivals) := fetched.value;
    var terminalItems := BucketByTerminal(departures, arrivals, RawTerminal);
    wb := WriteSheets(terminalItems);
    r := Success(RunSummary(ReportFilename(startStr, endStr), |dates.value|, |departures|, |arrivals|, terminalItems));
  }

  /** A new workbook with one sheet per `sheet_order` entry, in that order. */
  method WriteSheets(terminalItems: map<string, seq<RawEntry>>) returns (wb: Workbook)
    ensures fresh(wb)
    ensures |wb.sheets| == |Config.SheetOrder|
    ensures forall k :: 0 <= k < |Config.SheetOrder| ==>
              IsSheet(wb.sheets[k], Config.SheetOrder[k].1, ItemsOf(terminalItems, Config.SheetOrder[k].0))
  {
    wb := new Workbook();
    for k := 0 to |Config.SheetOrder|
      invariant |wb.sheets| == k
      invariant forall j :: 0 <= j < k ==>
                  IsSheet(wb.sheets[j], Config.SheetOrder[j].1, ItemsOf(terminalItems, Config.SheetOrder[j].0))
    {
      var (tid, sheetName) := Config.SheetOrder[k];
      var _ := WriteSheet(wb, sheetName, ItemsOf(terminalItems, tid));
    }
  }

  // ---------------------------------------------------------------- properties of a run

  /**
   * For real dates the string check is the date check: a run is inside the
   * window exactly when the start is not before the first day and the end not
   * after the last.
   */
  lemma WindowIsChronological(startStr: string, endStr: string, minDate: string, maxDate: string)
    requires ParseDate(startStr).Some? && ParseDate(endStr).Some?
    requires ParseDate(minDate).Some? && ParseDate(maxDate).Some?
    ensures InWindow(startStr, endStr, minDate, maxDate) <==>
            !DateBefore(ParseDate(startStr).value, ParseDate(minDate).value) &&
            !DateBefore(ParseDate(maxDate).value, ParseDate(endStr).value)
  {
    ParsedDateFormatsBack(startStr);
    ParsedDateFormatsBack(endStr);
    ParsedDateFormatsBack(minDate);
    ParsedDateFormatsBack(maxDate);
    CompactDateOrder(ParseDate(startStr).value, ParseDate(minDate).value);
    CompactDateOrder(ParseDate(maxDate).value, ParseDate(endStr).value);
  }

  /** Outside the window nothing is fetched and no file is written. */
  lemma OutsideWindowRefused(source: PageSource, serviceKey: string, args: seq<string>,
                             today: string, minDate: string, maxDate: string)
    requires RunTerminates(source, serviceKey, args, today, minDate, maxDate)
    ensures var (s, e) := ArgDates(args, today);
            RunOutcome(source, serviceKey, args, today, minDate, maxDate) == Failure(OutOfRange) <==>
              !InWindow(s, e, minDate, maxDate)
  {
  }

  /**
   * Unlike the download tab, the program accepts a start after the end when
   * both lie in the window: no day is fetched, and the three sheets hold their
   * header row alone.
   */
  lemma ReversedRangeWritesEmptySheets(source: PageSource, serviceKey: string, args: seq<string>,
                                       today: string, minDate: string, maxDate: string)
    requires RunTerminates(source, serviceKey, args, today, minDate, maxDate)
    requires var (s, e) := ArgDates(args, today);
             InWindow(s, e, minDate, maxDate) && ParseDate(s).Some? && ParseDate(e).Some? &&
             DateBefore(ParseDate(e).value, ParseDate(s).value)
    ensures var r := RunOutcome(source, serviceKey, args, today, minDate, maxDate);
            && r.Success? && r.value.dayCount == 0
            && r.value.departureCount == 0 && r.value.arrivalCount == 0
            && forall k :: 0 <= k < |Config.SheetOrder| ==>
                 SheetRows(ItemsOf(r.value.terminalItems, Config.SheetOrder[k].0)) == [RawHeader()]
  {
    Config.PassengerTerminalCodes();
    var (s, e) := ArgDates(args, today);
    DateRangeEmptyWhenReversed(ParseDate(s).value, ParseDate(e).value);
    var b := Buckets([], [], RawTerminal);
    forall k | 0 <= k < |Config.SheetOrder|
      ensures SheetRows(ItemsOf(b, Config.SheetOrder[k].0)) == [RawHeader()]
    {
      var tid := Config.SheetOrder[k].0;
      assert b[tid] == [];
      SortedRawSpec([]);
    }
  }

  /** A run's sheets list every passenger-terminal flight fetched, and only those. */
  lemma RunCounts(departures: seq<RawItem>, arrivals: seq<RawItem>)
    ensures var b := Buckets(departures, arrivals, RawTerminal);
            Total(b) == |Positions(PassengerMarks(departures, RawTerminal))| + |Positions(PassengerMarks(arrivals, RawTerminal))|
            && Total(b) <= |departures| + |arrivals|
  {
    TotalCounts(departures, arrivals, RawTerminal);
  }

  /** Two ranges of eight-character dates give the same file name only when they are the same range. */
  lemma ReportFilenameInjective(s: string, e: string, s': string, e': string)
    requires |s| == |e| == |s'| == |e'| == 8
    requires ReportFilename(s, e) == ReportFilename(s', e')
    ensures s == s' && e == e'
  {
    RangeFilenameInjective("인천공항_운항현황_", ".xlsx", s, e, s', e');
  }

  /** The usage comment's example: the time of `202412220005` is written `0005`, with no colon. */
  lemma FmtTimeExample()
    ensures FmtTime("202412220005") == "0005"
  {
    var t := Stamp(Date(2024, 12, 22), 0, 5);
    ExampleStampText();
    FormattedStampParses(t);
    FmtTimeOfTimestamp(FormatStamp(t));
  }

  /** The example timestamp is the API's text of 22 December 2024, 00:05. */
  lemma ExampleStampText()
    ensures ValidStamp(Stamp(Date(2024, 12, 22), 0, 5))
    ensures FormatStamp(Stamp(Date(2024, 12, 22), 0, 5)) == "202412220005"
  {
    ExampleYear();
    ExampleDayAndTime();
  }

  lemma ExampleYear()
    ensures Pad(2024, 4) == "2024"
  {
  }

  lemma ExampleDayAndTime()
    ensures Pad(12, 2) == "12" && Pad(22, 2) == "22" && Pad(0, 2) == "00" && Pad(5, 2) == "05"
  {
  }
}
