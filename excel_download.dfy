/**
 * The Excel download tab (ui_excel_download.py): for a start and an end date,
 * fetch the departures and arrivals of every day in between, split them into
 * one list per passenger terminal, and build the workbook together with its
 * file name and the counts the tab displays.
 *
 * The two date pickers, the button, the progress messages and the download
 * button are Streamlit widgets; the dates they yield are the parameters here.
 * The terminal of a record is read under the key the records actually carry
 * (see `WrittenTerminal` for the key the source reads).
 */
module ExcelDownload {
  import opened Wrappers
  import opened Api
  import opened Calendar
  import opened Utils
  import opened Subsequence
  import opened Report
  import opened ExcelExport
  import Config

  // ---------------------------------------------------------------- the terminal of a record

  /**
   * `item.get("terminalId", "")` as the source writes it: the API's key, which
   * `_convert_to_internal` has renamed, so it is never found in a record.
   */
  function WrittenTerminal(r: Record): string {
    GetOrDefault(r, "terminalId", "")
  }

  /** The terminal a converted record carries, `item.get("terminal_id", "")`. */
  function RecordTerminal(r: Record): string {
    GetOrDefault(r, "terminal_id", "")
  }

  /**
   * With the key as written, no converted record lands in any list: every
   * sheet is the header alone and the total is 0, whatever the API returned.
   */
  lemma AsWrittenBucketsEmpty(rawDepartures: seq<RawItem>, rawArrivals: seq<RawItem>)
    ensures var b := Buckets(ConvertAll(rawDepartures), ConvertAll(rawArrivals), WrittenTerminal);
            && (forall t :: t in Config.PassengerTerminals ==> b[t] == [])
            && Total(b) == 0
  {
    Config.PassengerTerminalCodes();
    var deps, arrs := ConvertAll(rawDepartures), ConvertAll(rawArrivals);
    forall i | 0 <= i < |deps|
      ensures WrittenTerminal(deps[i]) !in Config.PassengerTerminals
    {
      NoTerminalIdInRecord(rawDepartures[i]);
    }
    forall i | 0 <= i < |arrs|
      ensures WrittenTerminal(arrs[i]) !in Config.PassengerTerminals
    {
      NoTerminalIdInRecord(rawArrivals[i]);
    }
    NoPassengerTerminalNoFlights(deps, arrs, WrittenTerminal);
  }

  /** A converted record has no `terminalId`: the API's key is always renamed. */
  lemma NoTerminalIdInRecord(raw: RawItem)
    ensures "terminalId" !in ConvertToInternal(raw)
  {
    ConvertToInternalSpec(raw);
    TerminalKeyRenamed();
  }

  /** The converted record's terminal is the raw item's `terminalId`, or `""` when it is missing or `null`. */
  lemma RecordTerminalIsRawTerminal(raw: RawItem)
    ensures "terminalId" in raw && raw["terminalId"].Some? ==> RecordTerminal(ConvertToInternal(raw)) == raw["terminalId"].value
    ensures !("terminalId" in raw && raw["terminalId"].Some?) ==> RecordTerminal(ConvertToInternal(raw)) == ""
  {
    ConvertToInternalSpec(raw);
  }

  /**
   * With the renamed key, a departure is in a passenger terminal's list, tagged
   * `D`, exactly when its raw item names that terminal.
   */
  lemma DepartureReachesItsTerminal(rawDepartures: seq<RawItem>, rawArrivals: seq<RawItem>, i: nat, t: string)
    requires i < |rawDepartures| && t in Config.PassengerTerminals
    ensures var b := Buckets(ConvertAll(rawDepartures), ConvertAll(rawArrivals), RecordTerminal);
            (ConvertToInternal(rawDepartures[i]), "D") in b[t] <==>
              "terminalId" in rawDepartures[i] && rawDepartures[i]["terminalId"] == Some(t)
  {
    Config.PassengerTerminalCodes();
    assert t != "";
    var deps, arrs := ConvertAll(rawDepartures), ConvertAll(rawArrivals);
    assert Buckets(deps, arrs, RecordTerminal)[t] == Bucket(deps, RecordTerminal, t, "D") + Bucket(arrs, RecordTerminal, t, "A");
    var e := (deps[i], "D");
    BucketMembership(deps, RecordTerminal, t, "D", deps[i]);
    assert e !in Bucket(arrs, RecordTerminal, t, "A");
    RecordTerminalIsRawTerminal(rawDepartures[i]);
  }

  // ---------------------------------------------------------------- one generation

  /** Why no workbook is produced: the error message and `st.stop()`, or an exception. */
  datatype DownloadError =
    | StartAfterEnd                      // "시작일이 종료일보다 클 수 없습니다."
    | RangeFailed(rangeError: DateRangeError)
    | FetchFailed(fetchError: FetchError)

  /** What one generation yields besides the workbook: the file name, the counts shown, and the lists. */
  datatype Download = Download(filename: string, total: nat, departureCount: nat, arrivalCount: nat,
                               sheetCounts: seq<nat>, terminalItems: map<string, seq<Entry>>)

  /** `인천공항 운항현황 PBB_MT (<start>).xlsx`, or `(<start>_<end>)` for a longer range. */
  function DownloadFilename(startStr: string, endStr: string): string {
    RangeFilename("인천공항 운항현황 PBB_MT (", ").xlsx", startStr, endStr)
  }

  /** `len(terminal_items[tid])` for each `SHEET_ORDER` entry. */
  function SheetCounts(b: map<string, seq<Entry>>): (counts: seq<nat>)
    ensures |counts| == |Config.SheetOrder|
    ensures forall k :: 0 <= k < |counts| ==> counts[k] == Size(b, Config.SheetOrder[k].0)
  {
    seq(|Config.SheetOrder|, k requires 0 <= k < |Config.SheetOrder| => Size(b, Config.SheetOrder[k].0))
  }

  /** The summary of a generation over the fetched departures and arrivals. */
  function DownloadOf(start: Date, end: Date, departures: seq<Record>, arrivals: seq<Record>): Download
    requires ValidDate(start) && ValidDate(end)
  {
    var b := Buckets(departures, arrivals, RecordTerminal);
    Download(DownloadFilename(FormatCompactDate(start), FormatCompactDate(end)), Total(b),
             |departures|, |arrivals|, SheetCounts(b), b)
  }

  /** The server ends the paging of every query the button makes: those of the days in the range, when there is one. */
  ghost predicate DownloadTerminates(source: PageSource, serviceKey: string, start: Date, end: Date) {
    ValidDate(start) && ValidDate(end) &&
    (!DateBefore(end, start) && DateRangeOf(start, end).Success? ==>
       AllTerminate(source, serviceKey, DateRangeOf(start, end).value))
  }

  /** What pressing the button yields for a start and an end date. */
  ghost function Generated(source: PageSource, serviceKey: string, start: Date, end: Date): Result<Download, DownloadError>
    requires ValidDate(start) && ValidDate(end) && DownloadTerminates(source, serviceKey, start, end)
  {
    if DateBefore(end, start) then Failure(StartAfterEnd)
    else
      match DateRangeOf(start, end)
      case Failure(e) => Failure(RangeFailed(e))
      case Success(dates) =>
        match Collected(source, serviceKey, dates, ConvertAll)
        case Failure(e) => Failure(FetchFailed(e))
        case Success(lists) => Success(DownloadOf(start, end, lists.0, lists.1))
  }

  /**
   * `render`, from the date check to the workbook: reject a start after the
   * end, list the days, fetch them, split the flights by terminal, name the
   * file, count, and build one report sheet per terminal.
   */
  method GenerateExcel(source: PageSource, serviceKey: string, start: Date, end: Date)
    returns (r: Result<Download, DownloadError>, wb: Workbook?)
    requires ValidDate(start) && ValidDate(end) && DownloadTerminates(source, serviceKey, start, end)
    ensures r == Generated(source, serviceKey, start, end)
    ensures r.Failure? ==> wb == null
    ensures r.Success? ==> wb != null && fresh(wb) && |wb.sheets| == |Config.SheetOrder|
    ensures r.Success? ==> forall k :: 0 <= k < |Config.SheetOrder| ==>
              IsReport(wb.sheets[k], Config.SheetOrder[k].1, ItemsOf(r.value.terminalItems, Config.SheetOrder[k].0))
  {
    if DateBefore(end, start) {
      return Failure(StartAfterEnd), null;
    }
    var startStr := FormatCompactDate(start);
    var endStr := FormatCompactDate(end);
    FormattedDateParses(start);
    FormattedDateParses(end);
    var dates := DateRange(startStr, endStr);
    if dates.Failure? {
      return Failure(RangeFailed(dates.error)), null;
    }
    var fetched := FetchDays(source, serviceKey, dates.value, ConvertAll);
    if fetched.Failure? {
      return Failure(FetchFailed(fetched.error)), null;
    }
    var (departures, arrivals) := fetched.value;
    var terminalItems := BucketByTerminal(departures, arrivals, RecordTerminal);
    var filename := DownloadFilename(startStr, endStr);
    var total := Total(terminalItems);
    wb := CreateExcelFile(terminalItems);
    r := Success(Download(filename, total, |departures|, |arrivals|, SheetCounts(terminalItems), terminalItems));
  }

  // ---------------------------------------------------------------- properties of a generation

  /** A start after the end is refused before anything is fetched. */
  lemma StartAfterEndRefused(source: PageSource, serviceKey: string, start: Date, end: Date)
    requires ValidDate(start) && ValidDate(end) && DownloadTerminates(source, serviceKey, start, end)
    ensures Generated(source, serviceKey, start, end) == Failure(StartAfterEnd) <==> DateBefore(end, start)
  {
  }

  /**
   * A generation succeeds exactly when the start is not after the end, the end
   * is not the last representable day, and every departures and arrivals
   * request of every day in the range succeeds.
   */
  lemma GeneratedSucceeds(source: PageSource, serviceKey: string, start: Date, end: Date)
    requires ValidDate(start) && ValidDate(end) && DownloadTerminates(source, serviceKey, start, end)
    ensures Generated(source, serviceKey, start, end).Success? <==>
            && !DateBefore(end, start)
            && end != LastDate
            && DayNumber(start) <= DayNumber(end) < LastDayNumber
            && var days := DayStrings(start, DayNumber(end) - DayNumber(start) + 1);
               forall i :: 0 <= i < |days| ==>
                 FetchOutcome(source, DayQuery(serviceKey, DeparturesOperation, days[i])).Success? &&
                 FetchOutcome(source, DayQuery(serviceKey, ArrivalsOperation, days[i])).Success?
  {
    DayNumberOrder(start, end);
    DayNumberOrder(end, LastDate);
    if !DateBefore(end, start) && end != LastDate {
      DateRangeIsDays(start, end);
      var days := DayStrings(start, DayNumber(end) - DayNumber(start) + 1);
      CollectedSucceeds(source, serviceKey, days, ConvertAll);
    }
  }

  /**
   * A successful generation counts every passenger-terminal flight once: the
   * total is the sum of the sheet counts and never exceeds the departures and
   * arrivals fetched, and the file name determines the range.
   */
  lemma DownloadCounts(start: Date, end: Date, departures: seq<Record>, arrivals: seq<Record>)
    requires ValidDate(start) && ValidDate(end)
    ensures var d := DownloadOf(start, end, departures, arrivals);
            && d.total == d.sheetCounts[0] + d.sheetCounts[1] + d.sheetCounts[2]
            && d.total <= d.departureCount + d.arrivalCount
            && d.terminalItems.Keys == Config.PassengerTerminals
  {
    TotalCounts(departures, arrivals, RecordTerminal);
  }

  /** Two ranges give the same file name only when they are the same range. */
  lemma DownloadFilenameInjective(s: Date, e: Date, s': Date, e': Date)
    requires ValidDate(s) && ValidDate(e) && ValidDate(s') && ValidDate(e')
    requires DownloadFilename(FormatCompactDate(s), FormatCompactDate(e)) ==
             DownloadFilename(FormatCompactDate(s'), FormatCompactDate(e'))
    ensures s == s' && e == e'
  {
    FormattedDateParses(s);
    FormattedDateParses(e);
    FormattedDateParses(s');
    FormattedDateParses(e');
    RangeFilenameInjective("인천공항 운항현황 PBB_MT (", ").xlsx", FormatCompactDate(s), FormatCompactDate(e),
                           FormatCompactDate(s'), FormatCompactDate(e'));
  }
}
