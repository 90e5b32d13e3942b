# Incheon airport flight status: a verified model of the data pipeline

The tool reads the departures and arrivals of Incheon International Airport
from the airport's open-data flight-status API. It then does two things:

- it finds the next flight at a gate;
- it exports one Excel sheet per passenger terminal (P01 = T1, P02 = the
  concourse, P03 = T2).

This project models, in Dafny, the part of the tool that turns API answers
into what is shown or written, and proves what that part promises.

| module (file) | models |
|---|---|
| `Wrappers` (wrappers.dfy) | `Option` and `Result` |
| `Text` (text.dfy) | the Python string operations used: `strip()`, `upper()`, `isdigit()`, string `<`, zero-padded numbers |
| `Calendar` (calendar.dfy) | `strptime` / `strftime` for `%Y%m%d%H%M` and `%Y%m%d`, date comparison, day numbers, `+ timedelta(days=1)`, instants in minutes at UTC+9 |
| `Config` (config.dfy) | `BASE_URL`, `NUM_OF_ROWS`, `TERMINAL_MAP`, `PASSENGER_TERMINALS`, `SHEET_ORDER`, the KST offset and the 12 `EXCEL_COLUMNS` |
| `Sorting` (sorting.dfy) | Python's stable `list.sort(key=...)`, as insertion by key |
| `Subsequence` (subsequence.dfy) | filtering list comprehensions, as picking marked positions |
| `Utils` (utils.dfy) | `fmt_date`, `fmt_time`, `format_hhmm`, `date_range` |
| `Api` (api.dfy) | the field map, `_convert_to_internal`, the pager `_fetch_raw_flights` over an abstract page source, `fetch_all_flights` |
| `GateSearch` (gate_search.dfy) | the label helpers, `_filter_by_gate`, `_filter_future_flights` and the selection and sorting in `render` |
| `ExcelExport` (excel_export.dfy) | `_resolve_cell_value`, `write_excel_sheet` (header, Master filter, sort, rows, widths) and `create_excel_file` |
| `Report` (report.dfy) | the per-day fetch loop, the bucketing of flights by terminal and the file name; the download tab and the standalone script share these |
| `ExcelDownload` (excel_download.dfy) | the Excel download tab |
| `AirflightExcel` (airflight_excel.dfy) | the older standalone script: its own cells, `write_sheet` with no codeshare filter, and `main` |

## How the source is represented

- **Records.** API items are maps from key to `Option<string>`; `None` is
  JSON `null`. Converted records are maps from key to `string`.
- **Gate search.** It writes `_flight_type` and `_parsed_time` into
  dictionaries that the fetched lists share. So a flight there is an object,
  `FlightItem`, and `FilterByGate` and `FilterFutureFlights` are methods that
  modify those objects. Each frame names the one field the method writes:
  the gate filter writes `entries` only, the future filter `parsedTime` only.
- **Workbooks.** `Worksheet` and `Workbook` are classes. A sheet holds its
  title, its rows of cell text and its column widths. The builders are methods
  that add sheets and rows.
- **Loops.** Every loop of the source is a `while` or `for` loop with its
  invariants: the pager, `date_range`, the gate and future filters, the
  bucketing, the per-day fetch and the width loops. Each is proved against a
  function that says what it computes. The lemmas are about those functions.
- **HTTP.** Requests are a `PageSource` parameter: a function from request to
  page body or failure. The pager stops when the source yields a page that
  ends the loop. `Terminates` says the source does so for one query; the day
  loops require it only of the departures and arrivals query of each day they
  request (`DayTerminates`, `AllTerminate`), and the two drivers only of the
  days their date range yields.
- **Runtime inputs.** The service key, the dates picked, the cutoff instant,
  the program arguments and "today" with its window are parameters.

## Where the code and its comments disagree

The model follows the code in each case.

- `excel_export.py:10` imports `format_date` and `format_time`.
  `utils.py` defines `fmt_date` and `fmt_time` (`utils.py:20`, `utils.py:36`).
  As written, that import raises `ImportError`, so `excel_export.py` does not
  load, and neither does the download tab that imports it
  (`ui_excel_download.py:6`). The model binds to the intended names:
  `ExcelExport.ResolveCellValue` calls `FmtDate` and `FmtTime`.
- The doc comments at `utils.py:25` and `utils.py:41` say malformed input
  gives `-`. The code returns the input unchanged (`utils.py:32-33`,
  `utils.py:48-49`); see `Utils.UnparsableReturnedUnchanged`.
- `airflight_excel.py:77` documents `fmt_time` as giving `00:05`. The code
  formats `%H%M` (`airflight_excel.py:82`), which gives `0005`; see
  `AirflightExcel.FmtTimeExample`.
- `ui_excel_download.py:44,48` read `terminalId` from converted records,
  which only carry `terminal_id` (see "## Findings").
- The download tab refuses a start after the end (`ui_excel_download.py:22-24`).
  The standalone script does not: such a run writes three header-only sheets
  (`AirflightExcel.ReversedRangeWritesEmptySheets`).
- The window check of the standalone script compares strings
  (`airflight_excel.py:189`). It equals the date check only for
  eight-digit dates (`AirflightExcel.WindowIsChronological`). An unpadded
  argument such as `2024122`, with today 2024-12-20, passes it, and Python's
  `strptime` then reads it as 2024-12-02, outside the window. The model's
  strict `ParseDate` refuses it, so `Run` ends in `RangeFailed(InvalidDate)`.
- `airflight_excel.py:14-23` repeats the constants of `config.py`. The values
  are the same, so the standalone model uses `Config`. Its `fetch_all_flights`
  (`airflight_excel.py:27-60`) is the paging loop of `api.py:28-63` without
  the conversion. It is modelled by `Api.FetchRawFlights`, with the raw items
  kept as they are. Its `date_range` and `fmt_date` / `fmt_time`
  (`airflight_excel.py:161-169`, `65-84`) are the ones of `utils.py`, line
  for line.

## Model

| member | source | states |
|---|---|---|
| Utils.FmtDate | utils.py:20-33 | the result is `-`, the input itself, or ten characters of the form `YYYY-MM-DD` |
| Utils.FmtTime | utils.py:36-49 | the result is `-`, the input itself, or four digits |
| Utils.PlaceholderInput | utils.py:27-28 | empty input and `-` give `-` from `fmt_date`, `fmt_time` (lines 43-44) and `format_hhmm` |
| Utils.FmtDateOfTimestamp | utils.py:29-31 | on a well-formed `YYYYMMDDHHmm`, `fmt_date` is its first eight characters split as `YYYY-MM-DD` |
| Utils.FmtTimeOfTimestamp | utils.py:45-47 | on a well-formed timestamp, `fmt_time` is characters 8..12 (`HHmm`) |
| Utils.DateTimeRoundTrip | utils.py:29-47 | `fmt_date(t)` without its dashes, followed by `fmt_time(t)`, is `t` again |
| Utils.DashedDateUndashed | utils.py:31 | eight digits written as `YYYY-MM-DD` lose exactly the two dashes when the dashes are removed |
| Utils.UnparsableReturnedUnchanged | utils.py:32-33 | non-empty input other than `-` that does not parse after stripping comes back unchanged from both functions (also lines 48-49), against the doc comments at lines 25 and 41 |
| Utils.SurroundingWhitespaceIgnored | utils.py:30 | whitespace around a timestamp changes neither the date nor the time (also line 46) |
| Utils.FormatHhmm | utils.py:52-63 | `format_hhmm`; `FormatHhmmOfTimestamp`, `FormatHhmmColonRule` and `PlaceholderInput` prove what it gives |
| Utils.FormatHhmmOfTimestamp | utils.py:52-63 | on a well-formed timestamp `format_hhmm` gives `HH:MM` |
| Utils.FormatHhmmColonRule | utils.py:59-63 | the colon is inserted exactly when `fmt_time` gave four digits, else that result is returned as is; `None` gives `-` |
| Utils.DateRangeOf | utils.py:81-87 | the list `date_range` builds from two parsed dates; `DateRangeIsDays`, `DayStringsAt`, `DayStringsEnds`, `DayStringsParse`, `DayStringsAscending` and `DateRangeEmptyWhenReversed` prove it is the consecutive days from start to end |
| Utils.DateRange | utils.py:66-87 | an unparsable date fails; otherwise the loop's list is `DateRangeOf` of the two parsed dates |
| Utils.DayStringsAt | utils.py:84-86 | entry `i` is the day `i` days after the start, written `YYYYMMDD` |
| Utils.DateRangeIsDays | utils.py:81-87 | for `s <= e` (and `e` not 9999-12-31) the list has one entry per day from `s` through `e`, `e - s + 1` in all |
| Utils.DayStringsEnds | utils.py:84-86 | the first entry is the start date and the last the end date |
| Utils.DayStringsParse | utils.py:84-86 | each entry parses back to the day `i` days after the start: the list is consecutive |
| Utils.DayStringsAscending | utils.py:84-86 | the entries strictly ascend as strings |
| Utils.DateRangeEmptyWhenReversed | utils.py:84 | a start after the end gives the empty list and no error |
| Calendar.DayNumberOrder | utils.py:84 | `s <= e` on dates is the order of their day numbers, in both directions |
| Calendar.NextDayNumber | utils.py:86 | adding one day to any date but the last gives a valid date one day number later |
| Calendar.LastDayNumberIs | utils.py:86 | 9999-12-31 is the last date, the one after which `+ timedelta(days=1)` overflows |
| Calendar.NothingAfterLastDate | utils.py:86 | no valid date lies after 9999-12-31 |
| Calendar.LeapCount | utils.py:86 | a year has 366 days under the Gregorian rule of 4, 100 and 400, otherwise 365 |
| Calendar.ParseStamp | utils.py:30 | `strptime(s, "%Y%m%d%H%M")`; `ParsedStampFormatsBack`, `FormattedStampParses` and `StampIsTrimmed` prove it succeeds exactly on the texts that `strftime` writes for a valid instant |
| Calendar.ParseDate | utils.py:81 | `strptime(s, "%Y%m%d")`; `ParsedDateFormatsBack` and `FormattedDateParses` prove it inverts `strftime("%Y%m%d")` on valid dates |
| Calendar.ParsedStampFormatsBack | utils.py:30-31 | a parsed timestamp's fields, zero-padded, are the input's slices, and formatting it back gives the input |
| Calendar.FormattedStampParses | utils.py:30 | a valid timestamp written as `%Y%m%d%H%M` parses back to itself |
| Calendar.ParsedDateFormatsBack | utils.py:81-85 | a parsed `YYYYMMDD` date written back with `strftime("%Y%m%d")` is the input |
| Calendar.FormattedDateParses | utils.py:85 | `strftime("%Y%m%d")` of a valid date parses back to that date |
| Calendar.CompactDateOrder | airflight_excel.py:189 | `YYYYMMDD` strings of valid dates compare as strings exactly as the dates compare |
| Calendar.StampIsTrimmed | utils.py:30 | a well-formed timestamp is twelve digits, so `strip()` leaves it alone |
| Text.StripLeft | ui_gate_search.py:48 | the result is a suffix of the input; only whitespace was removed; it starts with a non-space |
| Text.StripRight | ui_gate_search.py:48 | the result is a prefix of the input; only whitespace was removed; it ends with a non-space |
| Text.Strip | ui_gate_search.py:48 | the result is no longer than the input, and neither starts nor ends with whitespace |
| Text.StripSurrounded | utils.py:30 | whitespace around a text that neither starts nor ends with a space never reaches `strip()`'s result |
| Text.LessPad | airflight_excel.py:189 | zero-padded numbers of one width compare as strings exactly as the numbers compare |
| Text.LessTotal | excel_export.py:56 | string `<` relates any two distinct strings one way or the other |
| Sorting.SortPermutes | excel_export.py:56 | sorting neither adds nor drops an element: the result is a permutation |
| Sorting.SortSorted | excel_export.py:56 | the result is ordered by key |
| Sorting.SortStable | excel_export.py:56 | elements with equal keys keep their input order |
| Sorting.SortIdempotent | excel_export.py:56 | sorting a sorted list changes nothing |
| Sorting.StringLessIsStrictTotal | excel_export.py:56 | Python's string `<`, the order of the scheduled-time keys, is a strict total order |
| Sorting.IntLtIsStrictTotal | ui_gate_search.py:184 | the order of parsed instants is a strict total order |
| Subsequence.PositionsSpec | excel_export.py:52-53 | a filtering comprehension keeps each passing element once, in input order, and every passing element |
| Subsequence.PositionsBound | excel_export.py:52-53 | a filter keeps at most as many elements as it is given |
| Config.PassengerTerminalCodes | config.py:9-21 | the passenger terminals are P01, P02 and P03; each `SHEET_ORDER` entry names one; there are 12 Excel columns (lines 25-38) |
| Api.FieldMapInjective | api.py:5-17 | no two API keys share an internal name |
| Api.TerminalKeyRenamed | api.py:14 | `terminalId` becomes `terminal_id`, and no internal name is `terminalId` |
| Api.ConvertAllConcat | api.py:68 | converting a concatenation of lists converts each part: the per-day lists may be converted before or after they are joined |
| Api.ConvertToInternal | api.py:20-25 | `_convert_to_internal`; `ConvertToInternalSpec`, `UnmappedKeysIgnored` and `EmptyStringKept` prove which keys and values it keeps |
| Api.ConvertToInternalSpec | api.py:20-25 | only internal names appear; one appears exactly when its API key is present and not `null`; the value is copied unchanged |
| Api.UnmappedKeysIgnored | api.py:20-25 | a key outside the map never reaches the record, whatever its value |
| Api.EmptyStringKept | api.py:24 | an empty string is kept, unlike `null` |
| Api.PageCount | api.py:33-61 | the number of requests is the first page that stops the loop |
| Api.FetchOutcome | api.py:28-63 | what the pager returns; `FetchRawFlights` computes it, and `EarlierPagesContinue`, `FailureAborts`, `AccumulatedPages` and `PageCount` prove it is every page's items up to the first page that stops the loop, or the first failure |
| Api.FetchRawFlights | api.py:28-63 | pages 1, 2, … are requested one by one up to the first that stops the loop; the result is `FetchOutcome`: every page's items in order, or the failure |
| Api.FetchAllFlights | api.py:66-68 | the fetched items, each converted, in order; a fetch failure is passed on |
| Api.EarlierPagesContinue | api.py:51-61 | every page before the last succeeded, had items, and left the running count short of that page's `totalCount` |
| Api.EmptyPageAddsNothing | api.py:51-52 | an empty page stops the loop and adds nothing |
| Api.FailureAborts | api.py:44 | the fetch fails exactly when a request fails, with no partial result |
| Api.AccumulatedPages | api.py:54 | each page's items sit, unchanged and in place, in the accumulated list |
| Api.ThreePages | api.py:51-59 | 2500 flights in pages of 1000: three requests and 2500 items |
| Api.EmptyFirstPage | api.py:51-52 | an empty first page: one request and no items |
| GateSearch.FlightTypeLabel | ui_gate_search.py:10-12 | the direction label; `LabelsDistinguishOnlyArrivals` proves only `A` gives the arrival text |
| GateSearch.FlightTypeColor | ui_gate_search.py:15-17 | the theme colour; `LabelsDistinguishOnlyArrivals` proves only `A` gives the arrival colour |
| GateSearch.AirportLabel | ui_gate_search.py:20-22 | the airport label; `LabelsDistinguishOnlyArrivals` proves only `A` gives the origin label |
| GateSearch.EstimatedTimeLabel | ui_gate_search.py:25-27 | the estimated-time label; `LabelsDistinguishOnlyArrivals` proves only `A` gives ETA |
| GateSearch.ScheduledTimeLabel | ui_gate_search.py:30-32 | the scheduled-time label; `LabelsDistinguishOnlyArrivals` proves only `A` gives STA |
| GateSearch.CardBackground | ui_gate_search.py:35-40 | the card gradient; `LabelsDistinguishOnlyArrivals` proves only `A` gives the blue one |
| GateSearch.LabelsDistinguishOnlyArrivals | ui_gate_search.py:10-40 | only `A` selects the arrival label, colour, airport label, time labels and background; every other tag gets the departure variant; the two variants differ |
| GateSearch.GateMatches | ui_gate_search.py:46-49 | the test of `_filter_by_gate`; `ByGateSpec` and `ByGateIgnoresTag` prove what it selects and that only the codeshare and gate entries decide it |
| GateSearch.ByGateSpec | ui_gate_search.py:43-52 | the gate filter keeps exactly the Master records whose trimmed, upper-cased gate (`""` when missing) is the query, each once, in order |
| GateSearch.ByGateIgnoresTag | ui_gate_search.py:46-49 | the gate test reads only the codeshare and gate entries, so a written tag cannot change a later selection |
| GateSearch.TaggedTwice | ui_gate_search.py:50 | tagging a record a second time changes nothing more |
| GateSearch.RetaggedOverrides | ui_gate_search.py:166-169 | filtering a record again with another tag leaves the second tag and changes nothing else, so a flight in both lists ends tagged `D` |
| GateSearch.FilterByGate | ui_gate_search.py:43-52 | the result is the gate selection; each flight at the gate has the tag written into its own shared dictionary; nothing else changes |
| GateSearch.TagFlight | ui_gate_search.py:45-51 | one visit: a flight at the gate is tagged, seen by every alias of the object, and appended |
| GateSearch.EffectiveTime | ui_gate_search.py:58-60 | the time string of a flight; `ActualTimeWins` and `ScheduledTimeFallback` prove when the actual and when the scheduled time is used |
| GateSearch.EffectiveInstant | ui_gate_search.py:58-68 | the instant of a flight, if any; `MalformedActualDrops` and `FlightInstant` prove how it follows from the two times |
| GateSearch.ActualTimeWins | ui_gate_search.py:58-60 | a well-formed actual time is the effective time |
| GateSearch.ScheduledTimeFallback | ui_gate_search.py:58-60 | with an empty or `-` actual time, the scheduled time is used |
| GateSearch.MalformedActualDrops | ui_gate_search.py:73-74 | an actual time that is present but malformed drops the record, even with a valid scheduled time |
| GateSearch.Upcoming | ui_gate_search.py:55-76 | the future flights; `UpcomingSpec` and `UpcomingKeyed` prove they are, in order, exactly the flights whose instant is at or after the cutoff |
| GateSearch.UpcomingKeyed | ui_gate_search.py:55-76 | the kept flights, each keyed by its instant, all at or after the cutoff |
| GateSearch.UpcomingSpec | ui_gate_search.py:62-76 | the future list is the in-order subsequence of exactly the flights whose effective time parses to an instant at or after the cutoff |
| GateSearch.FilterFutureFlights | ui_gate_search.py:55-76 | the result is the future selection; entries are unchanged; `_parsed_time` is written as `Settled` says |
| GateSearch.SettleFlight | ui_gate_search.py:69-72 | one visit after parsing: the instant is written to every alias, and the flight is appended when not before the cutoff |
| GateSearch.FlightInstant | ui_gate_search.py:58-68 | the instant read for a flight is its effective time, parsed |
| GateSearch.SelectView | ui_gate_search.py:177-190 | the view `render` shows; `NextFlightIsEarliest`, `NoFutureShowsAll` and `SelectViewIgnoresTag` prove which flight comes first, the order of the rest, and that tags do not change it |
| GateSearch.NextFlightIsEarliest | ui_gate_search.py:184-190 | with a future flight: the next one has the smallest instant, the rest ascend, together they are the future list rearranged, and ties keep list order (arrivals first) |
| GateSearch.NoFutureShowsAll | ui_gate_search.py:177-182 | with none at or after the cutoff: all gate flights, sorted stably by scheduled string, a missing one as `""` |
| GateSearch.SelectViewIgnoresTag | ui_gate_search.py:166-169 | the tags written by the gate filter do not change which view is chosen |
| GateSearch.SettledKeysUpcoming | ui_gate_search.py:184 | the `_parsed_time` that the sort reads is the instant each future flight was selected by |
| GateSearch.SelectNextFlight | ui_gate_search.py:171-190 | filter the future flights and sort as `SelectView` says; entries unchanged; each flight's `_parsed_time` is its parsed instant when its time parses and is kept otherwise |
| GateSearch.FilterBoth | ui_gate_search.py:166-169 | the gate list is the arrivals at the gate followed by the departures at the gate; every departure ends as its old record tagged `D` when at the gate, every arrival tagged `A`, or `D` when the same object is also a departure, since the departures are filtered second (`TaggedBySearch`); each gate flight's record agrees, tag aside, with the record it was selected by; no `_parsed_time` changes |
| GateSearch.SearchGate | ui_gate_search.py:166-190 | the gate list is the arrivals at the gate followed by the departures at the gate; the view is chosen from their records before tagging; the tags end as `TaggedBySearch` states; a gate flight's `_parsed_time` is its parsed instant when its time parses and is kept otherwise; no flight off the gate list has its `_parsed_time` changed |
| ExcelExport.ResolveCellValue | excel_export.py:20-37 | `_resolve_cell_value`; `AirportColumnsMirror`, `CopiedFieldCell`, `FlightTypeCell` and `ScheduleCells` prove each kind of cell |
| ExcelExport.AirportColumnsMirror | excel_export.py:30-34 | the airport name is the departure-airport cell of an arrival and the arrival-airport cell of a departure; the other cell is `-` |
| ExcelExport.CopiedFieldCell | excel_export.py:36-37 | any other column copies its field, and is `-` when the field is missing or empty, never blank |
| ExcelExport.FlightTypeCell | excel_export.py:24-25 | the direction cell is the tag as given |
| ExcelExport.ScheduleCells | excel_export.py:21-28 | a well-formed scheduled time gives `YYYY-MM-DD` and `HHmm`; a missing one gives `-` in both cells |
| ExcelExport.MasterItemsSpec | excel_export.py:52-53 | the filter keeps exactly the Master flights, each once, in input order |
| ExcelExport.SortedByScheduleSpec | excel_export.py:56 | the flights are rearranged into ascending scheduled order, stably |
| ExcelExport.ReportRowsShape | excel_export.py:44-65 | the header, then one row per Master flight in sorted order, every row as wide as the columns |
| ExcelExport.NoMasterHeaderOnly | excel_export.py:52-53 | without a Master flight the sheet is the header alone |
| ExcelExport.WeightedLengthBounds | excel_export.py:72 | each character counts 1 or 2; the sum equals the length exactly when the text is ASCII |
| ExcelExport.MaxWeightedSpec | excel_export.py:69-73 | the running maximum bounds every cell of the column, header included, and some cell reaches it |
| ExcelExport.ColumnWidthSpec | excel_export.py:74 | a width is at least 10, at least 3 beyond every cell, and is either 10 or 3 beyond the widest cell |
| ExcelExport.ColumnWidths | excel_export.py:68-74 | the width loops compute `Widths` |
| ExcelExport.ColumnMax | excel_export.py:69-73 | the inner loop computes the column's largest weighted length |
| ExcelExport.Worksheet.constructor | excel_export.py:41 | a new sheet has its title and no rows or widths |
| ExcelExport.Worksheet.WriteRow | excel_export.py:62 | a row is appended; the title and widths are unchanged |
| ExcelExport.Workbook.constructor | excel_export.py:81-82 | the workbook starts with no sheet |
| ExcelExport.WriteDataRow | excel_export.py:60-62 | the cells written for one flight are its data row |
| ExcelExport.WriteExcelSheet | excel_export.py:40-77 | one sheet is appended and earlier sheets are kept; it holds the title, the report rows and their widths |
| ExcelExport.WriteHeader | excel_export.py:44-49 | row 1 is written |
| ExcelExport.WriteDataRows | excel_export.py:59-65 | one row per flight is appended, in order |
| ExcelExport.CreateExcelFile | excel_export.py:80-88 | one report sheet per `SHEET_ORDER` entry, in order, each titled by the entry and built from that terminal's list, or `[]` |
| ExcelExport.MissingTerminalHeaderOnly | excel_export.py:85 | a terminal missing from the map gets a header-only sheet |
| Report.Collected | ui_excel_download.py:35-39 | the outcome of the day loop; `FetchDays` computes it, `CollectedSucceeds` and `CollectedFailureSticks` prove when it succeeds and that the first failure is kept |
| Report.CollectedSucceeds | ui_excel_download.py:35-39 | the day loop succeeds exactly when every departures and arrivals request of every day does |
| Report.CollectedFailureSticks | ui_excel_download.py:35-39 | once a day has failed, later days change nothing: the first failure is the outcome |
| Report.FetchDays | ui_excel_download.py:35-39 | the loop's two lists are each day's departures and arrivals in day order, or the first failure (the same loop as `airflight_excel.py:200-204`) |
| Report.RangeFilenameInjective | ui_excel_download.py:52-55 | with eight-character dates, the single-date and range forms never collide, so a file name determines its range |
| Report.Bucket | ui_excel_download.py:43-50 | every entry of a terminal's list carries the list's direction tag |
| Report.BucketPicks | ui_excel_download.py:43-50 | a terminal's list is the tagged records at exactly the positions naming that terminal |
| Report.BucketMembership | ui_excel_download.py:44-46 | a record is in a terminal's list exactly when it is among the records and names that terminal |
| Report.BucketByTerminal | ui_excel_download.py:42-50 | the two bucketing loops build `Buckets` |
| Report.AppendAll | ui_excel_download.py:43-46 | one loop appends each record, tagged, to its own terminal's list |
| Report.AddTagged | ui_excel_download.py:44-46 | one iteration appends record `i` to its terminal's list when that is a passenger terminal |
| Report.BucketContents | ui_excel_download.py:42-50 | a list holds that terminal's departures tagged `D` in order, then its arrivals tagged `A` in order |
| Report.BucketSelection | ui_excel_download.py:43-46 | a list keeps input order and takes a record exactly when it names the terminal |
| Report.DeparturesFirst | ui_excel_download.py:43-50 | within a list no departure follows an arrival |
| Report.BucketSize | ui_excel_download.py:61 | a passenger terminal's count is its departures plus its arrivals |
| Report.PassengerCount | ui_excel_download.py:57 | a record names at most one terminal, so the three counts of one direction add up to the passenger-terminal records |
| Report.TotalCounts | ui_excel_download.py:57 | the total counts each passenger-terminal flight once and never exceeds the departures plus the arrivals |
| Report.NoPassengerTerminalNoFlights | ui_excel_download.py:42-50 | when no record names a passenger terminal, every list is empty and the total is 0 |
| ExcelDownload.WrittenTerminal | ui_excel_download.py:44 | the terminal as the source reads it, under `terminalId`; `AsWrittenBucketsEmpty` proves no converted record gets a passenger terminal this way |
| ExcelDownload.RecordTerminal | api.py:14 | the terminal under the renamed key `terminal_id`; `RecordTerminalIsRawTerminal` and `DepartureReachesItsTerminal` prove it is the raw item's terminal |
| ExcelDownload.AsWrittenBucketsEmpty | ui_excel_download.py:42-50 | with the key as written, every sheet list is empty and the total is 0, whatever the API returned |
| ExcelDownload.NoTerminalIdInRecord | api.py:20-25 | a converted record never carries `terminalId` |
| ExcelDownload.RecordTerminalIsRawTerminal | api.py:14 | a converted record's `terminal_id` is the raw `terminalId`, or `""` when that is missing or `null` |
| ExcelDownload.DepartureReachesItsTerminal | ui_excel_download.py:43-46 | with the renamed key, a departure is in a terminal's list, tagged `D`, exactly when its raw item names that terminal |
| ExcelDownload.Generated | ui_excel_download.py:22-65 | the outcome of a generation; `GenerateExcel` computes it, `StartAfterEndRefused`, `GeneratedSucceeds` and `DownloadCounts` prove when it is refused, when it succeeds and what it counts |
| ExcelDownload.GenerateExcel | ui_excel_download.py:22-65 | refuse a start after the end, list the days, fetch, bucket, name, count and build the workbook; the outcome is `Generated`, and on success the workbook holds one report sheet per terminal |
| ExcelDownload.StartAfterEndRefused | ui_excel_download.py:22-24 | the generation is refused for a start after the end, and only then |
| ExcelDownload.GeneratedSucceeds | ui_excel_download.py:27-39 | a generation succeeds exactly when the start is not after the end, the end is not 9999-12-31, and every request of every day succeeds |
| ExcelDownload.DownloadCounts | ui_excel_download.py:57 | the total is the sum of the three sheet counts and at most the flights fetched; the lists are those of the passenger terminals |
| ExcelDownload.DownloadFilename | ui_excel_download.py:52-55 | the file name of a download; `DownloadFilenameInjective` proves it determines the range |
| ExcelDownload.DownloadFilenameInjective | ui_excel_download.py:52-55 | two ranges give the same file name only when they are the same range |
| AirflightExcel.RawCellValue | airflight_excel.py:131-142 | the standalone cell of a raw item; `RawAirportColumns`, `RawScheduleCells` and `CopiedRawCell` prove each kind of cell |
| AirflightExcel.RawAirportColumns | airflight_excel.py:137-140 | the raw `airport` fills the origin cell of an arrival and the destination cell of a departure; the other cell is `-` |
| AirflightExcel.RawScheduleCells | airflight_excel.py:131-136 | a well-formed scheduled time gives `YYYY-MM-DD` and `HHMM` |
| AirflightExcel.CopiedRawCell | airflight_excel.py:141-142 | other columns copy their field and are `-` when it is missing, `null` or empty, never blank |
| AirflightExcel.SortedRawSpec | airflight_excel.py:126 | every flight is kept (no codeshare filter) and the flights are rearranged into ascending scheduled order, stably |
| AirflightExcel.SheetRowsShape | airflight_excel.py:113-146 | the header, then exactly one row for every input flight |
| AirflightExcel.WriteSheet | airflight_excel.py:113-158 | one sheet is appended, with the title, header, sorted rows and widths; the caller's list comes back sorted |
| AirflightExcel.WriteRawHeader | airflight_excel.py:118-123 | row 1 is written |
| AirflightExcel.WriteRawRow | airflight_excel.py:130-143 | the cells written for one flight are its row |
| AirflightExcel.WriteRawRows | airflight_excel.py:129-146 | one row per flight is appended, in order |
| AirflightExcel.RunOutcome | airflight_excel.py:172-239 | the outcome of `main`; `Run` computes it, `OutsideWindowRefused`, `ReversedRangeWritesEmptySheets` and `RunCounts` prove when it is refused and what the sheets hold |
| AirflightExcel.Run | airflight_excel.py:172-239 | the outcome is `RunOutcome`: the dates from the arguments (`ArgDates`: two arguments, one used twice, or today twice), window check, days, fetch, bucketing, sheets in sheet order and the file name; on success each sheet is built from its terminal's list |
| AirflightExcel.WriteSheets | airflight_excel.py:219-229 | one sheet per sheet-order entry, P01, P02, P03, each from its terminal's list |
| AirflightExcel.InWindow | airflight_excel.py:189 | the string window check; `WindowIsChronological` and `OutsideWindowRefused` prove it is the date check on real dates and refuses a run only outside the window |
| AirflightExcel.WindowIsChronological | airflight_excel.py:189 | for real dates the string check is the date check: inside the window exactly when the start is not before the first day and the end not after the last |
| AirflightExcel.OutsideWindowRefused | airflight_excel.py:189-192 | a run is refused, before any fetch, for a range outside the window, and only then |
| AirflightExcel.ReversedRangeWritesEmptySheets | airflight_excel.py:161-169 | a start after the end inside the window succeeds with no day, no flight and three header-only sheets |
| AirflightExcel.RawTerminal | airflight_excel.py:210 | the raw `terminalId`, `""` when missing; `RunCounts` proves each passenger-terminal flight lands in one sheet |
| AirflightExcel.RunCounts | airflight_excel.py:208-216 | the sheets hold every passenger-terminal flight once, at most the flights fetched |
| AirflightExcel.ReportFilename | airflight_excel.py:233-236 | the saved file name; `ReportFilenameInjective` proves it determines the range |
| AirflightExcel.ReportFilenameInjective | airflight_excel.py:233-236 | two ranges of eight-character dates never share a file name |
| AirflightExcel.FmtTimeExample | airflight_excel.py:76-84 | the time of `202412220005` is `0005`, not the `00:05` of the doc comment |

## Left out

- HTTP: `requests.get`, the timeout, `raise_for_status` and JSON decoding are the `PageSource` parameter, and a failed request is its `Failure`. The service key from the environment or the secrets store is a parameter.
- Nested `response`/`body` lookups with `{}` defaults are collapsed: a page is the body, with `totalCount` and `items` each optional.
- openpyxl styling (fills, fonts, alignment, borders), `auto_filter`, `wb.save` and `file_to_bytes_io`: a sheet is its title, rows of cell text and column widths.
- Streamlit widgets and messages (`st.*`), the HTML card markup, `ui_styles.py`, `app.py` and all `print` output.
- The displayed times of `_render_flight_row` and `_render_main_card` (`format_hhmm` of the actual or scheduled time): these are rendering only; `format_hhmm` itself is modelled.
- The gate input check at `ui_gate_search.py:151-159`: the query is a parameter. On the warning paths of that check, `gate_query` is never assigned, and the code that follows would raise `UnboundLocalError`. That path is not modelled.
- Wall clocks: `datetime.now()`, the cutoff and the window bounds are parameters. The cutoff is minutes at the fixed UTC+9 offset.
- Calendar.ParseStamp: it is strict: exactly 12 ASCII digits and a valid date and time. Python's `strptime` also accepts unpadded fields and non-ASCII decimal digits: `fmt_date("٢٠٢٤12220005")` (Arabic-Indic digits) parses there and is returned unchanged here. The API sends zero-padded ASCII timestamps.
- Calendar.ParseDate: the same strictness for `%Y%m%d`. A seven-character argument such as `2024122` is a date for Python (2024-12-02) and `InvalidDate` here.
- Text.IsDigitString: only ASCII `0`-`9` are digits. Python's `isdigit()` also accepts other Unicode digits, so `format_hhmm("١٢٣٤")` inserts a colon in Python and not here.
- Text.Upper: it upper-cases ASCII `a`-`z` only and keeps the length. Python's `upper()` follows Unicode and can lengthen a text (`"ß"` becomes `"SS"`); a gate `é` matches the query `É` in Python and not here. Gate numbers are ASCII.
- Api.TotalCount: a missing or `null` `totalCount` reads as 0. For `null`, Python's `len(all_items) >= total_count` (`api.py:58`, `airflight_excel.py:56`) raises `TypeError`, which the model does not raise. The API sends a number.
- `str()` of non-string JSON values: every API value is a string or `null`.
- AirflightExcel.AirportCell: a JSON `null` airport is shown as the empty cell `""`, the text openpyxl writes for a `None` value.
- Uncaught exceptions (`ValueError` from `date_range`, `OverflowError` after 9999-12-31, HTTP errors) are `Failure` results. `sys.exit(1)` and `st.stop()` are too.
- AirflightExcel.WriteSheet: the in-place `all_items.sort` is the returned sorted list, not a write into the caller's list object.
- ExcelDownload.GenerateExcel: it buckets by the corrected key `terminal_id`; the key as written is modelled by `ExcelDownload.WrittenTerminal` (see "## Findings").
- The gate search fetches (`ui_gate_search.py:162-164`) are not repeated here: the arrivals and departures are `SearchGate`'s parameters.

## Findings

| source | as written | input that shows it | evidently intended | confidence | as-written member | corrected member |
|---|---|---|---|---|---|---|
| ui_excel_download.py:42-50 | each converted record is looked up under `item.get("terminalId", "")`, but `_convert_to_internal` renames that key to `terminal_id` (api.py:14), so no record matches | any departure whose raw item has `terminalId` = `P01`: it is missing from the T1 sheet, and `total` is 0 | look up `terminal_id`, the key the converted records carry | high (proved; not executed) | ExcelDownload.AsWrittenBucketsEmpty | ExcelDownload.DepartureReachesItsTerminal |
