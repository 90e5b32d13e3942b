/**
 * Display formatting of the API's `YYYYMMDDHHmm` timestamps and the list of
 * days of a query range (utils.py).
 */
module Utils {
  import opened Wrappers
  import opened Text
  import opened Calendar

  // ---------------------------------------------------------------- fmt_date / fmt_time

  /**
   * `fmt_date(raw)`: the `YYYY-MM-DD` part of a timestamp. Empty input and the
   * placeholder give the placeholder; input that does not parse (after
   * stripping) is handed back exactly as it came.
   */
  function FmtDate(raw: string): (r: string)
    ensures r == "-" || r == raw || (|r| == 10 && r[4] == '-' && r[7] == '-')
  {
    if raw == "" || raw == "-" then "-"
    else match ParseStamp(Strip(raw))
      case Some(t) => FormatIsoDate(t.date)
      case None => raw
  }

  /** `fmt_time(raw)`: the `HHmm` part of a timestamp, with the same fallbacks as `FmtDate`. */
  function FmtTime(raw: string): (r: string)
    ensures r == "-" || r == raw || (|r| == 4 && AllDigits(r))
  {
    if raw == "" || raw == "-" then "-"
    else match ParseStamp(Strip(raw))
      case Some(t) => FormatHourMinute(t)
      case None => raw
  }

  /** `format_hhmm(raw)`: `fmt_time` with a colon after the hours; `None` counts as `""`. */
  function FormatHhmm(raw: Option<string>): string {
    var t := FmtTime(raw.GetOr(""));
    if |t| == 4 && IsDigitString(t) then t[..2] + ":" + t[2..] else t
  }

  /** `s.replace("-", "")`. */
  function WithoutDashes(s: string): string {
    if s == [] then [] else (if s[0] == '-' then [] else [s[0]]) + WithoutDashes(s[1..])
  }

  lemma {:induction false} WithoutDashesConcat(a: string, b: string)
    ensures WithoutDashes(a + b) == WithoutDashes(a) + WithoutDashes(b)
    decreases |a|
  {
    if a != [] {
      assert (a + b)[1..] == a[1..] + b;
      WithoutDashesConcat(a[1..], b);
    } else {
      assert a + b == b;
    }
  }

  lemma {:induction false} WithoutDashesOfDigits(s: string)
    requires AllDigits(s)
    ensures WithoutDashes(s) == s
    decreases |s|
  {
    if s != [] {
      WithoutDashesOfDigits(s[1..]);
    }
  }

  // ---------------------------------------------------------------- properties

  /** The placeholder policy: nothing to show is shown as `-`. */
  lemma PlaceholderInput(raw: string)
    requires raw == "" || raw == "-"
    ensures FmtDate(raw) == "-" && FmtTime(raw) == "-" && FormatHhmm(Some(raw)) == "-"
  {
  }

  /** A well-formed timestamp: its date characters, dash-separated. */
  lemma FmtDateOfTimestamp(s: string)
    requires ParseStamp(s).Some?
    ensures FmtDate(s) == s[0..4] + "-" + s[4..6] + "-" + s[6..8]
  {
    ParsedStampFormatsBack(s);
    StripUntouched(s);
    assert FmtDate(s) == FormatIsoDate(ParseStamp(s).value.date);
  }

  /** A well-formed timestamp: its last four characters, `HHmm`. */
  lemma FmtTimeOfTimestamp(s: string)
    requires ParseStamp(s).Some?
    ensures FmtTime(s) == s[8..12]
  {
    ParsedStampFormatsBack(s);
    StripUntouched(s);
    assert FmtTime(s) == FormatHourMinute(ParseStamp(s).value);
    assert s[8..12] == s[8..10] + s[10..12];
  }

  /** The date part with its dashes removed, then the time part, rebuild the timestamp exactly. */
  lemma DateTimeRoundTrip(s: string)
    requires ParseStamp(s).Some?
    ensures WithoutDashes(FmtDate(s)) + FmtTime(s) == s
  {
    FmtDateOfTimestamp(s);
    FmtTimeOfTimestamp(s);
    StampIsTrimmed(s);
    assert AllDigits(s[0..8]);
    DashedDateUndashed(s[0..8]);
    assert s[0..8][0..4] == s[0..4] && s[0..8][4..6] == s[4..6] && s[0..8][6..8] == s[6..8];
    assert s == s[0..8] + s[8..12];
  }

  /** Eight digits split as `YYYY-MM-DD` lose exactly the two dashes. */
  lemma DashedDateUndashed(d: string)
    requires |d| == 8 && AllDigits(d)
    ensures WithoutDashes(d[0..4] + "-" + d[4..6] + "-" + d[6..8]) == d
  {
    WithoutDashesConcat(d[0..4] + "-" + d[4..6] + "-", d[6..8]);
    WithoutDashesConcat(d[0..4] + "-" + d[4..6], "-");
    WithoutDashesConcat(d[0..4] + "-", d[4..6]);
    WithoutDashesConcat(d[0..4], "-");
    WithoutDashesOfDigits(d[0..4]);
    WithoutDashesOfDigits(d[4..6]);
    WithoutDashesOfDigits(d[6..8]);
    assert d == d[0..4] + d[4..6] + d[6..8];
  }

  /**
   * Input that is not a timestamp comes back unchanged, not as the placeholder
   * the functions' own doc-comments describe.
   */
  lemma UnparsableReturnedUnchanged(raw: string)
    requires raw != "" && raw != "-" && ParseStamp(Strip(raw)).None?
    ensures FmtDate(raw) == raw && FmtTime(raw) == raw
  {
  }

  /** Whitespace around a timestamp does not change the formatted date or time. */
  lemma SurroundingWhitespaceIgnored(p: string, s: string, q: string)
    requires AllSpace(p) && AllSpace(q) && ParseStamp(s).Some?
    ensures FmtDate(p + s + q) == FmtDate(s)
    ensures FmtTime(p + s + q) == FmtTime(s)
  {
    StampIsTrimmed(s);
    StripSurrounded(p, s, q);
    StripUntouched(s);
    assert |p + s + q| >= 12;
  }

  /** On a well-formed timestamp `format_hhmm` gives `HH:MM`. */
  lemma FormatHhmmOfTimestamp(s: string)
    requires ParseStamp(s).Some?
    ensures FormatHhmm(Some(s)) == s[8..10] + ":" + s[10..12]
  {
    FmtTimeOfTimestamp(s);
    assert s != "";
    assert s[8..12][..2] == s[8..10] && s[8..12][2..] == s[10..12];
  }

  /**
   * `format_hhmm` inserts the colon exactly when `fmt_time` produced four digits,
   * even if those digits were raw input that never parsed.
   */
  lemma FormatHhmmColonRule(raw: Option<string>)
    ensures var t := FmtTime(raw.GetOr(""));
            (|t| == 4 && IsDigitString(t) ==> FormatHhmm(raw) == t[..2] + ":" + t[2..] && ':' !in t)
            && (!(|t| == 4 && IsDigitString(t)) ==> FormatHhmm(raw) == t)
    ensures raw == None ==> FormatHhmm(raw) == "-"
  {
    var t := FmtTime(raw.GetOr(""));
    if |t| == 4 && IsDigitString(t) {
      assert forall i :: 0 <= i < |t| ==> t[i] != ':';
    }
  }

  // ---------------------------------------------------------------- date_range

  /** The error `date_range` raises: `ValueError` from `strptime`, `OverflowError` past year 9999. */
  datatype DateRangeError = InvalidDate | DateOverflow

  /** The day `k` days after `first`, as a `YYYYMMDD` string. */
  function DayString(first: Date, k: nat): string
    requires ValidDate(first) && DayNumber(first) + k <= LastDayNumber
  {
    AdvanceNumber(first, k);
    FormatCompactDate(Advance(first, k))
  }

  /** `count` consecutive days from `first`, as `YYYYMMDD` strings. */
  function DayStrings(first: Date, count: nat): (r: seq<string>)
    requires ValidDate(first) && DayNumber(first) + count <= LastDayNumber + 1
    ensures |r| == count
  {
    seq(count, k requires 0 <= k < count => DayString(first, k))
  }

  /** What `date_range` returns for two parsed dates. */
  function DateRangeOf(s: Date, e: Date): Result<seq<string>, DateRangeError>
    requires ValidDate(s) && ValidDate(e)
  {
    DayNumberOrder(s, e);
    DayNumberOrder(e, LastDate);
    if DateBefore(e, s) then Success([])
    else if e == LastDate then Failure(DateOverflow)
    else Success(DayStrings(s, DayNumber(e) - DayNumber(s) + 1))
  }

  /** `date_range(start, end)`: the inclusive list of days between two `YYYYMMDD` dates. */
  method DateRange(start: string, end: string) returns (r: Result<seq<string>, DateRangeError>)
    ensures ParseDate(start).None? || ParseDate(end).None? ==> r == Failure(InvalidDate)
    ensures ParseDate(start).Some? && ParseDate(end).Some? ==>
              r == DateRangeOf(ParseDate(start).value, ParseDate(end).value)
  {
    var first := ParseDate(start);
    if first.None? {
      return Failure(InvalidDate);
    }
    var last := ParseDate(end);
    if last.None? {
      return Failure(InvalidDate);
    }
    var d0, e := first.value, last.value;
    DayNumberOrder(e, d0);
    DayNumberOrder(LastDate, d0);
    var s := d0;
    var dates: seq<string> := [];
    while !DateBefore(e, s)
      invariant ValidDate(s) && DayNumber(s) == DayNumber(d0) + |dates| <= LastDayNumber
      invariant s == Advance(d0, |dates|)
      invariant dates == DayStrings(d0, |dates|)
      invariant |dates| == 0 || DayNumber(s) <= DayNumber(e) + 1
      decreases DayNumber(e) - DayNumber(s)
    {
      DayNumberOrder(e, s);
      DayStringsSnoc(d0, |dates|);
      dates := dates + [FormatCompactDate(s)];
      if s == LastDate {
        NothingAfterLastDate(e);
        return Failure(DateOverflow);
      }
      NextDayNumber(s);
      s := NextDay(s);
      DayNumberOrder(LastDate, s);
    }
    DayNumberOrder(e, s);
    DayNumberOrder(e, LastDate);
    return Success(dates);
  }

  lemma DayStringsSnoc(first: Date, n: nat)
    requires ValidDate(first) && DayNumber(first) + n <= LastDayNumber
    ensures DayStrings(first, n + 1) == DayStrings(first, n) + [DayString(first, n)]
  {
  }

  /** Element `i` of `DayStrings(first, n)` is the day `i` days after `first`. */
  lemma DayStringsAt(first: Date, n: nat, i: nat)
    requires ValidDate(first) && DayNumber(first) + n <= LastDayNumber + 1
    requires i < n
    ensures ValidDate(Advance(first, i)) && DayNumber(Advance(first, i)) == DayNumber(first) + i
    ensures DayStrings(first, n)[i] == FormatCompactDate(Advance(first, i))
  {
    AdvanceNumber(first, i);
  }

  /**
   * For `s` up to `e` (and `e` before the last representable day) the list is
   * the days from `s` on, one entry per day. `DayStringsEnds` says it starts at
   * `s` and ends at `e`; `DayStringsParse` and `DayStringsAscending` say what
   * each entry is.
   */
  lemma DateRangeIsDays(s: Date, e: Date)
    requires ValidDate(s) && ValidDate(e) && !DateBefore(e, s) && e != LastDate
    ensures DayNumber(s) <= DayNumber(e) < LastDayNumber
    ensures DateRangeOf(s, e) == Success(DayStrings(s, DayNumber(e) - DayNumber(s) + 1))
  {
    DayNumberOrder(s, e);
    DayNumberOrder(e, LastDate);
  }

  /** The first and the last of `n` days from `s`, when the last is `e`. */
  lemma DayStringsEnds(s: Date, n: nat, e: Date)
    requires ValidDate(s) && ValidDate(e) && n >= 1 && DayNumber(s) + n - 1 == DayNumber(e) < LastDayNumber
    ensures DayStrings(s, n)[0] == FormatCompactDate(s)
    ensures DayStrings(s, n)[n - 1] == FormatCompactDate(e)
  {
    DayStringsAt(s, n, 0);
    DayStringsAt(s, n, n - 1);
    DayNumberOrder(Advance(s, n - 1), e);
  }

  /** Every entry of `DayStrings(first, n)` parses back to its own day. */
  lemma DayStringsParse(first: Date, n: nat)
    requires ValidDate(first) && DayNumber(first) + n <= LastDayNumber + 1
    ensures var days := DayStrings(first, n);
            forall i :: 0 <= i < n ==>
              ParseDate(days[i]).Some? && DayNumber(ParseDate(days[i]).value) == DayNumber(first) + i
  {
    var days := DayStrings(first, n);
    forall i | 0 <= i < n
      ensures ParseDate(days[i]).Some? && DayNumber(ParseDate(days[i]).value) == DayNumber(first) + i
    {
      DayStringsAt(first, n, i);
      FormattedDateParses(Advance(first, i));
    }
  }

  /** The entries of `DayStrings(first, n)` ascend as strings. */
  lemma DayStringsAscending(first: Date, n: nat)
    requires ValidDate(first) && DayNumber(first) + n <= LastDayNumber + 1
    ensures var days := DayStrings(first, n);
            forall i, j :: 0 <= i < j < n ==> Less(days[i], days[j])
  {
    var days := DayStrings(first, n);
    forall i, j | 0 <= i < j < n
      ensures Less(days[i], days[j])
    {
      DayStringsAt(first, n, i);
      DayStringsAt(first, n, j);
      DayNumberOrder(Advance(first, i), Advance(first, j));
      CompactDateOrder(Advance(first, i), Advance(first, j));
    }
  }

  /** A start after the end yields no days at all (and no error). */
  lemma DateRangeEmptyWhenReversed(s: Date, e: Date)
    requires ValidDate(s) && ValidDate(e) && DateBefore(e, s)
    ensures DateRangeOf(s, e) == Success([])
  {
  }
}
