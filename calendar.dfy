/**
 * The part of Python's `datetime` the flight-status code uses: proleptic
 * Gregorian dates limited to years 1..9999, `strptime` with the formats
 * `%Y%m%d%H%M` and `%Y%m%d`, `strftime` with `%Y-%m-%d`, `%H%M` and `%Y%m%d`,
 * date comparison, adding one day, and instants. Every timestamp the airport
 * API returns is local time at UTC+9, so an instant is a number of minutes
 * since 0001-01-01 00:00 in that one fixed offset.
 */
module Calendar {
  import opened Wrappers
  import opened Text

  datatype Date = Date(year: int, month: int, day: int)
  datatype Stamp = Stamp(date: Date, hour: int, minute: int)

  const MaxYear: int := 9999
  /** `datetime.max.date()`: adding a day to it raises `OverflowError`. */
  const LastDate: Date := Date(9999, 12, 31)
  /** The day number of `LastDate`. */
  const LastDayNumber: int := 3652058

  predicate IsLeapYear(y: int) {
    y % 4 == 0 && (y % 100 != 0 || y % 400 == 0)
  }

  function DaysInYear(y: int): int {
    if IsLeapYear(y) then 366 else 365
  }

  function DaysInMonth(y: int, m: int): int {
    if m == 2 then (if IsLeapYear(y) then 29 else 28)
    else if m == 4 || m == 6 || m == 9 || m == 11 then 30
    else 31
  }

  /** What `datetime(year, month, day)` accepts. */
  predicate ValidDate(d: Date) {
    1 <= d.year <= MaxYear && 1 <= d.month <= 12 && 1 <= d.day <= DaysInMonth(d.year, d.month)
  }

  predicate ValidStamp(t: Stamp) {
    ValidDate(t.date) && 0 <= t.hour < 24 && 0 <= t.minute < 60
  }

  /** Python's `a < b` on dates: field by field. */
  predicate DateBefore(a: Date, b: Date) {
    a.year < b.year || (a.year == b.year && (a.month < b.month || (a.month == b.month && a.day < b.day)))
  }

  // ---------------------------------------------------------------- day numbers

  function DaysBeforeYear(y: int): int
    requires y >= 1
  {
    var p := y - 1;
    365 * p + p / 4 - p / 100 + p / 400
  }

  function DaysBeforeMonth(y: int, m: int): int
    requires 1 <= m <= 13
  {
    if m == 1 then 0 else DaysBeforeMonth(y, m - 1) + DaysInMonth(y, m - 1)
  }

  /** Days since 0001-01-01 (Python's `date.toordinal() - 1`). */
  function DayNumber(d: Date): int
    requires ValidDate(d)
  {
    DaysBeforeYear(d.year) + DaysBeforeMonth(d.year, d.month) + d.day - 1
  }

  /** The instant a timestamp denotes, in minutes, at the fixed UTC+9 offset. */
  function Minutes(t: Stamp): int
    requires ValidStamp(t)
  {
    DayNumber(t.date) * 1440 + t.hour * 60 + t.minute
  }

  lemma YearLength(y: int)
    requires y >= 1
    ensures DaysBeforeYear(y + 1) == DaysBeforeYear(y) + DaysInYear(y)
  {
    DivStep(y - 1, 4);
    DivStep(y - 1, 100);
    DivStep(y - 1, 400);
    LeapCount(y);
  }

  /** The length of a year as the Gregorian rule counts it: one more day every 4 years, except every 100, except every 400. */
  lemma LeapCount(y: int)
    ensures DaysInYear(y) == 365 + (if y % 4 == 0 then 1 else 0) - (if y % 100 == 0 then 1 else 0) + (if y % 400 == 0 then 1 else 0)
  {
    if y % 100 == 0 {
      var k := y / 100;
      assert y == 4 * (25 * k);
    }
    if y % 400 == 0 {
      var k := y / 400;
      assert y == 100 * (4 * k);
    }
  }

  /** Counting one more year adds one multiple of `d` exactly when the new year is one. */
  lemma DivStep(p: nat, d: int)
    requires d == 4 || d == 100 || d == 400
    ensures (p + 1) / d == p / d + (if (p + 1) % d == 0 then 1 else 0)
  {
    var q, r := p / d, p % d;
    assert p == q * d + r && 0 <= r < d;
    if r == d - 1 {
      assert p + 1 == (q + 1) * d;
    } else {
      assert p + 1 == q * d + (r + 1) && r + 1 < d;
    }
  }

  lemma MonthsFillYear(y: int)
    ensures DaysBeforeMonth(y, 13) == DaysInYear(y)
  {
    assert DaysBeforeMonth(y, 2) == 31;
    assert DaysBeforeMonth(y, 3) == 31 + DaysInMonth(y, 2);
    assert DaysBeforeMonth(y, 4) == 62 + DaysInMonth(y, 2);
    assert DaysBeforeMonth(y, 5) == 92 + DaysInMonth(y, 2);
    assert DaysBeforeMonth(y, 6) == 123 + DaysInMonth(y, 2);
    assert DaysBeforeMonth(y, 7) == 153 + DaysInMonth(y, 2);
    assert DaysBeforeMonth(y, 8) == 184 + DaysInMonth(y, 2);
    assert DaysBeforeMonth(y, 9) == 215 + DaysInMonth(y, 2);
    assert DaysBeforeMonth(y, 10) == 245 + DaysInMonth(y, 2);
    assert DaysBeforeMonth(y, 11) == 276 + DaysInMonth(y, 2);
    assert DaysBeforeMonth(y, 12) == 306 + DaysInMonth(y, 2);
  }

  lemma {:induction false} DaysBeforeMonthMonotone(y: int, m: int, n: int)
    requires 1 <= m <= n <= 13
    ensures DaysBeforeMonth(y, m) <= DaysBeforeMonth(y, n)
    decreases n - m
  {
    if m < n {
      DaysBeforeMonthMonotone(y, m, n - 1);
    }
  }

  /** A valid date falls inside its year's run of day numbers. */
  lemma DayNumberWithinYear(d: Date)
    requires ValidDate(d)
    ensures DaysBeforeYear(d.year) <= DayNumber(d) < DaysBeforeYear(d.year) + DaysInYear(d.year)
  {
    DaysBeforeMonthMonotone(d.year, 1, d.month);
    DaysBeforeMonthMonotone(d.year, d.month + 1, 13);
    assert DaysBeforeMonth(d.year, d.month + 1) == DaysBeforeMonth(d.year, d.month) + DaysInMonth(d.year, d.month);
    MonthsFillYear(d.year);
  }

  lemma {:induction false} DaysBeforeYearMonotone(y: int, z: int)
    requires 1 <= y <= z
    ensures DaysBeforeYear(y) + DaysInYear(y) <= DaysBeforeYear(z) || y == z
    decreases z - y
  {
    if y < z {
      YearLength(y);
      if y + 1 < z {
        DaysBeforeYearMonotone(y + 1, z);
        YearLength(y + 1);
      }
    }
  }

  /** Day numbers order valid dates exactly as Python's date comparison does. */
  lemma DayNumberOrder(a: Date, b: Date)
    requires ValidDate(a) && ValidDate(b)
    ensures DateBefore(a, b) <==> DayNumber(a) < DayNumber(b)
    ensures a == b <==> DayNumber(a) == DayNumber(b)
  {
    DayNumberWithinYear(a);
    DayNumberWithinYear(b);
    if a.year < b.year {
      DaysBeforeYearMonotone(a.year, b.year);
    } else if b.year < a.year {
      DaysBeforeYearMonotone(b.year, a.year);
    } else if a.month < b.month {
      DaysBeforeMonthMonotone(a.year, a.month + 1, b.month);
    } else if b.month < a.month {
      DaysBeforeMonthMonotone(a.year, b.month + 1, a.month);
    }
  }

  /** No valid date comes after the last one Python can represent. */
  lemma LastDayNumberIs()
    ensures ValidDate(LastDate) && DayNumber(LastDate) == LastDayNumber
  {
  }

  lemma NothingAfterLastDate(d: Date)
    requires ValidDate(d) && !DateBefore(d, LastDate)
    ensures d == LastDate
  {
  }

  // ---------------------------------------------------------------- next day

  /** `d + timedelta(days=1)` (before the overflow check). */
  function NextDay(d: Date): Date {
    if d.day < DaysInMonth(d.year, d.month) then Date(d.year, d.month, d.day + 1)
    else if d.month < 12 then Date(d.year, d.month + 1, 1)
    else Date(d.year + 1, 1, 1)
  }

  lemma NextDayNumber(d: Date)
    requires ValidDate(d) && d != LastDate
    ensures ValidDate(NextDay(d))
    ensures DayNumber(NextDay(d)) == DayNumber(d) + 1
  {
    if d.day == DaysInMonth(d.year, d.month) && d.month == 12 {
      MonthsFillYear(d.year);
      YearLength(d.year);
    }
  }

  /** The date `k` days after `d`. */
  function Advance(d: Date, k: nat): Date {
    if k == 0 then d else NextDay(Advance(d, k - 1))
  }

  lemma {:induction false} AdvanceNumber(d: Date, k: nat)
    requires ValidDate(d) && DayNumber(d) + k <= LastDayNumber
    ensures ValidDate(Advance(d, k))
    ensures DayNumber(Advance(d, k)) == DayNumber(d) + k
  {
    if k > 0 {
      AdvanceNumber(d, k - 1);
      var p := Advance(d, k - 1);
      if p == LastDate {
        assert false;
      }
      NextDayNumber(p);
    }
  }

  // ---------------------------------------------------------------- strptime / strftime

  /** `datetime.strptime(s, "%Y%m%d%H%M")`, for strict fixed-width input. */
  function ParseStamp(s: string): Option<Stamp> {
    if |s| == 12 && AllDigits(s) then
      var t := Stamp(Date(DigitsValue(s[0..4]), DigitsValue(s[4..6]), DigitsValue(s[6..8])),
                     DigitsValue(s[8..10]), DigitsValue(s[10..12]));
      if ValidStamp(t) then Some(t) else None
    else None
  }

  /** A well-formed timestamp is twelve digits, so it has no whitespace to strip. */
  lemma StampIsTrimmed(s: string)
    requires ParseStamp(s).Some?
    ensures |s| == 12 && AllDigits(s) && !IsSpace(s[0]) && !IsSpace(s[11])
  {
  }

  /** `datetime.strptime(s, "%Y%m%d")`, for strict fixed-width input. */
  function ParseDate(s: string): Option<Date> {
    if |s| == 8 && AllDigits(s) then
      var d := Date(DigitsValue(s[0..4]), DigitsValue(s[4..6]), DigitsValue(s[6..8]));
      if ValidDate(d) then Some(d) else None
    else None
  }

  /** `strftime("%Y%m%d")`. */
  function FormatCompactDate(d: Date): string
    requires ValidDate(d)
  {
    Pad(d.year, 4) + Pad(d.month, 2) + Pad(d.day, 2)
  }

  /** `strftime("%Y-%m-%d")`. */
  function FormatIsoDate(d: Date): string
    requires ValidDate(d)
  {
    Pad(d.year, 4) + "-" + Pad(d.month, 2) + "-" + Pad(d.day, 2)
  }

  /** `strftime("%H%M")`. */
  function FormatHourMinute(t: Stamp): string
    requires ValidStamp(t)
  {
    Pad(t.hour, 2) + Pad(t.minute, 2)
  }

  /** `strftime("%Y%m%d%H%M")`: the API's own timestamp form. */
  function FormatStamp(t: Stamp): string
    requires ValidStamp(t)
  {
    FormatCompactDate(t.date) + FormatHourMinute(t)
  }

  /** A parsed timestamp is exactly what writing it back in the same format gives, field by field. */
  lemma ParsedStampFormatsBack(s: string)
    requires ParseStamp(s).Some?
    ensures var t := ParseStamp(s).value;
            && ValidStamp(t)
            && Pad(t.date.year, 4) == s[0..4] && Pad(t.date.month, 2) == s[4..6]
            && Pad(t.date.day, 2) == s[6..8] && Pad(t.hour, 2) == s[8..10]
            && Pad(t.minute, 2) == s[10..12]
            && FormatStamp(t) == s
    ensures IsDigit(s[0]) && IsDigit(s[|s| - 1])
  {
    ValuePad(s[0..4]);
    ValuePad(s[4..6]);
    ValuePad(s[6..8]);
    ValuePad(s[8..10]);
    ValuePad(s[10..12]);
    assert s == s[0..4] + s[4..6] + s[6..8] + s[8..10] + s[10..12];
  }

  /** Any valid timestamp, written in the API's form, parses back to itself. */
  lemma FormattedStampParses(t: Stamp)
    requires ValidStamp(t)
    ensures ParseStamp(FormatStamp(t)) == Some(t)
  {
    var s := FormatStamp(t);
    assert s[0..4] == Pad(t.date.year, 4);
    assert s[4..6] == Pad(t.date.month, 2);
    assert s[6..8] == Pad(t.date.day, 2);
    assert s[8..10] == Pad(t.hour, 2);
    assert s[10..12] == Pad(t.minute, 2);
    PadValue(t.date.year, 4);
    PadValue(t.date.month, 2);
    PadValue(t.date.day, 2);
    PadValue(t.hour, 2);
    PadValue(t.minute, 2);
  }

  lemma ParsedDateFormatsBack(s: string)
    requires ParseDate(s).Some?
    ensures ValidDate(ParseDate(s).value)
    ensures FormatCompactDate(ParseDate(s).value) == s
  {
    var d := ParseDate(s).value;
    var y, m, dd := s[0..4], s[4..6], s[6..8];
    assert d == Date(DigitsValue(y), DigitsValue(m), DigitsValue(dd));
    ValuePad(y);
    ValuePad(m);
    ValuePad(dd);
    assert FormatCompactDate(d) == y + m + dd;
    ThreeSlices(s, 4, 6);
  }

  /** A string is its three consecutive slices put back together. */
  lemma ThreeSlices<T>(s: seq<T>, i: nat, j: nat)
    requires i <= j <= |s|
    ensures s == s[0..i] + s[i..j] + s[j..|s|]
  {
  }

  lemma FormattedDateParses(d: Date)
    requires ValidDate(d)
    ensures ParseDate(FormatCompactDate(d)) == Some(d)
  {
    var s := FormatCompactDate(d);
    assert s[0..4] == Pad(d.year, 4);
    assert s[4..6] == Pad(d.month, 2);
    assert s[6..8] == Pad(d.day, 2);
    PadValue(d.year, 4);
    PadValue(d.month, 2);
    PadValue(d.day, 2);
  }

  /** `YYYYMMDD` strings of valid dates compare as strings exactly as the dates compare. */
  lemma CompactDateOrder(a: Date, b: Date)
    requires ValidDate(a) && ValidDate(b)
    ensures Less(FormatCompactDate(a), FormatCompactDate(b)) <==> DateBefore(a, b)
  {
    LessConcat(Pad(a.year, 4) + Pad(a.month, 2), Pad(a.day, 2), Pad(b.year, 4) + Pad(b.month, 2), Pad(b.day, 2));
    LessConcat(Pad(a.year, 4), Pad(a.month, 2), Pad(b.year, 4), Pad(b.month, 2));
    LessPad(a.year, b.year, 4);
    LessPad(a.month, b.month, 2);
    LessPad(a.day, b.day, 2);
    PadValue(a.year, 4);
    PadValue(b.year, 4);
    PadValue(a.month, 2);
    PadValue(b.month, 2);
    PadValue(a.day, 2);
    PadValue(b.day, 2);
    assert Pad(a.year, 4) == Pad(b.year, 4) <==> a.year == b.year;
    assert Pad(a.month, 2) == Pad(b.month, 2) <==> a.month == b.month;
    assert Pad(a.year, 4) + Pad(a.month, 2) == Pad(b.year, 4) + Pad(b.month, 2)
      <==> a.year == b.year && a.month == b.month by {
      var x := Pad(a.year, 4) + Pad(a.month, 2);
      var y := Pad(b.year, 4) + Pad(b.month, 2);
      if x == y {
        assert x[..4] == Pad(a.year, 4) && y[..4] == Pad(b.year, 4);
        assert x[4..] == Pad(a.month, 2) && y[4..] == Pad(b.month, 2);
      }
    }
  }
}
