/**
 * Calendar dates as the backend sees them: DATEONLY column values, the strings
 * the date-fns `format` calls produce ('yyyy-MM-dd', 'MM/yyyy', 'dd/MM'),
 * `parseISO` of a 'yyyy-MM-dd' string, `eachDayOfInterval`, and the month
 * windows `startOfMonth` / `endOfMonth` of `subMonths(today, i)`.
 */
module Calendar {
  import opened Wrappers

  datatype Date = Date(year: int, month: int, day: int)

  /** Gregorian leap years. */
  predicate IsLeapYear(year: int) {
    year % 4 == 0 && (year % 100 != 0 || year % 400 == 0)
  }

  function DaysInMonth(year: int, month: int): (n: int)
    ensures 28 <= n <= 31
  {
    if month == 2 then (if IsLeapYear(year) then 29 else 28)
    else if month == 4 || month == 6 || month == 9 || month == 11 then 30
    else 31
  }

  /** A real day of the calendar; the year itself is not bounded. */
  predicate WellFormed(d: Date) {
    1 <= d.month <= 12 && 1 <= d.day <= DaysInMonth(d.year, d.month)
  }

  /** A day that a four-digit 'yyyy-MM-dd' string can spell. */
  predicate Valid(d: Date) {
    WellFormed(d) && 1 <= d.year <= 9999
  }

  /** Chronological order (the order of DATEONLY values). */
  predicate Before(a: Date, b: Date) {
    a.year < b.year || (a.year == b.year && (a.month < b.month || (a.month == b.month && a.day < b.day)))
  }

  predicate NotAfter(a: Date, b: Date) {
    !Before(b, a)
  }

  /** A number that grows with the date; used as a sort key and as a termination measure. */
  function Ordinal(d: Date): int {
    d.year * 372 + (d.month - 1) * 31 + (d.day - 1)
  }

  lemma {:induction false} OrdinalOrder(a: Date, b: Date)
    requires WellFormed(a) && WellFormed(b)
    ensures Before(a, b) <==> Ordinal(a) < Ordinal(b)
    ensures a == b <==> Ordinal(a) == Ordinal(b)
  {
  }

  /** The day after `d`. */
  function NextDay(d: Date): (n: Date)
    requires WellFormed(d)
    ensures WellFormed(n) && Before(d, n)
    ensures forall x :: WellFormed(x) && Before(d, x) ==> NotAfter(n, x)
  {
    if d.day < DaysInMonth(d.year, d.month) then Date(d.year, d.month, d.day + 1)
    else if d.month < 12 then Date(d.year, d.month + 1, 1)
    else Date(d.year + 1, 1, 1)
  }

  /**
   * date-fns `eachDayOfInterval({ start, end })`: every day from `start` to
   * `end`, both included, in chronological order.
   */
  function DaysOfInterval(start: Date, end: Date): (days: seq<Date>)
    requires WellFormed(start) && WellFormed(end)
    ensures forall i :: 0 <= i < |days| ==> WellFormed(days[i]) && NotAfter(start, days[i]) && NotAfter(days[i], end)
    ensures |days| > 0 <==> NotAfter(start, end)
    decreases Ordinal(end) - Ordinal(start)
  {
    if Before(end, start) then []
    else
      OrdinalOrder(start, end);
      OrdinalOrder(start, NextDay(start));
      [start] + DaysOfInterval(NextDay(start), end)
  }

  /** Strictly chronological, so no day is listed twice. */
  predicate Ascending(days: seq<Date>) {
    forall i, j :: 0 <= i < j < |days| ==> Before(days[i], days[j])
  }

  /** The days come in chronological order. */
  lemma {:induction false} DaysOfIntervalAscending(start: Date, end: Date)
    requires WellFormed(start) && WellFormed(end)
    ensures Ascending(DaysOfInterval(start, end))
    decreases Ordinal(end) - Ordinal(start)
  {
    if !Before(end, start) {
      OrdinalOrder(start, end);
      OrdinalOrder(start, NextDay(start));
      var rest := DaysOfInterval(NextDay(start), end);
      DaysOfIntervalAscending(NextDay(start), end);
      var days := DaysOfInterval(start, end);
      assert days == [start] + rest;
      forall i, j | 0 <= i < j < |days| ensures Before(days[i], days[j]) {
        assert days[j] == rest[j - 1];
        if i > 0 {
          assert days[i] == rest[i - 1];
        } else {
          assert NotAfter(NextDay(start), rest[j - 1]);
        }
      }
    }
  }

  /** Every day from `start` to `end` is listed. */
  lemma {:induction false} DaysOfIntervalComplete(start: Date, end: Date, x: Date)
    requires WellFormed(start) && WellFormed(end)
    requires WellFormed(x) && NotAfter(start, x) && NotAfter(x, end)
    ensures x in DaysOfInterval(start, end)
    decreases Ordinal(end) - Ordinal(start)
  {
    OrdinalOrder(start, end);
    OrdinalOrder(start, NextDay(start));
    if x != start {
      DaysOfIntervalComplete(NextDay(start), end, x);
    }
  }

  // ---------------------------------------------------------------------------
  // Zero-padded decimal fields
  // ---------------------------------------------------------------------------

  function Pow10(n: nat): (p: nat)
    ensures p >= 1
  {
    if n == 0 then 1 else 10 * Pow10(n - 1)
  }

  function Digit(n: int): char
    requires 0 <= n < 10
  {
    ('0' as int + n) as char
  }

  predicate IsDigit(c: char) {
    '0' <= c <= '9'
  }

  predicate AllDigits(s: string) {
    forall i :: 0 <= i < |s| ==> IsDigit(s[i])
  }

  /** `n` written with exactly `width` digits, padded with zeros on the left. */
  function Digits(n: nat, width: nat): (s: string)
    ensures |s| == width
  {
    if width == 0 then "" else Digits(n / 10, width - 1) + [Digit(n % 10)]
  }

  /** The number a string of decimal digits spells. */
  function ValueOf(s: string): (v: nat)
    requires AllDigits(s)
    ensures v < Pow10(|s|)
  {
    if s == [] then 0 else ValueOf(s[..|s| - 1]) * 10 + (s[|s| - 1] as int - '0' as int)
  }

  lemma {:induction false} DigitsRoundTrip(n: nat, width: nat)
    requires n < Pow10(width)
    ensures AllDigits(Digits(n, width)) && ValueOf(Digits(n, width)) == n
  {
    if width > 0 {
      DigitsRoundTrip(n / 10, width - 1);
      var s := Digits(n, width);
      assert s[..|s| - 1] == Digits(n / 10, width - 1);
    }
  }

  lemma {:induction false} ValueOfRoundTrip(s: string)
    requires AllDigits(s)
    ensures Digits(ValueOf(s), |s|) == s
  {
    if s != [] {
      var p := s[..|s| - 1];
      ValueOfRoundTrip(p);
      assert ValueOf(s) / 10 == ValueOf(p);
      assert s == p + [s[|s| - 1]];
    }
  }

  // ---------------------------------------------------------------------------
  // 'yyyy-MM-dd'
  // ---------------------------------------------------------------------------

  /** date-fns `format(d, 'yyyy-MM-dd')`. */
  function FormatIso(d: Date): (s: string)
    requires Valid(d)
    ensures |s| == 10
  {
    Digits(d.year, 4) + "-" + Digits(d.month, 2) + "-" + Digits(d.day, 2)
  }

  /**
   * `parseISO` of a calendar-date string in its 'yyyy-MM-dd' form; a string
   * that is not of that form, or names no real day, is an invalid date.
   */
  function ParseIso(s: string): (r: Option<Date>)
    ensures r.Some? ==> Valid(r.value)
  {
    if |s| == 10 && s[4] == '-' && s[7] == '-' && AllDigits(s[..4]) && AllDigits(s[5..7]) && AllDigits(s[8..]) then
      var d := Date(ValueOf(s[..4]), ValueOf(s[5..7]), ValueOf(s[8..]));
      if Valid(d) then Some(d) else None
    else None
  }

  lemma {:induction false} ParseFormatIso(d: Date)
    requires Valid(d)
    ensures ParseIso(FormatIso(d)) == Some(d)
  {
    assert Pow10(2) == 100 && Pow10(4) == 10000 by {
      assert Pow10(1) == 10 && Pow10(3) == 1000;
    }
    DigitsRoundTrip(d.year, 4);
    DigitsRoundTrip(d.month, 2);
    DigitsRoundTrip(d.day, 2);
    var s := FormatIso(d);
    assert s[..4] == Digits(d.year, 4);
    assert s[5..7] == Digits(d.month, 2);
    assert s[8..] == Digits(d.day, 2);
  }

  lemma {:induction false} FormatParseIso(s: string)
    requires ParseIso(s).Some?
    ensures FormatIso(ParseIso(s).value) == s
  {
    ValueOfRoundTrip(s[..4]);
    ValueOfRoundTrip(s[5..7]);
    ValueOfRoundTrip(s[8..]);
    assert s == s[..4] + "-" + s[5..7] + "-" + s[8..];
  }

  // ---------------------------------------------------------------------------
  // Calendar months
  // ---------------------------------------------------------------------------

  datatype YearMonth = YearMonth(year: int, month: int)

  /** Months counted from January of year 0. */
  function MonthIndex(ym: YearMonth): int {
    ym.year * 12 + (ym.month - 1)
  }

  /**
   * The month of `subMonths(d, i)`: date-fns moves `i` whole months back
   * (clamping the day), so only the month index changes.
   */
  function MonthsBefore(d: Date, i: int): (ym: YearMonth)
    ensures 1 <= ym.month <= 12
    ensures MonthIndex(ym) == MonthIndex(YearMonth(d.year, d.month)) - i
  {
    var k := d.year * 12 + (d.month - 1) - i;
    YearMonth(k / 12, k % 12 + 1)
  }

  /** `startOfMonth`, as a day. */
  function FirstDay(ym: YearMonth): Date {
    Date(ym.year, ym.month, 1)
  }

  /** `endOfMonth`, as a day. */
  function LastDay(ym: YearMonth): Date {
    Date(ym.year, ym.month, DaysInMonth(ym.year, ym.month))
  }

  /** The window [startOfMonth, endOfMonth] holds exactly the days of that month. */
  lemma {:induction false} MonthWindow(ym: YearMonth, d: Date)
    requires 1 <= ym.month <= 12 && WellFormed(d)
    ensures NotAfter(FirstDay(ym), d) && NotAfter(d, LastDay(ym)) <==> d.year == ym.year && d.month == ym.month
  {
  }

  /** date-fns `format(month, 'MM/yyyy')`. */
  function MonthLabel(ym: YearMonth): (s: string)
    requires 0 <= ym.year && 0 <= ym.month
    ensures |s| == 7 && s[2] == '/'
  {
    Digits(ym.month, 2) + "/" + Digits(ym.year, 4)
  }

  /** date-fns `format(day, 'dd/MM')`. */
  function DayMonthLabel(d: Date): (s: string)
    requires 0 <= d.month && 0 <= d.day
    ensures |s| == 5 && s[2] == '/'
  {
    Digits(d.day, 2) + "/" + Digits(d.month, 2)
  }

  /** The two fields of a 'MM/yyyy' label spell the month and the year. */
  lemma {:induction false} MonthLabelSpells(ym: YearMonth)
    requires 1 <= ym.month <= 12 && 0 <= ym.year < 10000
    ensures var s := MonthLabel(ym);
      && AllDigits(s[..2]) && ValueOf(s[..2]) == ym.month
      && AllDigits(s[3..]) && ValueOf(s[3..]) == ym.year
  {
    var s := MonthLabel(ym);
    assert Pow10(2) == 100 && Pow10(4) == 10000;
    DigitsRoundTrip(ym.month, 2);
    DigitsRoundTrip(ym.year, 4);
    assert s[..2] == Digits(ym.month, 2);
    assert s[3..] == Digits(ym.year, 4);
  }

  /** The two fields of a 'dd/MM' label spell the day and the month. */
  lemma {:induction false} DayMonthLabelSpells(d: Date)
    requires WellFormed(d)
    ensures var s := DayMonthLabel(d);
      && AllDigits(s[..2]) && ValueOf(s[..2]) == d.day
      && AllDigits(s[3..]) && ValueOf(s[3..]) == d.month
  {
    var s := DayMonthLabel(d);
    assert Pow10(2) == 100;
    DigitsRoundTrip(d.day, 2);
    DigitsRoundTrip(d.month, 2);
    assert s[..2] == Digits(d.day, 2);
    assert s[3..] == Digits(d.month, 2);
  }
}
