/**
 * Civil dates of the proleptic Gregorian calendar, as the backend's `date`
 * columns and Go's `time.Time` at midnight UTC hold them. Every valid date has
 * a day number counted from 0001-01-01 (day 0, a Monday), so that "the next
 * day", "seven days earlier" and "how many days from a to b" are integer
 * arithmetic, and `FromDayNumber` turns a day number back into a date.
 */
module Calendar {
  import opened Wrappers
  import opened Strings

  datatype Date = Date(year: int, month: int, day: int)

  /** Go's zero `time.Time`, which `time.Parse` returns together with an error. */
  const ZeroDate := Date(1, 1, 1)

  predicate IsLeapYear(y: int) {
    y % 4 == 0 && (y % 100 != 0 || y % 400 == 0)
  }

  function DaysInYear(y: int): int {
    if IsLeapYear(y) then 366 else 365
  }

  function DaysInMonth(y: int, m: int): int {
    if m == 2 then (if IsLeapYear(y) then 29 else 28)
    else if m == 4 || m == 6 || m == 9 || m == 11 then 30
    else 31
  }

  predicate ValidDate(d: Date) {
    d.year >= 1 && 1 <= d.month <= 12 && 1 <= d.day <= DaysInMonth(d.year, d.month)
  }

  function DaysBeforeYear(y: int): nat
    requires y >= 1
    decreases y
  {
    if y == 1 then 0 else DaysBeforeYear(y - 1) + DaysInYear(y - 1)
  }

  /** Days of year y that come before the first of month m (m == 13: the whole year). */
  function DaysBeforeMonth(y: int, m: int): nat
    requires 1 <= m <= 13
    decreases m
  {
    if m == 1 then 0 else DaysBeforeMonth(y, m - 1) + DaysInMonth(y, m - 1)
  }

  function DayNumber(d: Date): nat
    requires ValidDate(d)
  {
    DaysBeforeYear(d.year) + DaysBeforeMonth(d.year, d.month) + d.day - 1
  }

  lemma MonthsFillYear(y: int)
    ensures DaysBeforeMonth(y, 13) == DaysInYear(y)
  {
    assert DaysBeforeMonth(y, 2) == 31;
    assert DaysBeforeMonth(y, 3) == 31 + DaysInMonth(y, 2);
    assert DaysBeforeMonth(y, 4) == 62 + DaysInMonth(y, 2);
    assert DaysBeforeMonth(y, 5) == 92 + DaysInMonth(y, 2);
    assert DaysBeforeMonth(y, 6) == 123 + DaysInMonth(y, 2);
    assert DaysBeforeMonth(y, 7) == 153 + DaysInMonth(y, 2);
    assert DaysBeforeMonth(y, 8) == 184 + DaysInMonth(y, 2);
    assert DaysBeforeMonth(y, 9) == 215 + DaysInMonth(y, 2);
    assert DaysBeforeMonth(y, 10) == 245 + DaysInMonth(y, 2);
    assert DaysBeforeMonth(y, 11) == 276 + DaysInMonth(y, 2);
    assert DaysBeforeMonth(y, 12) == 306 + DaysInMonth(y, 2);
  }

  lemma {:induction false} MonthsBefore(y: int, a: int, b: int)
    requires 1 <= a < b <= 13
    ensures DaysBeforeMonth(y, a) + DaysInMonth(y, a) <= DaysBeforeMonth(y, b)
    decreases b - a
  {
    if a + 1 < b {
      MonthsBefore(y, a + 1, b);
    }
  }

  lemma {:induction false} YearsBefore(a: int, b: int)
    requires 1 <= a < b
    ensures DaysBeforeYear(a) + DaysInYear(a) <= DaysBeforeYear(b)
    decreases b - a
  {
    if a + 1 < b {
      YearsBefore(a + 1, b);
    }
  }

  /** The day number stays within its year. */
  lemma DayNumberWithinYear(d: Date)
    requires ValidDate(d)
    ensures DaysBeforeYear(d.year) <= DayNumber(d) < DaysBeforeYear(d.year) + DaysInYear(d.year)
  {
    MonthsFillYear(d.year);
    if d.month < 12 {
      MonthsBefore(d.year, d.month, 13);
    }
  }

  /** Strict lexicographic order on (year, month, day). */
  predicate DateLt(a: Date, b: Date) {
    a.year < b.year || (a.year == b.year && (a.month < b.month || (a.month == b.month && a.day < b.day)))
  }

  /** `a` is not after `b`: Go's `!a.After(b)`, SQL's `a <= b` on dates. */
  predicate DateLe(a: Date, b: Date) {
    DateLt(a, b) || a == b
  }

  /** Day numbers follow the calendar order. */
  lemma DayNumberOrder(a: Date, b: Date)
    requires ValidDate(a) && ValidDate(b) && DateLt(a, b)
    ensures DayNumber(a) < DayNumber(b)
  {
    if a.year < b.year {
      DayNumberWithinYear(a);
      YearsBefore(a.year, b.year);
    } else if a.month < b.month {
      MonthsBefore(a.year, a.month, b.month);
    }
  }

  /** Two valid dates with the same day number are the same date. */
  lemma DayNumberInjective(a: Date, b: Date)
    requires ValidDate(a) && ValidDate(b) && DayNumber(a) == DayNumber(b)
    ensures a == b
  {
    if DateLt(a, b) {
      DayNumberOrder(a, b);
    } else if DateLt(b, a) {
      DayNumberOrder(b, a);
    }
  }

  /** Calendar order and day-number order agree. */
  lemma DateLeIffDayNumberLe(a: Date, b: Date)
    requires ValidDate(a) && ValidDate(b)
    ensures DateLe(a, b) <==> DayNumber(a) <= DayNumber(b)
  {
    if DateLt(a, b) {
      DayNumberOrder(a, b);
    } else if DateLt(b, a) {
      DayNumberOrder(b, a);
    }
  }

  /** The date n days into year y, counting from the first of month m. */
  function MonthFrom(y: int, m: int, n: int): (d: Date)
    requires y >= 1 && 1 <= m <= 12 && 0 <= n < DaysInYear(y) - DaysBeforeMonth(y, m)
    ensures ValidDate(d) && d.year == y
    ensures DaysBeforeMonth(y, d.month) + d.day - 1 == DaysBeforeMonth(y, m) + n
    decreases 12 - m
  {
    MonthsFillYear(y);
    if n < DaysInMonth(y, m) then Date(y, m, n + 1)
    else MonthFrom(y, m + 1, n - DaysInMonth(y, m))
  }

  /** The date n days after the first of January of year y. */
  function YearFrom(y: int, n: nat): (d: Date)
    requires y >= 1
    ensures ValidDate(d) && DayNumber(d) == DaysBeforeYear(y) + n
    decreases n
  {
    if n < DaysInYear(y) then MonthFrom(y, 1, n) else YearFrom(y + 1, n - DaysInYear(y))
  }

  /** The date whose day number is n. */
  function FromDayNumber(n: nat): (d: Date)
    ensures ValidDate(d) && DayNumber(d) == n
  {
    YearFrom(1, n)
  }

  lemma FromDayNumberOfDayNumber(d: Date)
    requires ValidDate(d)
    ensures FromDayNumber(DayNumber(d)) == d
  {
    DayNumberInjective(FromDayNumber(DayNumber(d)), d);
  }

  /** Go's `d.AddDate(0, 0, 1)` on a date: the following calendar day. */
  function NextDay(d: Date): (e: Date)
    requires ValidDate(d)
    ensures ValidDate(e) && DayNumber(e) == DayNumber(d) + 1
  {
    if d.day < DaysInMonth(d.year, d.month) then Date(d.year, d.month, d.day + 1)
    else if d.month < 12 then
      assert DaysBeforeMonth(d.year, d.month + 1) == DaysBeforeMonth(d.year, d.month) + d.day;
      Date(d.year, d.month + 1, 1)
    else
      MonthsFillYear(d.year);
      assert DaysBeforeYear(d.year + 1) == DaysBeforeYear(d.year) + DaysBeforeMonth(d.year, 12) + d.day;
      Date(d.year + 1, 1, 1)
  }

  /** JavaScript `getDay()` of the day with number n: 0 is Sunday, 1 Monday, ..., 6 Saturday. */
  function JsWeekday(n: int): (w: int)
    ensures 0 <= w < 7
  {
    (n + 1) % 7
  }

  /** The year as layout "2006" prints it: at least four digits, zero padded. */
  function YearText(y: nat): (s: string)
    ensures y <= 9999 ==> |s| == 4 && AllDigits(s) && DigitsValue(s) == y
  {
    if y <= 9999 then Digits4(y) else NatToString(y)
  }

  /** Go's `d.Format("2006-01-02")`, the text form every API response uses for a date. */
  function Format(d: Date): (s: string)
    requires ValidDate(d)
    ensures d.year <= 9999 ==> |s| == 10 && s[4] == '-' && s[7] == '-'
  {
    YearText(d.year) + "-" + Digits2(d.month) + "-" + Digits2(d.day)
  }

  /**
   * Go's `time.Parse("2006-01-02", s)`: exactly four year digits, a dash, two
   * month digits (01-12), a dash, two day digits naming a day of that month.
   */
  function Parse(s: string): (r: Option<Date>)
    ensures r.Some? ==> ValidDate(r.value) && r.value.year <= 9999
  {
    if |s| == 10 && s[4] == '-' && s[7] == '-'
       && AllDigits(s[..4]) && AllDigits(s[5..7]) && AllDigits(s[8..])
    then
      DigitsRoundTrip4(s[..4]);
      var d := Date(DigitsValue(s[..4]), DigitsValue(s[5..7]), DigitsValue(s[8..]));
      if ValidDate(d) then Some(d) else None
    else None
  }

  /** `time.Parse` with its error ignored, as `start, _ := time.Parse(...)` does: the zero time on failure. */
  function ParseOrZero(s: string): (d: Date)
    ensures ValidDate(d)
    ensures Parse(s).Some? ==> d == Parse(s).value
    ensures Parse(s).None? ==> d == ZeroDate
  {
    Parse(s).GetOr(ZeroDate)
  }

  lemma ParseFormat(d: Date)
    requires ValidDate(d) && d.year <= 9999
    ensures Parse(Format(d)) == Some(d)
  {
    var s := Format(d);
    assert s[..4] == Digits4(d.year);
    assert s[5..7] == Digits2(d.month);
    assert s[8..] == Digits2(d.day);
  }

  lemma FormatParse(s: string)
    requires Parse(s).Some?
    ensures Format(Parse(s).value) == s
  {
    DigitsRoundTrip4(s[..4]);
    DigitsRoundTrip2(s[5..7]);
    DigitsRoundTrip2(s[8..]);
    assert s == s[..4] + "-" + s[5..7] + "-" + s[8..];
  }
}
