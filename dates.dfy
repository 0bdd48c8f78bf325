/**
 * The calendar dates the Python generator works with: a proleptic Gregorian
 * `date`, its day ordinal (`date.toordinal()`, which is what makes
 * `(today - birthdate).days` a plain integer difference), the ordering that
 * `birthdate > date.today()` uses, and the `%Y-%m-%d` text form.
 */
module Dates {
  import opened Digits
  import opened Wrappers

  datatype Date = Date(year: int, month: int, day: int)

  predicate IsLeapYear(y: int) {
    y % 4 == 0 && (y % 100 != 0 || y % 400 == 0)
  }

  function DaysInYear(y: int): int {
    if IsLeapYear(y) then 366 else 365
  }

  function DaysInMonth(y: int, m: int): int
    requires 1 <= m <= 12
  {
    if m == 2 then (if IsLeapYear(y) then 29 else 28)
    else if m == 4 || m == 6 || m == 9 || m == 11 then 30
    else 31
  }

  /** The dates Python's `date` can hold. */
  predicate ValidDate(d: Date) {
    1 <= d.year <= 9999 && 1 <= d.month <= 12 && 1 <= d.day <= DaysInMonth(d.year, d.month)
  }

  /** Days in the years 1 .. y-1. */
  function DaysBeforeYear(y: int): int
    requires y >= 1
  {
    var p := y - 1;
    365 * p + p / 4 - p / 100 + p / 400
  }

  /** Days in the months 1 .. m-1 of year y. */
  function DaysBeforeMonth(y: int, m: int): int
    requires 1 <= m <= 12
  {
    var common :=
      if m == 1 then 0 else if m == 2 then 31 else if m == 3 then 59
      else if m == 4 then 90 else if m == 5 then 120 else if m == 6 then 151
      else if m == 7 then 181 else if m == 8 then 212 else if m == 9 then 243
      else if m == 10 then 273 else if m == 11 then 304 else 334;
    common + (if m > 2 && IsLeapYear(y) then 1 else 0)
  }

  /** `date.toordinal()`: 0001-01-01 is day 1. */
  function Ordinal(d: Date): int
    requires ValidDate(d)
  {
    DaysBeforeYear(d.year) + DaysBeforeMonth(d.year, d.month) + d.day
  }

  /** `a > b` on Python dates, which compares (year, month, day) lexicographically. */
  predicate After(a: Date, b: Date) {
    a.year > b.year || (a.year == b.year && (a.month > b.month || (a.month == b.month && a.day > b.day)))
  }

  /** `(later - earlier).days` */
  function DaysBetween(earlier: Date, later: Date): (days: int)
    requires ValidDate(earlier) && ValidDate(later)
    ensures days > 0 <==> After(later, earlier)
    ensures days == 0 <==> earlier == later
  {
    OrdinalOrder(later, earlier);
    Ordinal(later) - Ordinal(earlier)
  }

  // ---- the ordinal respects the calendar ----

  lemma FloorStep4(p: int)
    ensures (p + 1) / 4 - p / 4 == if (p + 1) % 4 == 0 then 1 else 0
  {
  }

  lemma FloorStep100(p: int)
    ensures (p + 1) / 100 - p / 100 == if (p + 1) % 100 == 0 then 1 else 0
  {
  }

  lemma FloorStep400(p: int)
    ensures (p + 1) / 400 - p / 400 == if (p + 1) % 400 == 0 then 1 else 0
  {
  }

  /** Consecutive years start DaysInYear apart. */
  lemma YearStep(y: int)
    requires y >= 1
    ensures DaysBeforeYear(y + 1) == DaysBeforeYear(y) + DaysInYear(y)
  {
    FloorStep4(y - 1);
    FloorStep100(y - 1);
    FloorStep400(y - 1);
  }

  lemma {:induction false} YearsIncrease(a: int, b: int)
    requires 1 <= a < b
    ensures DaysBeforeYear(a) + DaysInYear(a) <= DaysBeforeYear(b)
    decreases b - a
  {
    YearStep(a);
    if a + 1 < b {
      YearsIncrease(a + 1, b);
      YearStep(a + 1);
    }
  }

  lemma MonthsIncrease(y: int, m: int, n: int)
    requires 1 <= m < n <= 12
    ensures DaysBeforeMonth(y, m) + DaysInMonth(y, m) <= DaysBeforeMonth(y, n)
  {
  }

  lemma DayOfYearBound(d: Date)
    requires ValidDate(d)
    ensures DaysBeforeMonth(d.year, d.month) + d.day <= DaysInYear(d.year)
  {
  }

  lemma {:induction false} AfterMeansLater(a: Date, b: Date)
    requires ValidDate(a) && ValidDate(b) && After(a, b)
    ensures Ordinal(a) > Ordinal(b)
  {
    if a.year > b.year {
      DayOfYearBound(b);
      YearsIncrease(b.year, a.year);
    } else if a.month > b.month {
      MonthsIncrease(a.year, b.month, a.month);
    }
  }

  /** The day ordinal orders dates exactly as Python's comparison does. */
  lemma OrdinalOrder(a: Date, b: Date)
    requires ValidDate(a) && ValidDate(b)
    ensures After(a, b) <==> Ordinal(a) > Ordinal(b)
    ensures a == b <==> Ordinal(a) == Ordinal(b)
  {
    if After(a, b) {
      AfterMeansLater(a, b);
    } else if After(b, a) {
      AfterMeansLater(b, a);
    } else {
      assert a == b;
    }
  }

  // ---- `%Y-%m-%d` ----

  /** `d.strftime('%Y-%m-%d')` for a year of at most four digits. */
  function FormatIsoDate(d: Date): (s: string)
    requires ValidDate(d)
    ensures |s| == 10 && s[4] == '-' && s[7] == '-'
  {
    PadDigits(d.year, 4) + "-" + PadDigits(d.month, 2) + "-" + PadDigits(d.day, 2)
  }

  /** The strict `YYYY-MM-DD` reading of a string, the inverse of FormatIsoDate. */
  function ParseIsoDate(s: string): (r: Option<Date>)
    ensures r.Some? ==> ValidDate(r.value)
  {
    if |s| == 10 && s[4] == '-' && s[7] == '-'
       && AllDigits(s[..4]) && AllDigits(s[5..7]) && AllDigits(s[8..])
    then
      var d := Date(DigitsValue(s[..4]), DigitsValue(s[5..7]), DigitsValue(s[8..]));
      if ValidDate(d) then Some(d) else None
    else None
  }

  lemma IsoDateRoundTrip(d: Date)
    requires ValidDate(d)
    ensures ParseIsoDate(FormatIsoDate(d)) == Some(d)
  {
    var y, m, dd := PadDigits(d.year, 4), PadDigits(d.month, 2), PadDigits(d.day, 2);
    var s := FormatIsoDate(d);
    assert s[..4] == y;
    assert s[5..7] == m;
    assert s[8..] == dd;
    PadDigitsRoundTrip(d.year, 4);
    PadDigitsRoundTrip(d.month, 2);
    PadDigitsRoundTrip(d.day, 2);
  }
}
