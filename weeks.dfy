/**
 * Week counting: how many whole weeks separate the birthdate from the
 * reference moment. The browser version works on millisecond time stamps
 * (`Date` values) and floors twice, first to whole days and then to whole
 * weeks; the Python version subtracts two `date`s and floor-divides the day
 * count by seven. The clock is a parameter in both.
 */
module Weeks {
  import opened Dates

  const MillisecondsPerDay: int := 1000 * 60 * 60 * 24
  const DaysPerWeek: int := 7

  /**
   * `Math.floor(a / b)` on an exact quotient, and Python's `a // b`, for a
   * positive divisor: the largest q with b*q <= a.
   */
  function FloorDiv(a: int, b: int): (q: int)
    requires b > 0
    ensures b * q <= a < b * q + b
  {
    a / b
  }

  /** Only one integer satisfies FloorDiv's contract. */
  lemma FloorDivUnique(a: int, b: int, q: int)
    requires b > 0 && b * q <= a < b * q + b
    ensures q == FloorDiv(a, b)
  {
    var f := FloorDiv(a, b);
    if q < f {
      MulStep(b, q, f);
    } else if q > f {
      MulStep(b, f, q);
    }
  }

  lemma MulStep(b: int, x: int, y: int)
    requires b > 0 && x < y
    ensures b * x + b <= b * y
  {
    var d := y - x;
    assert b * y == b * x + b * d;
    assert b * (d - 1) >= 0;
  }

  /** `Math.floor(diffTime / (1000 * 60 * 60 * 24))`: whole days between two instants. */
  function WholeDays(birthMs: int, nowMs: int): (days: int)
    ensures MillisecondsPerDay * days <= nowMs - birthMs < MillisecondsPerDay * days + MillisecondsPerDay
    ensures birthMs <= nowMs ==> days >= 0
  {
    FloorDiv(nowMs - birthMs, MillisecondsPerDay)
  }

  /** `calculateWeeksLived`, with `new Date()` passed in as `nowMs`. */
  function CalculateWeeksLivedJs(birthMs: int, nowMs: int): (w: int)
    ensures 7 * w <= WholeDays(birthMs, nowMs) < 7 * w + 7
    ensures birthMs <= nowMs ==> w >= 0
    ensures birthMs == nowMs ==> w == 0
  {
    FloorDiv(WholeDays(birthMs, nowMs), DaysPerWeek)
  }

  /**
   * Flooring to days and then to weeks loses nothing: the result is the
   * number of whole 7-day spans in the millisecond difference.
   */
  lemma WeeksLivedJsIsWholeWeeks(birthMs: int, nowMs: int)
    ensures CalculateWeeksLivedJs(birthMs, nowMs) == FloorDiv(nowMs - birthMs, DaysPerWeek * MillisecondsPerDay)
  {
    var w := CalculateWeeksLivedJs(birthMs, nowMs);
    var d := WholeDays(birthMs, nowMs);
    FloorDivUnique(nowMs - birthMs, DaysPerWeek * MillisecondsPerDay, w);
  }

  /** `calculate_weeks_lived`, with `date.today()` passed in as `today`. */
  function CalculateWeeksLivedPy(birthdate: Date, today: Date): (w: int)
    requires ValidDate(birthdate) && ValidDate(today)
    ensures 7 * w <= DaysBetween(birthdate, today) < 7 * w + 7
    ensures birthdate == today ==> w == 0
  {
    FloorDiv(DaysBetween(birthdate, today), DaysPerWeek)
  }

  /** A birthdate that is not after the reference day gives a count of at least zero. */
  lemma WeeksLivedPyNonNegative(birthdate: Date, today: Date)
    requires ValidDate(birthdate) && ValidDate(today)
    requires !After(birthdate, today)
    ensures CalculateWeeksLivedPy(birthdate, today) >= 0
  {
    OrdinalOrder(birthdate, today);
  }

  /** A reference day exactly k weeks and r < 7 days after the birthdate gives k. */
  lemma WholeWeeksCounted(birthdate: Date, today: Date, k: int, r: int)
    requires ValidDate(birthdate) && ValidDate(today)
    requires 0 <= r < 7 && DaysBetween(birthdate, today) == 7 * k + r
    ensures CalculateWeeksLivedPy(birthdate, today) == k
  {
    FloorDivUnique(DaysBetween(birthdate, today), DaysPerWeek, k);
  }

  /** Born 2000-01-01, counted on 2024-01-01: 8766 days, 1252 whole weeks. */
  lemma TwentyFourYearsExample()
    ensures DaysBetween(Date(2000, 1, 1), Date(2024, 1, 1)) == 8766
    ensures CalculateWeeksLivedPy(Date(2000, 1, 1), Date(2024, 1, 1)) == 1252
  {
    WholeWeeksCounted(Date(2000, 1, 1), Date(2024, 1, 1), 1252, 2);
  }
}
