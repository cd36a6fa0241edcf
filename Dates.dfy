/** Timestamps and the calendar-month count used to value investments. */
module Dates {

  /** A calendar month, January = 1. */
  type Month = m: int | 1 <= m <= 12 witness 1

  /** A naive `datetime`. The day, time of day and microseconds are folded into one
      count, `withinMonth`, that orders instants inside the same calendar month. */
  datatype DateTime = DateTime(year: int, month: Month, withinMonth: nat)

  /** `a <= b` between two timestamps: lexicographic on (year, month, withinMonth),
      which is how `datetime` values compare. */
  predicate NotAfter(a: DateTime, b: DateTime)
  {
    || a.year < b.year
    || (a.year == b.year && a.month < b.month)
    || (a.year == b.year && a.month == b.month && a.withinMonth <= b.withinMonth)
  }

  /** The number of calendar-month boundaries crossed going from `from` to `to`,
      counted from the year and the month only: the day is ignored. */
  function MonthsElapsed(from: DateTime, to: DateTime): (n: int)
    // zero exactly when both instants fall in the same calendar month, whatever the days
    ensures n == 0 <==> from.year == to.year && from.month == to.month
    // non-negative exactly when `to`'s calendar month is not earlier than `from`'s
    ensures n >= 0 <==> from.year < to.year || (from.year == to.year && from.month <= to.month)
    ensures NotAfter(from, to) ==> n >= 0
    // one boundary: the next month of the same year, or December to January
    ensures n == 1 <==> (from.year == to.year && to.month == from.month + 1)
                        || (to.year == from.year + 1 && from.month == 12 && to.month == 1)
  {
    (to.year - from.year) * 12 + (to.month - from.month)
  }

  /** The count as the valuation code evaluates it: the year comes from one reading
      of the clock and the month from a second, later reading. */
  function MonthsElapsedTwoReadings(from: DateTime, yearReading: DateTime, monthReading: DateTime): (n: int)
    // when both readings fall in the same year the second reading alone decides the count
    ensures yearReading.year == monthReading.year ==> n == MonthsElapsed(from, monthReading)
  {
    (yearReading.year - from.year) * 12 + (monthReading.month - from.month)
  }

  /** A year ends between the two readings: an investment bought on 10 December 2024
      (nine days, in microseconds, into the month) is valued at -11 elapsed months,
      although each reading alone gives 0 or 1. */
  lemma YearRolloverBetweenReadings()
    ensures var purchased := DateTime(2024, 12, 9 * 86400000000);
            var first := DateTime(2024, 12, 2678399999999);
            var second := DateTime(2025, 1, 0);
            && NotAfter(purchased, first) && NotAfter(first, second)
            && MonthsElapsed(purchased, first) == 0
            && MonthsElapsed(purchased, second) == 1
            && MonthsElapsedTwoReadings(purchased, first, second) == -11
  {
  }
}
