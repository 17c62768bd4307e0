/** Calendar dates as the budget model uses them: a year, a 0-based month and a day of the month. */
module Dates {

  /** A date as java.util.Calendar reports it through YEAR, MONTH (0 = January) and DAY_OF_MONTH. */
  datatype Date = Date(year: int, month: int, day: int)

  /** Calendar.before: a lies strictly earlier than b (dates compared year, then month, then day). */
  function Before(a: Date, b: Date): (r: bool)
    ensures r ==> a != b
  {
    a.year < b.year
    || (a.year == b.year && a.month < b.month)
    || (a.year == b.year && a.month == b.month && a.day < b.day)
  }

  /** Two dates are equal or one lies before the other, and never both ways. */
  lemma BeforeTrichotomy(a: Date, b: Date)
    ensures a == b || Before(a, b) || Before(b, a)
    ensures !(Before(a, b) && Before(b, a))
  {
  }

  /** Lying before is transitive, so the dates of a report are ordered. */
  lemma BeforeTransitive(a: Date, b: Date, c: Date)
    requires Before(a, b) && Before(b, c)
    ensures Before(a, c)
  {
  }

  /** a is the same date as b or an earlier one. */
  predicate AtOrBefore(a: Date, b: Date) {
    a == b || Before(a, b)
  }

  predicate IsLeapYear(year: int) {
    (year % 4 == 0 && year % 100 != 0) || year % 400 == 0
  }

  function DaysInMonth(year: int, month: int): (n: int)
    requires 0 <= month < 12
    ensures 28 <= n <= 31
  {
    if month == 1 then (if IsLeapYear(year) then 29 else 28)
    else if month == 3 || month == 5 || month == 8 || month == 10 then 30
    else 31
  }

  /**
   * The fields name a day of the Gregorian calendar without any roll-over. Years from 1583
   * on are accepted: earlier dates fall under GregorianCalendar's Julian rules, its
   * switch-over gap of October 1582 or the BC era, none of which this model follows.
   */
  predicate ValidDate(d: Date) {
    1583 <= d.year && 0 <= d.month < 12 && 1 <= d.day <= DaysInMonth(d.year, d.month)
  }
}
