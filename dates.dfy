/**
 * Calendar dates of the enquiry report, the order pandas uses to compare and
 * group them, the fixed cutoff of the loader and the English month names that
 * label the year-over-year chart.
 */
module Dates {

  type Month = m: int | 1 <= m <= 12 witness 1
  type Day = d: int | 1 <= d <= 31 witness 1

  /** A day of the report (pandas holds it as a midnight timestamp). */
  datatype Date = Date(year: int, month: Month, day: Day)

  /** Strict chronological order: lexicographic on (year, month, day). */
  predicate Before(a: Date, b: Date)
  {
    a.year < b.year
    || (a.year == b.year && a.month < b.month)
    || (a.year == b.year && a.month == b.month && a.day < b.day)
  }

  lemma BeforeIsStrictTotalOrder(a: Date, b: Date, c: Date)
    ensures !Before(a, a)
    ensures Before(a, b) && Before(b, c) ==> Before(a, c)
    ensures a == b || Before(a, b) || Before(b, a)
    ensures !(Before(a, b) && Before(b, a))
  {
  }

  /** The loader keeps rows dated strictly after this day. */
  const Cutoff: Date := Date(2015, 12, 31)

  predicate AfterCutoff(d: Date)
  {
    Before(Cutoff, d)
  }

  /** A date is after the cutoff exactly when it falls in 2016 or later. */
  lemma AfterCutoffIsFrom2016(d: Date)
    ensures AfterCutoff(d) <==> d.year >= 2016
  {
  }

  const MonthNames: seq<string> :=
    ["January", "February", "March", "April", "May", "June",
     "July", "August", "September", "October", "November", "December"]

  /** pandas' `month_name()` for a month number (English locale). */
  function MonthName(m: Month): (r: string)
    ensures r in MonthNames
    ensures forall i :: 0 <= i < |MonthNames| && MonthNames[i] == r ==> i == m - 1
  {
    MonthNames[m - 1]
  }

  /**
   * The month label identifies the calendar month: two dates get the same
   * label exactly when they fall in the same month number, whatever their
   * year and day.
   */
  lemma MonthNameIdentifiesMonth(a: Date, b: Date)
    ensures MonthName(a.month) == MonthName(b.month) <==> a.month == b.month
  {
    assert forall i, j :: 0 <= i < j < |MonthNames| ==> MonthNames[i] != MonthNames[j];
  }
}
