/** The four reporting periods and the interval each one selects around a reference
    date. The dashboard anchors it on the current date, the charts page on a date the
    user moves with its previous and next buttons. */
module Periods {
  import opened Calendar

  datatype Period = Weekly | Monthly | Quarterly | Annually

  /** The string value of the period, as the selectors and tabs carry it. */
  function Name(p: Period): string {
    match p
    case Weekly => "weekly"
    case Monthly => "monthly"
    case Quarterly => "quarterly"
    case Annually => "annually"
  }

  /** The `switch (period)` that picks the interval: the week, month, quarter or year
      that contains `d`, the week starting on weekday `weekStart`. */
  function PeriodInterval(p: Period, d: Date, weekStart: int): (iv: Interval)
    requires Valid(d) && 0 <= weekStart < 7
    ensures Valid(iv.start) && Valid(iv.end)
    ensures InInterval(d, iv)
    ensures p != Weekly ==> iv.start.day == 1 && iv.start.year == d.year == iv.end.year
    ensures p != Weekly ==> iv.end.day == DaysInMonth(iv.end.year, iv.end.month)
    ensures p == Monthly ==> iv.start.month == d.month == iv.end.month
    ensures p == Quarterly ==> iv.start.month == 3 * (Quarter(d) - 1) + 1 && iv.end.month == 3 * Quarter(d)
    ensures p == Quarterly ==> iv.start.month <= d.month <= iv.end.month
    ensures p == Annually ==> iv.start.month == 1 && iv.end.month == 12
  {
    match p
    case Weekly => Interval(StartOfWeek(d, weekStart), EndOfWeek(d, weekStart))
    case Monthly => Interval(StartOfMonth(d), EndOfMonth(d))
    case Quarterly => Interval(StartOfQuarter(d), EndOfQuarter(d))
    case Annually => Interval(StartOfYear(d), EndOfYear(d))
  }

  /** A weekly interval runs seven days from the configured first weekday. */
  lemma WeeklyIntervalShape(d: Date, weekStart: int)
    requires Valid(d) && 0 <= weekStart < 7
    ensures var iv := PeriodInterval(Weekly, d, weekStart);
            Weekday(iv.start) == weekStart && DayNumber(iv.end) == DayNumber(iv.start) + 6
  {
    WeekShape(d, weekStart);
  }

  /** Which month, quarter or year a date falls in, counted from year 0. */
  function UnitIndex(p: Period, d: Date): int
    requires p != Weekly
  {
    match p
    case Monthly => MonthIndex(d)
    case Quarterly => MonthIndex(d) / 3
    case Annually => d.year
  }

  /** For months, quarters and years the interval depends only on the unit the date
      falls in. */
  lemma SameUnitSameInterval(p: Period, d: Date, e: Date, weekStart: int)
    requires p != Weekly && Valid(d) && Valid(e) && 0 <= weekStart < 7
    requires UnitIndex(p, d) == UnitIndex(p, e)
    ensures PeriodInterval(p, d, weekStart) == PeriodInterval(p, e, weekStart)
  {
    SameMonthIndex(d, e, p);
  }

  /** The month index splits into year and month; the quarter index into year and quarter. */
  lemma SameMonthIndex(d: Date, e: Date, p: Period)
    requires p != Weekly && Valid(d) && Valid(e) && UnitIndex(p, d) == UnitIndex(p, e)
    ensures p == Monthly ==> d.year == e.year && d.month == e.month
    ensures p == Quarterly ==> d.year == e.year && Quarter(d) == Quarter(e)
  {
    if p == Monthly {
      MonthIndexDetermines(d, e);
    } else if p == Quarterly {
      var qd, qe := MonthIndex(d) / 3, MonthIndex(e) / 3;
      assert qd == d.year * 4 + (d.month - 1) / 3;
      assert qe == e.year * 4 + (e.month - 1) / 3;
      assert qd / 4 == d.year;
      assert qe / 4 == e.year;
    }
  }
}
