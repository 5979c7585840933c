/** The charts page: a reference date the user moves one period back or forward,
    the interval and label of the period around it, and the transactions inside. */
module Charts {
  import opened Calendar
  import opened Periods
  import opened Finance
  import Seqs

  /** The duration key of the previous and next buttons, `period.slice(0, -2) + 's'`. */
  function DurationKey(p: Period): (key: string)
    ensures p == Weekly ==> key == "weeks"
    ensures p == Monthly ==> key == "months"
    ensures p == Quarterly ==> key == "quarters"
    ensures p == Annually ==> key == "annuals"
  {
    var name := Name(p);
    name[..|name| - 2] + "s"
  }

  /** date-fns `add` with a one-key duration `{ [key]: n }` (and `sub` with `-n`): years
      and months move by calendar months, weeks and days by days, and a key it does not
      read leaves the date as it is. */
  function AddDuration(d: Date, key: string, n: int): (r: Date)
    requires Valid(d)
    ensures Valid(r)
    ensures key == "months" ==> MonthIndex(r) == MonthIndex(d) + n
    ensures key == "years" ==> MonthIndex(r) == MonthIndex(d) + 12 * n
    ensures key == "weeks" ==> DayNumber(r) == DayNumber(d) + 7 * n
    ensures key == "days" ==> DayNumber(r) == DayNumber(d) + n
    ensures key == "months" || key == "years" ==>
              r.day == if d.day < DaysInMonth(r.year, r.month) then d.day else DaysInMonth(r.year, r.month)
    ensures key != "years" && key != "months" && key != "weeks" && key != "days" ==> r == d
  {
    if key == "years" then AddMonths(d, 12 * n)
    else if key == "months" then AddMonths(d, n)
    else if key == "weeks" then
      DayNumberAddDays(d, 7 * n);
      AddDays(d, 7 * n)
    else if key == "days" then
      DayNumberAddDays(d, n);
      AddDays(d, n)
    else d
  }

  datatype Direction = Prev | Next

  function Sign(dir: Direction): int {
    if dir == Next then 1 else -1
  }

  /** The date `handlePrev` or `handleNext` moves to. */
  function Step(d: Date, p: Period, dir: Direction): (r: Date)
    requires Valid(d)
    ensures Valid(r)
  {
    AddDuration(d, DurationKey(p), Sign(dir))
  }

  /** The page state that the navigation buttons replace. */
  class ChartsPage {
    var period: Period
    var currentDate: Date

    constructor (today: Date)
      requires Valid(today)
      ensures period == Monthly && currentDate == today
    {
      period := Monthly;
      currentDate := today;
    }

    /** `handlePrev`. */
    method HandlePrev()
      requires Valid(currentDate)
      modifies this
      ensures period == old(period)
      ensures currentDate == Step(old(currentDate), period, Prev)
    {
      var key := DurationKey(period);
      currentDate := AddDuration(currentDate, key, -1);
    }

    /** `handleNext`. */
    method HandleNext()
      requires Valid(currentDate)
      modifies this
      ensures period == old(period)
      ensures currentDate == Step(old(currentDate), period, Next)
    {
      var key := DurationKey(period);
      currentDate := AddDuration(currentDate, key, 1);
    }

    /** `handlePrev` with the intended duration. */
    method HandlePrevCorrected()
      requires Valid(currentDate)
      modifies this
      ensures period == old(period)
      ensures currentDate == CorrectedStep(old(currentDate), period, Prev)
    {
      var (key, n) := CorrectedDuration(period);
      currentDate := AddDuration(currentDate, key, -n);
    }

    /** `handleNext` with the intended duration. */
    method HandleNextCorrected()
      requires Valid(currentDate)
      modifies this
      ensures period == old(period)
      ensures currentDate == CorrectedStep(old(currentDate), period, Next)
    {
      var (key, n) := CorrectedDuration(period);
      currentDate := AddDuration(currentDate, key, n);
    }
  }

  /** The structure of the period label; the month names and the day and year
      formats come from the locale and are not modelled. */
  datatype Label =
    | WeekLabel(start: Date, end: Date)
    | MonthLabel(year: int, month: int)
    | QuarterLabel(quarter: int, startMonth: int, endMonth: int, year: int)
    | YearLabel(year: int)

  /** The label computed next to the interval. */
  function PeriodLabel(p: Period, d: Date, weekStart: int): (l: Label)
    requires Valid(d) && 0 <= weekStart < 7
    ensures p == Weekly <==> l.WeekLabel?
    ensures p == Monthly <==> l.MonthLabel?
    ensures p == Quarterly <==> l.QuarterLabel?
    ensures p == Annually <==> l.YearLabel?
    ensures l.WeekLabel? ==> l.start == PeriodInterval(p, d, weekStart).start && l.end == PeriodInterval(p, d, weekStart).end
    ensures l.MonthLabel? ==> l.year == d.year && l.month == d.month
    ensures l.QuarterLabel? ==> 1 <= l.quarter <= 4 && l.year == d.year
    ensures l.QuarterLabel? ==> l.startMonth == 3 * (l.quarter - 1) + 1 && l.endMonth == 3 * l.quarter
    ensures l.QuarterLabel? ==> l.startMonth <= d.month <= l.endMonth
    ensures l.YearLabel? ==> l.year == d.year
  {
    var iv := PeriodInterval(p, d, weekStart);
    match p
    case Weekly => WeekLabel(iv.start, iv.end)
    case Monthly => MonthLabel(d.year, d.month)
    case Quarterly => QuarterLabel(Quarter(d), iv.start.month, iv.end.month, d.year)
    case Annually => YearLabel(d.year)
  }

  /** `filteredTransactions`: the transactions dated inside the period, in order. */
  function FilteredTransactions(txs: seq<Transaction>, p: Period, d: Date, weekStart: int): (r: seq<Transaction>)
    requires Valid(d) && 0 <= weekStart < 7
    ensures Seqs.IsSubsequence(r, txs)
    ensures forall i :: 0 <= i < |r| ==> InInterval(r[i].date, PeriodInterval(p, d, weekStart))
    ensures forall i :: 0 <= i < |txs| && InInterval(txs[i].date, PeriodInterval(p, d, weekStart)) ==> txs[i] in r
    ensures forall t :: multiset(r)[t] == if InInterval(t.date, PeriodInterval(p, d, weekStart)) then multiset(txs)[t] else 0
  {
    Seqs.FilterMultiset(txs, TransactionWithin(PeriodInterval(p, d, weekStart)));
    Seqs.Filter(txs, TransactionWithin(PeriodInterval(p, d, weekStart)))
  }

  // ---------------------------------------------------------------------------
  // Properties of the navigation

  /** Moving forward and then back lands in the interval the user started from. */
  lemma NextThenPrevSameInterval(p: Period, d: Date, weekStart: int)
    requires Valid(d) && 0 <= weekStart < 7
    ensures PeriodInterval(p, Step(Step(d, p, Next), p, Prev), weekStart) == PeriodInterval(p, d, weekStart)
  {
    var e := Step(Step(d, p, Next), p, Prev);
    match p
    case Weekly =>
      AddDaysAdditive(d, 7, -7);
    case Monthly =>
      SameUnitSameInterval(p, e, d, weekStart);
    case Quarterly =>
    case Annually =>
  }

  /** As written, the quarterly and yearly buttons do nothing: date-fns reads neither a
      "quarters" nor an "annuals" key. */
  lemma QuarterlyAndAnnualStepsStayPut(p: Period, d: Date, dir: Direction)
    requires Valid(d) && (p == Quarterly || p == Annually)
    ensures Step(d, p, dir) == d
  {
  }

  /** The duration the buttons evidently intend: one week, month, quarter or year. */
  function CorrectedDuration(p: Period): (string, int) {
    match p
    case Weekly => ("weeks", 1)
    case Monthly => ("months", 1)
    case Quarterly => ("months", 3)
    case Annually => ("years", 1)
  }

  /** The step with the intended duration. */
  function CorrectedStep(d: Date, p: Period, dir: Direction): (r: Date)
    requires Valid(d)
    ensures Valid(r)
  {
    var (key, n) := CorrectedDuration(p);
    AddDuration(d, key, Sign(dir) * n)
  }

  /** For weeks and months the written step and the intended one agree. */
  lemma StepAgreesForWeeksAndMonths(p: Period, d: Date, dir: Direction)
    requires Valid(d) && (p == Weekly || p == Monthly)
    ensures Step(d, p, dir) == CorrectedStep(d, p, dir)
  {
  }

  /** The corrected next button lands in the period right after the current one:
      its interval starts the day after the current interval ends. */
  lemma CorrectedNextIsAdjacent(p: Period, d: Date, weekStart: int)
    requires Valid(d) && 0 <= weekStart < 7
    ensures PeriodInterval(p, CorrectedStep(d, p, Next), weekStart).start
            == NextDay(PeriodInterval(p, d, weekStart).end)
  {
    if p == Weekly {
      NextWeekIsAdjacent(d, weekStart);
    } else {
      NextOfUnitEnd(p, d, weekStart);
      SameUnitSameInterval(p, CorrectedStep(d, p, Next), NextDay(PeriodInterval(p, d, weekStart).end), weekStart);
    }
  }

  /** Seven days later the week starts the day after the current week ends. */
  lemma NextWeekIsAdjacent(d: Date, weekStart: int)
    requires Valid(d) && 0 <= weekStart < 7
    ensures StartOfWeek(AddDays(d, 7), weekStart) == NextDay(EndOfWeek(d, weekStart))
  {
    var e := AddDays(d, 7);
    var diff := WeekOffset(Weekday(d), weekStart);
    WeekdayAfterWeeks(d, 1);
    AddDaysAdditive(d, 7, -diff);
    AddDaysAdditive(d, 6 - diff, 1);
    assert AddDays(AddDays(d, 6 - diff), 1) == NextDay(AddDays(d, 6 - diff));
  }

  /** The day after a month, quarter or year is the first day of the next one. */
  lemma NextOfUnitEnd(p: Period, d: Date, weekStart: int)
    requires p != Weekly && Valid(d) && 0 <= weekStart < 7
    ensures var x := NextDay(PeriodInterval(p, d, weekStart).end);
            UnitIndex(p, x) == UnitIndex(p, d) + 1 && PeriodInterval(p, x, weekStart).start == x
  {
    var x := NextDay(PeriodInterval(p, d, weekStart).end);
    if p == Quarterly {
      assert MonthIndex(d) / 3 == d.year * 4 + (d.month - 1) / 3;
      assert MonthIndex(x) / 3 == x.year * 4 + (x.month - 1) / 3;
    }
  }

  /** The corrected buttons also return to the starting interval when pressed as next
      then previous. */
  lemma CorrectedNextThenPrevSameInterval(p: Period, d: Date, weekStart: int)
    requires Valid(d) && 0 <= weekStart < 7
    ensures PeriodInterval(p, CorrectedStep(CorrectedStep(d, p, Next), p, Prev), weekStart)
            == PeriodInterval(p, d, weekStart)
  {
    var e := CorrectedStep(CorrectedStep(d, p, Next), p, Prev);
    if p == Weekly {
      AddDaysAdditive(d, 7, -7);
    } else {
      if p == Quarterly {
        assert MonthIndex(e) / 3 == MonthIndex(d) / 3;
      }
      SameUnitSameInterval(p, e, d, weekStart);
    }
  }
}
