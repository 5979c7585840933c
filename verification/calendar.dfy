/** Calendar days in the proleptic Gregorian calendar, at day granularity, with the
    handful of date-fns operations the dashboard relies on: stepping by days and by
    months, and the first and last day of a week, month, quarter and year. */
module Calendar {

  datatype Date = Date(year: int, month: int, day: int)

  predicate IsLeapYear(y: int) {
    (y % 4 == 0 && y % 100 != 0) || y % 400 == 0
  }

  function DaysInMonth(y: int, m: int): int {
    if m == 2 then (if IsLeapYear(y) then 29 else 28)
    else if m == 4 || m == 6 || m == 9 || m == 11 then 30
    else 31
  }

  /** A real calendar day; anything else is what JavaScript calls an Invalid Date. */
  predicate Valid(d: Date) {
    1 <= d.month <= 12 && 1 <= d.day <= DaysInMonth(d.year, d.month)
  }

  /** Chronological order: `a` is on or before `b`. */
  predicate Le(a: Date, b: Date) {
    a.year < b.year ||
    (a.year == b.year && (a.month < b.month || (a.month == b.month && a.day <= b.day)))
  }

  function NextDay(d: Date): (r: Date)
    requires Valid(d)
    ensures Valid(r) && Le(d, r) && r != d
  {
    if d.day < DaysInMonth(d.year, d.month) then Date(d.year, d.month, d.day + 1)
    else if d.month < 12 then Date(d.year, d.month + 1, 1)
    else Date(d.year + 1, 1, 1)
  }

  function PrevDay(d: Date): (r: Date)
    requires Valid(d)
    ensures Valid(r) && Le(r, d) && r != d
  {
    if d.day > 1 then Date(d.year, d.month, d.day - 1)
    else if d.month > 1 then Date(d.year, d.month - 1, DaysInMonth(d.year, d.month - 1))
    else Date(d.year - 1, 12, 31)
  }

  /** Stepping back a day and forward a day are inverse to each other. */
  lemma NextPrevInverse(d: Date)
    requires Valid(d)
    ensures NextDay(PrevDay(d)) == d && PrevDay(NextDay(d)) == d
  {
  }

  /** date-fns `addDays`: `n` days later (earlier when `n` is negative). */
  function AddDays(d: Date, n: int): (r: Date)
    requires Valid(d)
    ensures Valid(r)
    ensures n >= 0 ==> Le(d, r)
    ensures n <= 0 ==> Le(r, d)
    decreases if n < 0 then -n else n
  {
    if n == 0 then d
    else if n > 0 then AddDays(NextDay(d), n - 1)
    else AddDays(PrevDay(d), n + 1)
  }

  /** Any step can start by moving one day forward and then take one day less. */
  lemma AddDaysUnfoldNext(d: Date, n: int)
    requires Valid(d)
    ensures AddDays(d, n) == AddDays(NextDay(d), n - 1)
  {
    NextPrevInverse(d);
  }

  /** Any step can start by moving one day back and then take one day more. */
  lemma AddDaysUnfoldPrev(d: Date, n: int)
    requires Valid(d)
    ensures AddDays(d, n) == AddDays(PrevDay(d), n + 1)
  {
    NextPrevInverse(d);
  }

  /** Stepping `a` days and then `b` more is stepping `a + b` days. */
  lemma {:induction false} AddDaysAdditive(d: Date, a: int, b: int)
    requires Valid(d)
    ensures AddDays(AddDays(d, a), b) == AddDays(d, a + b)
    decreases if a < 0 then -a else a
  {
    if a > 0 {
      AddDaysAdditive(NextDay(d), a - 1, b);
      AddDaysUnfoldNext(d, a + b);
    } else if a < 0 {
      AddDaysAdditive(PrevDay(d), a + 1, b);
      AddDaysUnfoldPrev(d, a + b);
    }
  }

  // ---------------------------------------------------------------------------
  // Day numbers and weekdays

  /** Days before the first of month `m` in year `y`. */
  function DaysBeforeMonth(y: int, m: int): int {
    var leap := if m > 2 && IsLeapYear(y) then 1 else 0;
    (if m <= 1 then 0 else if m == 2 then 31 else if m == 3 then 59
     else if m == 4 then 90 else if m == 5 then 120 else if m == 6 then 151
     else if m == 7 then 181 else if m == 8 then 212 else if m == 9 then 243
     else if m == 10 then 273 else if m == 11 then 304 else 334) + leap
  }

  /** Days since 0001-01-01 (a Monday); negative before it. */
  function DayNumber(d: Date): int {
    var p := d.year - 1;
    365 * p + p / 4 - p / 100 + p / 400 + DaysBeforeMonth(d.year, d.month) + d.day - 1
  }

  /** Day of the week as JavaScript's `getDay` numbers it: 0 is Sunday. */
  function Weekday(d: Date): (w: int)
    ensures 0 <= w < 7
  {
    (DayNumber(d) + 1) % 7
  }

  /** The numbering is JavaScript's: 1 January 1970 was a Thursday (4) and
      7 January 2024 a Sunday (0). */
  lemma WeekdayAnchors()
    ensures Weekday(Date(1970, 1, 1)) == 4
    ensures Weekday(Date(2024, 1, 7)) == 0
  {
  }

  /** Each next day is the next weekday, Saturday (6) wrapping round to Sunday (0). */
  lemma WeekdayNext(d: Date)
    requires Valid(d)
    ensures Weekday(NextDay(d)) == (Weekday(d) + 1) % 7
  {
    DayNumberNext(d);
    ModSevenNext(DayNumber(d) + 1);
  }

  lemma ModSevenNext(a: int)
    ensures (a + 1) % 7 == (a % 7 + 1) % 7
  {
    var q, w := a / 7, a % 7;
    assert a + 1 == 7 * q + (w + 1);
    if w + 1 == 7 {
      assert a + 1 == 7 * (q + 1);
    }
  }

  /** The leap-day count grows by one exactly across a leap year. */
  lemma LeapDaysStep(y: int)
    ensures (y / 4 - (y - 1) / 4) - (y / 100 - (y - 1) / 100) + (y / 400 - (y - 1) / 400)
            == (if IsLeapYear(y) then 1 else 0)
  {
    var q4, q100, q400 := (y - 1) / 4, (y - 1) / 100, (y - 1) / 400;
    assert y / 4 == (if y % 4 == 0 then q4 + 1 else q4);
    assert y / 100 == (if y % 100 == 0 then q100 + 1 else q100);
    assert y / 400 == (if y % 400 == 0 then q400 + 1 else q400);
    if y % 400 == 0 {
      var k := y / 400;
      assert y == 100 * (4 * k);
      assert y == 4 * (100 * k);
    } else if y % 100 == 0 {
      var k := y / 100;
      assert y == 4 * (25 * k);
    }
  }

  /** The next day is one day number further. */
  lemma DayNumberNext(d: Date)
    requires Valid(d)
    ensures DayNumber(NextDay(d)) == DayNumber(d) + 1
  {
    if d.day == DaysInMonth(d.year, d.month) && d.month == 12 {
      LeapDaysStep(d.year);
    }
  }

  /** Stepping `n` days moves the day number by exactly `n`. */
  lemma {:induction false} DayNumberAddDays(d: Date, n: int)
    requires Valid(d)
    ensures DayNumber(AddDays(d, n)) == DayNumber(d) + n
    decreases if n < 0 then -n else n
  {
    if n > 0 {
      DayNumberNext(d);
      DayNumberAddDays(NextDay(d), n - 1);
    } else if n < 0 {
      NextPrevInverse(d);
      DayNumberNext(PrevDay(d));
      DayNumberAddDays(PrevDay(d), n + 1);
    }
  }

  // ---------------------------------------------------------------------------
  // Bounds of weeks, months, quarters and years

  /** Days from the start of the week to a day on weekday `day`. */
  function WeekOffset(day: int, weekStart: int): int {
    (if day < weekStart then 7 else 0) + day - weekStart
  }

  /** date-fns `startOfWeek`, with the first day of the week as a parameter. */
  function StartOfWeek(d: Date, weekStart: int): (r: Date)
    requires Valid(d) && 0 <= weekStart < 7
    ensures Valid(r) && Le(r, d)
  {
    AddDays(d, -WeekOffset(Weekday(d), weekStart))
  }

  /** date-fns `endOfWeek`, with the first day of the week as a parameter. */
  function EndOfWeek(d: Date, weekStart: int): (r: Date)
    requires Valid(d) && 0 <= weekStart < 7
    ensures Valid(r) && Le(d, r)
  {
    AddDays(d, 6 - WeekOffset(Weekday(d), weekStart))
  }

  /** Going back `diff` days from weekday `day` lands on weekday `weekStart`. */
  lemma WeekdayShift(n: int, day: int, weekStart: int, diff: int)
    requires 0 <= weekStart < 7 && day == n % 7
    requires diff == (if day < weekStart then 7 else 0) + day - weekStart
    ensures (n - diff) % 7 == weekStart
  {
    var q := n / 7;
    var k := if day < weekStart then q - 1 else q;
    assert n - diff == 7 * k + weekStart;
  }

  /** A week starts on the configured weekday and spans seven days. */
  lemma WeekShape(d: Date, weekStart: int)
    requires Valid(d) && 0 <= weekStart < 7
    ensures Weekday(StartOfWeek(d, weekStart)) == weekStart
    ensures DayNumber(EndOfWeek(d, weekStart)) == DayNumber(StartOfWeek(d, weekStart)) + 6
  {
    var day := Weekday(d);
    var diff := WeekOffset(day, weekStart);
    DayNumberAddDays(d, -diff);
    DayNumberAddDays(d, 6 - diff);
    WeekdayShift(DayNumber(d) + 1, day, weekStart, diff);
  }

  /** Stepping whole weeks keeps the weekday. */
  lemma WeekdayAfterWeeks(d: Date, k: int)
    requires Valid(d)
    ensures Weekday(AddDays(d, 7 * k)) == Weekday(d)
  {
    DayNumberAddDays(d, 7 * k);
    ModSevenPeriodic(DayNumber(d) + 1, k);
  }

  lemma ModSevenPeriodic(a: int, k: int)
    ensures (a + 7 * k) % 7 == a % 7
  {
    var q := a / 7;
    assert a + 7 * k == 7 * (q + k) + a % 7;
  }

  /** The ordinal of a month counted from year 0: `year * 12 + month - 1`. */
  function MonthIndex(d: Date): int {
    d.year * 12 + d.month - 1
  }

  /** The month index determines the year and the month. */
  lemma MonthIndexDetermines(a: Date, b: Date)
    requires 1 <= a.month <= 12 && 1 <= b.month <= 12 && MonthIndex(a) == MonthIndex(b)
    ensures a.year == b.year && a.month == b.month
  {
    assert MonthIndex(a) / 12 == a.year;
    assert MonthIndex(b) / 12 == b.year;
  }

  /** date-fns `addMonths`: the same day `n` months later, clamped to the end of a
      shorter month (31 January plus one month is the last day of February). */
  function AddMonths(d: Date, n: int): (r: Date)
    requires Valid(d)
    ensures Valid(r)
    ensures MonthIndex(r) == MonthIndex(d) + n
    ensures r.day == if d.day < DaysInMonth(r.year, r.month) then d.day else DaysInMonth(r.year, r.month)
  {
    var target := MonthIndex(d) + n;
    var y, m := target / 12, target % 12 + 1;
    var last := DaysInMonth(y, m);
    Date(y, m, if d.day < last then d.day else last)
  }

  function StartOfMonth(d: Date): Date { Date(d.year, d.month, 1) }

  function EndOfMonth(d: Date): Date { Date(d.year, d.month, DaysInMonth(d.year, d.month)) }

  /** The quarter of the year, 1 to 4. */
  function Quarter(d: Date): int { (d.month - 1) / 3 + 1 }

  function StartOfQuarter(d: Date): Date { Date(d.year, 3 * (Quarter(d) - 1) + 1, 1) }

  function EndOfQuarter(d: Date): Date {
    Date(d.year, 3 * Quarter(d), DaysInMonth(d.year, 3 * Quarter(d)))
  }

  function StartOfYear(d: Date): Date { Date(d.year, 1, 1) }

  function EndOfYear(d: Date): Date { Date(d.year, 12, 31) }

  /** An inclusive range of days. */
  datatype Interval = Interval(start: Date, end: Date)

  /** date-fns `isWithinInterval` on a parsed date: an Invalid Date is never inside. */
  predicate InInterval(d: Date, iv: Interval) {
    Valid(d) && Le(iv.start, d) && Le(d, iv.end)
  }
}
