/** Calendar months in UTC: an instant is a number of milliseconds since 1970, a month is counted from January of
    year 0, and a period's start date is represented by its month number. */
module Period {

  const MS_PER_DAY := 86_400_000

  predicate IsLeap(year: int) {
    year % 4 == 0 && (year % 100 != 0 || year % 400 == 0)
  }

  /** Length of a month in the proleptic Gregorian calendar. */
  function DaysIn(month: int): int {
    if month % 12 == 1 then (if IsLeap(month / 12) then 29 else 28)
    else if month % 12 == 3 || month % 12 == 5 || month % 12 == 8 || month % 12 == 10 then 30
    else 31
  }

  const EPOCH := 1970 * 12

  /** The first instant of a month, counted from January 1970. */
  function MonthStart(month: int): int
    decreases if month < EPOCH then EPOCH - month else month - EPOCH
  {
    if month == EPOCH then 0
    else if EPOCH < month then MonthStart(month - 1) + DaysIn(month - 1) * MS_PER_DAY
    else MonthStart(month + 1) - DaysIn(month) * MS_PER_DAY
  }

  /** Months follow each other without gap, leap years included. */
  lemma MonthLength(month: int)
    ensures MonthStart(month + 1) == MonthStart(month) + DaysIn(month) * MS_PER_DAY
  {
  }

  lemma {:induction false} MonthStartsIncrease(a: int, b: int)
    requires a <= b
    ensures MonthStart(a) + (b - a) <= MonthStart(b)
    decreases b - a
  {
    if a < b {
      MonthLength(b - 1);
      MonthStartsIncrease(a, b - 1);
    }
  }

  // ---- Looking up the period an instant lies in, for any increasing sequence of starts

  ghost predicate Increasing(start: int -> int) {
    forall a, b :: a <= b ==> start(a) + (b - a) <= start(b)
  }

  function PeriodOf(start: int -> int, t: int): (m: int)
    requires Increasing(start)
    ensures start(m) <= t < start(m + 1)
  {
    if start(EPOCH) <= t then SearchUp(start, t, EPOCH) else SearchDown(start, t, EPOCH)
  }

  function SearchUp(start: int -> int, t: int, m: int): (r: int)
    requires Increasing(start) && start(m) <= t
    ensures start(r) <= t < start(r + 1)
    decreases t - start(m)
  {
    if t < start(m + 1) then m else SearchUp(start, t, m + 1)
  }

  function SearchDown(start: int -> int, t: int, m: int): (r: int)
    requires Increasing(start) && t < start(m)
    ensures start(r) <= t < start(r + 1)
    decreases start(m) - t
  {
    if start(m - 1) <= t then m - 1 else SearchDown(start, t, m - 1)
  }

  lemma CalendarIncreases()
    ensures Increasing(MonthStart)
  {
    forall a, b | a <= b ensures MonthStart(a) + (b - a) <= MonthStart(b) {
      MonthStartsIncrease(a, b);
    }
  }

  /** The month an instant lies in. */
  function MonthOf(t: int): int {
    CalendarIncreases();
    PeriodOf(MonthStart, t)
  }

  /** The month that Date.UTC makes of a year and a month index: it takes the years 0 to 99 for 1900 to 1999. */
  function UtcMonth(year: int, monthIndex: int): int {
    (if 0 <= year <= 99 then 1900 + year else year) * 12 + monthIndex
  }

  /** The month a fee run for the given date is about. */
  function PeriodMonth(date: int): int {
    UtcMonth(MonthOf(date) / 12, MonthOf(date) % 12)
  }

  function StartOfMonthUtc(date: int): int {
    MonthStart(PeriodMonth(date))
  }

  function NextMonthUtc(monthStart: int): int {
    MonthStart(UtcMonth(MonthOf(monthStart) / 12, MonthOf(monthStart) % 12 + 1))
  }

  lemma PeriodOfBefore(start: int -> int, t: int, m: int)
    requires Increasing(start)
    ensures PeriodOf(start, t) < m <==> t < start(m)
  {
    var p := PeriodOf(start, t);
    if p < m {
      assert start(p + 1) <= start(m);
    } else {
      assert start(m) <= start(p);
    }
  }

  lemma PeriodOfStart(start: int -> int, m: int)
    requires Increasing(start)
    ensures PeriodOf(start, start(m)) == m
  {
    PeriodOfBefore(start, start(m), m);
    PeriodOfBefore(start, start(m), m + 1);
    assert start(m) + 1 <= start(m + 1);
  }

  /** An instant is before the start of a month exactly when its own month is. */
  lemma MonthOfBefore(t: int, month: int)
    ensures MonthOf(t) < month <==> t < MonthStart(month)
  {
    CalendarIncreases();
    PeriodOfBefore(MonthStart, t, month);
  }

  lemma MonthOfStart(month: int)
    ensures MonthOf(MonthStart(month)) == month
  {
    CalendarIncreases();
    PeriodOfStart(MonthStart, month);
  }

  predicate IsShortYear(month: int) {
    0 <= month / 12 <= 99
  }

  /** The period of a month is the month itself, or the month 1900 years later; a period's month stays its own. */
  lemma MonthOfPeriod(month: int)
    ensures var m := UtcMonth(month / 12, month % 12);
            && m == (if IsShortYear(month) then month + 1900 * 12 else month)
            && UtcMonth(m / 12, m % 12) == m && UtcMonth(m / 12, m % 12 + 1) == m + 1
  {
  }

  /** A run's two bounds are consecutive month starts, and normalising a date twice changes nothing. */
  lemma PeriodIsOneMonth(date: int)
    ensures NextMonthUtc(StartOfMonthUtc(date)) == MonthStart(PeriodMonth(date) + 1)
    ensures StartOfMonthUtc(StartOfMonthUtc(date)) == StartOfMonthUtc(date)
  {
    MonthOfPeriod(MonthOf(date));
    MonthOfStart(PeriodMonth(date));
  }

  /** The bounds lie around the date if and only if its year is not one of 0 to 99; otherwise the period starts after
      the date. */
  lemma PeriodBounds(date: int)
    ensures StartOfMonthUtc(date) <= date < NextMonthUtc(StartOfMonthUtc(date)) <==> !IsShortYear(MonthOf(date))
    ensures IsShortYear(MonthOf(date)) ==> date < StartOfMonthUtc(date)
  {
    PeriodIsOneMonth(date);
    MonthOfPeriod(MonthOf(date));
    DateInItsMonth(date, PeriodMonth(date));
  }

  lemma DateInItsMonth(date: int, month: int)
    ensures MonthStart(month) <= date < MonthStart(month + 1) <==> MonthOf(date) == month
    ensures MonthOf(date) < month ==> date < MonthStart(month)
  {
    MonthOfBefore(date, month);
    MonthOfBefore(date, month + 1);
  }

  /** March 15 of the year 50 gives the period of March 1950. */
  lemma PeriodOfShortYear(month: int, date: int)
    requires month == 50 * 12 + 2 && date == MonthStart(month) + 14 * MS_PER_DAY
    ensures StartOfMonthUtc(date) == MonthStart(month + 1900 * 12) && date < StartOfMonthUtc(date)
  {
    MonthLength(month);
    DateInItsMonth(date, month);
    PeriodBounds(date);
    MonthOfPeriod(month);
  }
}
