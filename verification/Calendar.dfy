/** The calendar of the periods against the civil calendar in closed form. */
module Calendar {
  import opened Period

  /** Days from the first of March to the first of each month of the year that starts there. */
  function DaysSinceMarch(k: int): int {
    match k
    case 0 => 0 case 1 => 31 case 2 => 61 case 3 => 92 case 4 => 122 case 5 => 153
    case 6 => 184 case 7 => 214 case 8 => 245 case 9 => 275 case 10 => 306 case _ => 337
  }

  /** Days from January 1, 1970 to the first of March of a year. The first of March of the year 0 is day -719468. */
  function MarchDay(y: int): int {
    365 * y + y / 4 - y / 100 + y / 400 - 719_468
  }

  /** Days from January 1, 1970 to the first of a month. Years start in March, so that a leap day ends its year. */
  function CivilDay(month: int): int {
    MarchDay((month - 2) / 12) + DaysSinceMarch((month - 2) % 12)
  }

  lemma CivilDayIn(y: int, k: int, month: int)
    requires month == 12 * y + k + 2 && 0 <= k < 12
    ensures CivilDay(month) == MarchDay(y) + DaysSinceMarch(k)
  {
    assert (month - 2) / 12 == y && (month - 2) % 12 == k;
  }

  lemma CarryOver(y: int)
    ensures (y + 1) / 4 - y / 4 == (if (y + 1) % 4 == 0 then 1 else 0)
    ensures (y + 1) / 100 - y / 100 == (if (y + 1) % 100 == 0 then 1 else 0)
    ensures (y + 1) / 400 - y / 400 == (if (y + 1) % 400 == 0 then 1 else 0)
  {
  }

  lemma FourHundreds(y: int)
    ensures y % 400 == 0 ==> y % 100 == 0
  {
    if y % 400 == 0 {
      var q := y / 400;
      assert y == 100 * (4 * q);
    }
  }

  lemma Hundreds(y: int)
    ensures y % 100 == 0 ==> y % 4 == 0
  {
    if y % 100 == 0 {
      var q := y / 100;
      assert y == 4 * (25 * q);
    }
  }

  /** From March to March it is 366 days over a leap February, and 365 otherwise. */
  lemma MarchToMarch(y: int)
    ensures MarchDay(y + 1) - MarchDay(y)
         == (if (y + 1) % 400 == 0 then 366 else if (y + 1) % 100 == 0 then 365 else if (y + 1) % 4 == 0 then 366 else 365)
  {
    CarryOver(y);
    FourHundreds(y + 1);
    Hundreds(y + 1);
  }

  lemma LengthInYear(y: int, k: int, month: int)
    requires month == 12 * y + k + 2 && 0 <= k < 11
    ensures CivilDay(month + 1) == CivilDay(month) + DaysIn(month)
  {
    CivilDayIn(y, k, month);
    CivilDayIn(y, k + 1, month + 1);
    MonthInYear(y, k, month);
  }

  lemma LengthOfFebruary(y: int, month: int)
    requires month == 12 * y + 13
    ensures CivilDay(month + 1) == CivilDay(month) + DaysIn(month)
  {
    CivilDayIn(y, 11, month);
    CivilDayIn(y + 1, 0, month + 1);
    MarchToMarch(y);
    FebruaryIn(y + 1, month);
    FourHundreds(y + 1);
    Hundreds(y + 1);
  }

  lemma CivilMonthLength(month: int)
    ensures CivilDay(month + 1) == CivilDay(month) + DaysIn(month)
  {
    var y, k := (month - 2) / 12, (month - 2) % 12;
    if k < 11 {
      LengthInYear(y, k, month);
    } else {
      LengthOfFebruary(y, month);
    }
  }

  lemma FebruaryIn(year: int, month: int)
    requires month == 12 * year + 1
    ensures DaysIn(month) == (if year % 4 != 0 || (year % 100 == 0 && year % 400 != 0) then 28 else 29)
  {
    assert month / 12 == year && month % 12 == 1;
  }

  lemma MonthInYear(y: int, k: int, month: int)
    requires month == 12 * y + k + 2 && 0 <= k < 11
    ensures DaysIn(month) == DaysSinceMarch(k + 1) - DaysSinceMarch(k)
  {
    assert month % 12 == if k < 10 then k + 2 else 0;
  }

  /** Every month, before and after 1970, starts where the civil calendar says, to the millisecond. */
  lemma {:induction false} MonthStartIsCivil(month: int)
    ensures MonthStart(month) == CivilDay(month) * 86_400_000
    decreases if month < EPOCH then EPOCH - month else month - EPOCH
  {
    if EPOCH < month {
      MonthStartIsCivil(month - 1);
      CivilMonthLength(month - 1);
    } else if month < EPOCH {
      MonthStartIsCivil(month + 1);
      CivilMonthLength(month);
    } else {
      CivilDayIn(1969, 10, month);
      assert MarchDay(1969) == -306;
    }
  }

  /** An instant is in the month whose civil days it is in. */
  lemma MonthOfIsCivil(t: int, month: int)
    ensures MonthOf(t) == month <==> CivilDay(month) * 86_400_000 <= t < CivilDay(month + 1) * 86_400_000
  {
    MonthStartIsCivil(month);
    MonthStartIsCivil(month + 1);
    DateInItsMonth(t, month);
  }

  lemma PeriodMonthInYear(date: int, month: int)
    requires MonthOf(date) == month && !IsShortYear(month)
    ensures PeriodMonth(date) == month
  {
    MonthOfPeriod(month);
  }

  lemma PeriodStarts(date: int)
    ensures StartOfMonthUtc(date) == MonthStart(PeriodMonth(date))
  {
  }

  lemma PeriodEnds(date: int)
    ensures NextMonthUtc(StartOfMonthUtc(date)) == MonthStart(PeriodMonth(date) + 1)
  {
    PeriodIsOneMonth(date);
  }

  /** The period of a date outside the years 0 to 99 is the civil month it is in. */
  lemma PeriodIsCivilMonth(date: int, month: int)
    requires CivilDay(month) * 86_400_000 <= date < CivilDay(month + 1) * 86_400_000 && !IsShortYear(month)
    ensures PeriodMonth(date) == month
  {
    MonthOfIsCivil(date, month);
    PeriodMonthInYear(date, month);
  }

  /** A period's bounds are the first instants of civil months. */
  lemma BoundsAreCivil(date: int)
    ensures StartOfMonthUtc(date) == CivilDay(PeriodMonth(date)) * 86_400_000
    ensures NextMonthUtc(StartOfMonthUtc(date)) == CivilDay(PeriodMonth(date) + 1) * 86_400_000
  {
    PeriodStarts(date);
    PeriodEnds(date);
    MonthStartIsCivil(PeriodMonth(date));
    MonthStartIsCivil(PeriodMonth(date) + 1);
  }

  // ---- Known months

  lemma KnownMonth(y: int, k: int, month: int, day: int)
    requires month == 12 * y + k + 2 && 0 <= k < 12 && day == MarchDay(y) + DaysSinceMarch(k)
    ensures MonthStart(month) == day * 86_400_000
  {
    CivilDayIn(y, k, month);
    MonthStartIsCivil(month);
  }

  /** March 1, 2000, after a leap day. */
  lemma MarchOf2000(month: int)
    requires month == 2000 * 12 + 2
    ensures MonthStart(month) == 951_868_800_000
  {
    assert MarchDay(2000) == 11_017;
    KnownMonth(2000, 0, month, 11_017);
  }

  /** October 1, 2026; so noon of the day before is in the period of September. */
  lemma SeptemberOf2026(month: int, date: int)
    requires month == 2026 * 12 + 8 && date == 1_790_769_600_000
    ensures MonthStart(month + 1) == 1_790_812_800_000 && PeriodMonth(date) == month
  {
    assert MarchDay(2026) == 20_513;
    CivilDayIn(2026, 6, month);
    CivilDayIn(2026, 7, month + 1);
    PeriodIsCivilMonth(date, month);
    KnownMonth(2026, 7, month + 1, 20_727);
  }
}
