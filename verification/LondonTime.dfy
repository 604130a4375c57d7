/** London days, UTC instants and financial years.

    A date is its proleptic Gregorian ordinal (1 January of year 1 is day 1, a Monday). An
    instant is a naive UTC datetime, in microseconds since the start of day 0. */
module LondonTime {
  import opened Collections

  type Date = int
  type Instant = int

  const MINUTE: int := 60_000_000
  const HOUR: int := 3_600_000_000
  const DAY: int := 86_400_000_000

  // ---------------------------------------------------------------- the calendar

  predicate IsMultiple(year: int, m: int)
    requires m > 0
  {
    year % m == 0
  }

  predicate IsLeap(year: int) {
    IsMultiple(year, 4) && (!IsMultiple(year, 100) || IsMultiple(year, 400))
  }

  /** How many multiples of m there are up to the year. */
  function MultiplesUpTo(year: int, m: int): int
    requires m > 0
  {
    year / m
  }

  /** The ordinal of 1 January. */
  function YearStart(year: int): Date {
    365 * (year - 1) + MultiplesUpTo(year - 1, 4) - MultiplesUpTo(year - 1, 100) + MultiplesUpTo(year - 1, 400) + 1
  }

  function LeapDay(year: int): int { if IsLeap(year) then 1 else 0 }

  lemma YearLength(year: int)
    ensures YearStart(year + 1) - YearStart(year) == 365 + LeapDay(year)
  {
    hide MultiplesUpTo, IsMultiple;
    FourthYears(year);
    HundredthYears(year);
    FourHundredthYears(year);
    MultiplesNest(year);
  }

  lemma FourthYears(year: int)
    ensures MultiplesUpTo(year, 4) == MultiplesUpTo(year - 1, 4) + if IsMultiple(year, 4) then 1 else 0
  {
  }

  lemma HundredthYears(year: int)
    ensures MultiplesUpTo(year, 100) == MultiplesUpTo(year - 1, 100) + if IsMultiple(year, 100) then 1 else 0
  {
  }

  lemma FourHundredthYears(year: int)
    ensures MultiplesUpTo(year, 400) == MultiplesUpTo(year - 1, 400) + if IsMultiple(year, 400) then 1 else 0
  {
  }

  lemma MultiplesNest(year: int)
    ensures IsMultiple(year, 400) ==> IsMultiple(year, 100)
    ensures IsMultiple(year, 100) ==> IsMultiple(year, 4)
  {
  }

  /** The first year from `year` on that has not ended before the date. */
  function YearFrom(date: Date, year: int): int
    requires YearStart(year) <= date
    decreases date - YearStart(year)
  {
    YearLength(year);
    if date < YearStart(year + 1) then year else YearFrom(date, year + 1)
  }

  /** The calendar year of a date. */
  function YearOf(date: Date): int
    requires 1 <= date
  {
    YearFrom(date, 1)
  }

  lemma {:induction false} YearFromBounds(date: Date, year: int)
    requires YearStart(year) <= date
    ensures year <= YearFrom(date, year)
    ensures YearStart(YearFrom(date, year)) <= date < YearStart(YearFrom(date, year) + 1)
    decreases date - YearStart(year)
  {
    YearLength(year);
    if YearStart(year + 1) <= date {
      YearFromBounds(date, year + 1);
    }
  }

  lemma {:induction false} YearStartMonotonic(a: int, b: int)
    requires a <= b
    ensures YearStart(a) <= YearStart(b)
    decreases b - a
  {
    if a < b {
      YearStartMonotonic(a, b - 1);
      YearLength(b - 1);
    }
  }

  /** Years tile the dates: a date lies in exactly one of them. */
  lemma YearOfIs(date: Date, year: int)
    requires 1 <= date
    ensures YearOf(date) == year <==> YearStart(year) <= date < YearStart(year + 1)
    ensures YearOf(date) >= 1
  {
    YearFromBounds(date, 1);
    var y := YearOf(date);
    if YearStart(year) <= date < YearStart(year + 1) {
      if y < year {
        YearStartMonotonic(y + 1, year);
      } else if year < y {
        YearStartMonotonic(year + 1, y);
      }
    }
  }

  function March31(year: int): Date { YearStart(year) + 89 + LeapDay(year) }

  function April1(year: int): Date { March31(year) + 1 }

  function October31(year: int): Date { YearStart(year) + 303 + LeapDay(year) }

  /** The last Sunday up to and including the date. */
  function SundayOnOrBefore(date: Date): Date { date - date % 7 }

  /** Days of the year before the first of each month. */
  function DaysBeforeMonth(year: int, month: int): int
    requires 1 <= month <= 13
  {
    if month == 1 then 0
    else if month == 2 then 31
    else LeapDay(year) + [59, 90, 120, 151, 181, 212, 243, 273, 304, 334, 365][month - 3]
  }

  function MonthFrom(date: Date, year: int, month: int): int
    requires 1 <= month <= 12
    decreases 12 - month
  {
    if month == 12 || date < YearStart(year) + DaysBeforeMonth(year, month + 1) then month
    else MonthFrom(date, year, month + 1)
  }

  /** date_trunc('month'): the year and the month of a date. */
  function MonthOf(date: Date): (int, int)
    requires 1 <= date
  {
    (YearOf(date), MonthFrom(date, YearOf(date), 1))
  }

  /** The first day of a month; month 13 is the January after it. */
  function MonthStart(year: int, month: int): Date
    requires 1 <= month <= 13
  {
    YearStart(year) + DaysBeforeMonth(year, month)
  }

  /** The months of a year follow each other with their lengths, and fill it. */
  lemma MonthLengths(year: int, month: int)
    requires 1 <= month <= 12
    ensures MonthStart(year, 1) == YearStart(year) && MonthStart(year, 13) == YearStart(year + 1)
    ensures MonthStart(year, month + 1) - MonthStart(year, month)
         == if month == 2 then (if year % 4 == 0 && (year % 100 != 0 || year % 400 == 0) then 29 else 28)
            else if month in {4, 6, 9, 11} then 30
            else 31
  {
    hide YearStart;
    YearLength(year);
  }

  /** The days by which summer time and the financial year go are the ends of their months. */
  lemma EndsOfMonths(year: int)
    ensures March31(year) + 1 == April1(year) == MonthStart(year, 4)
    ensures October31(year) + 1 == MonthStart(year, 11)
  {
    hide YearStart;
  }

  /** Months tile the dates: the month of a date is the one that it lies in. */
  lemma MonthOfIs(date: Date, year: int, month: int)
    requires 1 <= date && 1 <= month <= 12
    ensures MonthOf(date) == (year, month) <==> MonthStart(year, month) <= date < MonthStart(year, month + 1)
    ensures 1 <= MonthOf(date).1 <= 12
  {
    hide YearStart;
    YearOfIs(date, YearOf(date));
    YearOfIs(date, year);
    MonthLengths(year, month);
    MonthsOrdered(year, 1, month);
    MonthsOrdered(year, month + 1, 13);
    MonthFromIs(date, YearOf(date), 1);
    var found := MonthFrom(date, YearOf(date), 1);
    if YearOf(date) == year {
      if found < month {
        MonthsOrdered(year, found + 1, month);
      } else if month < found {
        MonthsOrdered(year, month + 1, found);
      }
    }
  }

  lemma {:induction false} MonthsOrdered(year: int, a: int, b: int)
    requires 1 <= a <= b <= 13
    ensures MonthStart(year, a) <= MonthStart(year, b)
    decreases b - a
  {
    if a < b {
      MonthsOrdered(year, a, b - 1);
      MonthLengths(year, b - 1);
    }
  }

  lemma {:induction false} MonthFromIs(date: Date, year: int, month: int)
    requires 1 <= month <= 12 && MonthStart(year, month) <= date < YearStart(year + 1)
    ensures var found := MonthFrom(date, year, month);
            month <= found <= 12 && MonthStart(year, found) <= date < MonthStart(year, found + 1)
    decreases 12 - month
  {
    hide YearStart;
    MonthLengths(year, month);
    if month < 12 && MonthStart(year, month + 1) <= date {
      MonthFromIs(date, year, month + 1);
    }
  }

  // ---------------------------------------------------------------- London time

  function DateOf(t: Instant): Date { t / DAY }

  /** British Summer Time runs from 01:00 UTC on the last Sunday of March to 01:00 UTC on
      the last Sunday of October. */
  predicate InSummerTime(t: Instant)
    requires DAY <= t
  {
    var year := YearOf(DateOf(t));
    SundayOnOrBefore(March31(year)) * DAY + HOUR <= t < SundayOnOrBefore(October31(year)) * DAY + HOUR
  }

  /** convert_utc_to_bst: the London wall clock at a UTC instant. */
  function ConvertUtcToBst(t: Instant): Instant
    requires DAY <= t
  {
    if InSummerTime(t) then t + HOUR else t
  }

  /** The London date at a UTC instant. */
  function LondonDate(t: Instant): Date
    requires DAY <= t
  {
    DateOf(ConvertUtcToBst(t))
  }

  /** Whether the wall clock that reads midnight at the start of the date shows summer time. */
  predicate SummerTimeAtMidnight(date: Date)
    requires 1 <= date
  {
    var year := YearOf(date);
    SundayOnOrBefore(March31(year)) < date <= SundayOnOrBefore(October31(year))
  }

  /** get_london_midnight_in_utc: the UTC instant at which a London day starts. */
  function LondonMidnight(date: Date): Instant
    requires 1 <= date
  {
    if SummerTimeAtMidnight(date) then date * DAY - HOUR else date * DAY
  }

  /** An instant of the same calendar year, or of the hour before it, keeps the year's rules. */
  lemma SummerTimeWithin(t: Instant, year: int)
    requires DAY <= t
    requires YearStart(year) * DAY <= t < YearStart(year + 1) * DAY
    ensures YearOf(DateOf(t)) == year
    ensures SundayOnOrBefore(March31(year)) > YearStart(year) + 60
    ensures SundayOnOrBefore(March31(year)) + 190 < SundayOnOrBefore(October31(year)) <= October31(year)
    ensures October31(year) + 60 < YearStart(year + 1)
  {
    YearOfIs(DateOf(t), year);
    YearLength(year);
  }

  /** The London day of an instant has started and has not ended. */
  lemma LondonDateContains(t: Instant)
    requires DAY <= t
    ensures 1 <= LondonDate(t)
    ensures LondonMidnight(LondonDate(t)) <= t < LondonMidnight(LondonDate(t) + 1)
  {
    assert LondonDate(t) == DateOf(t) || LondonDate(t) == DateOf(t) + 1;
    MidnightNear(t, LondonDate(t));
  }

  /** London days tile UTC time: an instant belongs to a day exactly when it lies between
      the day's midnight and the next one. */
  lemma LondonDaysTile(t: Instant, date: Date)
    requires DAY <= t && 1 <= date
    ensures LondonDate(t) == date <==> LondonMidnight(date) <= t < LondonMidnight(date + 1)
  {
    hide LondonDate, LondonMidnight;
    LondonDateContains(t);
    MidnightOrder(LondonDate(t) + 1, date);
    MidnightOrder(date + 1, LondonDate(t));
  }

  /** Near an instant, midnight lies on the side that the wall clock says. */
  lemma MidnightNear(t: Instant, date: Date)
    requires DAY <= t && 1 <= date && DateOf(t) <= date <= DateOf(t) + 1
    ensures LondonMidnight(date) <= t <==> date <= LondonDate(t)
    ensures LondonMidnight(date + 1) <= t <==> date + 1 <= LondonDate(t)
  {
    hide YearStart, LeapDay, March31, October31, YearOf, SundayOnOrBefore;
    var year := YearOf(DateOf(t));
    YearOfIs(DateOf(t), year);
    SummerTimeWithin(t, year);
    SummerByYear(date, year);
    SummerByYear(date + 1, year);
  }

  /** Summer time at the midnight of a date of the given year or of the first days after it. */
  lemma SummerByYear(date: Date, year: int)
    requires 1 <= date && YearStart(year) <= date <= YearStart(year + 1) + 2
    ensures SummerTimeAtMidnight(date) <==>
            SundayOnOrBefore(March31(year)) < date <= SundayOnOrBefore(October31(year))
  {
    YearOfIs(date, year);
    YearOfIs(date, year + 1);
    YearLength(year);
    YearLength(year + 1);
  }

  /** A London day has 24 hours, except the day on which summer time starts (23) and the
      day on which it ends (25). */
  lemma MidnightsOrdered(date: Date)
    requires 1 <= date
    ensures var year := YearOf(date);
            LondonMidnight(date + 1) - LondonMidnight(date)
            == if date == SundayOnOrBefore(March31(year)) then 23 * HOUR
               else if date == SundayOnOrBefore(October31(year)) then 25 * HOUR
               else 24 * HOUR
  {
    hide YearStart, March31, October31, YearOf, SundayOnOrBefore, SummerTimeAtMidnight;
    var year := YearOf(date);
    YearOfIs(date, year);
    SummerEndsAfterItStarts(year);
    SummerByYear(date, year);
    SummerByYear(date + 1, year);
  }

  lemma SummerEndsAfterItStarts(year: int)
    ensures SundayOnOrBefore(March31(year)) < SundayOnOrBefore(October31(year))
  {
    hide YearStart, LeapDay;
  }

  lemma {:induction false} MidnightsIncrease(a: Date, b: Date)
    requires 1 <= a <= b
    ensures LondonMidnight(a) + (b - a) * 23 * HOUR <= LondonMidnight(b)
    decreases b - a
  {
    if a < b {
      MidnightsIncrease(a, b - 1);
      MidnightsOrdered(b - 1);
    }
  }

  lemma FirstMidnight()
    ensures LondonMidnight(1) == DAY
  {
    YearOfIs(1, 1);
  }

  /** The same for an instant that may lie before the calendar begins. */
  lemma OnLondonDate(t: Instant, date: Date)
    requires 1 <= date
    ensures LondonMidnight(date) <= t < LondonMidnight(date + 1) <==> DAY <= t && LondonDate(t) == date
  {
    hide LondonDate, LondonMidnight;
    FirstMidnight();
    MidnightsIncrease(1, date);
    if DAY <= t {
      LondonDaysTile(t, date);
    }
  }

  /** get_london_midnight_in_utc inverts convert_utc_to_bst: the wall clock reads midnight at
      that instant and at no other. */
  lemma MidnightReadsMidnight(t: Instant, date: Date)
    requires DAY <= t && 1 <= date
    ensures ConvertUtcToBst(t) == date * DAY <==> t == LondonMidnight(date)
  {
    hide YearStart, LeapDay, March31, October31, YearOf, SundayOnOrBefore;
    LondonDaysTile(t, date);
    MidnightsOrdered(date);
    var year := YearOf(DateOf(t));
    YearOfIs(DateOf(t), year);
    SummerTimeWithin(t, year);
    if t == LondonMidnight(date) {
      assert DateOf(t) == date || DateOf(t) == date - 1;
      SummerByYear(date, year);
    }
    if ConvertUtcToBst(t) == date * DAY {
      assert DateOf(t) == date || DateOf(t) == date - 1;
      SummerByYear(date, year);
    }
  }

  /** The days on which the clocks changed in 2018, by their ordinals: the days around them start at the
      instants that the calendar of that year says, and the clocks change at 01:00 UTC. */
  lemma ClocksIn2018()
    ensures MonthStart(2018, 3) + 24 == 736_778 && MonthStart(2018, 10) + 27 == 736_995
    ensures LondonMidnight(736_778) == 736_778 * DAY && LondonMidnight(736_779) == 736_779 * DAY - HOUR
    ensures LondonMidnight(736_995) == 736_995 * DAY - HOUR && LondonMidnight(736_996) == 736_996 * DAY
    ensures var spring, autumn := 736_778 * DAY + HOUR, 736_995 * DAY + HOUR;
            && ConvertUtcToBst(spring - 1) == spring - 1 && ConvertUtcToBst(spring) == spring + HOUR
            && ConvertUtcToBst(autumn - 1) == autumn - 1 + HOUR && ConvertUtcToBst(autumn) == autumn
  {
    hide LondonMidnight, ConvertUtcToBst;
    MidnightsIn2018();
    ClockIn2018(736_778, HOUR - 1);
    ClockIn2018(736_778, HOUR);
    ClockIn2018(736_995, HOUR - 1);
    ClockIn2018(736_995, HOUR);
  }

  lemma ClockIn2018(date: Date, offset: int)
    requires date in {736_778, 736_995} && 0 <= offset < DAY
    ensures var t := date * DAY + offset;
            ConvertUtcToBst(t) == if 736_778 * DAY + HOUR <= t < 736_995 * DAY + HOUR then t + HOUR else t
  {
    assert DateOf(date * DAY + offset) == date;
    YearOfIs(date, 2018);
    assert March31(2018) == 736_784 && October31(2018) == 736_998;
  }

  lemma MidnightsIn2018()
    ensures MonthStart(2018, 3) + 24 == 736_778 && MonthStart(2018, 10) + 27 == 736_995
    ensures LondonMidnight(736_778) == 736_778 * DAY && LondonMidnight(736_779) == 736_779 * DAY - HOUR
    ensures LondonMidnight(736_995) == 736_995 * DAY - HOUR && LondonMidnight(736_996) == 736_996 * DAY
  {
    YearOfIs(736_778, 2018);
    YearOfIs(736_779, 2018);
    YearOfIs(736_995, 2018);
    YearOfIs(736_996, 2018);
  }

  // ---------------------------------------------------------------- financial years

  /** get_april_fools: 1 April 00:00 in London. */
  function GetAprilFools(year: int): Instant
    requires 1 <= year
  {
    YearStartMonotonic(1, year);
    LondonMidnight(April1(year))
  }

  /** get_financial_year: from 1 April up to the last microsecond of 31 March. */
  function GetFinancialYear(year: int): (Instant, Instant)
    requires 1 <= year
  {
    (GetAprilFools(year), GetAprilFools(year + 1) - 1)
  }

  /** 1 April starts in summer time, every year. */
  lemma AprilFoolsIsInSummerTime(year: int)
    requires 1 <= year
    ensures GetAprilFools(year) == April1(year) * DAY - HOUR
    ensures DAY <= GetAprilFools(year)
  {
    YearStartMonotonic(1, year);
    YearLength(year);
    SummerByYear(April1(year), year);
  }

  /** get_financial_year_dates: the two ends, read on the London calendar. */
  function GetFinancialYearDates(year: int): (Date, Date)
    requires 1 <= year
  {
    AprilFoolsIsInSummerTime(year);
    AprilFoolsIsInSummerTime(year + 1);
    YearStartMonotonic(1, year);
    YearLength(year);
    var (start, end) := GetFinancialYear(year);
    (LondonDate(start), LondonDate(end))
  }

  lemma FinancialYearDatesAre(year: int)
    requires 1 <= year
    ensures GetFinancialYearDates(year) == (April1(year), April1(year + 1) - 1)
  {
    AprilFoolsIsInSummerTime(year);
    AprilFoolsIsInSummerTime(year + 1);
    YearStartMonotonic(1, year);
    YearLength(year);
    var (start, end) := GetFinancialYear(year);
    MidnightsOrdered(April1(year));
    LondonDaysTile(start, April1(year));
    MidnightsOrdered(April1(year + 1) - 1);
    LondonDaysTile(end, April1(year + 1) - 1);
  }

  /** get_financial_year_for_datetime: a naive datetime is compared with 1 April as it is. */
  function GetFinancialYearForDatetime(t: Instant): int
    requires DAY <= t
  {
    var year := YearOf(DateOf(t));
    YearOfIs(DateOf(t), year);
    if t < GetAprilFools(year) then year - 1 else year
  }

  lemma AprilInYear(year: int)
    ensures YearStart(year) + 90 <= April1(year) <= YearStart(year) + 91 < YearStart(year + 1)
  {
    YearLength(year);
  }

  lemma FinancialYearContains(t: Instant)
    requires GetAprilFools(1) <= t && DAY <= t
    ensures 1 <= GetFinancialYearForDatetime(t)
    ensures GetAprilFools(GetFinancialYearForDatetime(t)) <= t < GetAprilFools(GetFinancialYearForDatetime(t) + 1)
  {
    hide LeapDay, LondonMidnight, YearOf, YearStart, March31, April1;
    var y := YearOf(DateOf(t));
    YearOfIs(DateOf(t), y);
    AprilFoolsIsInSummerTime(y);
    AprilInYear(y);
    if t < GetAprilFools(y) {
      if 1 < y {
        AprilFoolsIsInSummerTime(y - 1);
        AprilInYear(y - 1);
      }
    } else {
      AprilFoolsIsInSummerTime(y + 1);
      AprilInYear(y + 1);
    }
  }

  lemma AprilFoolsIncrease(a: int, b: int)
    requires 1 <= a && 1 <= b
    ensures a <= b <==> GetAprilFools(a) <= GetAprilFools(b)
  {
    AprilFoolsIsInSummerTime(a);
    AprilFoolsIsInSummerTime(b);
    if a <= b {
      AprilsIncrease(a, b);
    } else {
      AprilsIncrease(b + 1, a);
      YearLength(b);
    }
  }

  lemma FinancialYearUnique(t: Instant, y: int, year: int)
    requires 1 <= y && 1 <= year
    requires GetAprilFools(y) <= t < GetAprilFools(y + 1)
    ensures y == year <==> GetAprilFools(year) <= t < GetAprilFools(year + 1)
  {
    hide LeapDay, LondonMidnight, YearOf, YearStart, GetAprilFools;
    AprilFoolsIncrease(y + 1, year);
    AprilFoolsIncrease(year + 1, y);
  }

  /** Financial years tile the instants. */
  lemma FinancialYearsTile(t: Instant, year: int)
    requires GetAprilFools(1) <= t && DAY <= t && 1 <= year
    ensures GetFinancialYearForDatetime(t) == year <==> GetFinancialYear(year).0 <= t <= GetFinancialYear(year).1
  {
    hide LeapDay, LondonMidnight, YearOf, YearStart, GetAprilFools, GetFinancialYearForDatetime;
    FinancialYearContains(t);
    FinancialYearUnique(t, GetFinancialYearForDatetime(t), year);
  }

  lemma AprilsIncrease(a: int, b: int)
    ensures a <= b ==> April1(a) <= April1(b)
  {
    if a < b {
      YearStartMonotonic(a + 1, b);
      YearLength(a);
    }
  }

  /** fetch_usage_for_all_services_sms picks its year by the London midnight of its start
      date: the financial year whose dates contain that date. */
  lemma FinancialYearOfLondonDate(date: Date, year: int)
    requires April1(1) <= date && 1 <= year
    ensures 1 <= date && DAY <= LondonMidnight(date)
    ensures GetFinancialYearForDatetime(LondonMidnight(date)) == year
       <==> GetFinancialYearDates(year).0 <= date <= GetFinancialYearDates(year).1
  {
    AprilFoolsIsInSummerTime(1);
    MidnightsIncrease(April1(1), date);
    FinancialYearsTile(LondonMidnight(date), year);
    FinancialYearDatesAre(year);
    YearStartMonotonic(1, year);
    YearStartMonotonic(1, year + 1);
    var first, next := April1(year), April1(year + 1);
    MidnightOrder(first, date);
    MidnightOrder(next, date);
  }

  lemma MidnightOrder(a: Date, b: Date)
    requires 1 <= a && 1 <= b
    ensures a <= b <==> LondonMidnight(a) <= LondonMidnight(b)
  {
    if a <= b {
      MidnightsIncrease(a, b);
    } else {
      MidnightsIncrease(b, a);
    }
  }

  /** get_current_financial_year decides by the UTC month. */
  function GetCurrentFinancialYearStart(now: Instant): int
    requires DAY <= now
  {
    var (year, month) := MonthOf(DateOf(now));
    if month > 3 then year else year - 1
  }

  lemma MonthAfterMarch(date: Date)
    requires 1 <= date
    ensures MonthOf(date).1 > 3 <==> date >= April1(YearOf(date))
  {
    hide YearStart, MonthStart, MonthFrom, March31;
    var (year, month) := MonthOf(date);
    MonthOfIs(date, 1, 1);
    MonthOfIs(date, year, month);
    EndsOfMonths(year);
    if month > 3 {
      MonthsOrdered(year, 4, month);
    } else {
      MonthsOrdered(year, month + 1, 4);
    }
  }

  /** The two ways of naming the current financial year disagree exactly in the first hour of
      1 April in London, which is still 31 March in UTC. */
  lemma CurrentFinancialYearAgrees(now: Instant)
    requires DAY <= now
    ensures 1 <= YearOf(DateOf(now))
    ensures GetCurrentFinancialYearStart(now) == GetFinancialYearForDatetime(now)
       <==> !(GetAprilFools(YearOf(DateOf(now))) <= now < April1(YearOf(DateOf(now))) * DAY)
  {
    var year := YearOf(DateOf(now));
    YearOfIs(DateOf(now), year);
    MonthAfterMarch(DateOf(now));
    AprilFoolsIsInSummerTime(year);
  }
}
