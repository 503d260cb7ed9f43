/** Plans, prices and calendar billing periods. */
module BillingPlans {
  import opened Calendar

  datatype Plan = Start | Mission | Enterprise

  datatype Period = Month | Year

  const TRIAL_DAYS: nat := 10
  const REFERRAL_DISCOUNT_PERCENT: nat := 10

  function PriceFor(plan: Plan, period: Period): (kopecks: nat)
    ensures kopecks > 0
  {
    match plan
    case Start => if period.Year? then 29_900_000 else 2_990_000
    case Mission => if period.Year? then 49_900_000 else 4_990_000
    case Enterprise => if period.Year? then 99_900_000 else 9_990_000
  }

  /** A year costs ten months, and each plan less than the next one; the prices are in kopecks. */
  lemma PricesAreRight(plan: Plan)
    ensures PriceFor(plan, Year) == 10 * PriceFor(plan, Month)
    ensures PriceFor(Start, Month) == 29_900 * 100 && PriceFor(Mission, Month) == 49_900 * 100
    ensures PriceFor(Enterprise, Month) == 99_900 * 100
    ensures PriceFor(Start, Month) < PriceFor(Mission, Month) < PriceFor(Enterprise, Month)
  {
  }

  // ---------------------------------------------------------------------------
  // addPeriod
  // ---------------------------------------------------------------------------

  function Months(period: Period): nat {
    if period.Year? then 12 else 1
  }

  function Min(a: nat, b: nat): nat {
    if a < b then a else b
  }

  /** The same day of the month one or twelve months later, or the last day of a shorter month. */
  function Later(c: Civil, period: Period): (l: Civil)
    requires IsCivil(c)
    ensures IsCivil(l)
  {
    var month := c.month + Months(period);
    Civil(month, Min(c.day, MonthLength(month)))
  }

  function LaterDay(n: nat, period: Period): nat {
    DayNumber(Later(CivilOf(n), period))
  }

  function AddPeriod(time: nat, period: Period): nat {
    At(LaterDay(time / DAY, period), time % DAY)
  }

  /** Going to day 1 first: a day missing in the new month cannot carry into the next one. */
  lemma FirstOfLaterMonth(n: nat, months: nat)
    ensures var first := WithDate(n, 1);
            CivilOf(WithMonth(first, CivilOf(first).month % 12 + months)) == Civil(CivilOf(n).month + months, 1)
  {
    WithDateInMonth(n, 1);
    WithMonthInMonth(WithDate(n, 1), CivilOf(n).month % 12 + months, CivilOf(n).month + months);
  }

  lemma LastDayOfMonth(month: nat)
    ensures DayNumber(Civil(month + 1, 1)) >= 1
    ensures CivilOf(DayNumber(Civil(month + 1, 1)) - 1).day == MonthLength(month)
  {
    CivilOfDayNumber(Civil(month, MonthLength(month)));
  }

  /** Day 0 of the following month. */
  method LastDay(year: nat, month: nat) returns (last: nat)
    ensures last == MonthLength(12 * year + month)
  {
    LastDayOfMonth(12 * year + month);
    last := CivilOf(DayNumber(Civil(12 * year + month + 1, 1)) - 1).day;
  }

  /** Then choosing the day, or the last one. */
  lemma CutToMonth(moved: nat, n: nat, period: Period)
    requires CivilOf(moved) == Civil(CivilOf(n).month + Months(period), 1)
    ensures WithDate(moved, Min(CivilOf(n).day, MonthLength(CivilOf(moved).month))) == LaterDay(n, period)
  {
  }

  lemma YearAndMonth(month: nat)
    ensures 12 * (month / 12) + month % 12 == month
  {
  }

  method GoToFirstOfLaterMonth(date: UtcDate, months: nat)
    modifies date`day
    ensures CivilOf(date.day) == Civil(CivilOf(old(date.day)).month + months, 1)
  {
    ghost var n := date.day;
    date.SetUTCDate(1);
    var month := date.GetUTCMonth() + months;
    date.SetUTCMonth(month);
    FirstOfLaterMonth(n, months);
  }

  method GoToDayOrLast(date: UtcDate, day: nat)
    requires 1 <= day
    modifies date`day
    ensures date.day == WithDate(old(date.day), Min(day, MonthLength(CivilOf(old(date.day)).month)))
  {
    YearAndMonth(CivilOf(date.day).month);
    var last := LastDay(date.GetUTCFullYear(), date.GetUTCMonth());
    date.SetUTCDate(Min(day, last));
  }

  method AddPeriodTo(from: UtcDate, period: Period) returns (result: UtcDate)
    requires from.ms < DAY
    ensures fresh(result) && result.ms == from.ms && result.day == LaterDay(from.day, period)
    ensures result.GetTime() == AddPeriod(from.GetTime(), period)
  {
    result := new UtcDate(from.day, from.ms);
    var day := result.GetUTCDate();
    GoToFirstOfLaterMonth(result, Months(period));
    CutToMonth(result.day, from.day, period);
    GoToDayOrLast(result, day);
    AtParts(from.day, from.ms);
  }

  /** The time of day is kept, and the date is the one `Later` names. */
  lemma AddPeriodLandsOn(time: nat, period: Period)
    ensures AddPeriod(time, period) % DAY == time % DAY
    ensures AddPeriod(time, period) / DAY == LaterDay(time / DAY, period)
    ensures CivilOf(LaterDay(time / DAY, period)) == Later(CivilOf(time / DAY), period)
  {
    AtParts(LaterDay(time / DAY, period), time % DAY);
    CivilOfDayNumber(Later(CivilOf(time / DAY), period));
  }

  lemma YearHas365Or366(month: nat)
    ensures 365 <= MonthStart(month + 12) - MonthStart(month) <= 366
    ensures month % 12 == 1 && MonthLength(month) == 29 ==> MonthStart(month + 12) - MonthStart(month) == 366
  {
    hide MonthStart;
    var y, m := month / 12, month % 12;
    MonthStartInYear(y, m);
    MonthStartInYear(y, 12);
    MonthStartInYear(y + 1, m);
    assert month == 12 * y + m && month + 12 == 12 * (y + 1) + m;
  }

  /** A month adds 28 to 31 days, a year 365 or 366. */
  lemma AddPeriodAdvances(time: nat, period: Period)
    ensures var days := LaterDay(time / DAY, period) - time / DAY;
            && AddPeriod(time, period) == time + days * DAY
            && (period.Month? ==> 28 <= days <= 31)
            && (period.Year? ==> 365 <= days <= 366)
  {
    if period.Month? {
      MonthAdvances(CivilOf(time / DAY));
    } else {
      YearAdvances(CivilOf(time / DAY));
    }
    CivilOfHasNumber(time / DAY);
  }

  lemma MonthAdvances(c: Civil)
    requires IsCivil(c)
    ensures 28 <= DayNumber(Later(c, Month)) - DayNumber(c) <= 31
  {
    assert MonthStart(c.month + 1) == MonthStart(c.month) + MonthLength(c.month);
  }

  lemma YearAdvances(c: Civil)
    requires IsCivil(c)
    ensures 365 <= DayNumber(Later(c, Year)) - DayNumber(c) <= 366
  {
    hide MonthStart, MonthLength;
    YearHas365Or366(c.month);
    SameMonthNextYear(c.month);
    var span := MonthStart(c.month + 12) - MonthStart(c.month);
    assert DayNumber(Later(c, Year)) - DayNumber(c) == span + Min(c.day, MonthLength(c.month + 12)) - c.day;
  }

  lemma SameMonthNextYear(month: nat)
    ensures month % 12 != 1 ==> MonthLength(month + 12) == MonthLength(month) && MonthLength(month) >= 30
    ensures month % 12 == 1 ==> MonthLength(month) <= 29 && MonthLength(month + 12) <= 29
  {
    assert (month + 12) % 12 == month % 12;
  }

  /** Periods keep the order of days. */
  lemma LaterKeepsOrder(a: nat, b: nat, period: Period)
    requires a <= b
    ensures LaterDay(a, period) <= LaterDay(b, period)
    ensures LaterDay(a, period) == LaterDay(b, period) <==>
            a == b || BothCut(CivilOf(a), CivilOf(b), period)
  {
    CivilOfHasNumber(a);
    CivilOfHasNumber(b);
    CivilOrder(CivilOf(a), CivilOf(b));
    CivilOrder(Later(CivilOf(a), period), Later(CivilOf(b), period));
  }

  /** Both days are cut down to the last day of the same month. */
  predicate BothCut(a: Civil, b: Civil, period: Period) {
    var last := MonthLength(a.month + Months(period));
    a.month == b.month && last <= a.day && last <= b.day
  }

  /** Periods do not keep the order of instants: exactly when both days are cut and the earlier instant
      has the later time of day, the order is reversed. */
  lemma AddPeriodReversesInstants(a: nat, b: nat, period: Period)
    requires a <= b
    ensures AddPeriod(a, period) > AddPeriod(b, period) <==>
            BothCut(CivilOf(a / DAY), CivilOf(b / DAY), period) && a % DAY > b % DAY
  {
    InstantOrder(a, b);
    LaterKeepsOrder(a / DAY, b / DAY, period);
    AddPeriodLandsOn(a, period);
    AddPeriodLandsOn(b, period);
    InstantOrder(AddPeriod(b, period), AddPeriod(a, period));
  }

  lemma JanuaryAndFebruary(year: nat)
    ensures MonthLength(12 * year) == 31 && MonthLength(12 * year + 1) <= 29
  {
    MonthParts(year, 0);
    MonthParts(year, 1);
  }

  /** In every year, 30 January 23:00 and 31 January 01:00. */
  lemma InstantsReversedInJanuary(year: nat, n: nat)
    requires n == DayNumber(Civil(12 * year, 30))
    ensures AddPeriod(At(n, 23 * 3_600_000), Month) > AddPeriod(At(n + 1, 3_600_000), Month)
  {
    JanuaryAndFebruary(year);
    CivilOfDayNumber(Civil(12 * year, 30));
    CivilOfDayNumber(Civil(12 * year, 31));
    AtParts(n, 23 * 3_600_000);
    AtParts(n + 1, 3_600_000);
    AddPeriodReversesInstants(At(n, 23 * 3_600_000), At(n + 1, 3_600_000), Month);
  }

  // ---------------------------------------------------------------------------
  // Twelve months and one year
  // ---------------------------------------------------------------------------

  function AddMonths(time: nat, n: nat): nat {
    if n == 0 then time else AddPeriod(AddMonths(time, n - 1), Month)
  }

  function ShortestAfter(month: nat, n: nat): nat {
    if n == 0 then 31 else Min(ShortestAfter(month, n - 1), MonthLength(month + n))
  }

  /** Month by month the day is cut to the shortest month passed. */
  lemma AddMonthsLandsOn(time: nat, n: nat)
    ensures var c := CivilOf(time / DAY);
            && AddMonths(time, n) % DAY == time % DAY
            && CivilOf(AddMonths(time, n) / DAY) == Civil(c.month + n, Min(c.day, ShortestAfter(c.month, n)))
  {
    if n > 0 {
      AddMonthsLandsOn(time, n - 1);
      AddPeriodLandsOn(AddMonths(time, n - 1), Month);
    }
  }

  /** The index of the February among the twelve months after `month`. */
  function FebruaryAfter(month: nat): nat {
    if month % 12 == 0 then month + 1 else month - month % 12 + 13
  }

  lemma OnlyFebruaryIsShort(month: nat, n: nat)
    requires 1 <= n <= 12
    ensures month < FebruaryAfter(month) <= month + 12
    ensures MonthLength(month + n) < 30 <==> month + n == FebruaryAfter(month)
  {
    assert FebruaryAfter(month) % 12 == 1;
    assert MonthLength(month + n) < 30 <==> (month + n) % 12 == 1;
  }

  lemma {:induction false} ShortestIsFebruary(month: nat, n: nat)
    requires n <= 12
    ensures var february := FebruaryAfter(month);
            && (month + n < february ==> 30 <= ShortestAfter(month, n))
            && (february <= month + n ==> ShortestAfter(month, n) == MonthLength(february))
  {
    OnlyFebruaryIsShort(month, 12);
    if n > 0 {
      ShortestIsFebruary(month, n - 1);
      OnlyFebruaryIsShort(month, n);
      OnlyFebruaryIsShort(month, FebruaryAfter(month) - month);
    }
  }

  /** Twelve monthly periods end on or before one yearly period, and on the same instant exactly when the
      day exists in the February passed, or the start is itself in February. */
  lemma TwelveMonthsWithinYear(time: nat)
    ensures AddMonths(time, 12) <= AddPeriod(time, Year)
    ensures var c := CivilOf(time / DAY);
            AddMonths(time, 12) == AddPeriod(time, Year) <==>
            c.day <= MonthLength(FebruaryAfter(c.month)) || c.month % 12 == 1
  {
    var c := CivilOf(time / DAY);
    AddMonthsLandsOn(time, 12);
    AddPeriodLandsOn(time, Year);
    InstantOrder(AddPeriod(time, Year), AddMonths(time, 12));
    TwelveMonthsCut(c);
    CivilOfHasNumber(AddMonths(time, 12) / DAY);
    CivilOrder(Civil(c.month + 12, Min(c.day, ShortestAfter(c.month, 12))), Later(c, Year));
  }

  lemma TwelveMonthsCut(c: Civil)
    requires IsCivil(c)
    ensures var monthly, yearly := Min(c.day, ShortestAfter(c.month, 12)), Min(c.day, MonthLength(c.month + 12));
            && 1 <= monthly <= yearly
            && (monthly == yearly <==> c.day <= MonthLength(FebruaryAfter(c.month)) || c.month % 12 == 1)
  {
    OnlyFebruaryIsShort(c.month, 12);
    ShortestIsFebruary(c.month, 12);
    SameMonthNextYear(c.month);
    OnlyFebruaryIsShort(c.month, FebruaryAfter(c.month) - c.month);
  }
}
