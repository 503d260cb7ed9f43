/** The UTC calendar and the mutable date objects of the source.

    Days are counted from 1 January of year 0, months from January of year 0, and instants in milliseconds
    from the start of day 0. Dates before year 0 are not modelled. */
module Calendar {

  const DAY: nat := 86_400_000

  // ---------------------------------------------------------------------------
  // Months and days
  // ---------------------------------------------------------------------------

  predicate IsLeap(year: nat) {
    year % 4 == 0 && (year % 100 != 0 || year % 400 == 0)
  }

  /** The length of the month with index `month`; `month % 12` is 0 for January. */
  function MonthLength(month: nat): (n: nat)
    ensures 28 <= n <= 31
  {
    var m := month % 12;
    if m == 1 then (if IsLeap(month / 12) then 29 else 28)
    else if m == 3 || m == 5 || m == 8 || m == 10 then 30
    else 31
  }

  /** The day number of the first day of a month. */
  function MonthStart(month: nat): nat {
    if month == 0 then 0 else MonthStart(month - 1) + MonthLength(month - 1)
  }

  /** A calendar day: its month index and its day of the month. */
  datatype Civil = Civil(month: nat, day: nat)

  predicate IsCivil(c: Civil) {
    1 <= c.day <= MonthLength(c.month)
  }

  function DayNumber(c: Civil): nat
    requires 1 <= c.day
  {
    MonthStart(c.month) + c.day - 1
  }

  /** The calendar day `n` days after the first day of a month. */
  function CivilFrom(n: nat, month: nat): (c: Civil)
    ensures IsCivil(c)
  {
    if n < MonthLength(month) then Civil(month, n + 1) else CivilFrom(n - MonthLength(month), month + 1)
  }

  /** The calendar day with number `n`. */
  function CivilOf(n: nat): (c: Civil)
    ensures IsCivil(c)
  {
    CivilFrom(n, 0)
  }

  lemma {:induction false} CivilFromHasNumber(n: nat, month: nat)
    ensures DayNumber(CivilFrom(n, month)) == MonthStart(month) + n
    decreases n
  {
    if n >= MonthLength(month) {
      CivilFromHasNumber(n - MonthLength(month), month + 1);
    }
  }

  lemma CivilOfHasNumber(n: nat)
    ensures DayNumber(CivilOf(n)) == n
  {
    CivilFromHasNumber(n, 0);
  }

  lemma {:induction false} MonthStartsGrow(a: nat, b: nat)
    requires a < b
    ensures MonthStart(a) + MonthLength(a) <= MonthStart(b)
    decreases b
  {
    if a < b - 1 {
      MonthStartsGrow(a, b - 1);
    }
  }

  /** Calendar days and day numbers correspond one to one, in order. */
  lemma CivilOrder(a: Civil, b: Civil)
    requires IsCivil(a) && IsCivil(b)
    ensures DayNumber(a) < DayNumber(b) <==> a.month < b.month || (a.month == b.month && a.day < b.day)
    ensures DayNumber(a) == DayNumber(b) <==> a == b
  {
    if a.month < b.month {
      MonthStartsGrow(a.month, b.month);
    } else if b.month < a.month {
      MonthStartsGrow(b.month, a.month);
    }
  }

  lemma CivilOfDayNumber(c: Civil)
    requires IsCivil(c)
    ensures CivilOf(DayNumber(c)) == c
  {
    CivilOfHasNumber(DayNumber(c));
    CivilOrder(CivilOf(DayNumber(c)), c);
  }

  /** Monday is 1 and Sunday is 7; day 0 is a Saturday. */
  function Weekday(n: nat): (w: nat)
    ensures 1 <= w <= 7
  {
    (n + 5) % 7 + 1
  }

  // ---------------------------------------------------------------------------
  // The Gregorian calendar
  // ---------------------------------------------------------------------------

  const DAYS_BEFORE_MONTH: seq<nat> := [0, 31, 59, 90, 120, 151, 181, 212, 243, 273, 304, 334, 365]

  lemma MonthParts(year: nat, m: nat)
    requires m < 12
    ensures (12 * year + m) % 12 == m && (12 * year + m) / 12 == year
  {
  }

  lemma {:induction false} MonthStartInYear(year: nat, m: nat)
    requires m <= 12
    ensures MonthStart(12 * year + m) ==
            MonthStart(12 * year) + DAYS_BEFORE_MONTH[m] + (if IsLeap(year) && 2 <= m then 1 else 0)
  {
    if m > 0 {
      MonthStartInYear(year, m - 1);
      MonthParts(year, m - 1);
    }
  }

  lemma MultiplesOf4(n: nat)
    ensures (n + 4) / 4 - (n + 3) / 4 == if n % 4 == 0 then 1 else 0
  {
  }

  lemma MultiplesOf100(n: nat)
    ensures (n + 100) / 100 - (n + 99) / 100 == if n % 100 == 0 then 1 else 0
  {
    var q, r := n / 100, n % 100;
    assert n == 100 * q + r;
    assert (n + 100) / 100 == q + 1;
    assert (n + 99) / 100 == if r == 0 then q else q + 1;
  }

  lemma MultiplesOf400(n: nat)
    ensures (n + 400) / 400 - (n + 399) / 400 == if n % 400 == 0 then 1 else 0
  {
    var q, r := n / 400, n % 400;
    assert n == 400 * q + r;
    assert (n + 400) / 400 == q + 1;
    assert (n + 399) / 400 == if r == 0 then q else q + 1;
  }

  lemma FourTimes(k: nat)
    ensures (4 * k) % 4 == 0
  {
  }

  lemma CenturyIsMultipleOf4(n: nat)
    requires n % 100 == 0
    ensures n % 4 == 0
  {
    var k := n / 100;
    assert n == 100 * k;
    FourTimes(25 * k);
  }

  lemma FourthCenturyIsCentury(n: nat)
    requires n % 400 == 0
    ensures n % 100 == 0
  {
    var k := n / 400;
    assert n == 100 * (4 * k);
  }

  /** The years before `year` have 365 days each, and one more for every multiple of 4 among them that is not one
      of 100, or is one of 400. */
  lemma {:induction false} YearStart(year: nat)
    ensures MonthStart(12 * year) == 365 * year + (year + 3) / 4 - (year + 99) / 100 + (year + 399) / 400
    decreases year
  {
    hide MonthLength, MonthStart, IsLeap;
    if year == 0 {
      FirstMonth();
    } else {
      var before := year - 1;
      YearStart(before);
      MonthStartInYear(before, 12);
      MultiplesOf4(before);
      MultiplesOf100(before);
      MultiplesOf400(before);
      if before % 400 == 0 {
        FourthCenturyIsCentury(before);
      }
      if before % 100 == 0 {
        CenturyIsMultipleOf4(before);
      }
      LeapRule(before);
    }
  }

  lemma FirstMonth()
    ensures MonthStart(0) == 0
  {
  }

  lemma LeapRule(year: nat)
    ensures IsLeap(year) <==> year % 4 == 0 && (year % 100 == 0 ==> year % 400 == 0)
  {
  }

  /** 1 January 1970 was a Thursday, and the weekdays follow each other. */
  lemma WeekdaysAreCivil(n: nat)
    ensures DayNumber(Civil(12 * 1970, 1)) == 719_528
    ensures Weekday(DayNumber(Civil(12 * 1970, 1))) == 4
    ensures Weekday(n + 1) == if Weekday(n) == 7 then 1 else Weekday(n) + 1
  {
    hide MonthStart;
    YearStart(1970);
  }

  /** Every day has the weekday that counting from that Thursday gives it. */
  lemma {:induction false} WeekdaySinceEpoch(n: nat)
    ensures Weekday(719_528 + n) == (n + 3) % 7 + 1
  {
    hide Weekday, MonthStart;
    WeekdaysAreCivil(719_528 + n);
    if n > 0 {
      WeekdaySinceEpoch(n - 1);
      WeekdaysAreCivil(719_528 + n - 1);
    }
  }

  /** 2024 and 2000 have a 29 February, 2023 and 2100 have none. */
  lemma LeapDays()
    ensures MonthLength(12 * 2024 + 1) == MonthLength(12 * 2000 + 1) == 29
    ensures MonthLength(12 * 2023 + 1) == MonthLength(12 * 2100 + 1) == 28
  {
  }

  // ---------------------------------------------------------------------------
  // Date objects
  // ---------------------------------------------------------------------------

  /** The instant `ms` milliseconds into a day. */
  function At(day: nat, ms: nat): nat {
    day * DAY + ms
  }

  lemma AtParts(day: nat, ms: nat)
    requires ms < DAY
    ensures At(day, ms) / DAY == day && At(day, ms) % DAY == ms
  {
  }

  /** Later instants have later days, or the same day and a later time. */
  lemma InstantOrder(a: nat, b: nat)
    ensures a < b <==> a / DAY < b / DAY || (a / DAY == b / DAY && a % DAY < b % DAY)
    ensures a == b <==> a / DAY == b / DAY && a % DAY == b % DAY
  {
  }

  /** `setUTCDate`: counted from the first day of the month; a day beyond the month carries. */
  function WithDate(n: nat, day: nat): nat
    requires 1 <= day
  {
    FirstOfMonth(n) + day - 1
  }

  function FirstOfMonth(n: nat): nat {
    DayNumber(Civil(CivilOf(n).month, 1))
  }

  /** `setUTCMonth`: the day of the month is kept, and carries if the new month is shorter. */
  function WithMonth(n: nat, month: nat): nat {
    DayNumber(Civil(CivilOf(n).month - CivilOf(n).month % 12 + month, CivilOf(n).day))
  }

  lemma WithDateInMonth(n: nat, day: nat)
    requires 1 <= day <= MonthLength(CivilOf(n).month)
    ensures CivilOf(WithDate(n, day)) == Civil(CivilOf(n).month, day)
  {
    CivilOfDayNumber(Civil(CivilOf(n).month, day));
  }

  lemma WithMonthInMonth(n: nat, month: nat, target: nat)
    requires target == CivilOf(n).month - CivilOf(n).month % 12 + month && CivilOf(n).day <= MonthLength(target)
    ensures CivilOf(WithMonth(n, month)) == Civil(target, CivilOf(n).day)
  {
    var day := CivilOf(n).day;
    assert WithMonth(n, month) == DayNumber(Civil(target, day));
    CivilOfDayNumber(Civil(target, day));
  }

  /** One date more is always the next day, across the ends of months and years too. */
  lemma WithNextDate(n: nat)
    ensures WithDate(n, CivilOf(n).day + 1) == n + 1
  {
    CivilOfHasNumber(n);
  }

  /** A date object: a day, and the time of day, which the setters leave alone. */
  class UtcDate {
    var day: nat
    var ms: nat

    constructor (day: nat, ms: nat)
      ensures this.day == day && this.ms == ms
    {
      this.day, this.ms := day, ms;
    }

    function GetTime(): nat
      reads this
    {
      At(day, ms)
    }

    function GetUTCDate(): nat
      reads this
    {
      CivilOf(day).day
    }

    function GetUTCMonth(): nat
      reads this
    {
      CivilOf(day).month % 12
    }

    function GetUTCFullYear(): nat
      reads this
    {
      CivilOf(day).month / 12
    }

    /** 0 is Sunday. */
    function GetUTCDay(): (d: nat)
      reads this
      ensures d < 7 && (d == 0 <==> Weekday(day) == 7)
    {
      Weekday(day) % 7
    }

    method SetUTCDate(date: nat)
      requires 1 <= date
      modifies this`day
      ensures day == WithDate(old(day), date)
    {
      day := FirstOfMonth(day) + date - 1;
    }

    method SetUTCMonth(month: nat)
      modifies this`day
      ensures day == WithMonth(old(day), month)
    {
      day := DayNumber(Civil(CivilOf(day).month - GetUTCMonth() + month, GetUTCDate()));
    }
  }
}
