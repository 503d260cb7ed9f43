/** The weekly calendar of repeating tasks, in Moscow days (UTC+3 all year). */
module Recurrence {
  import opened Calendar
  import opened Options

  const MOSCOW_OFFSET: nat := 10_800_000

  /** The Moscow calendar day of an instant. */
  function RecurrenceDate(at: nat): nat {
    (at + MOSCOW_OFFSET) / DAY
  }

  /** The instant of Moscow midnight at the start of a day. */
  function Midnight(day: nat): nat
    requires 1 <= day
  {
    day * DAY - MOSCOW_OFFSET
  }

  lemma RecurrenceDateOfMidnight(day: nat)
    requires 1 <= day
    ensures RecurrenceDate(Midnight(day)) == day
  {
  }

  /** A day has begun exactly when its midnight has passed. */
  lemma MidnightPassed(day: nat, at: nat)
    requires 1 <= day
    ensures Midnight(day) <= at <==> day <= RecurrenceDate(at)
  {
  }

  predicate Chosen(days: seq<nat>, day: nat) {
    Weekday(day) in days
  }

  /** The first chosen day among the days `i + 1` to 7 after a date. */
  function Scan(days: seq<nat>, after: nat, i: nat): Option<nat>
    requires i <= 7
    decreases 7 - i
  {
    if i == 7 then None
    else if Chosen(days, after + i + 1) then Some(after + i + 1)
    else Scan(days, after, i + 1)
  }

  function NextRecurrence(days: seq<nat>, after: nat): Option<nat> {
    if days == [] || Scan(days, after, 0).None? then None else Some(Midnight(Scan(days, after, 0).value))
  }

  function ScheduleRecurrence(days: seq<nat>, startDate: nat, now: nat): Option<nat> {
    var today := RecurrenceDate(now);
    NextRecurrence(days, if startDate > today then startDate else today)
  }

  method ComputeNextRecurrence(days: seq<nat>, after: nat) returns (at: Option<nat>)
    ensures at == NextRecurrence(days, after)
  {
    if days == [] {
      return None;
    }
    var date := new UtcDate(after, 0);
    for i := 0 to 7
      invariant date.day == after + i && date.ms == 0
      invariant Scan(days, after, 0) == Scan(days, after, i)
    {
      GoToNextDate(date);
      var weekday := WeekdayOf(date);
      if weekday in days {
        return Some(date.GetTime() - MOSCOW_OFFSET);
      }
    }
    return None;
  }

  method GoToNextDate(date: UtcDate)
    modifies date`day
    ensures date.day == old(date.day) + 1
  {
    WithNextDate(date.day);
    date.SetUTCDate(date.GetUTCDate() + 1);
  }

  method WeekdayOf(date: UtcDate) returns (weekday: nat)
    ensures weekday == Weekday(date.day)
  {
    weekday := if date.GetUTCDay() == 0 then 7 else date.GetUTCDay();
  }

  // ---------------------------------------------------------------------------
  // What the calendar computes
  // ---------------------------------------------------------------------------

  lemma {:induction false} ScanFindsFirst(days: seq<nat>, after: nat, i: nat)
    requires i <= 7
    ensures var found := Scan(days, after, i);
            && (found.Some? ==>
                  && after + i < found.value <= after + 7
                  && Chosen(days, found.value)
                  && forall d | after + i < d < found.value :: !Chosen(days, d))
            && (found.None? ==> forall d | after + i < d <= after + 7 :: !Chosen(days, d))
    decreases 7 - i
  {
    if i < 7 {
      ScanFindsFirst(days, after, i + 1);
    }
  }

  /** Every weekday occurs once among seven consecutive days. */
  lemma WeekdayComes(after: nat, weekday: nat)
    requires 1 <= weekday <= 7
    ensures exists d | after < d <= after + 7 :: Weekday(d) == weekday
  {
    var d := after + 1 + (weekday + 7 - Weekday(after + 1)) % 7;
    assert Weekday(d) == weekday;
  }

  /** `nextRecurrence` is Moscow midnight of the least later date with a chosen weekday, at most seven days
      on, and null exactly when no weekday is chosen. */
  lemma NextRecurrenceIsLeast(days: seq<nat>, after: nat)
    ensures NextRecurrence(days, after).None? <==> forall w | 1 <= w <= 7 :: w !in days
    ensures var next := NextRecurrence(days, after);
            next.Some? ==>
              var date := RecurrenceDate(next.value);
              && after < date <= after + 7
              && next.value == Midnight(date)
              && Chosen(days, date)
              && forall d | after < d < date :: !Chosen(days, d)
  {
    hide Weekday, Scan;
    ScanFindsFirst(days, after, 0);
    var found := Scan(days, after, 0);
    if found.Some? {
      RecurrenceDateOfMidnight(found.value);
    } else {
      forall w | 1 <= w <= 7 ensures w !in days {
        WeekdayComes(after, w);
        var d :| after < d <= after + 7 && Weekday(d) == w;
        assert !Chosen(days, d);
      }
    }
  }

  /** A scheduled occurrence lies strictly after both now and the start date. */
  lemma ScheduleIsInFuture(days: seq<nat>, startDate: nat, now: nat)
    ensures var next := ScheduleRecurrence(days, startDate, now);
            next.Some? ==> now < next.value && startDate < RecurrenceDate(next.value)
  {
    var today := RecurrenceDate(now);
    var after := if startDate > today then startDate else today;
    NextRecurrenceIsLeast(days, after);
    var next := ScheduleRecurrence(days, startDate, now);
    if next.Some? {
      MidnightPassed(RecurrenceDate(next.value), now);
    }
  }

  /** The Moscow day of an instant: the days begin three hours before those of UTC. */
  lemma MoscowDay(at: nat, day: nat)
    ensures RecurrenceDate(at) == day <==> 86_400_000 * day <= at + 3 * 3_600_000 < 86_400_000 * (day + 1)
  {
  }

  /** A task for one weekday comes back after exactly a week. */
  lemma OneWeekdayRepeatsWeekly(day: nat)
    ensures NextRecurrence([Weekday(day)], day) == Some(Midnight(day + 7))
  {
    hide Scan;
    ScanFindsFirst([Weekday(day)], day, 0);
    assert Chosen([Weekday(day)], day + 7);
    assert forall d | day < d < day + 7 :: Weekday(d) != Weekday(day);
  }

  /** Monday 1 January 2024 is followed by Monday 8 January, and by Tuesday 2 January. */
  lemma FirstDaysOf2024()
    ensures var newYear := DayNumber(Civil(12 * 2024, 1));
            && NextRecurrence([1], newYear) == Some(Midnight(newYear + 7))
            && NextRecurrence([2], newYear) == Some(Midnight(newYear + 1))
  {
    hide MonthStart, NextRecurrence, Weekday;
    YearStart(2024);
    var newYear := DayNumber(Civil(12 * 2024, 1));
    WeekdaySinceEpoch(newYear - 719_528);
    OneWeekdayRepeatsWeekly(newYear);
    TomorrowIsNext(newYear, 2);
  }

  lemma TomorrowIsNext(day: nat, weekday: nat)
    requires 1 <= weekday <= 7 && weekday == Weekday(day) % 7 + 1
    ensures NextRecurrence([weekday], day) == Some(Midnight(day + 1))
  {
    assert Chosen([weekday], day + 1);
  }

  /** A schedule begins at the first chosen day after both its start date and today. */
  lemma ScheduleIsLeast(days: seq<nat>, startDate: nat, now: nat)
    ensures var today, next := RecurrenceDate(now), ScheduleRecurrence(days, startDate, now);
            && (next.None? <==> forall w | 1 <= w <= 7 :: w !in days)
            && (next.Some? ==>
                  var date := RecurrenceDate(next.value);
                  && startDate < date && today < date && next.value == Midnight(date) && Weekday(date) in days
                  && forall d | startDate < d < date && today < d :: Weekday(d) !in days)
  {
    hide NextRecurrence;
    var today := RecurrenceDate(now);
    NextRecurrenceIsLeast(days, if startDate > today then startDate else today);
    assert forall d :: Chosen(days, d) <==> Weekday(d) in days;
  }
}
