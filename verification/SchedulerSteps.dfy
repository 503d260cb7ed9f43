/** What passes and edits leave in a repeating task. */
module SchedulerSteps {
  import opened Calendar
  import opened Options
  import opened Recurrence
  import opened Scheduler

  /** The cursor has been reached at `at`, the task repeats, and its workspace is active. */
  predicate IsReached(s: Source, at: nat, active: bool) {
    active && s.repeatDays != [] && s.nextRepeatAt != None && s.nextRepeatAt.value <= at
  }

  /** A pass that has reached the cursor copies the task to the cursor's date with its duration and details and goes on
      to the next chosen date; without departments left it ends the schedule; any other pass changes nothing. */
  lemma PassIsExact(w: World, at: nat, active: bool)
    requires Inv(w)
    ensures var w', s := Step(w, Pass(at, active)), w.row.source;
            if at <= w.now && IsReached(s, at, active)
            then
              if s.details.departments == {}
              then w' == w.(row := w.row.(source := s.(repeatDays := [], nextRepeatAt := None)))
              else
                var date := RecurrenceDate(s.nextRepeatAt.value);
                && w'.log == w.log + [date] && date !in w.row.occurrences
                && w' == w.(log := w'.log, row := Row(
                     s.(nextRepeatAt := w'.row.source.nextRepeatAt),
                     w.row.occurrences[date := Occurrence(date, date + (s.dueDate - s.startDate), s.details)]))
                && w'.row.source.nextRepeatAt.Some?
                && var next := RecurrenceDate(w'.row.source.nextRepeatAt.value);
                   && date < next <= date + 7 && w'.row.source.nextRepeatAt.value == Midnight(next)
                   && Weekday(next) in s.repeatDays
                   && forall d | date < d < next :: Weekday(d) !in s.repeatDays
            else w' == w
  {
    hide Matching;
    var s := w.row.source;
    if at <= w.now && IsReached(s, at, active) && s.details.departments != {} {
      PassCreates(w, at, active);
      NextRecurrenceIsLeast(s.repeatDays, Cursor(w));
      assert forall d :: Chosen(s.repeatDays, d) <==> Weekday(d) in s.repeatDays;
    }
  }

  /** Weekdays from Monday to Sunday, each once. */
  predicate AreDays(days: seq<nat>) {
    && (forall d | d in days :: 1 <= d <= 7)
    && (forall i, j | 0 <= i < j < |days| :: days[i] != days[j])
  }

  /** An edit with proper days, a due date that is not before the start, and a department is stored. Without days the
      old ones stay. Only other days or another start date begin the schedule anew, from today or the start date on. */
  lemma EditIsStored(w: World, days: Option<seq<nat>>, startDate: nat, dueDate: nat, details: Details)
    ensures var w', s := Step(w, Edit(days, startDate, dueDate, details)), w.row.source;
            if (days != None && !AreDays(days.value)) || dueDate < startDate || details.departments == {}
            then w' == w
            else
              var chosen := if days != None then days.value else s.repeatDays;
              var anew := startDate != s.startDate || multiset(chosen) != multiset(s.repeatDays);
              && w'.row == Row(
                   Source(chosen, if anew then ScheduleRecurrence(chosen, startDate, w.now) else s.nextRepeatAt,
                          startDate, dueDate, details),
                   w.row.occurrences)
              && w'.log == w.log && w'.now == w.now
  {
    hide ScheduleRecurrence;
  }

  /** A task is created with its schedule and without occurrences; one without days never repeats. */
  lemma TaskIsStored(now: nat, days: Option<seq<nat>>, startDate: nat, dueDate: nat, details: Details)
    ensures var chosen, w := days.Or([]), Create(now, days, startDate, dueDate, details);
            && w.row == Row(Source(chosen, ScheduleRecurrence(chosen, startDate, now), startDate, dueDate, details),
                            map[])
            && w.log == [] && w.now == now
            && (chosen == [] ==> w.row.source.nextRepeatAt == None)
  {
  }

  /** Deleting and editing one occurrence, and losing the departments, touch neither the schedule nor other ones. */
  lemma OthersStay(w: World, date: nat, occurrence: Occurrence)
    ensures Step(w, DeleteOccurrence(date)) == w.(row := w.row.(occurrences := w.row.occurrences - {date}))
    ensures Step(w, EditOccurrence(date, occurrence)) ==
            if date in w.row.occurrences
            then w.(row := w.row.(occurrences := w.row.occurrences[date := occurrence]))
            else w
    ensures Step(w, LoseDepartments).row.source ==
            w.row.source.(details := Details(w.row.source.details.text, {}, w.row.source.details.assignees))
  {
  }

  lemma OneMore(w: World, events: seq<Event>, e: Event)
    ensures Run(w, events + [e]) == Step(Run(w, events), e)
  {
    assert (events + [e])[..|events|] == events;
  }

  lemma EmptyRun(w: World)
    ensures Run(w, []) == w
  {
  }

  /** A task for one weekday, created on such a day: after a week there is one occurrence, with its details and
      duration, and the next one is due after another week. */
  lemma WeeklyTaskComesBack(now: nat, duration: nat, details: Details)
    requires details.departments != {}
    ensures var today := RecurrenceDate(now);
            var start := Create(now, Some([Weekday(today)]), today, today + duration, details);
            var w := Run(start, [Tick(7 * 86_400_000)] + [Pass(now + 7 * 86_400_000, true)]);
            && w.row.occurrences == map[today + 7 := Occurrence(today + 7, today + 7 + duration, details)]
            && w.row.source.nextRepeatAt == Some(Midnight(today + 14))
  {
    hide Run, Step, ScheduleRecurrence, NextRecurrence, Matching;
    var today, later := RecurrenceDate(now), now + 7 * 86_400_000;
    var start := Create(now, Some([Weekday(today)]), today, today + duration, details);
    EmptyRun(start);
    OneMore(start, [], Tick(7 * 86_400_000));
    OneMore(start, [Tick(7 * 86_400_000)], Pass(later, true));
    assert [] + [Tick(7 * 86_400_000)] == [Tick(7 * 86_400_000)];
    CreateEstablishesInv(now, Some([Weekday(today)]), today, today + duration, details);
    var ticked := Step(start, Tick(7 * 86_400_000));
    Ticks(start, 7 * 86_400_000);
    StepKeepsInv(start, Tick(7 * 86_400_000));
    ScheduledForNextWeek(now);
    PassIsExact(ticked, later, true);
    WeekLater(today, Step(ticked, Pass(later, true)).row.source.nextRepeatAt.value);
  }

  lemma Ticks(w: World, ms: nat)
    ensures Step(w, Tick(ms)) == w.(now := w.now + ms)
  {
  }

  lemma ScheduledForNextWeek(now: nat)
    ensures var today := RecurrenceDate(now);
            ScheduleRecurrence([Weekday(today)], today, now) == Some(Midnight(today + 7))
            && Midnight(today + 7) <= now + 7 * 86_400_000 && RecurrenceDate(Midnight(today + 7)) == today + 7
  {
    hide NextRecurrence;
    OneWeekdayRepeatsWeekly(RecurrenceDate(now));
  }

  lemma WeekLater(today: nat, at: nat)
    requires var next := RecurrenceDate(at);
             today + 7 < next <= today + 14 && at == Midnight(next) && Weekday(next) == Weekday(today)
    ensures at == Midnight(today + 14)
  {
  }
}
