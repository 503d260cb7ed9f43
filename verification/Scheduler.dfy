/** Repeating tasks: a source task with its persisted cursor, and the occurrences created from it. */
module Scheduler {
  import opened Calendar
  import opened Options
  import opened Recurrence

  /** What an occurrence copies from its source. */
  datatype Details = Details(text: nat, departments: set<nat>, assignees: set<nat>)

  datatype Source = Source(
    repeatDays: seq<nat>,
    nextRepeatAt: Option<nat>,
    startDate: nat,
    dueDate: nat,
    details: Details)

  datatype Occurrence = Occurrence(startDate: nat, dueDate: nat, details: Details)

  /** A source task and the tasks created from it, keyed by their repeat date. */
  datatype Row = Row(source: Source, occurrences: map<nat, Occurrence>)

  function Duration(s: Source): nat {
    if s.startDate < s.dueDate then s.dueDate - s.startDate else 0
  }

  predicate Due(s: Source, now: nat, active: bool) {
    s.nextRepeatAt.Some? && s.nextRepeatAt.value <= now && s.repeatDays != [] && active
  }

  /** One transaction of a pass over the due tasks. */
  function Occur(r: Row, now: nat, active: bool): Row {
    var s := r.source;
    if !Due(s, now, active) then r
    else if s.details.departments == {} then r.(source := s.(repeatDays := [], nextRepeatAt := None))
    else
      var date := RecurrenceDate(s.nextRepeatAt.value);
      var occurrences := if date in r.occurrences then r.occurrences
                         else r.occurrences[date := Occurrence(date, date + Duration(s), s.details)];
      Row(s.(nextRepeatAt := NextRecurrence(s.repeatDays, date)), occurrences)
  }

  predicate Distinct(ids: seq<nat>) {
    forall i, j | 0 <= i < j < |ids| :: ids[i] != ids[j]
  }

  class TaskRecurrenceService {
    var rows: map<nat, Row>

    constructor ()
      ensures rows == map[]
    {
      rows := map[];
    }

    /** A pass over the due tasks found by the query. Tasks may be deleted or edited between the query and
        their transaction; a failing transaction is rolled back and leaves the others alone. */
    method RunDue(now: nat, due: seq<nat>, active: set<nat>, failing: set<nat>)
      requires Distinct(due)
      modifies this
      ensures rows.Keys == old(rows).Keys
      ensures forall id | id in rows ::
                rows[id] == if id in due && id !in failing then Occur(old(rows)[id], now, id in active)
                  else old(rows)[id]
    {
      for i := 0 to |due|
        invariant rows.Keys == old(rows).Keys
        invariant forall id | id in rows ::
                    rows[id] == if id in due[..i] && id !in failing then Occur(old(rows)[id], now, id in active)
                      else old(rows)[id]
      {
        var id := due[i];
        if id !in failing && id in rows {
          var row := CreateOccurrence(rows[id], now, id in active);
          rows := rows[id := row];
        }
        assert due[..i + 1] == due[..i] + [id];
      }
      assert due[..|due|] == due;
    }

    method CreateOccurrence(row: Row, now: nat, active: bool) returns (changed: Row)
      ensures changed == Occur(row, now, active)
    {
      var source := row.source;
      if source.nextRepeatAt.None? || now < source.nextRepeatAt.value || source.repeatDays == [] || !active {
        return row;
      }
      if source.details.departments == {} {
        return row.(source := source.(repeatDays := [], nextRepeatAt := None));
      }
      var date := RecurrenceDate(source.nextRepeatAt.value);
      var occurrences := row.occurrences;
      if date !in occurrences {
        var days := source.dueDate - source.startDate;
        var duration := if days < 0 then 0 else days;
        occurrences := occurrences[date := Occurrence(date, date + duration, source.details)];
      }
      var next := ComputeNextRecurrence(source.repeatDays, date);
      changed := Row(source.(nextRepeatAt := next), occurrences);
    }
  }

  // ---------------------------------------------------------------------------
  // The life of one source task
  // ---------------------------------------------------------------------------

  predicate ValidDays(days: seq<nat>) {
    && (forall d | d in days :: 1 <= d <= 7)
    && (forall i, j | 0 <= i < j < |days| :: days[i] != days[j])
  }

  /** The saved schedule, as `taskData` computes it for a new task or an edit. */
  function Saved(s: Option<Source>, days: Option<seq<nat>>, startDate: nat, dueDate: nat, details: Details,
      now: nat): Source {
    var repeatDays := if days.Some? then days.value else if s.Some? then s.value.repeatDays else [];
    var changed := s.None? || multiset(repeatDays) != multiset(s.value.repeatDays) || startDate != s.value.startDate;
    Source(repeatDays, if changed then ScheduleRecurrence(repeatDays, startDate, now) else s.value.nextRepeatAt,
           startDate, dueDate, details)
  }

  predicate Reschedules(s: Source, days: Option<seq<nat>>, startDate: nat) {
    (days.Some? && multiset(days.value) != multiset(s.repeatDays)) || startDate != s.startDate
  }

  predicate Acceptable(days: Option<seq<nat>>, startDate: nat, dueDate: nat, details: Details) {
    (days.Some? ==> ValidDays(days.value)) && startDate <= dueDate && details.departments != {}
  }

  function Max(a: nat, b: nat): nat {
    if a > b then a else b
  }

  /** `log` lists the dates created by passes in their order; `base` is the later of the start date and
      the Moscow day of the latest scheduling, when `kept` dates had been created. */
  datatype World = World(now: nat, row: Row, log: seq<nat>, base: nat, kept: nat)

  datatype Event =
    | Tick(ms: nat)
    | Pass(at: nat, active: bool)
    | Edit(days: Option<seq<nat>>, startDate: nat, dueDate: nat, details: Details)
    | LoseDepartments
    | DeleteOccurrence(date: nat)
    | EditOccurrence(date: nat, occurrence: Occurrence)

  function Create(now: nat, days: Option<seq<nat>>, startDate: nat, dueDate: nat, details: Details): World {
    World(now, Row(Saved(None, days, startDate, dueDate, details, now), map[]), [],
          Max(startDate, RecurrenceDate(now)), 0)
  }

  function PassStep(w: World, at: nat, active: bool): World {
    if w.now < at then w
    else
      var s := w.row.source;
      var creates := Due(s, at, active) && s.details.departments != {}
                     && RecurrenceDate(s.nextRepeatAt.value) !in w.row.occurrences;
      w.(row := Occur(w.row, at, active), log := if creates then w.log + [RecurrenceDate(s.nextRepeatAt.value)]
        else w.log)
  }

  function EditStep(w: World, days: Option<seq<nat>>, startDate: nat, dueDate: nat, details: Details): World {
    if !Acceptable(days, startDate, dueDate, details) then w
    else
      var saved := w.row.(source := Saved(Some(w.row.source), days, startDate, dueDate, details, w.now));
      if Reschedules(w.row.source, days, startDate)
      then w.(row := saved, base := Max(startDate, RecurrenceDate(w.now)), kept := |w.log|)
      else w.(row := saved)
  }

  function Step(w: World, e: Event): World {
    match e
    case Tick(ms) => w.(now := w.now + ms)
    case Pass(at, active) => PassStep(w, at, active)
    case Edit(days, startDate, dueDate, details) => EditStep(w, days, startDate, dueDate, details)
    case LoseDepartments =>
      w.(row := w.row.(source := w.row.source.(details := w.row.source.details.(departments := {}))))
    case DeleteOccurrence(date) => w.(row := w.row.(occurrences := w.row.occurrences - {date}))
    case EditOccurrence(date, occurrence) =>
      if date in w.row.occurrences
      then w.(row := w.row.(occurrences := w.row.occurrences[date := occurrence]))
      else w
  }

  function Run(w: World, events: seq<Event>): World
    decreases |events|
  {
    if events == [] then w else Step(Run(w, events[..|events| - 1]), events[|events| - 1])
  }

  // ---------------------------------------------------------------------------
  // The simple set of matching dates
  // ---------------------------------------------------------------------------

  /** The chosen dates `d` with `after < d < before`, in order. */
  function Matching(days: seq<nat>, after: nat, before: nat): seq<nat> {
    if before <= after + 1 then []
    else Matching(days, after, before - 1) + (if Chosen(days, before - 1) then [before - 1] else [])
  }

  lemma {:induction false} MatchingIsExact(days: seq<nat>, after: nat, before: nat)
    ensures forall d :: d in Matching(days, after, before) <==> after < d < before && Chosen(days, d)
    ensures forall i, j | 0 <= i < j < |Matching(days, after, before)| ::
              Matching(days, after, before)[i] < Matching(days, after, before)[j]
    decreases before
  {
    if before > after + 1 {
      MatchingIsExact(days, after, before - 1);
      var s := Matching(days, after, before - 1);
      forall i | 0 <= i < |s| ensures s[i] < before - 1 {
        assert s[i] in s;
      }
    }
  }

  /** Nothing is added over a gap, and the date at its start is. */
  lemma {:induction false} MatchingOverGap(days: seq<nat>, after: nat, date: nat, next: nat)
    requires after < date < next && Chosen(days, date)
    requires forall d | date < d < next :: !Chosen(days, d)
    ensures Matching(days, after, next) == Matching(days, after, date) + [date]
    decreases next
  {
    if date + 1 < next {
      assert !Chosen(days, next - 1);
      MatchingOverGap(days, after, date, next - 1);
      assert Matching(days, after, next) == Matching(days, after, next - 1);
    }
  }

  lemma {:induction false} NothingInGap(days: seq<nat>, after: nat, next: nat)
    requires forall d | after < d < next :: !Chosen(days, d)
    ensures Matching(days, after, next) == []
    decreases next
  {
    if after + 1 < next {
      assert !Chosen(days, next - 1);
      NothingInGap(days, after, next - 1);
    }
  }

  lemma {:induction false} MatchingBySet(days: seq<nat>, other: seq<nat>, after: nat, before: nat)
    requires forall w :: w in days <==> w in other
    ensures Matching(days, after, before) == Matching(other, after, before)
    decreases before
  {
    if before > after + 1 {
      MatchingBySet(days, other, after, before - 1);
    }
  }

  // ---------------------------------------------------------------------------
  // Invariant
  // ---------------------------------------------------------------------------

  function Cursor(w: World): nat
    requires w.row.source.nextRepeatAt.Some?
  {
    RecurrenceDate(w.row.source.nextRepeatAt.value)
  }

  /** The cursor stands on a chosen date after the base, and what was created since the latest scheduling
      is every chosen date between the base and the cursor. */
  predicate CursorOk(w: World) {
    w.row.source.nextRepeatAt.Some? ==>
      && 1 <= Cursor(w)
      && w.base < Cursor(w)
      && w.row.source.nextRepeatAt.value == Midnight(Cursor(w))
      && Chosen(w.row.source.repeatDays, Cursor(w))
      && w.kept <= |w.log|
      && w.log[w.kept..] == Matching(w.row.source.repeatDays, w.base, Cursor(w))
  }

  predicate LogOk(w: World) {
    && (forall i, j | 0 <= i < j < |w.log| :: w.log[i] < w.log[j])
    && (forall d | d in w.log :: d <= RecurrenceDate(w.now))
    && (w.row.source.nextRepeatAt.Some? ==> forall d | d in w.log :: d < Cursor(w))
    && w.row.occurrences.Keys <= set d | d in w.log
  }

  predicate SourceOk(s: Source) {
    && ValidDays(s.repeatDays)
    && s.startDate <= s.dueDate
    && (s.repeatDays == [] <==> s.nextRepeatAt.None?)
  }

  predicate Inv(w: World) {
    SourceOk(w.row.source) && CursorOk(w) && LogOk(w)
  }

  lemma ScheduledCursor(days: seq<nat>, startDate: nat, now: nat)
    requires ValidDays(days)
    ensures var next := ScheduleRecurrence(days, startDate, now);
            var base := Max(startDate, RecurrenceDate(now));
            && (days == [] <==> next.None?)
            && (next.Some? ==>
                  var date := RecurrenceDate(next.value);
                  base < date && next.value == Midnight(date) && Chosen(days, date) && Matching(days, base, date) == [])
  {
    var base := Max(startDate, RecurrenceDate(now));
    NextRecurrenceIsLeast(days, base);
    if days != [] {
      assert days[0] in days;
      NothingInGap(days, base, RecurrenceDate(NextRecurrence(days, base).value));
    }
  }

  lemma CreateEstablishesInv(now: nat, days: Option<seq<nat>>, startDate: nat, dueDate: nat, details: Details)
    requires Acceptable(days, startDate, dueDate, details)
    ensures Inv(Create(now, days, startDate, dueDate, details))
  {
    ScheduledCursor(if days.Some? then days.value else [], startDate, now);
  }

  /** A due pass creates the cursor's date, which never existed before, and moves the cursor to the next
      chosen date. */
  lemma PassCreates(w: World, at: nat, active: bool)
    requires Inv(w) && at <= w.now && Due(w.row.source, at, active) && w.row.source.details.departments != {}
    ensures var w', date, s := PassStep(w, at, active), Cursor(w), w.row.source;
            && date !in w.row.occurrences
            && w'.row.occurrences == w.row.occurrences[
                  date := Occurrence(date, date + (s.dueDate - s.startDate), s.details)]
            && w'.log == w.log + [date]
            && w'.row.source.nextRepeatAt.Some?
            && w'.row.source == s.(nextRepeatAt := Some(Midnight(Cursor(w'))))
            && date < Cursor(w') <= date + 7
            && Chosen(s.repeatDays, Cursor(w'))
            && Matching(s.repeatDays, w.base, Cursor(w')) == Matching(s.repeatDays, w.base, date) + [date]
  {
    var s := w.row.source;
    var date := Cursor(w);
    assert s.repeatDays[0] in s.repeatDays;
    NextRecurrenceIsLeast(s.repeatDays, date);
    MatchingOverGap(s.repeatDays, w.base, date, RecurrenceDate(NextRecurrence(s.repeatDays, date).value));
  }

  lemma PassKeepsCursor(w: World, at: nat, active: bool)
    requires Inv(w) && at <= w.now && Due(w.row.source, at, active) && w.row.source.details.departments != {}
    ensures CursorOk(PassStep(w, at, active))
  {
    PassCreates(w, at, active);
    assert (w.log + [Cursor(w)])[w.kept..] == w.log[w.kept..] + [Cursor(w)];
  }

  lemma LongerLogOk(w: World, w': World, date: nat)
    requires LogOk(w) && w.row.source.nextRepeatAt.Some? && date == Cursor(w)
    requires w'.log == w.log + [date] && date <= RecurrenceDate(w'.now) && w'.now == w.now
    requires w'.row.source.nextRepeatAt.Some? ==> date < Cursor(w')
    requires w'.row.occurrences.Keys == w.row.occurrences.Keys + {date}
    ensures LogOk(w')
  {
    assert forall d :: d in w'.log <==> d in w.log || d == date;
    assert (set d | d in w'.log) == (set d | d in w.log) + {date};
    forall i | 0 <= i < |w.log| ensures w.log[i] < date {
      assert w.log[i] in w.log;
    }
  }

  lemma PassKeepsInv(w: World, at: nat, active: bool)
    requires Inv(w)
    ensures Inv(PassStep(w, at, active))
  {
    var s := w.row.source;
    if at <= w.now && Due(s, at, active) && s.details.departments != {} {
      PassCreates(w, at, active);
      PassKeepsCursor(w, at, active);
      MidnightPassed(Cursor(w), w.now);
      LongerLogOk(w, PassStep(w, at, active), Cursor(w));
    }
  }

  lemma EditKeepsInv(w: World, days: Option<seq<nat>>, startDate: nat, dueDate: nat, details: Details)
    requires Inv(w)
    ensures Inv(EditStep(w, days, startDate, dueDate, details))
  {
    var s := w.row.source;
    if Acceptable(days, startDate, dueDate, details) {
      var repeatDays := if days.Some? then days.value else s.repeatDays;
      if Reschedules(s, days, startDate) {
        ScheduledCursor(repeatDays, startDate, w.now);
      } else {
        SameDays(repeatDays, s.repeatDays);
        if s.nextRepeatAt.Some? {
          MatchingBySet(repeatDays, s.repeatDays, w.base, Cursor(w));
        }
      }
    }
  }

  lemma SameDays(a: seq<nat>, b: seq<nat>)
    requires multiset(a) == multiset(b)
    ensures forall w :: w in a <==> w in b
    ensures a == [] <==> b == []
  {
    forall w ensures w in a <==> w in b {
      assert w in a <==> w in multiset(a);
    }
    assert |a| == |multiset(a)| == |b|;
  }

  lemma StepKeepsInv(w: World, e: Event)
    requires Inv(w)
    ensures Inv(Step(w, e))
  {
    hide Saved, Occur, Matching;
    match e
    case Pass(at, active) => PassKeepsInv(w, at, active);
    case Edit(days, startDate, dueDate, details) => EditKeepsInv(w, days, startDate, dueDate, details);
    case _ =>
  }

  lemma {:induction false} RunKeepsInv(w: World, events: seq<Event>)
    requires Inv(w)
    ensures Inv(Run(w, events))
    decreases |events|
  {
    hide Inv, Step;
    if events == [] {
    } else {
      RunKeepsInv(w, events[..|events| - 1]);
      StepKeepsInv(Run(w, events[..|events| - 1]), events[|events| - 1]);
    }
  }

  // ---------------------------------------------------------------------------
  // Whole runs
  // ---------------------------------------------------------------------------

  /** Over every run of passes, edits and delays: the dates created since the latest scheduling are exactly
      the chosen dates between its base and the cursor, in order, none skipped and none twice; over all
      schedules the created dates strictly increase and lie before the cursor. An occurrence that was deleted
      stays deleted: only dates that were created have one. */
  lemma CreatedDatesAreExact(now: nat, days: Option<seq<nat>>, startDate: nat, dueDate: nat, details: Details,
      events: seq<Event>)
    requires Acceptable(days, startDate, dueDate, details)
    ensures var w := Run(Create(now, days, startDate, dueDate, details), events);
            var s := w.row.source;
            && (s.repeatDays == [] <==> s.nextRepeatAt.None?)
            && (forall i, j | 0 <= i < j < |w.log| :: w.log[i] < w.log[j])
            && w.row.occurrences.Keys <= (set d | d in w.log)
            && (s.nextRepeatAt.Some? ==>
                  && w.kept <= |w.log|
                  && (forall d | d in w.log :: d < Cursor(w))
                  && (forall d :: d in w.log[w.kept..] <==> w.base < d < Cursor(w) && Chosen(s.repeatDays, d)))
  {
    CreateEstablishesInv(now, days, startDate, dueDate, details);
    RunKeepsInv(Create(now, days, startDate, dueDate, details), events);
    var w := Run(Create(now, days, startDate, dueDate, details), events);
    if w.row.source.nextRepeatAt.Some? {
      MatchingIsExact(w.row.source.repeatDays, w.base, Cursor(w));
    }
  }

  /** An edit that names the same days and the same start date does not reschedule. */
  predicate KeepsSchedule(w: World, e: Event) {
    e.Edit? ==> !Reschedules(w.row.source, e.days, e.startDate)
  }

  predicate SameSchedule(w: World, now: nat, days: Option<seq<nat>>, startDate: nat) {
    && w.base == Max(startDate, RecurrenceDate(now)) && w.kept == 0
    && (w.row.source.repeatDays == [] || multiset(w.row.source.repeatDays) == multiset(days.Or([])))
  }

  lemma StepKeepsSchedule(w: World, e: Event, now: nat, days: Option<seq<nat>>, startDate: nat)
    requires KeepsSchedule(w, e) && SameSchedule(w, now, days, startDate)
    ensures SameSchedule(Step(w, e), now, days, startDate)
  {
    hide NextRecurrence, ScheduleRecurrence, Max;
  }

  /** Whatever else is edited, the base of a schedule that is not edited stays the later of the start date and the
      Moscow day of the creation. */
  lemma {:induction false} BaseOfUneditedSchedule(now: nat, days: Option<seq<nat>>, startDate: nat, dueDate: nat,
                                                  details: Details, events: seq<Event>)
    requires var start := Create(now, days, startDate, dueDate, details);
             forall k: nat | k < |events| :: KeepsSchedule(Run(start, events[..k]), events[k])
    ensures SameSchedule(Run(Create(now, days, startDate, dueDate, details), events), now, days, startDate)
    decreases |events|
  {
    hide Step, KeepsSchedule;
    if events == [] {
    } else {
      var start := Create(now, days, startDate, dueDate, details);
      var n := |events| - 1;
      var shorter := events[..n];
      forall k: nat | k < n ensures KeepsSchedule(Run(start, shorter[..k]), shorter[k]) {
        assert shorter[..k] == events[..k];
      }
      BaseOfUneditedSchedule(now, days, startDate, dueDate, details, shorter);
      StepKeepsSchedule(Run(start, shorter), events[n], now, days, startDate);
    }
  }

  /** For a schedule that is not edited the dates ever created are exactly the matching dates after the start
      date and the day of the creation and before the cursor. */
  lemma UneditedScheduleIsExact(now: nat, days: Option<seq<nat>>, startDate: nat, dueDate: nat, details: Details,
                                events: seq<Event>)
    requires Acceptable(days, startDate, dueDate, details)
    requires var start := Create(now, days, startDate, dueDate, details);
             forall k: nat | k < |events| :: KeepsSchedule(Run(start, events[..k]), events[k])
    ensures var w := Run(Create(now, days, startDate, dueDate, details), events);
            w.row.source.nextRepeatAt.Some? ==>
              forall d :: d in w.log <==>
                Max(startDate, RecurrenceDate(now)) < d < Cursor(w) && Weekday(d) in days.Or([])
  {
    hide Step, KeepsSchedule, Create, Matching;
    var start := Create(now, days, startDate, dueDate, details);
    var w := Run(start, events);
    BaseOfUneditedSchedule(now, days, startDate, dueDate, details, events);
    CreateEstablishesInv(now, days, startDate, dueDate, details);
    RunKeepsInv(start, events);
    if w.row.source.nextRepeatAt.Some? {
      SameDays(w.row.source.repeatDays, days.Or([]));
      MatchingIsExact(w.row.source.repeatDays, w.base, Cursor(w));
      assert w.log[0..] == w.log;
    }
  }

  /** The dates created so far are the matching dates up to some bound. */
  ghost predicate CreatedUpTo(w: World, days: seq<nat>, base: nat, bound: nat) {
    && w.log == Matching(days, base, bound)
    && (w.row.source.nextRepeatAt.Some? ==> bound == Cursor(w))
  }

  lemma StepKeepsCreated(w: World, e: Event, now: nat, days: Option<seq<nat>>, startDate: nat, bound: nat)
    requires Inv(w) && Inv(Step(w, e)) && KeepsSchedule(w, e)
    requires SameSchedule(w, now, days, startDate) && SameSchedule(Step(w, e), now, days, startDate)
    requires CreatedUpTo(w, days.Or([]), w.base, bound)
    ensures exists next :: CreatedUpTo(Step(w, e), days.Or([]), w.base, next)
  {
    hide Matching, KeepsSchedule;
    var w' := Step(w, e);
    if w'.row.source.nextRepeatAt.Some? {
      SameDays(w'.row.source.repeatDays, days.Or([]));
      MatchingBySet(w'.row.source.repeatDays, days.Or([]), w'.base, Cursor(w'));
      assert w'.log[0..] == w'.log;
      assert CreatedUpTo(w', days.Or([]), w.base, Cursor(w'));
    } else {
      NoCursorNoDate(w, e);
      assert CreatedUpTo(w', days.Or([]), w.base, bound);
    }
  }

  lemma NoCursorNoDate(w: World, e: Event)
    requires Inv(w) && Step(w, e).row.source.nextRepeatAt.None?
    ensures Step(w, e).log == w.log
  {
    hide Matching;
    if e.Pass? && e.at <= w.now && Due(w.row.source, e.at, e.active) && w.row.source.details.departments != {} {
      PassCreates(w, e.at, e.active);
    }
  }

  /** Also once the schedule has ended because the departments are gone: for some bound the dates ever created are
      exactly the matching dates before it, in order. */
  lemma {:induction false} UneditedScheduleIsMatching(now: nat, days: Option<seq<nat>>, startDate: nat, dueDate: nat,
                                                      details: Details, events: seq<Event>)
    requires Acceptable(days, startDate, dueDate, details)
    requires var start := Create(now, days, startDate, dueDate, details);
             forall k: nat | k < |events| :: KeepsSchedule(Run(start, events[..k]), events[k])
    ensures var w := Run(Create(now, days, startDate, dueDate, details), events);
            exists bound :: CreatedUpTo(w, days.Or([]), Max(startDate, RecurrenceDate(now)), bound)
    decreases |events|
  {
    hide Step, KeepsSchedule, Create, Matching, CreatedUpTo, Inv;
    var start := Create(now, days, startDate, dueDate, details);
    CreateEstablishesInv(now, days, startDate, dueDate, details);
    if events == [] {
      CreatedAtStart(now, days, startDate, dueDate, details);
      assert Run(start, events) == start;
    } else {
      var n := |events| - 1;
      var shorter := events[..n];
      forall k: nat | k < n ensures KeepsSchedule(Run(start, shorter[..k]), shorter[k]) {
        assert shorter[..k] == events[..k];
      }
      UneditedScheduleIsMatching(now, days, startDate, dueDate, details, shorter);
      BaseOfUneditedSchedule(now, days, startDate, dueDate, details, shorter);
      BaseOfUneditedSchedule(now, days, startDate, dueDate, details, events);
      RunKeepsInv(start, shorter);
      RunKeepsInv(start, events);
      var bound :| CreatedUpTo(Run(start, shorter), days.Or([]), Max(startDate, RecurrenceDate(now)), bound);
      StepKeepsCreated(Run(start, shorter), events[n], now, days, startDate, bound);
    }
  }

  lemma CreatedAtStart(now: nat, days: Option<seq<nat>>, startDate: nat, dueDate: nat, details: Details)
    requires Acceptable(days, startDate, dueDate, details)
    ensures var w := Create(now, days, startDate, dueDate, details);
            exists bound :: CreatedUpTo(w, days.Or([]), Max(startDate, RecurrenceDate(now)), bound)
  {
    hide Matching, NextRecurrence;
    var w := Create(now, days, startDate, dueDate, details);
    CreateEstablishesInv(now, days, startDate, dueDate, details);
    if w.row.source.nextRepeatAt.Some? {
      assert w.log[0..] == w.log;
      assert CreatedUpTo(w, days.Or([]), w.base, Cursor(w));
    } else {
      NothingBeforeBase(days.Or([]), w.base);
      assert CreatedUpTo(w, days.Or([]), w.base, w.base);
    }
  }

  lemma NothingBeforeBase(days: seq<nat>, base: nat)
    ensures Matching(days, base, base) == []
  {
  }

  /** Every pass that finds the task due creates one new occurrence with the source's duration and moves
      the cursor by one to seven days; an existing occurrence is never met. */
  lemma EveryDuePassCreates(now: nat, days: Option<seq<nat>>, startDate: nat, dueDate: nat, details: Details,
                            events: seq<Event>, at: nat, active: bool)
    requires Acceptable(days, startDate, dueDate, details)
    ensures var w := Run(Create(now, days, startDate, dueDate, details), events);
            var s := w.row.source;
            at <= w.now && Due(s, at, active) && s.details.departments != {} ==>
              var w', date := PassStep(w, at, active), Cursor(w);
              && date !in w.row.occurrences && date !in w.log
              && date in w'.row.occurrences
              && w'.row.occurrences[date].startDate == date
              && w'.row.occurrences[date].dueDate - date == s.dueDate - s.startDate
              && w'.row.occurrences[date].details == s.details
              && w'.row.source.nextRepeatAt.Some?
              && date < Cursor(w') <= date + 7
  {
    CreateEstablishesInv(now, days, startDate, dueDate, details);
    RunKeepsInv(Create(now, days, startDate, dueDate, details), events);
    var w := Run(Create(now, days, startDate, dueDate, details), events);
    if at <= w.now && Due(w.row.source, at, active) && w.row.source.details.departments != {} {
      PassCreates(w, at, active);
    }
  }

  // ---------------------------------------------------------------------------
  // Catching up
  // ---------------------------------------------------------------------------

  function Passes(w: World, n: nat): World {
    if n == 0 then w else PassStep(Passes(w, n - 1), w.now, true)
  }

  /** The dates still to be created at the present time. */
  function Missed(w: World): seq<nat> {
    if w.row.source.nextRepeatAt.None? || Cursor(w) == 0 then []
    else Matching(w.row.source.repeatDays, Cursor(w) - 1, RecurrenceDate(w.now) + 1)
  }

  lemma {:induction false} MatchingFromChosen(days: seq<nat>, date: nat, next: nat, before: nat)
    requires 1 <= date < next && Chosen(days, date) && date < before
    requires forall d | date < d < next :: !Chosen(days, d)
    ensures Matching(days, date - 1, before) == [date] + Matching(days, next - 1, before)
    decreases before
  {
    if date + 1 < before {
      if before - 1 < next {
        assert !Chosen(days, before - 1);
      }
      MatchingFromChosen(days, date, next, before - 1);
    }
  }

  /** One pass creates the first missed date. */
  lemma PassCreatesFirstMissed(w: World)
    requires Inv(w) && w.row.source.details.departments != {}
    ensures Missed(w) == [] ==> PassStep(w, w.now, true) == w
    ensures Missed(w) != [] ==>
              var w' := PassStep(w, w.now, true);
              Missed(w) == [w'.log[|w.log|]] + Missed(w') && w'.log == w.log + [w'.log[|w.log|]]
              && w'.row.source.details == w.row.source.details && w'.now == w.now
  {
    var s := w.row.source;
    if s.nextRepeatAt.Some? {
      MidnightPassed(Cursor(w), w.now);
      if Due(s, w.now, true) {
        PassCreates(w, w.now, true);
        var next := Cursor(PassStep(w, w.now, true));
        NextRecurrenceIsLeast(s.repeatDays, Cursor(w));
        MatchingFromChosen(s.repeatDays, Cursor(w), next, RecurrenceDate(w.now) + 1);
      }
    }
  }

  lemma OneMore(log: seq<nat>, missed: seq<nat>, n: nat)
    requires n < |missed|
    ensures missed[n..][1..] == missed[n + 1..] && missed[n..][0] == missed[n]
    ensures log + missed[..n] + [missed[n]] == log + missed[..n + 1]
  {
  }

  ghost predicate Caught(w: World, caught: World, n: nat)
    requires n <= |Missed(w)|
  {
    && Inv(caught) && caught.now == w.now && caught.row.source.details == w.row.source.details
    && caught.log == w.log + Missed(w)[..n]
    && Missed(caught) == Missed(w)[n..]
  }

  lemma PassCatchesOne(w: World, caught: World, n: nat)
    requires w.row.source.details.departments != {} && n < |Missed(w)| && Caught(w, caught, n)
    ensures Caught(w, PassStep(caught, w.now, true), n + 1)
  {
    hide Inv, PassStep, Missed;
    PassCreatesFirstMissed(caught);
    PassKeepsInv(caught, caught.now, true);
    OneMore(w.log, Missed(w), n);
    var after := PassStep(caught, caught.now, true);
    var date := after.log[|caught.log|];
    assert Missed(caught)[0] == date && Missed(caught)[1..] == Missed(after);
  }

  /** After an outage of any length: each pass creates the next missed date, and exactly as many passes as
      dates were missed bring the cursor past the present. */
  lemma {:induction false} CatchUp(w: World, n: nat)
    requires Inv(w) && w.row.source.details.departments != {}
    requires n <= |Missed(w)|
    ensures Caught(w, Passes(w, n), n)
    ensures n == |Missed(w)| <==> !Due(Passes(w, n).row.source, w.now, true)
  {
    hide Inv, Caught, PassStep, Due, Missed;
    if n > 0 {
      CatchUp(w, n - 1);
      PassCatchesOne(w, Passes(w, n - 1), n - 1);
    } else {
      CaughtAtStart(w);
    }
    CaughtUpOrDue(w, Passes(w, n), n);
  }

  lemma CaughtAtStart(w: World)
    requires Inv(w)
    ensures Caught(w, w, 0)
  {
    hide Inv, Missed;
    assert w.log + Missed(w)[..0] == w.log && Missed(w)[0..] == Missed(w);
  }

  lemma CaughtUpOrDue(w: World, caught: World, n: nat)
    requires n <= |Missed(w)| && Caught(w, caught, n)
    ensures n == |Missed(w)| <==> !Due(caught.row.source, w.now, true)
  {
    hide Inv, Due, Missed;
    DueWhileMissed(caught);
  }

  lemma DueWhileMissed(w: World)
    requires Inv(w)
    ensures Due(w.row.source, w.now, true) <==> Missed(w) != []
  {
    var s := w.row.source;
    if s.nextRepeatAt.Some? {
      MidnightPassed(Cursor(w), w.now);
      MatchingIsExact(s.repeatDays, Cursor(w) - 1, RecurrenceDate(w.now) + 1);
      if Missed(w) != [] {
        assert Missed(w)[0] in Missed(w);
      } else {
        assert Cursor(w) !in Missed(w);
      }
    }
  }
}
