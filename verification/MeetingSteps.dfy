/** What workers, recordings and users leave in the meeting row, step by step, up to a published protocol. */
module MeetingSteps {
  import opened Options
  import opened Meetings
  import Amounts

  // ---------------------------------------------------------------------------
  // The worker
  // ---------------------------------------------------------------------------

  /** A transcript that waits for its analysis, or whose worker's lease has passed, is claimed; no other one. */
  lemma ClaimIsTakenExactly(w: World, pid: nat, now: int, lease: int)
    requires pid !in w.workers
    ensures var w' := Step(w, TakeClaim(pid, now, lease));
            if w.row.publishedAt.None? && w.row.analysisStatus in {Queued, Processing}
               && (w.row.processingUntil.None? || w.row.processingUntil.value < now)
            then w'.row == w.row.(analysisStatus := Processing, processingUntil := Some(lease))
                 && w'.workers == w.workers[pid := Claimed(lease)]
            else w' == w
  {
  }

  /** The worker still has the row: same revision, its own lease, and no publication. */
  predicate HasRow(w: World, pid: nat)
    requires IsWorking(w, pid)
  {
    && w.row.revision == w.workers[pid].revision
    && w.row.processingUntil == Some(w.workers[pid].lease)
    && w.row.publishedAt == None
  }

  /** Whoever still has the row stores its analysis as the draft and gives the lease up; nobody else writes. */
  lemma DraftIsStored(w: World, pid: nat, a: Analysis)
    requires IsWorking(w, pid) && ComposedFrom(a, w.workers[pid].text)
    ensures var w' := Step(w, WriteDraft(pid, a));
            && w'.row == (if HasRow(w, pid)
                          then w.row.(analysis := Some(a), analysisStatus := Draft, processingUntil := None)
                          else w.row)
            && w'.workers == w.workers - {pid}
  {
  }

  /** A failure is stored in the same way, and leaves the analysis that was there. */
  lemma FailureIsStored(w: World, pid: nat)
    requires IsWorking(w, pid)
    ensures var w' := Step(w, WriteFailure(pid));
            && w'.row == (if HasRow(w, pid) then w.row.(analysisStatus := Failed, processingUntil := None) else w.row)
            && w'.workers == w.workers - {pid}
  {
  }

  /** A lease is renewed, and without a subscription the analysis is put off, only by whoever still has the row. */
  lemma LeaseIsMoved(w: World, pid: nat, until: int)
    requires IsWorking(w, pid)
    ensures Step(w, RenewClaim(pid, until)).row ==
            if HasRow(w, pid) then w.row.(processingUntil := Some(until)) else w.row
    ensures Step(w, Inactive(pid, until)).row ==
            if HasRow(w, pid) then w.row.(analysisStatus := Queued, processingUntil := Some(until)) else w.row
  {
  }

  lemma OneMore(w: World, events: seq<Event>, e: Event)
    ensures Run(w, events + [e]) == Step(Run(w, events), e)
  {
    assert (events + [e])[..|events|] == events;
  }

  /** A worker that nobody disturbs turns a transcript that waits into a draft. */
  lemma WaitingTranscriptBecomesDraft(w: World, pid: nat, now: int, lease: int, a: Analysis)
    requires pid !in w.workers && w.row.publishedAt.None? && w.row.analysisStatus in {Queued, Processing}
    requires w.row.processingUntil.None? || w.row.processingUntil.value < now
    requires ComposedFrom(a, w.row.transcript)
    ensures var w' := Run(w, [TakeClaim(pid, now, lease)] + [ReadMeeting(pid)] + [WriteDraft(pid, a)]);
            && w'.row == w.row.(analysis := Some(a), analysisStatus := Draft, processingUntil := None)
            && w'.workers == w.workers && w'.winner == w.winner
  {
    hide Run, ComposedFrom;
    var claim := TakeClaim(pid, now, lease);
    OneMore(w, [], claim);
    OneMore(w, [claim], ReadMeeting(pid));
    OneMore(w, [claim] + [ReadMeeting(pid)], WriteDraft(pid, a));
    assert [] + [claim] == [claim];
    EmptyRun(w);
    ClaimIsTakenExactly(w, pid, now, lease);
    var read := Step(Step(w, claim), ReadMeeting(pid));
    assert read.workers == w.workers[pid := Working(w.row.revision, lease, w.row.transcript)];
    DraftIsStored(read, pid, a);
    assert read.workers - {pid} == w.workers;
  }

  lemma EmptyRun(w: World)
    ensures Run(w, []) == w
  {
  }

  /** The parts of a text in order. */
  function PartsOfText(text: string, n: nat): (parts: seq<Analysis>)
    ensures |parts| == n && PartsOf(parts, text)
  {
    if n == 0 then [] else PartsOfText(text, n - 1) + [Part(PartText(text, n - 1), n, 0)]
  }

  function Folded(parts: seq<Analysis>): (a: Analysis)
    requires parts != []
    ensures Folds(a, parts)
  {
    if |parts| == 1 then parts[0]
    else
      var n := |parts| - 1;
      Combined(Folded(parts[..n]), parts[n], 0)
  }

  /** All parts but the last have 20,000 characters, and the last one has at most as many and is not empty. */
  lemma PartsAreFull(parts: seq<Analysis>, text: string, k: nat)
    requires PartsOf(parts, text) && Complete(parts, text) && k < |parts|
    ensures if k < |parts| - 1 then |parts[k].text| == 20_000 else 1 <= |parts[k].text| <= 20_000
  {
  }

  /** Every transcript that is not empty can be analyzed. */
  lemma EveryTextIsComposed(text: string) returns (a: Analysis)
    requires text != ""
    ensures ComposedFrom(a, text)
  {
    var parts := PartsOfText(text, PartCount(text));
    assert Complete(parts, text);
    a := Folded(parts);
  }

  // ---------------------------------------------------------------------------
  // The transcript
  // ---------------------------------------------------------------------------

  /** A new meeting is scheduled and has nothing to analyze; it is held, or cancelled before it begins. */
  lemma MeetingIsHeld(w: World)
    ensures INITIAL.row == Meeting(Scheduled, "", FromRecording, None, NotStarted, 0, None, None, [], [])
    ensures Step(w, StartMeeting).row == if w.row.status == Scheduled then w.row.(status := Live) else w.row
    ensures Step(w, EndMeeting).row == if w.row.status == Live then w.row.(status := Completed) else w.row
    ensures Step(w, CancelMeeting).row == if w.row.status == Scheduled then w.row.(status := Cancelled) else w.row
  {
  }

  /** A transcript entered by hand, after the end and before publication, waits for its analysis at a new revision;
      whatever was drafted or claimed is dropped. */
  lemma TranscriptIsEntered(w: World, allowed: bool, text: string)
    ensures var w' := Step(w, Transcribe(allowed, text));
            w'.row ==
            if allowed && w.row.status == Completed && w.row.publishedAt == None && text != ""
            then w.row.(transcript := text, source := Manual, analysis := None, analysisStatus := Queued,
                        revision := w.row.revision + 1, processingUntil := None)
            else w.row
  {
  }

  /** Transcripts are joined by blank lines, and empty or missing ones leave no trace. */
  lemma {:induction false} JoinedInOrder(a: seq<Recording>, b: seq<Recording>)
    ensures Joined(a + b) ==
            if Joined(a) == "" then Joined(b)
            else if Joined(b) == "" then Joined(a)
            else Joined(a) + "\n\n" + Joined(b)
    decreases |b|
  {
    if b == [] {
      assert a + b == a;
    } else {
      var n := |b| - 1;
      JoinedInOrder(a, b[..n]);
      assert (a + b)[..|a + b| - 1] == a + b[..n];
      assert Joined(a) + "\n\n" + (Joined(b[..n]) + "\n\n" + b[n].transcript.Or(""))
          == Joined(a) + "\n\n" + Joined(b[..n]) + "\n\n" + b[n].transcript.Or("");
    }
  }

  lemma JoinedOne(r: Recording)
    ensures Joined([r]) == r.transcript.Or("")
    ensures Joined([]) == ""
  {
    assert [r][..0] == [];
  }

  /** The joined transcripts replace the present one at a new revision, once all recordings are ready or failed,
      after the end, before publication, and unless it was entered by hand; a text that is too long fails. */
  lemma RecordingsReplaceTranscript(w: World)
    ensures var w' := Step(w, RecordingsReady);
            var text := Joined(w.row.recordings);
            w'.row ==
            if w.row.publishedAt != None || w.row.source == Manual || w.row.status != Completed
               || (exists r | r in w.row.recordings :: r.status == InProgress)
               || text == "" || text == w.row.transcript
            then w.row
            else if 250_000 < |text| then w.row.(analysisStatus := Failed)
            else w.row.(transcript := text, analysisStatus := Queued, revision := w.row.revision + 1)
  {
  }

  // ---------------------------------------------------------------------------
  // Publication
  // ---------------------------------------------------------------------------

  /** Four, two and two digits. */
  ghost predicate IsDate(s: string) {
    exists y, m, d ::
      && |y| == 4 && |m| == 2 && |d| == 2
      && Amounts.AllDigits(y) && Amounts.AllDigits(m) && Amounts.AllDigits(d)
      && s == DateText(y, m, d)
  }

  function DateText(y: string, m: string, d: string): string {
    y + "-" + m + "-" + d
  }

  lemma DateTextHasShape(y: string, m: string, d: string)
    requires |y| == 4 && |m| == 2 && |d| == 2
    requires Amounts.AllDigits(y) && Amounts.AllDigits(m) && Amounts.AllDigits(d)
    ensures IsoShape(DateText(y, m, d))
  {
    var s := DateText(y, m, d);
    forall i | 0 <= i < 10 && i != 4 && i != 7 ensures Amounts.IsDigit(s[i]) {
      assert s[i] in (if i < 4 then y else if i < 7 then m else d);
    }
  }

  lemma IsoShapeExactly(s: string)
    ensures IsoShape(s) <==> IsDate(s)
  {
    if IsoShape(s) {
      assert s == DateText(s[..4], s[5..7], s[8..]);
    }
    forall y, m, d | s == DateText(y, m, d) && |y| == 4 && |m| == 2 && |d| == 2 && Amounts.AllDigits(y)
                     && Amounts.AllDigits(m) && Amounts.AllDigits(d)
      ensures IsoShape(s)
    {
      DateTextHasShape(y, m, d);
    }
  }

  /** There is something to read in a text. */
  predicate Says(s: string) {
    exists c | c in s :: !Amounts.IsSpace(c)
  }

  /** A proposed task has a title, a criterion, dates, and every assignee is a member and named once. */
  ghost predicate IsProper(t: DraftTask, members: set<nat>) {
    && Says(t.title) && Says(t.criteria) && IsDate(t.startDate) && IsDate(t.dueDate) && t.acceptable
    && (forall id | id in t.assignees :: id in members)
    && (forall i, j | 0 <= i < j < |t.assignees| :: t.assignees[i] != t.assignees[j])
  }

  lemma AcceptedExactly(t: DraftTask, members: set<nat>)
    ensures TaskAccepted(t, members) <==> IsProper(t, members)
  {
    hide IsoShape, IsDate, AssigneesFound;
    IsoShapeExactly(t.startDate);
    IsoShapeExactly(t.dueDate);
    AssigneesFoundExactly(t.assignees, members);
  }

  lemma {:induction false} TasksInOrder(r: Review, n: nat)
    requires n <= |r.tasks|
    ensures |TasksOf(r, n)| == n && forall i | 0 <= i < n :: TasksOf(r, n)[i] == MeetingTask(r.call, r.tasks[i])
  {
    if n > 0 {
      TasksInOrder(r, n - 1);
    }
  }

  /** In every reachable state: the chief's review of the current revision, with a summary and proper tasks only,
      publishes the draft with exactly its tasks in order; any other one changes nothing. */
  lemma ReviewIsPublishedExactly(events: seq<Event>, r: Review, allowed: bool, members: set<nat>, now: int)
    ensures var row := Run(INITIAL, events).row;
            var after := Step(Run(INITIAL, events), PublishReview(r, allowed, members, now)).row;
            if ReviewAllowed(row, r, allowed, members)
            then && row.analysis.Some?
                 && after == row.(publishedAt := Some(now), analysisStatus := Published, tasks := after.tasks,
                                  analysis := Some(Reviewed(row.analysis.value, r.reply)))
                 && |after.tasks| == |r.tasks|
                 && forall i | 0 <= i < |r.tasks| :: after.tasks[i] == MeetingTask(r.call, r.tasks[i])
            else after == row
  {
    hide IsProper, Publish, TaskAccepted, Step, Says;
    RunKeepsInv(events);
    PublishStep(Run(INITIAL, events), r, allowed, members, now);
    PublishedExactly(Run(INITIAL, events), r, allowed, members, now);
  }

  lemma PublishStep(w: World, r: Review, allowed: bool, members: set<nat>, now: int)
    ensures Step(w, PublishReview(r, allowed, members, now)).row == Publish(w.row, r, allowed, members, now)
  {
    hide Publish;
  }

  /** What publishing asks for. */
  ghost predicate ReviewAllowed(row: Meeting, r: Review, allowed: bool, members: set<nat>) {
    && allowed && row.publishedAt == None && row.analysisStatus == Draft && row.revision == r.revision
    && Says(r.summary) && (forall t | t in r.tasks :: IsProper(t, members))
  }

  lemma PublishableExactly(w: World, r: Review, allowed: bool, members: set<nat>)
    requires Inv(w)
    ensures Publishable(w.row, r, allowed, members) <==> ReviewAllowed(w.row, r, allowed, members)
  {
    hide IsProper, TaskAccepted;
    forall t ensures TaskAccepted(t, members) <==> IsProper(t, members) {
      AcceptedExactly(t, members);
    }
  }

  lemma PublishedExactly(w: World, r: Review, allowed: bool, members: set<nat>, now: int)
    requires Inv(w)
    ensures var row, after := w.row, Publish(w.row, r, allowed, members, now);
            if ReviewAllowed(row, r, allowed, members)
            then && row.analysis.Some?
                 && after == row.(publishedAt := Some(now), analysisStatus := Published, tasks := after.tasks,
                                  analysis := Some(Reviewed(row.analysis.value, r.reply)))
                 && |after.tasks| == |r.tasks|
                 && forall i | 0 <= i < |r.tasks| :: after.tasks[i] == MeetingTask(r.call, r.tasks[i])
            else after == row
  {
    hide Publishable, ReviewAllowed, TasksOf;
    PublishableExactly(w, r, allowed, members);
    if ReviewAllowed(w.row, r, allowed, members) {
      DraftIsThere(w, r, allowed, members);
      TasksInOrder(r, |r.tasks|);
      assert [] + TasksOf(r, |r.tasks|) == TasksOf(r, |r.tasks|);
    }
  }

  lemma DraftIsThere(w: World, r: Review, allowed: bool, members: set<nat>)
    requires Inv(w) && ReviewAllowed(w.row, r, allowed, members)
    ensures w.row.analysis.Some? && w.row.tasks == []
  {
    hide Says, IsProper;
  }

  /** The way of a meeting to its protocol: held, transcribed by hand, analyzed, reviewed and published. */
  function Life(text: string, pid: nat, now: int, lease: int, a: Analysis): seq<Event> {
    [StartMeeting, EndMeeting, Transcribe(true, text)]
    + [TakeClaim(pid, now, lease)] + [ReadMeeting(pid)] + [WriteDraft(pid, a)]
  }

  /** For every transcript and every analysis of it there is a run that publishes it, with the tasks of the review. */
  lemma MeetingIsPublished(text: string, pid: nat, now: int, lease: int, a: Analysis, r: Review, members: set<nat>)
    requires ComposedFrom(a, text) && r.revision == 1 && Says(r.summary)
    requires forall t | t in r.tasks :: IsProper(t, members)
    ensures var row := Run(INITIAL, Life(text, pid, now, lease, a) + [PublishReview(r, true, members, now)]).row;
            && row.publishedAt == Some(now) && row.analysisStatus == Published && row.processingUntil == None
            && row.transcript == text && row.source == Manual && row.revision == 1
            && row.analysis == Some(Reviewed(a, r.reply))
            && |row.tasks| == |r.tasks|
            && forall i | 0 <= i < |r.tasks| :: row.tasks[i] == MeetingTask(r.call, r.tasks[i])
  {
    hide Run, IsProper;
    var drafted := Life(text, pid, now, lease, a);
    LifeToDraft(text, pid, now, lease, a);
    OneMore(INITIAL, drafted, PublishReview(r, true, members, now));
    ReviewIsPublishedExactly(drafted, r, true, members, now);
  }

  lemma LifeToDraft(text: string, pid: nat, now: int, lease: int, a: Analysis)
    requires ComposedFrom(a, text)
    ensures Run(INITIAL, Life(text, pid, now, lease, a)).row ==
            NEW_MEETING.(status := Completed, transcript := text, source := Manual, analysis := Some(a),
                         analysisStatus := Draft, revision := 1)
  {
    hide Run, ComposedFrom;
    ComposedCoversText(a, text);
    var held := [StartMeeting, EndMeeting];
    OneMore(INITIAL, [], StartMeeting);
    OneMore(INITIAL, [StartMeeting], EndMeeting);
    OneMore(INITIAL, held, Transcribe(true, text));
    assert [] + [StartMeeting] == [StartMeeting] && [StartMeeting] + [EndMeeting] == held;
    EmptyRun(INITIAL);
    var transcribed := held + [Transcribe(true, text)];
    assert transcribed == [StartMeeting, EndMeeting, Transcribe(true, text)];
    var w := Run(INITIAL, transcribed);
    TranscriptIsEntered(Run(INITIAL, held), true, text);
    WaitingTranscriptBecomesDraft(w, pid, now, lease, a);
    var analyzing := [TakeClaim(pid, now, lease)] + [ReadMeeting(pid)] + [WriteDraft(pid, a)];
    RunConcat(INITIAL, transcribed, analyzing);
    assert transcribed + analyzing == Life(text, pid, now, lease, a);
  }

  lemma {:induction false} RunConcat(w: World, before: seq<Event>, after: seq<Event>)
    ensures Run(w, before + after) == Run(Run(w, before), after)
    decreases |after|
  {
    hide Step;
    if after == [] {
      assert before + after == before;
    } else {
      var n := |after| - 1;
      assert (before + after)[..|before + after| - 1] == before + after[..n];
      RunConcat(w, before, after[..n]);
    }
  }
}
