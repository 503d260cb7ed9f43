/** One meeting after its end: transcript, AI protocol, review and publication.

    Worker processes, recording results and users' requests interleave. A guarded update, a read and a
    transaction under the workspace lock are one step each. */
module Meetings {
  import opened Options
  import Amounts

  // ---------------------------------------------------------------------------
  // The analysis of a transcript
  // ---------------------------------------------------------------------------

  const PART: nat := 20_000

  /** A model answer with what it was computed from; `reply` is whatever the model said. */
  datatype Analysis =
    | Part(text: string, number: nat, reply: int)
    | Combined(left: Analysis, right: Analysis, reply: int)
    | Reviewed(draft: Analysis, reply: int)

  /** The text an analysis was computed from. */
  function Text(a: Analysis): string {
    match a
    case Part(text, _, _) => text
    case Combined(left, right, _) => Text(left) + Text(right)
    case Reviewed(draft, _) => Text(draft)
  }

  function PartText(text: string, k: nat): string {
    var start := if PART * k < |text| then PART * k else |text|;
    var end := if PART * (k + 1) < |text| then PART * (k + 1) else |text|;
    text[start..end]
  }

  predicate PartsOf(parts: seq<Analysis>, text: string) {
    forall k: nat | k < |parts| :: parts[k].Part? && parts[k].text == PartText(text, k) && parts[k].number == k + 1
  }

  /** `a` combines the parts one after the other. */
  predicate Folds(a: Analysis, parts: seq<Analysis>)
    decreases |parts|
  {
    if |parts| == 0 then false
    else if |parts| == 1 then a == parts[0]
    else a.Combined? && a.right == parts[|parts| - 1] && Folds(a.left, parts[..|parts| - 1])
  }

  /** The last part is the one that reaches the end of the text. */
  predicate Complete(parts: seq<Analysis>, text: string) {
    0 < |parts| && PART * (|parts| - 1) < |text| <= PART * |parts|
  }

  ghost predicate ComposedFrom(a: Analysis, text: string) {
    exists parts :: PartsOf(parts, text) && Complete(parts, text) && Folds(a, parts)
  }

  lemma {:induction false} FoldedText(a: Analysis, parts: seq<Analysis>, text: string)
    requires PartsOf(parts, text) && Folds(a, parts)
    ensures Text(a) == text[..if PART * |parts| < |text| then PART * |parts| else |text|]
    decreases |parts|
  {
    if |parts| == 1 {
      assert parts[0].text == PartText(text, 0);
    } else {
      var n := |parts| - 1;
      assert PartsOf(parts[..n], text);
      FoldedText(a.left, parts[..n], text);
      assert parts[n].text == PartText(text, n);
    }
  }

  /** A composed analysis has read every character of the transcript once, in order. */
  lemma ComposedCoversText(a: Analysis, text: string)
    requires ComposedFrom(a, text)
    ensures Text(a) == text && text != ""
  {
    var parts :| PartsOf(parts, text) && Complete(parts, text) && Folds(a, parts);
    FoldedText(a, parts, text);
    assert text[..|text|] == text;
  }

  /** One model call for each part, and one for each part after the first to combine it. */
  function CallsFor(text: string): nat {
    if text == "" then 0 else 2 * PartCount(text) - 1
  }

  predicate Answered(replies: seq<Option<int>>, from: nat, to: nat) {
    to <= |replies| && forall k | from <= k < to :: replies[k].Some?
  }

  function PartCount(text: string): nat {
    (|text| + PART - 1) / PART
  }

  /** The first loop of the worker: one model call a part. None in `replies` is a lease renewal or a call
      that failed. */
  method AnalyzeParts(text: string, replies: seq<Option<int>>) returns (result: Option<seq<Analysis>>)
    ensures result.Some? <==> Answered(replies, 0, PartCount(text))
    ensures result.Some? ==> PartsOf(result.value, text) && |result.value| == PartCount(text)
    ensures result.Some? ==> forall k: nat | k < PartCount(text) :: result.value[k].reply == replies[k].value
  {
    var parts: seq<Analysis> := [];
    var start := 0;
    while start < |text|
      invariant start == PART * |parts|
      invariant PartsOf(parts, text)
      invariant parts != [] ==> PART * (|parts| - 1) < |text|
      invariant Answered(replies, 0, |parts|)
      invariant forall k: nat | k < |parts| :: parts[k].reply == replies[k].value
      decreases |text| + PART - start
    {
      if |replies| <= |parts| || replies[|parts|].None? {
        return None;
      }
      var end := if start + PART < |text| then start + PART else |text|;
      parts := parts + [Part(text[start..end], |parts| + 1, replies[|parts|].value)];
      start := start + PART;
    }
    return Some(parts);
  }

  /** The whole analysis: the parts are combined from the first to the last. */
  method Compose(text: string, replies: seq<Option<int>>) returns (result: Option<Analysis>)
    ensures result.Some? <==> text != "" && Answered(replies, 0, CallsFor(text))
    ensures result.Some? ==> ComposedFrom(result.value, text)
  {
    var analyzed := AnalyzeParts(text, replies);
    if analyzed.None? || analyzed.value == [] {
      return None;
    }
    var parts := analyzed.value;
    var combined := parts[0];
    for i := 1 to |parts|
      invariant Folds(combined, parts[..i])
      invariant Answered(replies, 0, |parts| + i - 1)
    {
      var call := |parts| + i - 1;
      if |replies| <= call || replies[call].None? {
        return None;
      }
      combined := Combined(combined, parts[i], replies[call].value);
      assert parts[..i + 1][..i] == parts[..i];
    }
    assert parts[..|parts|] == parts;
    assert Complete(parts, text);
    return Some(combined);
  }

  // ---------------------------------------------------------------------------
  // The meeting row
  // ---------------------------------------------------------------------------

  datatype Status = Scheduled | Live | Completed | Cancelled

  datatype TranscriptSource = FromRecording | Manual

  datatype AnalysisStatus = NotStarted | Queued | Processing | Draft | Failed | Published

  datatype RecordingStatus = InProgress | Ready | RecordingFailed

  datatype Recording = Recording(status: RecordingStatus, transcript: Option<string>)

  datatype DraftTask = DraftTask(title: string, criteria: string, startDate: string, dueDate: string,
                                 assignees: seq<nat>, acceptable: bool)

  /** A created task with the publish call that created it. */
  datatype MeetingTask = MeetingTask(call: nat, task: DraftTask)

  datatype Meeting = Meeting(
    status: Status,
    transcript: string,
    source: TranscriptSource,
    analysis: Option<Analysis>,
    analysisStatus: AnalysisStatus,
    revision: nat,
    processingUntil: Option<int>,
    publishedAt: Option<int>,
    recordings: seq<Recording>,
    tasks: seq<MeetingTask>)

  predicate Claimable(m: Meeting, now: int) {
    && m.publishedAt.None?
    && (m.analysisStatus.Queued? || m.analysisStatus.Processing?)
    && (m.processingUntil.None? || m.processingUntil.value < now)
  }

  function Claim(m: Meeting, now: int, lease: int): Meeting {
    if Claimable(m, now) then m.(analysisStatus := Processing, processingUntil := Some(lease)) else m
  }

  /** The `where` of every later write of a worker. */
  predicate Fence(m: Meeting, revision: nat, lease: int) {
    m.revision == revision && m.publishedAt.None? && m.processingUntil == Some(lease)
  }

  function Renew(m: Meeting, revision: nat, lease: int, next: int): Meeting {
    if Fence(m, revision, lease) then m.(processingUntil := Some(next)) else m
  }

  function Postpone(m: Meeting, revision: nat, lease: int, until: int): Meeting {
    if Fence(m, revision, lease) then m.(analysisStatus := Queued, processingUntil := Some(until)) else m
  }

  function SaveDraft(m: Meeting, revision: nat, lease: int, a: Analysis): Meeting {
    if Fence(m, revision, lease)
    then m.(analysis := Some(a), analysisStatus := Draft, processingUntil := None)
    else m
  }

  function MarkFailed(m: Meeting, revision: nat, lease: int): Meeting {
    if Fence(m, revision, lease) then m.(analysisStatus := Failed, processingUntil := None) else m
  }

  predicate Blank(s: string) {
    forall c | c in s :: Amounts.IsSpace(c)
  }

  /** A manually submitted transcript; `text` is already trimmed. */
  function Submit(m: Meeting, allowed: bool, text: string): Meeting {
    if allowed && m.status.Completed? && m.publishedAt.None? && text != ""
    then m.(transcript := text, source := Manual, analysis := None, analysisStatus := Queued,
            revision := m.revision + 1, processingUntil := None)
    else m
  }

  const LIMIT: nat := 250_000

  function Joined(recordings: seq<Recording>): string {
    if recordings == [] then ""
    else
      var before := Joined(recordings[..|recordings| - 1]);
      var last := recordings[|recordings| - 1].transcript.Or("");
      if last == "" then before else if before == "" then last else before + "\n\n" + last
  }

  predicate RecordingsFinished(m: Meeting) {
    forall r | r in m.recordings :: !r.status.InProgress?
  }

  /** The transcripts of all finished recordings, unless a manual one was submitted. */
  function QueueTranscript(m: Meeting): Meeting {
    var text := Joined(m.recordings);
    if m.publishedAt.Some? || m.source.Manual? || !m.status.Completed? || !RecordingsFinished(m) then m
    else if text == "" || text == m.transcript then m
    else if |text| > LIMIT then m.(analysisStatus := Failed)
    else m.(transcript := text, analysisStatus := Queued, revision := m.revision + 1)
  }

  predicate IsoShape(s: string) {
    |s| == 10 && s[4] == '-' && s[7] == '-' && forall i | 0 <= i < 10 && i != 4 && i != 7 :: Amounts.IsDigit(s[i])
  }

  function Found(ids: seq<nat>, members: set<nat>): set<nat> {
    set id | id in ids && id in members
  }

  /** The members found for the assignee ids are as many as the ids. */
  predicate AssigneesFound(ids: seq<nat>, members: set<nat>) {
    |Found(ids, members)| == |ids|
  }

  predicate Distinct(ids: seq<nat>) {
    forall i, j | 0 <= i < j < |ids| :: ids[i] != ids[j]
  }

  lemma FoundOneMore(ids: seq<nat>, id: nat, members: set<nat>)
    ensures Found(ids + [id], members) == if id in members then Found(ids, members) + {id} else Found(ids, members)
  {
  }

  lemma DistinctOneMore(ids: seq<nat>, id: nat)
    ensures Distinct(ids + [id]) <==> Distinct(ids) && id !in ids
  {
    var longer := ids + [id];
    if Distinct(longer) {
      assert forall i | 0 <= i < |ids| :: ids[i] == longer[i] != longer[|ids|];
      assert Distinct(ids);
    }
  }

  /** Comparing the two lengths refuses strangers and repeated assignees alike. */
  lemma {:induction false} AssigneesFoundExactly(ids: seq<nat>, members: set<nat>)
    ensures AssigneesFound(ids, members) <==> (forall id | id in ids :: id in members) && Distinct(ids)
    ensures |Found(ids, members)| <= |ids|
    decreases |ids|
  {
    if ids == [] {
      assert Found(ids, members) == {};
    } else {
      var shorter, last := ids[..|ids| - 1], ids[|ids| - 1];
      assert ids == shorter + [last];
      AssigneesFoundExactly(shorter, members);
      FoundOneMore(shorter, last, members);
      DistinctOneMore(shorter, last);
    }
  }

  predicate TaskAccepted(t: DraftTask, members: set<nat>) {
    !Blank(t.title) && !Blank(t.criteria) && IsoShape(t.startDate) && IsoShape(t.dueDate)
    && AssigneesFound(t.assignees, members) && t.acceptable
  }

  datatype Review = Review(call: nat, revision: nat, summary: string, tasks: seq<DraftTask>, reply: int)

  predicate Publishable(m: Meeting, r: Review, allowed: bool, members: set<nat>) {
    && allowed && m.publishedAt.None?
    && m.analysisStatus.Draft? && m.revision == r.revision && m.analysis.Some?
    && !Blank(r.summary)
    && forall t | t in r.tasks :: TaskAccepted(t, members)
  }

  function TasksOf(r: Review, n: nat): seq<MeetingTask>
    requires n <= |r.tasks|
  {
    if n == 0 then [] else TasksOf(r, n - 1) + [MeetingTask(r.call, r.tasks[n - 1])]
  }

  function Publish(m: Meeting, r: Review, allowed: bool, members: set<nat>, now: int): Meeting {
    if Publishable(m, r, allowed, members)
    then m.(publishedAt := Some(now), analysisStatus := Published,
            analysis := Some(Reviewed(m.analysis.value, r.reply)), tasks := m.tasks + TasksOf(r, |r.tasks|))
    else m
  }

  /** The row's columns with its recordings and tasks; one method per statement or transaction. */
  class MeetingRow {
    var status: Status
    var transcript: string
    var source: TranscriptSource
    var analysis: Option<Analysis>
    var analysisStatus: AnalysisStatus
    var revision: nat
    var processingUntil: Option<int>
    var publishedAt: Option<int>
    var recordings: seq<Recording>
    var tasks: seq<MeetingTask>

    function Row(): Meeting
      reads this
    {
      Meeting(status, transcript, source, analysis, analysisStatus, revision, processingUntil, publishedAt,
        recordings, tasks)
    }

    constructor ()
      ensures Row() == NEW_MEETING
    {
      status, transcript, source, analysis := Scheduled, "", FromRecording, None;
      analysisStatus, revision, processingUntil, publishedAt := NotStarted, 0, None, None;
      recordings, tasks := [], [];
    }

    method ClaimAnalysis(now: int, lease: int) returns (claimed: bool)
      modifies this
      ensures claimed == old(Claimable(Row(), now))
      ensures Row() == Claim(old(Row()), now, lease)
    {
      claimed := publishedAt.None? && (analysisStatus.Queued? || analysisStatus.Processing?) &&
        (processingUntil.None? || processingUntil.value < now);
      if claimed {
        analysisStatus, processingUntil := Processing, Some(lease);
      }
    }

    method RenewLease(expected: nat, lease: int, next: int) returns (renewed: bool)
      modifies this
      ensures renewed == old(Fence(Row(), expected, lease))
      ensures Row() == Renew(old(Row()), expected, lease, next)
    {
      renewed := revision == expected && publishedAt.None? && processingUntil == Some(lease);
      if renewed {
        processingUntil := Some(next);
      }
    }

    method StoreDraft(expected: nat, lease: int, a: Analysis)
      modifies this
      ensures Row() == SaveDraft(old(Row()), expected, lease, a)
    {
      if revision == expected && publishedAt.None? && processingUntil == Some(lease) {
        analysis, analysisStatus, processingUntil := Some(a), Draft, None;
      }
    }

    method StoreFailure(expected: nat, lease: int)
      modifies this
      ensures Row() == MarkFailed(old(Row()), expected, lease)
    {
      if revision == expected && publishedAt.None? && processingUntil == Some(lease) {
        analysisStatus, processingUntil := Failed, None;
      }
    }

    method SubmitTranscript(allowed: bool, text: string)
      modifies this
      ensures Row() == Submit(old(Row()), allowed, text)
    {
      if !allowed || status != Completed || publishedAt.Some? || text == "" {
        return;
      }
      transcript, source, analysis, analysisStatus := text, Manual, None, Queued;
      revision, processingUntil := revision + 1, None;
    }

    method QueueRecordingTranscript()
      modifies this
      ensures Row() == QueueTranscript(old(Row()))
    {
      if publishedAt.Some? || source == Manual || status != Completed ||
         exists r | r in recordings :: r.status.InProgress? {
        return;
      }
      var text := JoinRecordings();
      if text == "" || transcript == text {
        return;
      }
      if |text| > LIMIT {
        analysisStatus := Failed;
        return;
      }
      transcript, analysisStatus, revision := text, Queued, revision + 1;
    }

    method JoinRecordings() returns (text: string)
      ensures text == Joined(recordings)
    {
      text := "";
      for i := 0 to |recordings|
        invariant text == Joined(recordings[..i])
      {
        assert recordings[..i + 1][..i] == recordings[..i];
        var next := recordings[i].transcript.Or("");
        if next != "" {
          text := if text == "" then next else text + "\n\n" + next;
        }
      }
      assert recordings[..|recordings|] == recordings;
    }

    /** Either everything is created and published, or nothing: a task that is refused rolls back. */
    method PublishProtocol(r: Review, allowed: bool, members: set<nat>, now: int)
      modifies this
      ensures Row() == Publish(old(Row()), r, allowed, members, now)
    {
      if !allowed || publishedAt.Some? || analysisStatus != Draft || revision != r.revision || Blank(r.summary) {
        return;
      }
      var created: seq<MeetingTask> := [];
      for i := 0 to |r.tasks|
        invariant created == TasksOf(r, i)
        invariant forall t | t in r.tasks[..i] :: TaskAccepted(t, members)
      {
        if !TaskAccepted(r.tasks[i], members) {
          return;
        }
        assert r.tasks[..i + 1] == r.tasks[..i] + [r.tasks[i]];
        created := created + [MeetingTask(r.call, r.tasks[i])];
      }
      assert r.tasks[..|r.tasks|] == r.tasks;
      if analysis.None? {
        return;
      }
      publishedAt, analysisStatus := Some(now), Published;
      analysis := Some(Reviewed(analysis.value, r.reply));
      tasks := tasks + created;
    }
  }

  // ---------------------------------------------------------------------------
  // Interleavings
  // ---------------------------------------------------------------------------

  const NEW_MEETING := Meeting(Scheduled, "", FromRecording, None, NotStarted, 0, None, None, [], [])

  /** A worker between its claim and its read, or working on the transcript it read. */
  datatype Worker =
    | Claimed(lease: int)
    | Working(revision: nat, lease: int, text: string)

  /** `draftedAt` is the revision at which the stored draft was written, `winner` the review that published. */
  datatype World = World(row: Meeting, workers: map<nat, Worker>, draftedAt: nat, winner: Option<Review>)

  datatype Event =
    | TakeClaim(pid: nat, now: int, lease: int)
    | ReadMeeting(pid: nat)
    | Inactive(pid: nat, until: int)
    | RenewClaim(pid: nat, next: int)
    | WriteDraft(pid: nat, a: Analysis)
    | WriteFailure(pid: nat)
    | Crash(pid: nat)
    | StartMeeting
    | EndMeeting
    | CancelMeeting
    | Record(recordings: seq<Recording>)
    | RecordingsReady
    | Transcribe(allowed: bool, text: string)
    | PublishReview(r: Review, allowed: bool, members: set<nat>, now: int)

  predicate IsWorking(w: World, pid: nat) {
    pid in w.workers && w.workers[pid].Working?
  }

  function Leave(w: World, pid: nat, row: Meeting): World {
    w.(row := row, workers := w.workers - {pid})
  }

  function WriteDraftStep(w: World, pid: nat, a: Analysis): World
    requires IsWorking(w, pid)
  {
    var Working(revision, lease, _) := w.workers[pid];
    Leave(w, pid, SaveDraft(w.row, revision, lease, a))
    .(draftedAt := if Fence(w.row, revision, lease) then revision else w.draftedAt)
  }

  /** An event that is not possible changes nothing; a draft that is written was composed from the text
      its worker read. */
  ghost function Step(w: World, e: Event): World {
    match e
    case TakeClaim(pid, now, lease) =>
      if pid !in w.workers && Claimable(w.row, now)
      then w.(row := Claim(w.row, now, lease), workers := w.workers[pid := Claimed(lease)])
      else w
    case ReadMeeting(pid) =>
      if pid in w.workers && w.workers[pid].Claimed?
      then w.(workers := w.workers[pid := Working(w.row.revision, w.workers[pid].lease, w.row.transcript)])
      else w
    case Inactive(pid, until) =>
      if IsWorking(w, pid) then Leave(w, pid, Postpone(w.row, w.workers[pid].revision, w.workers[pid].lease, until))
        else w
    case RenewClaim(pid, next) =>
      if IsWorking(w, pid) && Fence(w.row, w.workers[pid].revision, w.workers[pid].lease)
      then w.(row := Renew(w.row, w.workers[pid].revision, w.workers[pid].lease, next),
              workers := w.workers[pid := w.workers[pid].(lease := next)])
      else w
    case WriteDraft(pid, a) =>
      if IsWorking(w, pid) && ComposedFrom(a, w.workers[pid].text) then WriteDraftStep(w, pid, a) else w
    case WriteFailure(pid) =>
      if IsWorking(w, pid) then Leave(w, pid, MarkFailed(w.row, w.workers[pid].revision, w.workers[pid].lease)) else w
    case Crash(pid) => Leave(w, pid, w.row)
    case StartMeeting => if w.row.status.Scheduled? then w.(row := w.row.(status := Live)) else w
    case EndMeeting => if w.row.status.Live? then w.(row := w.row.(status := Completed)) else w
    case CancelMeeting => if w.row.status.Scheduled? then w.(row := w.row.(status := Cancelled)) else w
    case Record(recordings) => w.(row := w.row.(recordings := recordings))
    case RecordingsReady => w.(row := QueueTranscript(w.row))
    case Transcribe(allowed, text) => w.(row := Submit(w.row, allowed, text))
    case PublishReview(r, allowed, members, now) =>
      w.(row := Publish(w.row, r, allowed, members, now),
         winner := if Publishable(w.row, r, allowed, members) then Some(r) else w.winner)
  }

  ghost function Run(w: World, events: seq<Event>): World
    decreases |events|
  {
    if events == [] then w else Step(Run(w, events[..|events| - 1]), events[|events| - 1])
  }

  const INITIAL := World(NEW_MEETING, map[], 0, None)

  // ---------------------------------------------------------------------------
  // Invariant
  // ---------------------------------------------------------------------------

  /** What a worker read belongs to its revision. */
  predicate WorkerOk(w: World, worker: Worker) {
    worker.Working? ==>
      && worker.revision <= w.row.revision
      && (worker.revision == w.row.revision ==> worker.text == w.row.transcript)
  }

  ghost predicate DraftOk(w: World) {
    w.row.analysisStatus.Draft? ==>
      && w.row.processingUntil.None?
      && w.draftedAt == w.row.revision
      && w.row.analysis.Some?
      && ComposedFrom(w.row.analysis.value, w.row.transcript)
  }

  ghost predicate PublishedOk(w: World) {
    && (w.row.publishedAt.Some? <==> w.row.analysisStatus.Published?)
    && (w.row.publishedAt.Some? <==> w.winner.Some?)
    && (w.winner.None? ==> w.row.tasks == [])
    && (w.winner.Some? ==>
          && w.winner.value.revision == w.row.revision
          && w.row.tasks == TasksOf(w.winner.value, |w.winner.value.tasks|)
          && w.row.analysis.Some? && w.row.analysis.value.Reviewed?
          && ComposedFrom(w.row.analysis.value.draft, w.row.transcript))
    && (!w.row.analysisStatus.NotStarted? ==> w.row.status.Completed?)
    && (w.row.processingUntil.Some? ==> !w.row.analysisStatus.NotStarted?)
  }

  ghost predicate Inv(w: World) {
    && (forall pid | pid in w.workers :: WorkerOk(w, w.workers[pid]))
    && DraftOk(w)
    && PublishedOk(w)
  }

  lemma PublishKeepsInv(w: World, r: Review, allowed: bool, members: set<nat>, now: int)
    requires Inv(w)
    ensures Inv(Step(w, PublishReview(r, allowed, members, now)))
  {
    assert [] + TasksOf(r, |r.tasks|) == TasksOf(r, |r.tasks|);
  }

  lemma StepKeepsInv(w: World, e: Event)
    requires Inv(w)
    ensures Inv(Step(w, e))
  {
    match e
    case WriteDraft(pid, _) =>
      if pid in w.workers {
        assert WorkerOk(w, w.workers[pid]);
      }
    case PublishReview(r, allowed, members, now) => PublishKeepsInv(w, r, allowed, members, now);
    case _ =>
  }

  lemma {:induction false} RunKeepsInv(events: seq<Event>)
    ensures Inv(Run(INITIAL, events))
    decreases |events|
  {
    if events == [] {
    } else {
      RunKeepsInv(events[..|events| - 1]);
      StepKeepsInv(Run(INITIAL, events[..|events| - 1]), events[|events| - 1]);
    }
  }

  // ---------------------------------------------------------------------------
  // Whole runs
  // ---------------------------------------------------------------------------

  /** A draft under review was composed from the whole current transcript, at the current revision, and no
      lease is left with which a worker could still write. */
  lemma DraftIsCurrent(events: seq<Event>)
    ensures var w := Run(INITIAL, events);
            w.row.analysisStatus.Draft? ==>
              && w.row.processingUntil.None? && w.row.publishedAt.None?
              && w.draftedAt == w.row.revision
              && w.row.analysis.Some?
              && ComposedFrom(w.row.analysis.value, w.row.transcript)
              && Text(w.row.analysis.value) == w.row.transcript
  {
    RunKeepsInv(events);
    var w := Run(INITIAL, events);
    if w.row.analysisStatus.Draft? {
      ComposedCoversText(w.row.analysis.value, w.row.transcript);
    }
  }

  predicate FromWorker(e: Event) {
    e.TakeClaim? || e.ReadMeeting? || e.Inactive? || e.RenewClaim? || e.WriteDraft? || e.WriteFailure? || e.Crash?
  }

  /** No worker step of any process, however late, changes a draft or a published protocol. */
  lemma NoWorkerTouchesReview(events: seq<Event>, e: Event)
    requires FromWorker(e)
    ensures var w := Run(INITIAL, events);
            w.row.analysisStatus.Draft? || w.row.publishedAt.Some? ==> Step(w, e).row == w.row
  {
    RunKeepsInv(events);
  }

  /** The columns that a publication fixes. */
  predicate SameProtocol(a: Meeting, b: Meeting) {
    && a.transcript == b.transcript && a.source == b.source && a.analysis == b.analysis
    && a.analysisStatus == b.analysisStatus && a.revision == b.revision
    && a.publishedAt == b.publishedAt && a.tasks == b.tasks
  }

  lemma {:induction false} PublicationIsFinal(before: seq<Event>, after: seq<Event>)
    requires Run(INITIAL, before).row.publishedAt.Some?
    ensures SameProtocol(Run(INITIAL, before).row, Run(INITIAL, before + after).row)
    decreases |after|
  {
    var events := before + after;
    if after == [] {
      assert events == before;
    } else {
      var shorter := after[..|after| - 1];
      PublicationIsFinal(before, shorter);
      assert events[..|events| - 1] == before + shorter;
      RunKeepsInv(before + shorter);
    }
  }

  /** Event `k` of the run is a publish call that succeeds. */
  ghost predicate Publishes(events: seq<Event>, k: nat)
    requires k < |events|
  {
    events[k].PublishReview? &&
    Publishable(Run(INITIAL, events[..k]).row, events[k].r, events[k].allowed, events[k].members)
  }

  lemma PublishedAfter(events: seq<Event>, k: nat, n: nat)
    requires k < n <= |events| && Publishes(events, k)
    ensures Run(INITIAL, events[..n]).row.publishedAt.Some?
  {
    assert events[..k + 1][..k] == events[..k];
    assert events[..n] == events[..k + 1] + events[k + 1..n];
    PublicationIsFinal(events[..k + 1], events[k + 1..n]);
  }

  /** At most one publish call ever succeeds. */
  lemma OnePublication(events: seq<Event>, j: nat, k: nat)
    requires j < |events| && k < |events| && Publishes(events, j) && Publishes(events, k)
    ensures j == k
  {
    if j < k {
      PublishedAfter(events, j, k);
    } else if k < j {
      PublishedAfter(events, k, j);
    }
  }

  /** What a publication leaves: exactly the tasks of call `k`, made from the draft of the reviewed revision. */
  ghost predicate PublishedBy(events: seq<Event>, k: nat)
    requires k < |events| && Publishes(events, k)
  {
    var reviewed, published, r := Run(INITIAL, events[..k]).row, Run(INITIAL, events).row, events[k].r;
    && published.tasks == TasksOf(r, |r.tasks|)
    && published.revision == reviewed.revision == r.revision
    && published.transcript == reviewed.transcript
    && published.analysis == Some(Reviewed(reviewed.analysis.value, r.reply))
  }

  /** Over all concurrent publish calls: tasks exist exactly when one call succeeded, and they are all and
      only that call's tasks. */
  lemma {:induction false} PublicationIsAtomic(events: seq<Event>)
    ensures var row := Run(INITIAL, events).row;
            && (row.publishedAt.None? ==> row.tasks == [] && forall k: nat | k < |events| :: !Publishes(events, k))
            && (row.publishedAt.Some? ==>
                 exists k: nat :: k < |events| && Publishes(events, k) && PublishedBy(events, k))
    decreases |events|
  {
    hide Step, Publishable;
    RunKeepsInv(events);
    assert events[..|events|] == events;
    forall k: nat | k < |events| && Publishes(events, k) ensures Run(INITIAL, events).row.publishedAt.Some? {
      PublishedAfter(events, k, |events|);
    }
    if Run(INITIAL, events).row.publishedAt.Some? {
      var n := |events| - 1;
      var shorter := events[..n];
      PublicationIsAtomic(shorter);
      RunKeepsInv(shorter);
      if Run(INITIAL, shorter).row.publishedAt.Some? {
        var k: nat :| k < n && Publishes(shorter, k) && PublishedBy(shorter, k);
        assert shorter[..k] == events[..k] && events == shorter + [events[n]];
        PublicationIsFinal(shorter, [events[n]]);
        assert Publishes(events, k) && PublishedBy(events, k);
      } else {
        LastPublishes(events);
      }
    }
  }

  lemma PublishingStep(w: World, e: Event)
    requires Inv(w) && w.row.publishedAt.None? && Step(w, e).row.publishedAt.Some?
    ensures e.PublishReview? && Publishable(w.row, e.r, e.allowed, e.members)
    ensures Step(w, e).row.tasks == TasksOf(e.r, |e.r.tasks|)
    ensures Step(w, e).row.revision == w.row.revision && Step(w, e).row.transcript == w.row.transcript
    ensures Step(w, e).row.analysis == Some(Reviewed(w.row.analysis.value, e.r.reply))
  {
    if e.PublishReview? {
      assert [] + TasksOf(e.r, |e.r.tasks|) == TasksOf(e.r, |e.r.tasks|);
    }
  }

  lemma LastPublishes(events: seq<Event>)
    requires events != []
    requires Run(INITIAL, events[..|events| - 1]).row.publishedAt.None? && Run(INITIAL, events).row.publishedAt.Some?
    ensures Publishes(events, |events| - 1) && PublishedBy(events, |events| - 1)
  {
    RunKeepsInv(events[..|events| - 1]);
    PublishingStep(Run(INITIAL, events[..|events| - 1]), events[|events| - 1]);
  }

  /** Once a transcript was submitted by hand, it is one submitted by hand for ever. */
  lemma {:induction false} ManualStaysManual(w: World, events: seq<Event>)
    requires w.row.source.Manual?
    ensures Run(w, events).row.source.Manual?
    decreases |events|
  {
    hide Step;
    if events == [] {
    } else {
      ManualStaysManual(w, events[..|events| - 1]);
      StepStaysManual(Run(w, events[..|events| - 1]), events[|events| - 1]);
    }
  }

  lemma StepStaysManual(w: World, e: Event)
    requires w.row.source.Manual?
    ensures Step(w, e).row.source.Manual?
  {
    hide Publishable, RecordingsFinished, Joined;
  }

  lemma StepKeepsManual(w: World, e: Event)
    requires w.row.source.Manual? && !e.Transcribe?
    ensures Step(w, e).row.transcript == w.row.transcript
  {
    hide Publishable, RecordingsFinished, Joined;
  }

  /** Over every run: a transcript submitted by hand is replaced by submitting another one, and by nothing else. */
  lemma OnlyAHandReplacesManual(w: World, events: seq<Event>, k: nat)
    requires w.row.source.Manual? && k < |events| && !events[k].Transcribe?
    ensures Run(w, events[..k + 1]).row.transcript == Run(w, events[..k]).row.transcript
  {
    hide Step;
    ManualStaysManual(w, events[..k]);
    assert events[..k + 1][..k] == events[..k];
    StepKeepsManual(Run(w, events[..k]), events[k]);
  }

  /** In particular, recordings never replace it. */
  lemma {:induction false} ManualTranscriptIsKept(w: World, events: seq<Event>)
    requires w.row.source.Manual? && forall e | e in events :: !e.Transcribe?
    ensures Run(w, events).row.source.Manual? && Run(w, events).row.transcript == w.row.transcript
    decreases |events|
  {
    if events == [] {
    } else {
      ManualTranscriptIsKept(w, events[..|events| - 1]);
    }
  }
}
