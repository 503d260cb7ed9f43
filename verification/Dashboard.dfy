/** The dashboard snapshot row, its refresh jobs and the delayed job queue.

    One row of `dashboard_snapshots` is driven by any number of refresh jobs and API clients.
    Every guarded `updateMany` is one atomic step, and so is every read and every `queue.add`;
    steps of different workers interleave arbitrarily. The queue keeps at most one job per id, and
    an id stays taken until its job has been removed. */
module Dashboard {
  import opened Options

  const DAY: nat := 86_400_000
  const RETRY: nat := 900_000

  /** A stored model answer together with the logical instant at which its context was read. */
  datatype Analysis = Analysis(content: int, readAt: nat)

  datatype Snapshot = Snapshot(
    processingAt: Option<nat>,
    nextRefreshAt: nat,
    revision: nat,
    analysis: Option<Analysis>,
    generatedAt: Option<nat>)

  // ---------------------------------------------------------------------------
  // Row updates
  // ---------------------------------------------------------------------------

  predicate Claimable(row: Snapshot, revision: nat, at: nat, lease: nat) {
    && row.revision == revision
    && row.nextRefreshAt <= at
    && (row.processingAt.None? || row.processingAt.value + lease <= at)
  }

  predicate Owned(row: Snapshot, stamp: nat, revision: nat) {
    row.processingAt == Some(stamp) && row.revision == revision
  }

  function StoreResult(row: Snapshot, stamp: nat, revision: nat, analysis: Analysis, at: nat): Snapshot {
    if Owned(row, stamp, revision)
    then row.(analysis := Some(analysis), generatedAt := Some(at), processingAt := None, nextRefreshAt := at + DAY)
    else row
  }

  function KeepPrevious(row: Snapshot, stamp: nat, revision: nat, at: nat): Snapshot {
    if Owned(row, stamp, revision)
    then row.(processingAt := None, nextRefreshAt := at + RETRY)
    else row
  }

  function Release(row: Snapshot, stamp: nat): Snapshot {
    if row.processingAt == Some(stamp) then row.(processingAt := None) else row
  }

  function Request(row: Snapshot, at: nat): Snapshot {
    row.(revision := row.revision + 1, nextRefreshAt := at)
  }

  /** The time `scheduleCurrent` gives to the queue. */
  function DueAt(row: Snapshot, lease: nat): nat {
    var held := if row.processingAt.Some? then row.processingAt.value + lease else 0;
    if row.nextRefreshAt < held then held else row.nextRefreshAt
  }

  /** The scheduled time is exactly the least time at which a job of the current revision can claim. */
  lemma DueAtIsLeastClaimTime(row: Snapshot, lease: nat, at: nat)
    ensures Claimable(row, row.revision, at, lease) <==> DueAt(row, lease) <= at
  {
  }

  /** The row's columns; one method per statement of the service. */
  class SnapshotRow {
    var processingAt: Option<nat>
    var nextRefreshAt: nat
    var revision: nat
    var analysis: Option<Analysis>
    var generatedAt: Option<nat>

    function Row(): Snapshot
      reads this
    {
      Snapshot(processingAt, nextRefreshAt, revision, analysis, generatedAt)
    }

    /** A row created by the first visit, or by a refresh request with `requested`. */
    constructor (now: nat, requested: bool)
      ensures Row() == Snapshot(None, now, if requested then 1 else 0, None, None)
    {
      processingAt, nextRefreshAt, analysis, generatedAt := None, now, None, None;
      revision := if requested then 1 else 0;
    }

    /** `active` stands for a workspace that is active, diagnosed and subscribed. */
    method Claim(expected: nat, now: nat, lease: nat, active: bool) returns (claimed: bool)
      modifies this
      ensures claimed == (active && old(Claimable(Row(), expected, now, lease)))
      ensures Row() == if claimed then old(Row()).(processingAt := Some(now)) else old(Row())
    {
      claimed := active && revision == expected && nextRefreshAt <= now &&
        (processingAt.None? || processingAt.value + lease <= now);
      if claimed {
        processingAt := Some(now);
      }
    }

    method SaveAnalysis(stamp: nat, expected: nat, result: Analysis, now: nat)
      modifies this
      ensures Row() == StoreResult(old(Row()), stamp, expected, result, now)
    {
      if processingAt == Some(stamp) && revision == expected {
        analysis, generatedAt := Some(result), Some(now);
        processingAt := None;
        nextRefreshAt := now + DAY;
      }
    }

    method PostponeAfterError(stamp: nat, expected: nat, now: nat)
      modifies this
      ensures Row() == KeepPrevious(old(Row()), stamp, expected, now)
    {
      if processingAt == Some(stamp) && revision == expected {
        processingAt := None;
        nextRefreshAt := now + RETRY;
      }
    }

    method ReleaseLease(stamp: nat)
      modifies this
      ensures Row() == Release(old(Row()), stamp)
    {
      if processingAt == Some(stamp) {
        processingAt := None;
      }
    }

    method RequestRefresh(now: nat)
      modifies this
      ensures Row() == Request(old(Row()), now)
    {
      revision := revision + 1;
      nextRefreshAt := now;
    }
  }

  /** The delayed job queue: one job per id, ready once its delay has passed. */
  class DashboardQueue {
    var jobs: map<WorkerId, nat>

    constructor ()
      ensures jobs == map[]
    {
      jobs := map[];
    }

    method Schedule(revision: nat, at: nat, now: nat)
      modifies this
      ensures jobs == if Job(revision, at) in old(jobs) then old(jobs)
                      else old(jobs)[Job(revision, at) := if now < at then at else now]
    {
      var delay := if now < at then at - now else 0;
      if Job(revision, at) !in jobs {
        jobs := jobs[Job(revision, at) := now + delay];
      }
    }

    /** `scheduleCurrent` for the row it reads, which it finds only in an active workspace. */
    method ScheduleCurrent(row: Snapshot, lease: nat, now: nat, active: bool)
      modifies this
      ensures var id, due := Job(row.revision, DueAt(row, lease)), DueAt(row, lease);
              jobs == if !active || id in old(jobs) then old(jobs)
                      else old(jobs)[id := if now < due then due else now]
    {
      if !active {
        return;
      }
      var held := if row.processingAt.Some? then row.processingAt.value + lease else 0;
      Schedule(row.revision, if row.nextRefreshAt < held then held else row.nextRefreshAt, now);
    }
  }

  // ---------------------------------------------------------------------------
  // Interleavings
  // ---------------------------------------------------------------------------

  /** A job is identified by what its id is built from; a client is an API call or a queue recovery. A stray is a
      run of a job which the queue gave up and delivered again, and which goes on all the same. */
  datatype WorkerId = Job(revision: nat, at: nat) | Client(number: nat) | Stray(revision: nat, number: nat)

  /** Where a worker is:
      - `Waiting`: queued, not started;
      - `Fired`: `refresh` has started but not yet tried to claim;
      - `Holding`: claimed under `stamp`, before or after reading its context;
      - `Closing`: about to run the final release;
      - `Resuming`: about to read the row in `scheduleCurrent`;
      - `Adding`: about to add the job it computed;
      - `Finished`: done, its id not yet removed. */
  datatype Phase =
    | Waiting
    | Fired
    | Holding(stamp: nat, readAt: Option<nat>)
    | Closing(stamp: nat)
    | Resuming
    | Adding(target: WorkerId)
    | Finished

  /** `age` is the logical instant of the worker's last step that could change the row. */
  datatype Worker = Worker(phase: Phase, age: nat)

  datatype World = World(
    lease: nat,
    now: nat,
    clock: nat,
    active: bool,
    row: Snapshot,
    lastClaim: int,
    heldRevision: nat,
    bumpedAt: nat,
    workers: map<WorkerId, Worker>)

  /** `SetActive` is the workspace or its subscription ending or starting again. `Redeliver` is the queue running a
      job again, at whatever point its run was; that run crashed or failed, or goes on as a stray of the given
      number. `Lose` is a crash after which nobody comes back for the worker. */
  datatype Event =
    | Tick(ms: nat)
    | SetActive(active: bool)
    | Bump(client: WorkerId)
    | Visit(client: WorkerId)
    | Fire(id: WorkerId)
    | Attempt(id: WorkerId)
    | ReadContext(id: WorkerId)
    | Save(id: WorkerId, content: int)
    | Fail(id: WorkerId)
    | Close(id: WorkerId)
    | Read(id: WorkerId)
    | Add(id: WorkerId)
    | Remove(id: WorkerId)
    | Redeliver(id: WorkerId, stray: Option<nat>)
    | Lose(id: WorkerId)

  function Init(lease: nat, now: nat, requested: bool): World {
    World(lease, now, 1, true, Snapshot(None, now, if requested then 1 else 0, None, None), -1, 0, 0,
          map[Client(0) := Worker(Resuming, 0)])
  }

  predicate At(w: World, id: WorkerId, phase: Phase) {
    id in w.workers && w.workers[id].phase == phase
  }

  /** The id that `scheduleCurrent` computes from the row. */
  function CurrentId(w: World): WorkerId {
    Job(w.row.revision, DueAt(w.row, w.lease))
  }

  /** A run of `refresh`, as opposed to a client. */
  predicate IsRun(id: WorkerId) {
    id.Job? || id.Stray?
  }

  predicate IsHolding(w: World, id: WorkerId) {
    IsRun(id) && id in w.workers && w.workers[id].phase.Holding?
  }

  /** Put a worker into a phase; with `youngest` it also becomes the youngest worker. */
  function Move(w: World, id: WorkerId, phase: Phase, youngest: bool): World {
    var age := if youngest || id !in w.workers then w.clock else w.workers[id].age;
    w.(workers := w.workers[id := Worker(phase, age)], clock := w.clock + 1)
  }

  function Finish(w: World, id: WorkerId, row: Snapshot): World
    requires IsHolding(w, id)
  {
    Move(w.(row := row), id, Closing(w.workers[id].phase.stamp), true)
  }

  function AttemptStep(w: World, id: WorkerId): World {
    if !(IsRun(id) && At(w, id, Fired)) then w
    else if w.active && Claimable(w.row, id.revision, w.now, w.lease)
    then if w.now <= w.lastClaim then w
         else Move(w.(row := w.row.(processingAt := Some(w.now)), lastClaim := w.now, heldRevision := id.revision),
              id, Holding(w.now, None), true)
    else Move(w, id, Resuming, true)
  }

  function AddStep(w: World, id: WorkerId): World {
    if !(id in w.workers && w.workers[id].phase.Adding?) then w
    else
      var target := w.workers[id].phase.target;
      var queued := if target in w.workers then w.workers else w.workers[target := Worker(Waiting, w.clock)];
      Move(w.(workers := queued), id, Finished, false)
  }

  function SaveStep(w: World, id: WorkerId, content: int): World {
    if IsHolding(w, id) && w.workers[id].phase.readAt.Some?
    then Finish(w, id, StoreResult(w.row, w.workers[id].phase.stamp, id.revision,
                                   Analysis(content, w.workers[id].phase.readAt.value), w.now))
    else w
  }

  function FailStep(w: World, id: WorkerId): World {
    if IsHolding(w, id)
    then Finish(w, id, KeepPrevious(w.row, w.workers[id].phase.stamp, id.revision, w.now))
    else w
  }

  function CloseStep(w: World, id: WorkerId): World {
    if id in w.workers && w.workers[id].phase.Closing?
    then Move(w.(row := Release(w.row, w.workers[id].phase.stamp)), id, Resuming, true)
    else w
  }

  function ReadContextStep(w: World, id: WorkerId): World {
    if IsHolding(w, id) && w.workers[id].phase.readAt.None?
    then Move(w, id, Holding(w.workers[id].phase.stamp, Some(w.clock)), false)
    else w
  }

  function BumpStep(w: World, client: WorkerId): World {
    if client.Client? && client !in w.workers
    then Move(w.(row := Request(w.row, w.now), bumpedAt := w.clock), client, Resuming, true)
    else w
  }

  /** The job starts over; its first run, if it goes on, keeps its phase. */
  function RedeliverStep(w: World, id: WorkerId, stray: Option<nat>): World {
    if !(id.Job? && id in w.workers && !w.workers[id].phase.Waiting?) then w
    else if stray.Some? && Stray(id.revision, stray.value) !in w.workers
    then Move(w.(workers := w.workers[Stray(id.revision, stray.value) := w.workers[id]]), id, Fired, true)
    else Move(w, id, Fired, true)
  }

  /** One step; an event that is not possible changes nothing. */
  function Step(w: World, e: Event): World {
    match e
    case Tick(ms) => w.(now := w.now + ms)
    case SetActive(active) => w.(active := active)
    case Bump(client) => BumpStep(w, client)
    case Visit(client) => if client.Client? && client !in w.workers then Move(w, client, Resuming, true) else w
    case Fire(id) => if id.Job? && At(w, id, Waiting) && id.at <= w.now then Move(w, id, Fired, true) else w
    case Attempt(id) => AttemptStep(w, id)
    case ReadContext(id) => ReadContextStep(w, id)
    case Save(id, content) => SaveStep(w, id, content)
    case Fail(id) => FailStep(w, id)
    case Close(id) => CloseStep(w, id)
    case Read(id) =>
      if At(w, id, Resuming)
      then Move(w, id, if w.active then Adding(CurrentId(w)) else Finished, false)
      else w
    case Add(id) => AddStep(w, id)
    case Remove(id) => if At(w, id, Finished) then w.(workers := w.workers - {id}) else w
    case Redeliver(id, stray) => RedeliverStep(w, id, stray)
    case Lose(id) => w.(workers := w.workers - {id})
  }

  function Run(w: World, events: seq<Event>): World
    decreases |events|
  {
    if events == [] then w else Step(Run(w, events[..|events| - 1]), events[|events| - 1])
  }

  // ---------------------------------------------------------------------------
  // Invariant
  // ---------------------------------------------------------------------------

  predicate Tried(phase: Phase) {
    !phase.Waiting? && !phase.Fired?
  }

  predicate HeldByOldRevision(w: World) {
    w.row.processingAt.Some? && w.heldRevision < w.row.revision
  }

  /** Ids never run ahead of the row, and an id of the current revision respects an older holder's lease. */
  predicate IdOk(w: World, id: WorkerId) {
    id.Job? ==>
      && id.revision <= w.row.revision
      && (id.revision == w.row.revision && HeldByOldRevision(w) ==> w.row.processingAt.value + w.lease <= id.at)
  }

  /** `scheduleCurrent` can no longer compute this id. */
  predicate IdDead(w: World, id: WorkerId) {
    id.Job? ==>
      || id.revision < w.row.revision
      || id.at < w.row.nextRefreshAt
      || (w.row.processingAt.Some? && w.heldRevision == w.row.revision && id.at < w.row.processingAt.value + w.lease)
  }

  predicate HolderOk(w: World, id: WorkerId, worker: Worker) {
    match worker.phase
    case Holding(stamp, readAt) =>
      && IsRun(id)
      && stamp <= w.lastClaim
      && (w.row.processingAt == Some(stamp) ==> id.revision == w.heldRevision)
      && (readAt.Some? && w.row.revision == id.revision && w.row.processingAt == Some(stamp) ==>
           w.bumpedAt < readAt.value)
    case Closing(stamp) =>
      && IsRun(id)
      && stamp <= w.lastClaim
      && (w.row.processingAt == Some(stamp) ==> w.heldRevision < w.row.revision)
    case Adding(target) => target.Job? && IdOk(w, target)
    case _ => true
  }

  predicate WorkerOk(w: World, id: WorkerId, worker: Worker) {
    && IdOk(w, id)
    && (id.Job? && !worker.phase.Waiting? ==> id.at <= w.now)
    && (id.Client? ==> worker.phase.Resuming? || worker.phase.Adding? || worker.phase.Finished?)
    && HolderOk(w, id, worker)
  }

  predicate Stamped(phase: Phase) {
    phase.Holding? || phase.Closing?
  }

  /** At most one worker carries a given stamp. */
  ghost predicate StampsDiffer(w: World) {
    forall i, j | i in w.workers && j in w.workers && i != j
      && Stamped(w.workers[i].phase) && Stamped(w.workers[j].phase) ::
      w.workers[i].phase.stamp != w.workers[j].phase.stamp
  }

  /** An id that a worker is about to add and that is still taken by a job which has tried
      belongs to a younger worker. */
  ghost predicate TargetsYounger(w: World) {
    forall x, y | x in w.workers && y in w.workers && w.workers[x].phase == Adding(y) && Tried(w.workers[y].phase) ::
      w.workers[x].age < w.workers[y].age
  }

  ghost predicate AgesOk(w: World) {
    forall id | id in w.workers :: w.workers[id].age < w.clock
  }

  predicate RowOk(w: World) {
    && 0 < w.lease
    && w.heldRevision <= w.row.revision
    && w.bumpedAt < w.clock
    && w.lastClaim <= w.now
    && (w.row.processingAt.Some? ==> w.row.processingAt.value <= w.lastClaim)
  }

  ghost predicate WorkersOk(w: World) {
    forall id | id in w.workers :: WorkerOk(w, id, w.workers[id])
  }

  /** What neither crashes nor an inactive workspace disturb. */
  ghost predicate Safe(w: World) {
    RowOk(w) && WorkersOk(w) && AgesOk(w) && StampsDiffer(w)
  }

  /** No id of a job that has tried can be computed again. */
  ghost predicate TriedIsDead(w: World) {
    forall id | id in w.workers && Tried(w.workers[id].phase) :: IdDead(w, id)
  }

  ghost predicate Orderly(w: World) {
    TriedIsDead(w) && TargetsYounger(w)
  }

  /** The row could be claimed, but the workspace is not active. */
  predicate Refuses(w: World, e: Event) {
    e.Attempt? && e.id.Job? && At(w, e.id, Fired) && !w.active && Claimable(w.row, e.id.revision, w.now, w.lease)
  }

  // ---------------------------------------------------------------------------
  // Safety, in every run
  // ---------------------------------------------------------------------------

  lemma QueueStepKeepsWorker(w: World, e: Event, id: WorkerId)
    requires RowOk(w) && WorkersOk(w) && id in Step(w, e).workers
    requires e.Tick? || e.SetActive? || e.Visit? || e.Fire? || e.Remove? || e.Lose?
    ensures WorkerOk(Step(w, e), id, Step(w, e).workers[id])
  {
    hide Claimable, StoreResult, KeepPrevious, DueAt;
    if id in w.workers {
      assert WorkerOk(w, id, w.workers[id]);
    }
  }

  lemma RedeliverKeepsWorker(w: World, j: WorkerId, stray: Option<nat>, id: WorkerId)
    requires RowOk(w) && WorkersOk(w) && id in RedeliverStep(w, j, stray).workers
    ensures WorkerOk(RedeliverStep(w, j, stray), id, RedeliverStep(w, j, stray).workers[id])
  {
    if id in w.workers {
      assert WorkerOk(w, id, w.workers[id]);
    } else {
      assert WorkerOk(w, j, w.workers[j]);
    }
  }

  lemma ReadContextKeepsWorker(w: World, j: WorkerId, id: WorkerId)
    requires RowOk(w) && WorkersOk(w) && id in ReadContextStep(w, j).workers
    ensures WorkerOk(ReadContextStep(w, j), id, ReadContextStep(w, j).workers[id])
  {
  }

  lemma ReadKeepsWorker(w: World, j: WorkerId, id: WorkerId)
    requires RowOk(w) && WorkersOk(w) && id in Step(w, Read(j)).workers
    ensures WorkerOk(Step(w, Read(j)), id, Step(w, Read(j)).workers[id])
  {
    hide Claimable, StoreResult, KeepPrevious;
    if id in w.workers {
      assert WorkerOk(w, id, w.workers[id]);
    }
  }

  lemma AddKeepsWorker(w: World, j: WorkerId, id: WorkerId)
    requires RowOk(w) && WorkersOk(w) && id in AddStep(w, j).workers
    ensures WorkerOk(AddStep(w, j), id, AddStep(w, j).workers[id])
  {
    if j in w.workers {
      assert WorkerOk(w, j, w.workers[j]);
    }
  }

  lemma BumpKeepsWorker(w: World, client: WorkerId, id: WorkerId)
    requires RowOk(w) && WorkersOk(w) && id in BumpStep(w, client).workers
    ensures WorkerOk(BumpStep(w, client), id, BumpStep(w, client).workers[id])
  {
  }

  lemma AttemptKeepsWorker(w: World, j: WorkerId, id: WorkerId)
    requires RowOk(w) && WorkersOk(w) && id in AttemptStep(w, j).workers
    ensures WorkerOk(AttemptStep(w, j), id, AttemptStep(w, j).workers[id])
  {
  }

  lemma SaveKeepsWorker(w: World, j: WorkerId, content: int, id: WorkerId)
    requires RowOk(w) && WorkersOk(w) && StampsDiffer(w) && id in SaveStep(w, j, content).workers
    ensures WorkerOk(SaveStep(w, j, content), id, SaveStep(w, j, content).workers[id])
  {
    if id in w.workers && j in w.workers {
      assert WorkerOk(w, id, w.workers[id]) && WorkerOk(w, j, w.workers[j]);
    }
  }

  lemma FailKeepsWorker(w: World, j: WorkerId, id: WorkerId)
    requires RowOk(w) && WorkersOk(w) && StampsDiffer(w) && id in FailStep(w, j).workers
    ensures WorkerOk(FailStep(w, j), id, FailStep(w, j).workers[id])
  {
    if id in w.workers && j in w.workers {
      assert WorkerOk(w, id, w.workers[id]) && WorkerOk(w, j, w.workers[j]);
    }
  }

  lemma CloseKeepsWorker(w: World, j: WorkerId, id: WorkerId)
    requires RowOk(w) && WorkersOk(w) && StampsDiffer(w) && id in CloseStep(w, j).workers
    ensures WorkerOk(CloseStep(w, j), id, CloseStep(w, j).workers[id])
  {
    if id in w.workers && j in w.workers {
      assert WorkerOk(w, id, w.workers[id]) && WorkerOk(w, j, w.workers[j]);
    }
  }

  lemma StepKeepsWorker(w: World, e: Event, id: WorkerId)
    requires RowOk(w) && WorkersOk(w) && StampsDiffer(w) && id in Step(w, e).workers
    ensures WorkerOk(Step(w, e), id, Step(w, e).workers[id])
  {
    hide RowOk, WorkersOk, StampsDiffer, WorkerOk;
    match e
    case Bump(client) => BumpKeepsWorker(w, client, id);
    case Attempt(j) => AttemptKeepsWorker(w, j, id);
    case ReadContext(j) => ReadContextKeepsWorker(w, j, id);
    case Save(j, content) => SaveKeepsWorker(w, j, content, id);
    case Fail(j) => FailKeepsWorker(w, j, id);
    case Close(j) => CloseKeepsWorker(w, j, id);
    case Read(j) => ReadKeepsWorker(w, j, id);
    case Add(j) => AddKeepsWorker(w, j, id);
    case Redeliver(j, stray) => RedeliverKeepsWorker(w, j, stray, id);
    case _ => QueueStepKeepsWorker(w, e, id);
  }

  lemma StepKeepsRow(w: World, e: Event)
    requires RowOk(w)
    ensures RowOk(Step(w, e))
  {
  }

  lemma StepKeepsAges(w: World, e: Event)
    requires AgesOk(w)
    ensures AgesOk(Step(w, e))
  {
    hide Claimable, StoreResult, KeepPrevious, Release, Request, DueAt;
  }

  /** A stamp moves with its worker; only a claim makes a new one. */
  ghost predicate NoNewStamp(w: World, w': World) {
    forall id | id in w'.workers && Stamped(w'.workers[id].phase) ::
      id in w.workers && Stamped(w.workers[id].phase) && w'.workers[id].phase.stamp == w.workers[id].phase.stamp
  }

  lemma OnlyAttemptMakesStamps(w: World, e: Event)
    requires !e.Attempt? && !e.Redeliver?
    ensures NoNewStamp(w, Step(w, e))
  {
    hide Claimable, StoreResult, KeepPrevious, Release, Request, DueAt;
  }

  lemma NoNewStampKeepsStamps(w: World, w': World)
    requires StampsDiffer(w) && NoNewStamp(w, w')
    ensures StampsDiffer(w')
  {
  }

  lemma AttemptKeepsStamps(w: World, j: WorkerId)
    requires WorkersOk(w) && StampsDiffer(w)
    ensures StampsDiffer(AttemptStep(w, j))
  {
    hide Claimable, IdOk, IdDead;
    assert forall id | id in w.workers && Stamped(w.workers[id].phase) :: w.workers[id].phase.stamp <= w.lastClaim by {
      forall id | id in w.workers && Stamped(w.workers[id].phase) ensures w.workers[id].phase.stamp <= w.lastClaim {
        assert WorkerOk(w, id, w.workers[id]);
      }
    }
  }

  /** A stamp stays with the run that claimed. */
  lemma RedeliverKeepsStamps(w: World, j: WorkerId, stray: Option<nat>)
    requires StampsDiffer(w)
    ensures StampsDiffer(RedeliverStep(w, j, stray))
  {
  }

  lemma StepKeepsStamps(w: World, e: Event)
    requires WorkersOk(w) && StampsDiffer(w)
    ensures StampsDiffer(Step(w, e))
  {
    hide WorkersOk, StampsDiffer, NoNewStamp;
    match e
    case Attempt(j) => AttemptKeepsStamps(w, j);
    case Redeliver(j, stray) => RedeliverKeepsStamps(w, j, stray);
    case _ =>
      OnlyAttemptMakesStamps(w, e);
      NoNewStampKeepsStamps(w, Step(w, e));
  }

  lemma StepKeepsSafe(w: World, e: Event)
    requires Safe(w)
    ensures Safe(Step(w, e))
  {
    hide Step, RowOk, AgesOk, StampsDiffer, WorkerOk;
    forall id | id in Step(w, e).workers ensures WorkerOk(Step(w, e), id, Step(w, e).workers[id]) {
      StepKeepsWorker(w, e, id);
    }
    StepKeepsRow(w, e);
    StepKeepsAges(w, e);
    StepKeepsStamps(w, e);
  }

  lemma InitSafe(lease: nat, now: nat, requested: bool)
    requires 0 < lease
    ensures Safe(Init(lease, now, requested)) && Orderly(Init(lease, now, requested))
  {
  }

  lemma {:induction false} RunKeepsSafe(w: World, events: seq<Event>)
    requires Safe(w)
    ensures Safe(Run(w, events))
    decreases |events|
  {
    hide Safe, Step;
    if events == [] {
    } else {
      RunKeepsSafe(w, events[..|events| - 1]);
      StepKeepsSafe(Run(w, events[..|events| - 1]), events[|events| - 1]);
    }
  }

  // ---------------------------------------------------------------------------
  // Ids are not computed twice, unless a claim was refused
  // ---------------------------------------------------------------------------

  /** Either the step makes the id dead or keeps it so, or it refuses the job, or the id was alive before. */
  ghost predicate DeadAfter(w: World, e: Event, id: WorkerId) {
    id in Step(w, e).workers && Tried(Step(w, e).workers[id].phase) ==>
      || IdDead(Step(w, e), id)
      || (Refuses(w, e) && e.id == id)
      || (id in w.workers && Tried(w.workers[id].phase) && !IdDead(w, id))
  }

  lemma AttemptDeadens(w: World, j: WorkerId, id: WorkerId)
    requires RowOk(w) && WorkersOk(w)
    ensures DeadAfter(w, Attempt(j), id)
  {
    hide HolderOk, StoreResult, KeepPrevious;
    if id in w.workers {
      assert WorkerOk(w, id, w.workers[id]);
    }
  }

  lemma BumpDeadens(w: World, client: WorkerId, id: WorkerId)
    requires RowOk(w) && WorkersOk(w)
    ensures DeadAfter(w, Bump(client), id)
  {
    hide HolderOk, StoreResult, KeepPrevious, Claimable;
    if id in w.workers {
      assert WorkerOk(w, id, w.workers[id]);
    }
  }

  lemma SaveDeadens(w: World, j: WorkerId, content: int, id: WorkerId)
    requires RowOk(w) && WorkersOk(w)
    ensures DeadAfter(w, Save(j, content), id)
  {
    hide HolderOk, KeepPrevious, Claimable;
    if id in w.workers {
      assert WorkerOk(w, id, w.workers[id]);
    }
  }

  lemma FailDeadens(w: World, j: WorkerId, id: WorkerId)
    requires RowOk(w) && WorkersOk(w)
    ensures DeadAfter(w, Fail(j), id)
  {
    hide HolderOk, StoreResult, Claimable;
    if id in w.workers {
      assert WorkerOk(w, id, w.workers[id]);
    }
  }

  lemma CloseDeadens(w: World, j: WorkerId, id: WorkerId)
    requires RowOk(w) && WorkersOk(w)
    ensures DeadAfter(w, Close(j), id)
  {
    hide StoreResult, KeepPrevious, Claimable;
    if id in w.workers && j in w.workers {
      assert WorkerOk(w, id, w.workers[id]) && WorkerOk(w, j, w.workers[j]);
    }
  }

  lemma StepDeadens(w: World, e: Event, id: WorkerId)
    requires RowOk(w) && WorkersOk(w)
    ensures DeadAfter(w, e, id)
  {
    hide RowOk, WorkersOk, Claimable, StoreResult, KeepPrevious;
    match e
    case Attempt(j) => AttemptDeadens(w, j, id);
    case Bump(client) => BumpDeadens(w, client, id);
    case Save(j, content) => SaveDeadens(w, j, content, id);
    case Fail(j) => FailDeadens(w, j, id);
    case Close(j) => CloseDeadens(w, j, id);
    case _ =>
  }

  lemma StepKeepsDead(w: World, e: Event)
    requires RowOk(w) && WorkersOk(w) && TriedIsDead(w) && !Refuses(w, e)
    ensures TriedIsDead(Step(w, e))
  {
    hide RowOk, WorkersOk, Step, IdDead, Refuses;
    forall id | id in Step(w, e).workers && Tried(Step(w, e).workers[id].phase) ensures IdDead(Step(w, e), id) {
      StepDeadens(w, e, id);
    }
  }

  lemma CurrentIdIsAlive(w: World)
    requires RowOk(w)
    ensures !IdDead(w, CurrentId(w))
  {
  }

  /** `scheduleCurrent` never computes an id whose job has tried already. */
  lemma ReadKeepsTargets(w: World, id: WorkerId)
    requires RowOk(w) && TriedIsDead(w) && TargetsYounger(w)
    ensures TargetsYounger(Step(w, Read(id)))
  {
    hide RowOk, IdDead, CurrentId;
    CurrentIdIsAlive(w);
  }

  /** Strays are nobody's target. */
  lemma TargetsAreJobs(w: World)
    requires WorkersOk(w)
    ensures forall x | x in w.workers && w.workers[x].phase.Adding? :: w.workers[x].phase.target.Job?
  {
    hide IdOk;
    forall x | x in w.workers && w.workers[x].phase.Adding? ensures w.workers[x].phase.target.Job? {
      assert WorkerOk(w, x, w.workers[x]);
    }
  }

  lemma RedeliverKeepsTargets(w: World, id: WorkerId, stray: Option<nat>)
    requires WorkersOk(w) && TargetsYounger(w)
    ensures TargetsYounger(RedeliverStep(w, id, stray))
  {
    hide WorkersOk;
    TargetsAreJobs(w);
  }

  lemma StepKeepsTargets(w: World, e: Event)
    requires RowOk(w) && WorkersOk(w) && TriedIsDead(w) && AgesOk(w) && TargetsYounger(w)
    ensures TargetsYounger(Step(w, e))
  {
    hide TriedIsDead, RowOk, WorkersOk, Claimable, StoreResult, KeepPrevious, Release, Request, CurrentId, IsRun;
    if e.Read? {
      ReadKeepsTargets(w, e.id);
    } else if e.Redeliver? {
      RedeliverKeepsTargets(w, e.id, e.stray);
    }
  }

  lemma StepKeepsOrderly(w: World, e: Event)
    requires Safe(w) && Orderly(w) && !Refuses(w, e)
    ensures Orderly(Step(w, e))
  {
    hide Step, RowOk, WorkersOk, AgesOk, StampsDiffer, TriedIsDead, TargetsYounger;
    StepKeepsDead(w, e);
    StepKeepsTargets(w, e);
  }

  // ---------------------------------------------------------------------------
  // Somebody will try in time, unless somebody is lost
  // ---------------------------------------------------------------------------

  /** A worker that guarantees a refresh attempt no later than the row's due time. */
  predicate Timely(w: World, id: WorkerId) {
    id in w.workers &&
    match w.workers[id].phase
    case Waiting => id.Job? && id.at <= DueAt(w.row, w.lease)
    case Adding(target) => target.Job? && target.at <= DueAt(w.row, w.lease)
    case Finished => false
    case _ => true
  }

  /** `other` is younger than `id`: it has not tried yet, or it changed or checked the row later. */
  predicate Younger(w: World, other: WorkerId, id: WorkerId)
    requires other in w.workers && id in w.workers
  {
    !Tried(w.workers[other].phase) || w.workers[id].age < w.workers[other].age
  }

  ghost predicate Covered(w: World, id: WorkerId)
    requires id in w.workers
  {
    exists v :: Timely(w, v) && (v == id || Younger(w, v, id))
  }

  ghost predicate SomeoneTimely(w: World) {
    exists v :: Timely(w, v)
  }

  ghost predicate Live(w: World) {
    && SomeoneTimely(w)
    && (forall id | id in w.workers && Tried(w.workers[id].phase) :: Covered(w, id))
  }

  /** A timely worker stays timely, and younger, over the steps that leave the row and the ages alone. */
  lemma QuietStepKeepsTimely(w: World, e: Event, v: WorkerId, x: WorkerId)
    requires Timely(w, v)
    requires e.Tick? || e.SetActive? || e.Fire? || e.ReadContext? || e.Remove? || (e.Read? && w.active)
    requires x in w.workers && x in Step(w, e).workers && (v == x || Younger(w, v, x))
    ensures Timely(Step(w, e), v)
    ensures Tried(w.workers[x].phase) ==> v == x || Younger(Step(w, e), v, x)
  {
  }

  lemma QuietStepKeepsLive(w: World, e: Event)
    requires Live(w)
    requires e.Tick? || e.SetActive? || e.Fire? || e.ReadContext? || e.Remove? || (e.Read? && w.active)
    ensures Live(Step(w, e))
  {
    hide Younger, DueAt;
    var w' := Step(w, e);
    var u :| Timely(w, u);
    QuietStepInherits(w, e, u);
    QuietStepKeepsTimely(w, e, u, u);
    forall x | x in w'.workers && Tried(w'.workers[x].phase) ensures Covered(w', x) {
      QuietStepInherits(w, e, x);
      if Tried(w.workers[x].phase) {
        var v :| Timely(w, v) && (v == x || Younger(w, v, x));
        QuietStepKeepsTimely(w, e, v, x);
      }
    }
  }

  /** These steps make nobody try, and remove only who is finished. */
  lemma QuietStepInherits(w: World, e: Event, x: WorkerId)
    requires e.Tick? || e.SetActive? || e.Fire? || e.ReadContext? || e.Remove? || (e.Read? && w.active)
    ensures x in Step(w, e).workers && Tried(Step(w, e).workers[x].phase) ==>
            x in w.workers && Tried(w.workers[x].phase)
    ensures Timely(w, x) ==> x in Step(w, e).workers
  {
  }

  /** After a step that made `id` the youngest worker, still to read the row, everyone is covered by it. */
  lemma YoungestCovers(w: World, id: WorkerId)
    requires id in w.workers && Timely(w, id) && !w.workers[id].phase.Adding?
    requires forall x | x in w.workers && x != id :: w.workers[x].age < w.workers[id].age
    ensures Live(w)
  {
  }

  lemma RowStepKeepsLive(w: World, e: Event)
    requires AgesOk(w) && Live(w)
    requires e.Bump? || e.Visit? || e.Attempt? || e.Save? || e.Fail? || e.Close? || e.Redeliver?
    ensures Live(Step(w, e))
  {
    hide Live, Claimable, StoreResult, KeepPrevious, Release, Request, DueAt;
    var w' := Step(w, e);
    if w' != w {
      var id := if e.Bump? || e.Visit? then e.client else e.id;
      YoungestCovers(w', id);
    }
  }

  /** A timely worker other than the adding one stays timely, and younger. */
  lemma AddKeepsTimely(w: World, id: WorkerId, v: WorkerId, x: WorkerId)
    requires Timely(w, v) && v != id
    requires x in w.workers && (v == x || Younger(w, v, x))
    ensures Timely(AddStep(w, id), v) && (v == x || Younger(AddStep(w, id), v, x))
  {
  }

  lemma AddKeepsLive(w: World, id: WorkerId)
    requires AgesOk(w) && TargetsYounger(w) && Live(w)
    requires id in w.workers && w.workers[id].phase.Adding?
    ensures Live(AddStep(w, id))
  {
    hide Timely, Younger;
    var w' := AddStep(w, id);
    var u := AddWitness(w, id, id);
    forall x | x in w'.workers && Tried(w'.workers[x].phase) ensures Covered(w', x) {
      var v := AddWitness(w, id, x);
    }
  }

  lemma AddWitness(w: World, id: WorkerId, x: WorkerId) returns (u: WorkerId)
    requires AgesOk(w) && TargetsYounger(w) && Live(w)
    requires id in w.workers && w.workers[id].phase.Adding?
    requires x in w.workers && Tried(w.workers[x].phase)
    ensures Timely(AddStep(w, id), u)
    ensures u == x || Younger(AddStep(w, id), u, x)
  {
    u :| Timely(w, u) && (u == x || Younger(w, u, x));
    if u == id {
      u := AddHandsOver(w, id);
    } else {
      AddKeepsTimely(w, id, u, x);
    }
  }

  /** When a timely worker adds its job, the queue or a younger worker takes over. */
  lemma AddHandsOver(w: World, id: WorkerId) returns (u: WorkerId)
    requires AgesOk(w) && TargetsYounger(w) && Live(w)
    requires id in w.workers && w.workers[id].phase.Adding? && Timely(w, id)
    ensures u != id && Timely(AddStep(w, id), u)
    ensures Younger(AddStep(w, id), u, id)
  {
    var target := w.workers[id].phase.target;
    u := target;
    if target in w.workers && Tried(w.workers[target].phase) {
      assert w.workers[id].age < w.workers[target].age;
      u :| Timely(w, u) && (u == target || Younger(w, u, target));
      AddKeepsTimely(w, id, u, target);
    }
  }

  /** What makes a wake-up get lost: a worker that is lost, a read of the row while the workspace is not active,
      and a claim that is refused although the row could be claimed. */
  predicate Disturbs(w: World, e: Event) {
    || e.Lose?
    || (e.Read? && At(w, e.id, Resuming) && !w.active)
    || Refuses(w, e)
  }

  lemma StepKeepsLive(w: World, e: Event)
    requires AgesOk(w) && TargetsYounger(w) && Live(w) && !Disturbs(w, e)
    ensures Live(Step(w, e))
  {
    hide AgesOk, TargetsYounger, Live, Refuses;
    match e
    case Tick(_) => QuietStepKeepsLive(w, e);
    case SetActive(_) => QuietStepKeepsLive(w, e);
    case Fire(_) => QuietStepKeepsLive(w, e);
    case ReadContext(_) => QuietStepKeepsLive(w, e);
    case Read(id) => if At(w, id, Resuming) { QuietStepKeepsLive(w, e); }
    case Remove(_) => QuietStepKeepsLive(w, e);
    case Add(id) =>
      if id in w.workers && w.workers[id].phase.Adding? {
        AddKeepsLive(w, id);
      }
    case _ => RowStepKeepsLive(w, e);
  }

  /** Whoever opens the dashboard after a disturbance will read the row. */
  lemma VisitRestoresLive(w: World, client: WorkerId)
    requires AgesOk(w) && client.Client? && client !in w.workers
    ensures Live(Step(w, Visit(client)))
  {
    YoungestCovers(Step(w, Visit(client)), client);
  }
}
