/** What refreshes and requests leave in the dashboard row, and a whole refresh from its job to the next one. */
module DashboardSteps {
  import opened Options
  import opened Dashboard

  // ---------------------------------------------------------------------------
  // Single steps
  // ---------------------------------------------------------------------------

  /** The row still carries the claim that this run made, at the run's revision. */
  predicate StillHolds(w: World, id: WorkerId)
    requires IsHolding(w, id)
  {
    w.row.processingAt == Some(w.workers[id].phase.stamp) && w.row.revision == id.revision
  }

  /** A run that still holds the row stores its analysis, due again in a day; otherwise nothing is stored. */
  lemma AnalysisIsStored(w: World, id: WorkerId, content: int)
    requires IsHolding(w, id) && w.workers[id].phase.readAt.Some?
    ensures Step(w, Save(id, content)).row ==
            if StillHolds(w, id)
            then w.row.(analysis := Some(Analysis(content, w.workers[id].phase.readAt.value)),
                        generatedAt := Some(w.now), processingAt := None, nextRefreshAt := w.now + 86_400_000)
            else w.row
  {
  }

  /** A run that failed leaves the previous analysis, due again in fifteen minutes if it still holds the row. */
  lemma FailureIsPostponed(w: World, id: WorkerId)
    requires IsHolding(w, id)
    ensures Step(w, Fail(id)).row ==
            if StillHolds(w, id) then w.row.(processingAt := None, nextRefreshAt := w.now + 900_000) else w.row
  {
  }

  /** A claim is taken of a due row of the run's revision, without a lease that is still running, in an active
      workspace; no other row is claimed. */
  lemma ClaimIsTakenExactly(w: World, id: WorkerId)
    requires IsRun(id) && At(w, id, Fired) && w.lastClaim < w.now
    ensures var w' := Step(w, Attempt(id));
            if w.active && w.row.revision == id.revision && w.row.nextRefreshAt <= w.now
               && (w.row.processingAt.None? || w.row.processingAt.value + w.lease <= w.now)
            then w'.row == w.row.(processingAt := Some(w.now)) && At(w', id, Holding(w.now, None))
            else w'.row == w.row && At(w', id, Resuming)
  {
  }

  /** In the end a run takes only its own claim away, whatever the revision. */
  lemma OwnClaimIsReleased(w: World, id: WorkerId)
    requires id in w.workers && w.workers[id].phase.Closing?
    ensures Step(w, Close(id)).row ==
            if w.row.processingAt == Some(w.workers[id].phase.stamp) then w.row.(processingAt := None) else w.row
  {
  }

  /** A request makes the row due at once at a new revision, and touches neither claim nor analysis; a context counts
      as read after it only if it is read in a later step. */
  lemma RequestIsStored(w: World, client: WorkerId)
    requires client.Client? && client !in w.workers
    ensures Step(w, Bump(client)).row == w.row.(revision := w.row.revision + 1, nextRefreshAt := w.now)
    ensures Step(w, Bump(client)).bumpedAt == w.clock < Step(w, Bump(client)).clock
  {
  }

  /** What is added next is the job of the row's revision for the time at which the row can be claimed, unless the
      workspace is not active; it is queued unless its id is taken. */
  lemma NextJobIsQueued(w: World, id: WorkerId)
    requires id in w.workers
    ensures At(w, id, Resuming) ==>
              var next := Job(w.row.revision, DueAt(w.row, w.lease));
              At(Step(w, Read(id)), id, if w.active then Adding(next) else Finished)
              && Step(w, Read(id)).row == w.row
    ensures w.workers[id].phase.Adding? && w.workers[id].phase.target != id ==>
              var target, w' := w.workers[id].phase.target, Step(w, Add(id));
              && At(w', id, Finished) && w'.row == w.row
              && target in w'.workers
              && (w'.workers[target] == if target in w.workers then w.workers[target] else Worker(Waiting, w.clock))
              && w'.workers.Keys == w.workers.Keys + {target}
  {
  }

  /** A context is read in a claimed run, once, and remembers the step in which it was. */
  lemma ContextIsRead(w: World, id: WorkerId)
    requires IsHolding(w, id)
    ensures var Holding(stamp, readAt) := w.workers[id].phase;
            At(Step(w, ReadContext(id)), id, Holding(stamp, if readAt == None then Some(w.clock) else readAt))
            && Step(w, ReadContext(id)).row == w.row
  {
  }

  /** A job that was not just queued starts over when it is delivered again; its first run goes on as a stray if there
      is one. */
  lemma JobStartsOver(w: World, id: WorkerId, stray: Option<nat>)
    requires id.Job? && id in w.workers && w.workers[id].phase != Waiting
    ensures var w' := Step(w, Redeliver(id, stray));
            && At(w', id, Fired) && w'.row == w.row
            && (stray != None && Stray(id.revision, stray.value) !in w.workers ==>
                  Stray(id.revision, stray.value) in w'.workers
                  && w'.workers[Stray(id.revision, stray.value)] == w.workers[id])
  {
  }

  // ---------------------------------------------------------------------------
  // A whole refresh
  // ---------------------------------------------------------------------------

  lemma OneMore(w: World, events: seq<Event>, e: Event)
    ensures Run(w, events + [e]) == Step(Run(w, events), e)
  {
    assert (events + [e])[..|events|] == events;
  }

  /** The job of the current revision is queued, its time has come, and the row can be claimed. */
  predicate IsReady(w: World, id: WorkerId) {
    && id.Job? && At(w, id, Waiting) && id.at <= w.now && w.lastClaim < w.now
    && w.active && w.row.revision == id.revision && w.row.nextRefreshAt <= w.now
    && (w.row.processingAt.None? || w.row.processingAt.value + w.lease <= w.now)
  }

  /** The world after a claim by `id`, which stands at `phase`. */
  function Claimed(w: World, id: WorkerId, phase: Phase, age: nat, clock: nat, row: Snapshot): World {
    w.(workers := w.workers[id := Worker(phase, age)], clock := clock, row := row, lastClaim := w.now,
       heldRevision := w.row.revision)
  }

  function Held(row: Snapshot, now: nat): Snapshot {
    row.(processingAt := Some(now))
  }

  lemma FiresAndClaims(w: World, id: WorkerId)
    requires IsReady(w, id)
    ensures Step(Step(w, Fire(id)), Attempt(id))
            == Claimed(w, id, Holding(w.now, None), w.clock + 1, w.clock + 2, Held(w.row, w.now))
  {
    hide SaveStep, FailStep, CloseStep, AddStep, RedeliverStep, BumpStep, ReadContextStep, DueAt;
    assert Step(w, Fire(id)) == w.(workers := w.workers[id := Worker(Fired, w.clock)], clock := w.clock + 1);
  }

  lemma ReadsContext(w: World, id: WorkerId, row: Snapshot)
    requires id.Job?
    ensures Step(Claimed(w, id, Holding(w.now, None), w.clock + 1, w.clock + 2, row), ReadContext(id))
            == Claimed(w, id, Holding(w.now, Some(w.clock + 2)), w.clock + 1, w.clock + 3, row)
  {
    hide SaveStep, FailStep, CloseStep, AddStep, RedeliverStep, BumpStep, AttemptStep, DueAt;
  }

  /** The row after a refresh: with a content the new analysis, otherwise the previous one. */
  function Refreshed(row: Snapshot, content: Option<int>, now: nat, readAt: nat): Snapshot {
    if content.Some?
    then row.(analysis := Some(Analysis(content.value, readAt)), generatedAt := Some(now), processingAt := None,
              nextRefreshAt := now + 86_400_000)
    else row.(processingAt := None, nextRefreshAt := now + 900_000)
  }

  function Ends(id: WorkerId, content: Option<int>): Event {
    if content.Some? then Save(id, content.value) else Fail(id)
  }

  lemma StoresAndCloses(w: World, id: WorkerId, content: Option<int>)
    requires id.Job? && w.row.revision == id.revision
    ensures var held := Claimed(w, id, Holding(w.now, Some(w.clock + 2)), w.clock + 1, w.clock + 3, Held(w.row, w.now));
            var row := Refreshed(w.row, content, w.now, w.clock + 2);
            Step(Step(held, Ends(id, content)), Close(id)) == Claimed(w, id, Resuming, w.clock + 4, w.clock + 5, row)
  {
    hide AttemptStep, AddStep, RedeliverStep, BumpStep, ReadContextStep, DueAt;
    var held := Claimed(w, id, Holding(w.now, Some(w.clock + 2)), w.clock + 1, w.clock + 3, Held(w.row, w.now));
    var row := Refreshed(w.row, content, w.now, w.clock + 2);
    assert Step(held, Ends(id, content)) == Claimed(w, id, Closing(w.now), w.clock + 3, w.clock + 4, row);
  }

  lemma QueuesNext(w: World, id: WorkerId, row: Snapshot)
    requires id.Job? && w.active && row.processingAt == None
    ensures var closed := Claimed(w, id, Resuming, w.clock + 4, w.clock + 5, row);
            var next := Job(row.revision, row.nextRefreshAt);
            Step(Step(closed, Read(id)), Add(id))
            == Claimed(w.(workers := if next in closed.workers then w.workers
                            else w.workers[next := Worker(Waiting, w.clock + 6)]),
                       id, Finished, w.clock + 4, w.clock + 7, row)
  {
    hide AttemptStep, SaveStep, FailStep, CloseStep, RedeliverStep, BumpStep, ReadContextStep;
    var closed := Claimed(w, id, Resuming, w.clock + 4, w.clock + 5, row);
    var next := Job(row.revision, row.nextRefreshAt);
    assert Step(closed, Read(id)) == Claimed(w, id, Adding(next), w.clock + 4, w.clock + 6, row);
    if next != id {
      assert w.workers[next := Worker(Waiting, w.clock + 6)][id := Worker(Finished, w.clock + 4)]
          == closed.workers[next := Worker(Waiting, w.clock + 6)][id := Worker(Finished, w.clock + 4)];
    }
  }

  function Refresh(id: WorkerId, content: Option<int>): seq<Event> {
    [Fire(id)] + [Attempt(id)] + [ReadContext(id)] + [Ends(id, content)] + [Close(id)] + [Read(id)] + [Add(id)]
    + [Remove(id)]
  }

  /** A refresh that nobody disturbs: the model's content is stored as the analysis, or the previous one is kept
      if the model fails; the claim is gone, and the only change of the queue is that the job of the same revision
      for the next due time has taken the place of this one. */
  lemma ReadyJobRefreshes(w: World, id: WorkerId, content: Option<int>)
    requires IsReady(w, id)
    ensures var w' := Run(w, Refresh(id, content));
            var row := Refreshed(w.row, content, w.now, w.clock + 2);
            var next := Job(row.revision, row.nextRefreshAt);
            && w'.row == row
            && w'.workers == (if next in w.workers then w.workers - {id}
                              else w.workers[next := Worker(Waiting, w.clock + 6)] - {id})
  {
    hide Run, Step, Claimed, Ends;
    var row := Refreshed(w.row, content, w.now, w.clock + 2);
    var e0, e1, e2, e3 := Fire(id), Attempt(id), ReadContext(id), Ends(id, content);
    EmptyRun(w);
    OneMore(w, [], e0);
    OneMore(w, [e0], e1);
    OneMore(w, [e0] + [e1], e2);
    OneMore(w, [e0] + [e1] + [e2], e3);
    OneMore(w, [e0] + [e1] + [e2] + [e3], Close(id));
    OneMore(w, [e0] + [e1] + [e2] + [e3] + [Close(id)], Read(id));
    OneMore(w, [e0] + [e1] + [e2] + [e3] + [Close(id)] + [Read(id)], Add(id));
    OneMore(w, [e0] + [e1] + [e2] + [e3] + [Close(id)] + [Read(id)] + [Add(id)], Remove(id));
    assert [] + [e0] == [e0];
    FiresAndClaims(w, id);
    ReadsContext(w, id, Held(w.row, w.now));
    StoresAndCloses(w, id, content);
    QueuesNext(w, id, row);
    RemovesFinished(w, id, row);
  }

  lemma RemovesFinished(w: World, id: WorkerId, row: Snapshot)
    requires id.Job? && id in w.workers && id.at < row.nextRefreshAt
    ensures var next := Job(row.revision, row.nextRefreshAt);
            var closed := Claimed(w, id, Resuming, w.clock + 4, w.clock + 5, row);
            var added := w.(workers := if next in closed.workers then w.workers
                              else w.workers[next := Worker(Waiting, w.clock + 6)]);
            var w' := Step(Claimed(added, id, Finished, w.clock + 4, w.clock + 7, row), Remove(id));
            && w'.row == row
            && w'.workers == (if next in w.workers then w.workers - {id}
                              else w.workers[next := Worker(Waiting, w.clock + 6)] - {id})
  {
    hide AttemptStep, SaveStep, FailStep, CloseStep, RedeliverStep, BumpStep, ReadContextStep, AddStep, DueAt;
    var next := Job(row.revision, row.nextRefreshAt);
    var workers := if next in w.workers then w.workers else w.workers[next := Worker(Waiting, w.clock + 6)];
    assert workers[id := Worker(Finished, w.clock + 4)] - {id} == workers - {id};
  }

  lemma EmptyRun(w: World)
    ensures Run(w, []) == w
  {
  }

  /** From the first visit on: the visitor's job is queued, and its refresh stores the first analysis. */
  lemma FirstVisitIsAnalyzed(lease: nat, now: nat, requested: bool, content: int)
    ensures var revision: nat := if requested then 1 else 0;
            var visitor, id := Client(0), Job(revision, now);
            var w := Run(Init(lease, now, requested), [Read(visitor)] + [Add(visitor)] + [Remove(visitor)]);
            && IsReady(w, id) && w.workers.Keys == {id}
            && Run(w, Refresh(id, Some(content))).row
               == Snapshot(None, now + 86_400_000, revision, Some(Analysis(content, w.clock + 2)), Some(now))
  {
    hide Run;
    var revision: nat := if requested then 1 else 0;
    var visitor, id := Client(0), Job(revision, now);
    var w := Init(lease, now, requested);
    EmptyRun(w);
    OneMore(w, [], Read(visitor));
    OneMore(w, [Read(visitor)], Add(visitor));
    OneMore(w, [Read(visitor)] + [Add(visitor)], Remove(visitor));
    assert [] + [Read(visitor)] == [Read(visitor)];
    VisitorQueues(lease, now, requested);
    var queued := Run(w, [Read(visitor)] + [Add(visitor)] + [Remove(visitor)]);
    ReadyJobRefreshes(queued, id, Some(content));
  }

  lemma VisitorReads(lease: nat, now: nat, requested: bool)
    ensures var revision: nat := if requested then 1 else 0;
            var w := Init(lease, now, requested);
            Step(w, Read(Client(0)))
            == w.(clock := 2, workers := map[Client(0) := Worker(Adding(Job(revision, now)), 0)])
  {
    hide AttemptStep, SaveStep, FailStep, CloseStep, RedeliverStep, BumpStep, ReadContextStep, AddStep;
  }

  lemma VisitorAdds(w: World, id: WorkerId)
    requires id.Job? && w.workers == map[Client(0) := Worker(Adding(id), 0)]
    ensures Step(Step(w, Add(Client(0))), Remove(Client(0)))
            == w.(clock := w.clock + 1, workers := map[id := Worker(Waiting, w.clock)])
  {
    hide AttemptStep, SaveStep, FailStep, CloseStep, RedeliverStep, BumpStep, ReadContextStep, DueAt;
    var added := Step(w, Add(Client(0)));
    assert added.workers == map[id := Worker(Waiting, w.clock), Client(0) := Worker(Finished, 0)];
    assert added.workers - {Client(0)} == map[id := Worker(Waiting, w.clock)];
  }

  lemma VisitorQueues(lease: nat, now: nat, requested: bool)
    ensures var revision: nat := if requested then 1 else 0;
            var visitor, w := Client(0), Init(lease, now, requested);
            var queued := Step(Step(Step(w, Read(visitor)), Add(visitor)), Remove(visitor));
            queued == w.(clock := 3, workers := map[Job(revision, now) := Worker(Waiting, 2)])
  {
    hide Step;
    VisitorReads(lease, now, requested);
    VisitorAdds(Step(Init(lease, now, requested), Read(Client(0))), Job(if requested then 1 else 0, now));
  }
}
