/** Whole histories of the dashboard: no lost wake-up, ids that are computed twice, and late runs. */
module DashboardRuns {
  import opened Options
  import opened Dashboard

  ghost predicate Undisturbed(w: World, events: seq<Event>) {
    forall k: nat | k < |events| :: !Disturbs(Run(w, events[..k]), events[k])
  }

  ghost predicate Unrefused(w: World, events: seq<Event>) {
    forall k: nat | k < |events| :: !Refuses(Run(w, events[..k]), events[k])
  }

  lemma {:induction false} RunKeepsOrderly(w: World, events: seq<Event>)
    requires Safe(w) && Orderly(w) && Unrefused(w, events)
    ensures Orderly(Run(w, events))
    decreases |events|
  {
    hide Safe, Orderly, Step, Refuses;
    if events == [] {
      assert Run(w, events) == w;
    } else {
      var n := |events| - 1;
      var shorter := events[..n];
      forall k: nat | k < n ensures !Refuses(Run(w, shorter[..k]), shorter[k]) {
        assert shorter[..k] == events[..k];
      }
      RunKeepsOrderly(w, shorter);
      RunKeepsSafe(w, shorter);
      StepKeepsOrderly(Run(w, shorter), events[n]);
    }
  }

  lemma UndisturbedIsUnrefused(w: World, events: seq<Event>)
    requires Undisturbed(w, events)
    ensures Unrefused(w, events)
  {
    hide Refuses, Step;
    forall k: nat | k < |events| ensures !Refuses(Run(w, events[..k]), events[k]) {
      assert !Disturbs(Run(w, events[..k]), events[k]);
    }
  }

  lemma LiveParts(w: World)
    requires Safe(w) && Orderly(w)
    ensures AgesOk(w) && TargetsYounger(w)
  {
  }

  lemma {:induction false} RunKeepsLive(w: World, events: seq<Event>)
    requires Safe(w) && Orderly(w) && Live(w) && Undisturbed(w, events)
    ensures Live(Run(w, events))
    decreases |events|
  {
    hide Safe, Orderly, Live, Step, Disturbs, AgesOk, TargetsYounger;
    if events == [] {
      assert Run(w, events) == w;
    } else {
      var n := |events| - 1;
      var shorter := events[..n];
      forall k: nat | k < n ensures !Disturbs(Run(w, shorter[..k]), shorter[k]) {
        assert shorter[..k] == events[..k];
      }
      RunKeepsLive(w, shorter);
      UndisturbedIsUnrefused(w, shorter);
      RunKeepsOrderly(w, shorter);
      RunKeepsSafe(w, shorter);
      LiveParts(Run(w, shorter));
      StepKeepsLive(Run(w, shorter), events[n]);
    }
  }

  /** No worker is running: only queued jobs, and finished ones whose ids are still taken. */
  predicate Quiet(w: World) {
    forall id | id in w.workers :: w.workers[id].phase.Waiting? || w.workers[id].phase.Finished?
  }

  /** A queued job that is ready at every time at which the row can be claimed. */
  ghost predicate QueuedInTime(w: World, id: WorkerId) {
    && id.Job? && At(w, id, Waiting)
    && forall at: nat | Claimable(w.row, w.row.revision, at, w.lease) :: id.at <= at
  }

  lemma LiveMeansQueuedInTime(w: World)
    requires Live(w)
    ensures SomeoneTimely(w) && (Quiet(w) ==> exists id :: QueuedInTime(w, id))
  {
    var v :| Timely(w, v);
    forall at: nat | Claimable(w.row, w.row.revision, at, w.lease) ensures DueAt(w.row, w.lease) <= at {
      DueAtIsLeastClaimTime(w.row, w.lease, at);
    }
    if Quiet(w) {
      assert QueuedInTime(w, v);
    }
  }

  /** No lost wake-up in undisturbed runs: runs may crash or fail and be redelivered at any point, and the workspace
      may pause. In every reachable state somebody will try in time; when nobody is running, that is a queued job
      whose time has come whenever the row can be claimed at its current revision. */
  lemma NoLostWakeUp(lease: nat, now: nat, requested: bool, events: seq<Event>)
    requires 0 < lease && Undisturbed(Init(lease, now, requested), events)
    ensures SomeoneTimely(Run(Init(lease, now, requested), events))
    ensures var w := Run(Init(lease, now, requested), events);
            Quiet(w) ==> exists id :: QueuedInTime(w, id)
  {
    hide Live, Step, Undisturbed, Quiet;
    var start := Init(lease, now, requested);
    InitSafe(lease, now, requested);
    YoungestCovers(start, Client(0));
    RunKeepsLive(start, events);
    LiveMeansQueuedInTime(Run(start, events));
  }

  /** The same again after a disturbance: from a visit on, in a state in which no id can be computed twice, such as
      one without unfinished jobs. */
  lemma NoLostWakeUpAfterVisit(w: World, client: WorkerId, events: seq<Event>)
    requires Safe(w) && Orderly(w) && client.Client? && client !in w.workers
    requires Undisturbed(Step(w, Visit(client)), events)
    ensures SomeoneTimely(Run(Step(w, Visit(client)), events))
    ensures Quiet(Run(Step(w, Visit(client)), events)) ==>
              exists id :: QueuedInTime(Run(Step(w, Visit(client)), events), id)
  {
    hide Live, Step, Undisturbed, Quiet, Orderly, RowOk, WorkersOk, StampsDiffer;
    assert !Refuses(w, Visit(client));
    StepKeepsSafe(w, Visit(client));
    StepKeepsOrderly(w, Visit(client));
    VisitRestoresLive(w, client);
    RunKeepsLive(Step(w, Visit(client)), events);
    LiveMeansQueuedInTime(Run(Step(w, Visit(client)), events));
  }

  /** Without such a refusal a finishing job never reschedules under its own id, which the queue would ignore. */
  lemma NeverReschedulesOwnId(lease: nat, now: nat, requested: bool, events: seq<Event>, id: WorkerId)
    requires 0 < lease && Unrefused(Init(lease, now, requested), events)
    ensures !At(Run(Init(lease, now, requested), events), id, Adding(id))
  {
    hide Step, Unrefused, RowOk, WorkersOk, StampsDiffer, AgesOk, TriedIsDead;
    InitSafe(lease, now, requested);
    RunKeepsOrderly(Init(lease, now, requested), events);
  }

  /** A claim of this job was refused although the row could be claimed. */
  ghost predicate RefusedBefore(w: World, events: seq<Event>, id: WorkerId) {
    exists k: nat :: k < |events| && Refuses(Run(w, events[..k]), events[k]) && events[k] == Attempt(id)
  }

  lemma RefusedLater(w: World, events: seq<Event>, id: WorkerId)
    requires events != [] && RefusedBefore(w, events[..|events| - 1], id)
    ensures RefusedBefore(w, events, id)
  {
    hide Refuses, Step;
    var shorter := events[..|events| - 1];
    var k: nat :| k < |shorter| && Refuses(Run(w, shorter[..k]), shorter[k]) && shorter[k] == Attempt(id);
    assert shorter[..k] == events[..k];
    assert Refuses(Run(w, events[..k]), events[k]);
  }

  lemma {:induction false} DeadOrRefused(w: World, events: seq<Event>, id: WorkerId)
    requires Safe(w) && Orderly(w)
    requires id in Run(w, events).workers && Tried(Run(w, events).workers[id].phase)
    ensures IdDead(Run(w, events), id) || RefusedBefore(w, events, id)
    decreases |events|
  {
    hide Safe, Step, IdDead, RefusedBefore, TargetsYounger, Claimable;
    if events == [] {
      assert Run(w, events) == w;
    } else {
      var n := |events| - 1;
      var before := Run(w, events[..n]);
      RunKeepsSafe(w, events[..n]);
      SafeParts(before);
      StepDeadens(before, events[n], id);
      if Refuses(before, events[n]) && events[n] == Attempt(id) {
        RefusedNow(w, events, id);
      } else if id in before.workers && Tried(before.workers[id].phase) {
        DeadOrRefused(w, events[..n], id);
        if RefusedBefore(w, events[..n], id) {
          RefusedLater(w, events, id);
        }
      }
    }
  }

  lemma SafeParts(w: World)
    requires Safe(w)
    ensures RowOk(w) && WorkersOk(w)
  {
  }

  lemma RefusedNow(w: World, events: seq<Event>, id: WorkerId)
    requires events != [] && Refuses(Run(w, events[..|events| - 1]), events[|events| - 1])
    requires events[|events| - 1] == Attempt(id)
    ensures RefusedBefore(w, events, id)
  {
    hide Step;
  }

  /** The step finishes, well or badly, a refresh that holds the row at its current revision. */
  predicate FinishesCurrent(w: World, e: Event) {
    && (e.Save? || e.Fail?)
    && IsHolding(w, e.id) && Owned(w.row, w.workers[e.id].phase.stamp, e.id.revision)
    && (e.Save? ==> w.workers[e.id].phase.readAt.Some?)
  }

  /** A request, a claim, the end of a refresh of the current revision, or the late release of a lease that was still
      delaying the row. */
  predicate Touches(w: World, e: Event) {
    match e
    case Bump(client) => client.Client? && client !in w.workers
    case Attempt(id) =>
      IsRun(id) && At(w, id, Fired) && w.active && Claimable(w.row, id.revision, w.now, w.lease) && w.lastClaim < w.now
    case Close(id) =>
      && id in w.workers && w.workers[id].phase.Closing? && w.row.processingAt == Some(w.workers[id].phase.stamp)
      && w.row.nextRefreshAt < w.row.processingAt.value + w.lease
    case _ => FinishesCurrent(w, e)
  }

  ghost predicate Untouched(w: World, events: seq<Event>, k: nat) {
    forall j: nat | k <= j < |events| :: !Touches(Run(w, events[..j]), events[j])
  }

  /** An id whose time has come. */
  predicate Ripe(w: World, id: WorkerId) {
    id.Job? && id.at <= w.now && IdOk(w, id)
  }

  lemma StepKeepsRipe(w: World, e: Event, id: WorkerId)
    requires RowOk(w) && Ripe(w, id)
    ensures Ripe(Step(w, e), id)
  {
    hide DueAt;
  }

  lemma CloseLeavesCurrent(w: World, j: WorkerId, id: WorkerId)
    requires RowOk(w) && WorkersOk(w) && Ripe(w, id)
    ensures id == CurrentId(CloseStep(w, j)) <==> id == CurrentId(w) && !Touches(w, Close(j))
  {
    if j in w.workers {
      assert WorkerOk(w, j, w.workers[j]);
    }
  }

  /** An id whose time has come stays the current one exactly over the steps that do not touch the row, and once it
      is not, it never is again. */
  lemma StaysCurrentExactly(w: World, e: Event, id: WorkerId)
    requires RowOk(w) && WorkersOk(w) && Ripe(w, id)
    ensures id == CurrentId(Step(w, e)) <==> id == CurrentId(w) && !Touches(w, e)
  {
    hide WorkersOk, CloseStep;
    if e.Close? {
      CloseLeavesCurrent(w, e.id, id);
    }
  }

  lemma UntouchedLonger(w: World, events: seq<Event>, k: nat)
    requires k < |events|
    ensures var n := |events| - 1;
            Untouched(w, events, k) <==> Untouched(w, events[..n], k) && !Touches(Run(w, events[..n]), events[n])
  {
    hide Step, Touches, Run;
    var n := |events| - 1;
    assert forall j: nat | k <= j < n :: events[..n][..j] == events[..j];
  }

  lemma {:induction false} CurrentSince(w: World, events: seq<Event>, k: nat, id: WorkerId)
    requires Safe(w) && k <= |events| && Ripe(Run(w, events[..k]), id)
    ensures Ripe(Run(w, events), id)
    ensures id == CurrentId(Run(w, events)) <==> id == CurrentId(Run(w, events[..k])) && Untouched(w, events, k)
    decreases |events|
  {
    hide Safe, Step, Ripe, CurrentId, Touches, RowOk, WorkersOk;
    if k == |events| {
      assert events[..k] == events;
    } else {
      var n := |events| - 1;
      var shorter := events[..n];
      assert shorter[..k] == events[..k];
      CurrentSince(w, shorter, k, id);
      RunKeepsSafe(w, shorter);
      SafeParts(Run(w, shorter));
      StepKeepsRipe(Run(w, shorter), events[n], id);
      StaysCurrentExactly(Run(w, shorter), events[n], id);
      UntouchedLonger(w, events, k);
    }
  }

  /** Event `k` refused this job a row it could have claimed, when its id was the current one. */
  ghost predicate RefusedCurrent(w: World, events: seq<Event>, id: WorkerId, k: nat)
    requires k < |events|
  {
    var before := Run(w, events[..k]);
    Refuses(before, events[k]) && events[k] == Attempt(id) && id == CurrentId(before)
  }

  lemma RefusedIsRipe(w: World, id: WorkerId)
    requires WorkersOk(w) && Refuses(w, Attempt(id))
    ensures Ripe(w, id)
  {
    assert WorkerOk(w, id, w.workers[id]);
  }

  /** In every run: a finishing job is about to reschedule under its own id exactly if its claim was refused when the
      row could be claimed and this id was the current one, nothing has touched the row since, and the workspace is
      active again. */
  lemma ReschedulesOwnIdExactly(lease: nat, now: nat, requested: bool, events: seq<Event>, id: WorkerId)
    requires 0 < lease && At(Run(Init(lease, now, requested), events), id, Resuming)
    ensures var start := Init(lease, now, requested); var w := Run(start, events);
            At(Step(w, Read(id)), id, Adding(id)) <==>
              w.active && exists k: nat :: k < |events| && RefusedCurrent(start, events, id, k)
                                           && Untouched(start, events, k)
  {
    hide Safe, Orderly, IdDead, CurrentId, RefusedBefore, Refuses, Untouched, Ripe, WorkersOk, RowOk;
    var start := Init(lease, now, requested);
    var w := Run(start, events);
    InitSafe(lease, now, requested);
    if w.active && id == CurrentId(w) {
      RunKeepsSafe(start, events);
      SafeParts(w);
      CurrentIdIsAlive(w);
      DeadOrRefused(start, events, id);
      var k := RefusedAt(start, events, id);
      SinceRefusal(start, events, id, k);
    }
    forall k: nat | k < |events| && RefusedCurrent(start, events, id, k) && Untouched(start, events, k)
      ensures id == CurrentId(w)
    {
      SinceRefusal(start, events, id, k);
    }
  }

  lemma RefusedAt(w: World, events: seq<Event>, id: WorkerId) returns (k: nat)
    requires RefusedBefore(w, events, id)
    ensures k < |events| && Refuses(Run(w, events[..k]), events[k]) && events[k] == Attempt(id)
  {
    hide Refuses;
    k :| k < |events| && Refuses(Run(w, events[..k]), events[k]) && events[k] == Attempt(id);
  }

  lemma SinceRefusal(w: World, events: seq<Event>, id: WorkerId, k: nat)
    requires Safe(w) && k < |events| && Refuses(Run(w, events[..k]), events[k]) && events[k] == Attempt(id)
    ensures id == CurrentId(Run(w, events)) <==> RefusedCurrent(w, events, id, k) && Untouched(w, events, k)
  {
    hide Safe, Refuses, CurrentId, Untouched, Ripe;
    RunKeepsSafe(w, events[..k]);
    SafeParts(Run(w, events[..k]));
    RefusedIsRipe(Run(w, events[..k]), id);
    CurrentSince(w, events, k, id);
  }

  /** Whenever a job of the current revision and due time is refused and the workspace becomes active before the
      job reads the row, it computes its own id. */
  lemma RefusedThenActive(w: World, id: WorkerId)
    requires At(w, id, Fired) && id == CurrentId(w) && id.at <= w.now && !w.active
    ensures Refuses(w, Attempt(id))
    ensures At(Step(Step(Step(w, Attempt(id)), SetActive(true)), Read(id)), id, Adding(id))
  {
    DueAtIsLeastClaimTime(w.row, w.lease, w.now);
  }

  lemma {:induction false} RunFrom(w: World, events: seq<Event>, k: nat)
    requires k < |events|
    ensures Run(w, events[k..]) == Run(Step(w, events[k]), events[k + 1..])
    decreases |events|
  {
    hide Step;
    var n := |events| - 1;
    if k == n {
      assert events[k..][..0] == [] && events[k + 1..] == [];
    } else {
      RunFrom(w, events[..n], k);
      assert events[k..][..n - k] == events[..n][k..] && events[k + 1..][..n - k - 1] == events[..n][k + 1..];
    }
  }

  const JOB := Job(0, 5)

  lemma FirstVisitReads()
    ensures Step(Init(10, 5, false), Read(Client(0)))
            == Init(10, 5, false).(clock := 2, workers := map[Client(0) := Worker(Adding(JOB), 0)])
  {
  }

  lemma FirstVisitAdds(w: World)
    requires w == Init(10, 5, false).(clock := 2, workers := map[Client(0) := Worker(Adding(JOB), 0)])
    ensures AddStep(w, Client(0))
            == w.(clock := 3, workers := map[JOB := Worker(Waiting, 2), Client(0) := Worker(Finished, 0)])
  {
  }

  /** The first visitor schedules a job. */
  lemma FirstVisitQueues()
    ensures Step(Step(Step(Init(10, 5, false), Read(Client(0))), Add(Client(0))), Remove(Client(0)))
            == World(10, 5, 3, true, Snapshot(None, 5, 0, None, None), -1, 0, 0, map[JOB := Worker(Waiting, 2)])
  {
    hide AttemptStep, SaveStep, FailStep, CloseStep, ReadContextStep, BumpStep, AddStep;
    var w := Step(Init(10, 5, false), Read(Client(0)));
    FirstVisitReads();
    FirstVisitAdds(w);
    assert AddStep(w, Client(0)).workers - {Client(0)} == map[JOB := Worker(Waiting, 2)];
  }

  lemma JobIsRefused(w: World)
    requires w == World(10, 5, 3, true, Snapshot(None, 5, 0, None, None), -1, 0, 0, map[JOB := Worker(Waiting, 2)])
    ensures Step(Step(Step(w, Fire(JOB)), SetActive(false)), Attempt(JOB))
            == w.(active := false, clock := 5, workers := map[JOB := Worker(Resuming, 4)])
  {
    hide SaveStep, FailStep, CloseStep, ReadContextStep, BumpStep, AddStep, DueAt;
    var fired := Step(w, Fire(JOB));
    assert fired == w.(clock := 4, workers := map[JOB := Worker(Fired, 3)]);
  }

  lemma RefusedJobReads(w: World)
    requires w == World(10, 5, 5, true, Snapshot(None, 5, 0, None, None), -1, 0, 0, map[JOB := Worker(Resuming, 4)])
    ensures Step(w, Read(JOB)) == w.(clock := 6, workers := map[JOB := Worker(Adding(JOB), 4)])
  {
    hide AttemptStep, SaveStep, FailStep, CloseStep, ReadContextStep, BumpStep, AddStep;
  }

  lemma RefusedJobAdds(w: World)
    requires w == World(10, 5, 6, true, Snapshot(None, 5, 0, None, None), -1, 0, 0, map[JOB := Worker(Adding(JOB), 4)])
    ensures Step(Step(w, Add(JOB)), Remove(JOB)) == w.(clock := 7, workers := map[])
  {
    hide AttemptStep, SaveStep, FailStep, CloseStep, ReadContextStep, BumpStep;
    var added := Step(w, Add(JOB));
    assert added == w.(clock := 7, workers := map[JOB := Worker(Finished, 4)]);
    assert added.workers - {JOB} == map[];
  }

  /** The job is refused, reads the row of the active workspace, and is gone. */
  lemma RefusedJobIsGone(w: World)
    requires w == World(10, 5, 3, true, Snapshot(None, 5, 0, None, None), -1, 0, 0, map[JOB := Worker(Waiting, 2)])
    ensures var refused := Step(Step(Step(w, Fire(JOB)), SetActive(false)), Attempt(JOB));
            Step(Step(Step(Step(refused, SetActive(true)), Read(JOB)), Add(JOB)), Remove(JOB))
            == w.(clock := 7, workers := map[])
  {
    hide AttemptStep, SaveStep, FailStep, CloseStep, ReadContextStep, BumpStep, AddStep;
    JobIsRefused(w);
    var active := Step(Step(Step(Step(w, Fire(JOB)), SetActive(false)), Attempt(JOB)), SetActive(true));
    RefusedJobReads(active);
    RefusedJobAdds(Step(active, Read(JOB)));
  }

  const REFUSED_RUN: seq<Event> :=
    [Read(Client(0)), Add(Client(0)), Remove(Client(0)), Fire(JOB), SetActive(false), Attempt(JOB), SetActive(true),
     Read(JOB), Add(JOB), Remove(JOB)]

  /** Such a run, from the start: in the end nobody is left, although the workspace is active and the row could be
      claimed. The wake-up is lost. */
  lemma PausedSubscriptionLosesWakeUp()
    ensures var w := Run(Init(10, 5, false), REFUSED_RUN);
            w.workers == map[] && w.active && Claimable(w.row, w.row.revision, w.now, w.lease) && !SomeoneTimely(w)
  {
    hide Step, Init;
    var events := REFUSED_RUN;
    assert events[0..] == events && events[10..] == [];
    var w0 := Init(10, 5, false);
    var w1 := NextInRun(w0, events, 0);
    var w2 := NextInRun(w1, events, 1);
    var w3 := NextInRun(w2, events, 2);
    var w4 := NextInRun(w3, events, 3);
    var w5 := NextInRun(w4, events, 4);
    var w6 := NextInRun(w5, events, 5);
    var w7 := NextInRun(w6, events, 6);
    var w8 := NextInRun(w7, events, 7);
    var w9 := NextInRun(w8, events, 8);
    var w10 := NextInRun(w9, events, 9);
    FirstVisitQueues();
    RefusedJobIsGone(w3);
  }

  lemma NextInRun(w: World, events: seq<Event>, k: nat) returns (next: World)
    requires k < |events|
    ensures next == Step(w, events[k]) && Run(w, events[k..]) == Run(next, events[k + 1..])
  {
    next := Step(w, events[k]);
    RunFrom(w, events, k);
  }

  /** An analysis is stored only if its context was read after the latest refresh request, whatever crashed. */
  lemma StoredContextFollowsRequest(lease: nat, now: nat, requested: bool, events: seq<Event>, e: Event)
    requires 0 < lease
    ensures var w := Run(Init(lease, now, requested), events);
            var w' := Step(w, e);
            w'.row.analysis != w.row.analysis ==>
              && e.Save? && w'.row.analysis.Some?
              && w'.row.analysis.value.content == e.content
              && w.bumpedAt < w'.row.analysis.value.readAt
  {
    InitSafe(lease, now, requested);
    RunKeepsSafe(Init(lease, now, requested), events);
    StoresAfterRequest(Run(Init(lease, now, requested), events), e);
  }

  lemma StoresAfterRequest(w: World, e: Event)
    requires WorkersOk(w)
    ensures Step(w, e).row.analysis != w.row.analysis ==>
              && e.Save? && Step(w, e).row.analysis.Some?
              && Step(w, e).row.analysis.value.content == e.content
              && w.bumpedAt < Step(w, e).row.analysis.value.readAt
  {
    if e.Save? && e.id in w.workers {
      assert WorkerOk(w, e.id, w.workers[e.id]);
    }
  }

  /** The request keeps waiting: no newer one, and no refresh of the current revision finishes. */
  predicate KeepsWaiting(w: World, e: Event) {
    !e.Bump? && !FinishesCurrent(w, e)
  }

  /** After a request at time `w.now` the row stays due at that time and at the requested revision, until a refresh
      claimed at that revision finishes or a newer request comes. */
  lemma {:induction false} RequestStaysDue(w: World, client: WorkerId, events: seq<Event>)
    requires client.Client? && client !in w.workers
    requires forall k: nat | k < |events| :: KeepsWaiting(Run(Step(w, Bump(client)), events[..k]), events[k])
    ensures var row := Run(Step(w, Bump(client)), events).row;
            row.nextRefreshAt == w.now && row.revision == w.row.revision + 1
    decreases |events|
  {
    if events == [] {
    } else {
      var n := |events| - 1;
      var shorter := events[..n];
      forall k: nat | k < n ensures KeepsWaiting(Run(Step(w, Bump(client)), shorter[..k]), shorter[k]) {
        assert shorter[..k] == events[..k];
        assert KeepsWaiting(Run(Step(w, Bump(client)), events[..k]), events[k]);
      }
      RequestStaysDue(w, client, shorter);
      WaitingKeepsDue(Run(Step(w, Bump(client)), shorter), events[n]);
    }
  }

  lemma WaitingKeepsDue(w: World, e: Event)
    requires KeepsWaiting(w, e)
    ensures Step(w, e).row.nextRefreshAt == w.row.nextRefreshAt && Step(w, e).row.revision == w.row.revision
  {
    hide Claimable, DueAt;
  }

  /** The lease under `stamp` was given up or taken over. */
  predicate Overtaken(w: World, stamp: nat) {
    stamp <= w.lastClaim && w.row.processingAt != Some(stamp)
  }

  lemma StepKeepsOvertaken(w: World, stamp: nat, e: Event)
    requires Overtaken(w, stamp)
    ensures Overtaken(Step(w, e), stamp)
  {
    hide DueAt, Claimable;
  }

  lemma {:induction false} OvertakenForever(w: World, stamp: nat, events: seq<Event>)
    requires Overtaken(w, stamp)
    ensures Overtaken(Run(w, events), stamp)
    decreases |events|
  {
    hide Step, Overtaken;
    if events == [] {
    } else {
      OvertakenForever(w, stamp, events[..|events| - 1]);
      StepKeepsOvertaken(Run(w, events[..|events| - 1]), stamp, events[|events| - 1]);
    }
  }

  /** A holder whose lease was taken over neither writes a result nor releases its successor,
      however late it comes back. */
  lemma LateHolderIsFenced(w: World, stamp: nat, events: seq<Event>, e: Event)
    requires Overtaken(w, stamp)
    ensures var w1 := Run(w, events);
            (e.Save? || e.Fail? || e.Close?) && e.id in w1.workers && Stamped(w1.workers[e.id].phase)
              && w1.workers[e.id].phase.stamp == stamp
            ==> Step(w1, e).row == w1.row
  {
    OvertakenForever(w, stamp, events);
  }
}
