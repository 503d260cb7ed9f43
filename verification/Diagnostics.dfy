/** A workspace from its onboarding drafts to its diagnostics analysis.

    Requests of several processes interleave: each read, each guarded update and each transaction is one
    step, and a model call may take any time, fail or never return. Claim times of one workspace differ. */
module Diagnostics {
  import opened Options
  import opened Billing

  // ---------------------------------------------------------------------------
  // The workspace row
  // ---------------------------------------------------------------------------

  type Answers = seq<string>

  datatype Analysis = Analysis(answers: Answers, reply: int)

  /** The onboarding fields; `step` is the last step saved. */
  datatype Draft = Draft(company: Option<string>, owner: Option<string>, goals: Option<string>, step: nat,
    complete: bool)

  datatype Workspace = Workspace(
    draft: Draft, answers: Answers, analysis: Option<Analysis>, diagnosed: bool, processingAt: Option<int>,
    trialStartedAt: Option<nat>)

  datatype Form = Company(text: string) | Owner(text: string) | Goals(text: string)

  function Max(a: nat, b: nat): nat {
    if a < b then b else a
  }

  /** `assertEditable`, and the step that must come first. */
  predicate MayOpen(r: Workspace, form: Form) {
    && !r.diagnosed && r.processingAt.None?
    && (form.Owner? ==> 1 <= r.draft.step) && (form.Goals? ==> 2 <= r.draft.step)
  }

  function Filled(d: Draft, form: Form, readStep: nat): Draft {
    match form
    case Company(text) => d.(company := Some(text), step := Max(readStep, 1))
    case Owner(text) => d.(owner := Some(text), step := Max(readStep, 2))
    case Goals(text) => d.(goals := Some(text), step := 3, complete := true)
  }

  function SaveForm(r: Workspace, form: Form, readStep: nat): Workspace {
    if r.draft.step == readStep && !r.diagnosed && r.processingAt.None?
    then r.(draft := Filled(r.draft, form, readStep))
    else r
  }

  predicate Claimable(r: Workspace, staleBefore: int) {
    r.analysis.None? && (r.processingAt.None? || r.processingAt.value < staleBefore)
  }

  function TakeClaim(r: Workspace, claimTime: int, staleBefore: int, answers: Answers): Workspace {
    if Claimable(r, staleBefore) then r.(processingAt := Some(claimTime), answers := answers) else r
  }

  function ReleaseClaim(r: Workspace, claimTime: int): Workspace {
    if r.processingAt == Some(claimTime) then r.(processingAt := None) else r
  }

  /** The row and the owner's account after the final transaction, which starts the trial first and rolls
      everything back when the claim is gone. */
  datatype Stored = Stored(row: Workspace, account: Account)

  function StoreAnalysis(r: Workspace, a: Account, claimTime: int, analysis: Analysis, now: nat): Stored {
    if r.processingAt == Some(claimTime)
    then
      var started := StartTrial(a, now);
      Stored(r.(analysis := Some(analysis), diagnosed := true, processingAt := None,
        trialStartedAt := started.trialStartedAt),
             started)
    else Stored(r, a)
  }

  class WorkspaceRow {
    var draft: Draft
    var answers: Answers
    var analysis: Option<Analysis>
    var diagnosed: bool
    var processingAt: Option<int>
    var trialStartedAt: Option<nat>

    function Row(): Workspace
      reads this
    {
      Workspace(draft, answers, analysis, diagnosed, processingAt, trialStartedAt)
    }

    constructor (company: string)
      ensures Row() == Created(company)
    {
      draft, answers, analysis := Draft(Some(company), None, None, 1, false), [], None;
      diagnosed, processingAt, trialStartedAt := false, None, None;
    }

    method UpdateDraft(form: Form, readStep: nat) returns (saved: bool)
      modifies `draft
      ensures saved == old(draft.step == readStep && !diagnosed && processingAt.None?)
      ensures Row() == SaveForm(old(Row()), form, readStep)
    {
      saved := draft.step == readStep && !diagnosed && processingAt.None?;
      if saved {
        match form
        case Company(text) => draft := draft.(company := Some(text), step := Max(readStep, 1));
        case Owner(text) => draft := draft.(owner := Some(text), step := Max(readStep, 2));
        case Goals(text) => draft := draft.(goals := Some(text), step := 3, complete := true);
      }
    }

    method ClaimDiagnostics(claimTime: int, staleBefore: int, submitted: Answers) returns (claimed: bool)
      modifies `processingAt, `answers
      ensures claimed == old(Claimable(Row(), staleBefore))
      ensures Row() == TakeClaim(old(Row()), claimTime, staleBefore, submitted)
    {
      claimed := analysis.None? && (processingAt.None? || processingAt.value < staleBefore);
      if claimed {
        processingAt, answers := Some(claimTime), submitted;
      }
    }

    method CompleteDiagnostics(a: Account, claimTime: int, result: Analysis, now: nat) returns (account: Account)
      modifies `analysis, `diagnosed, `processingAt, `trialStartedAt
      ensures Stored(Row(), account) == StoreAnalysis(old(Row()), a, claimTime, result, now)
    {
      account := StartTrial(a, now);
      if processingAt == Some(claimTime) {
        analysis, diagnosed, processingAt, trialStartedAt := Some(result), true, None, account.trialStartedAt;
      } else {
        account := a;
      }
    }

    method EndClaim(claimTime: int)
      modifies `processingAt
      ensures Row() == ReleaseClaim(old(Row()), claimTime)
    {
      if processingAt == Some(claimTime) {
        processingAt := None;
      }
    }
  }

  function Created(company: string): Workspace {
    Workspace(Draft(Some(company), None, None, 1, false), [], None, false, None, None)
  }

  // ---------------------------------------------------------------------------
  // Interleavings
  // ---------------------------------------------------------------------------

  const SPARE: nat := 30_000

  datatype Process =
    | Admitted(submitted: Answers)
    | Working(submitted: Answers, claimTime: int)
    | Analyzed(analysis: Analysis, claimTime: int)
    | Ending(claimTime: int)
    | Editing(form: Form, readStep: nat)

  /** What a claim found or stored in the row. */
  datatype Claim = Claim(answers: Answers, draft: Draft)

  /** `budget` bounds a model call, `claims` and `replies` are all claims and model answers so far. */
  datatype World = World(
    now: int, budget: nat, row: Workspace, account: Account, processes: map<nat, Process>,
    claims: map<int, Claim>, replies: seq<Analysis>)

  datatype Event =
    | Tick(ms: nat)
    | Submit(pid: nat, submitted: Answers)
    | MakeClaim(pid: nat, claimTime: int, at: int)
    | Reply(pid: nat, reply: int)
    | CallFails(pid: nat)
    | Finish(pid: nat, now: nat, broken: bool)
    | End(pid: nat)
    | Crash(pid: nat)
    | OpenForm(pid: nat, form: Form)
    | Save(pid: nat)
    | Bill(account: Account)

  function Goto(w: World, pid: nat, p: Process): World {
    w.(processes := w.processes[pid := p])
  }

  function Leave(w: World, pid: nat): World {
    w.(processes := w.processes - {pid})
  }

  predicate ClaimSucceeds(w: World, pid: nat, claimTime: int, at: int) {
    && pid in w.processes && w.processes[pid].Admitted?
    && claimTime <= at <= w.now && claimTime !in w.claims
    && Claimable(w.row, at - w.budget - SPARE)
  }

  function MakeClaimStep(w: World, pid: nat, claimTime: int, at: int): World {
    if !ClaimSucceeds(w, pid, claimTime, at) then w
    else
      var submitted := w.processes[pid].submitted;
      Goto(w, pid, Working(submitted, claimTime))
      .(row := TakeClaim(w.row, claimTime, at - w.budget - SPARE, submitted),
        claims := w.claims[claimTime := Claim(submitted, w.row.draft)])
  }

  function FinishStep(w: World, pid: nat, now: nat, broken: bool): World {
    if !(pid in w.processes && w.processes[pid].Analyzed?) then w
    else
      var Analyzed(analysis, claimTime) := w.processes[pid];
      var stored := StoreAnalysis(w.row, w.account, claimTime, analysis, now);
      if broken then Goto(w, pid, Ending(claimTime))
      else Goto(w, pid, Ending(claimTime)).(row := stored.row, account := stored.account)
  }

  function Step(w: World, e: Event): World {
    match e
    case Tick(ms) => w.(now := w.now + ms)
    case Submit(pid, submitted) =>
      if pid in w.processes || !w.row.draft.complete || (w.row.diagnosed && w.row.analysis.Some?) then w
      else Goto(w, pid, Admitted(submitted))
    case MakeClaim(pid, claimTime, at) => MakeClaimStep(w, pid, claimTime, at)
    case Reply(pid, reply) =>
      if pid in w.processes && w.processes[pid].Working?
      then
        var analysis := Analysis(w.processes[pid].submitted, reply);
        Goto(w, pid, Analyzed(analysis, w.processes[pid].claimTime)).(replies := w.replies + [analysis])
      else w
    case CallFails(pid) =>
      if pid in w.processes && w.processes[pid].Working? then Goto(w, pid, Ending(w.processes[pid].claimTime)) else w
    case Finish(pid, now, broken) => FinishStep(w, pid, now, broken)
    case End(pid) =>
      if pid in w.processes && w.processes[pid].Ending?
      then Leave(w, pid).(row := ReleaseClaim(w.row, w.processes[pid].claimTime))
      else w
    case Crash(pid) => Leave(w, pid)
    case OpenForm(pid, form) =>
      if pid in w.processes || !MayOpen(w.row, form) then w else Goto(w, pid, Editing(form, w.row.draft.step))
    case Save(pid) =>
      if pid in w.processes && w.processes[pid].Editing?
      then Leave(w, pid).(row := SaveForm(w.row, w.processes[pid].form, w.processes[pid].readStep))
      else w
    case Bill(account) => w.(account := account)
  }

  function Run(w: World, events: seq<Event>): World
    decreases |events|
  {
    if events == [] then w else Step(Run(w, events[..|events| - 1]), events[|events| - 1])
  }

  /** No process is at work; the row may be one that an older version marked as diagnosed without keeping
      an analysis. */
  predicate Starts(w: World) {
    && w.row.analysis.None? && w.row.processingAt.None? && DraftOk(w.row.draft)
    && w.processes == map[] && w.claims == map[] && w.replies == []
  }

  // ---------------------------------------------------------------------------
  // Invariant
  // ---------------------------------------------------------------------------

  predicate HasClaim(p: Process) {
    p.Working? || p.Analyzed? || p.Ending?
  }

  predicate ProcessOk(w: World, p: Process) {
    && (HasClaim(p) ==> p.claimTime in w.claims)
    && (p.Working? ==> w.claims[p.claimTime].answers == p.submitted)
    && (p.Analyzed? ==> w.claims[p.claimTime].answers == p.analysis.answers && p.analysis in w.replies)
    && (p.Editing? ==> (p.form.Owner? ==> 1 <= p.readStep) && (p.form.Goals? ==> 2 <= p.readStep))
  }

  ghost predicate ProcessesOk(w: World) {
    && (forall pid | pid in w.processes :: ProcessOk(w, w.processes[pid]))
    && (forall p, q | p in w.processes && q in w.processes && p != q && HasClaim(w.processes[p])
         && HasClaim(w.processes[q]) ::
          w.processes[p].claimTime != w.processes[q].claimTime)
  }

  /** While a claim is set, the row has exactly what the claim found and stored. */
  predicate ClaimOk(w: World) {
    w.row.processingAt.Some? ==>
      && w.row.processingAt.value in w.claims
      && w.claims[w.row.processingAt.value] == Claim(w.row.answers, w.row.draft)
      && w.row.draft.complete
  }

  predicate AnalysisOk(w: World) {
    w.row.analysis.Some? ==>
      && w.row.processingAt.None? && w.row.diagnosed && w.row.draft.complete
      && w.row.analysis.value.answers == w.row.answers && w.row.analysis.value in w.replies
  }

  predicate DraftOk(d: Draft) {
    && 1 <= d.step <= 3 && d.company.Some?
    && (2 <= d.step ==> d.owner.Some?)
    && (3 == d.step <==> d.complete)
    && (d.complete ==> d.goals.Some?)
  }

  /** A run still has its claim, or is older than the model call can take. */
  predicate Timely(w: World, p: Process) {
    p.Working? || p.Analyzed? ==> w.row.processingAt == Some(p.claimTime) || p.claimTime < w.now - w.budget - SPARE
  }

  ghost predicate AllTimely(w: World) {
    forall pid | pid in w.processes :: Timely(w, w.processes[pid])
  }

  ghost predicate Inv(w: World) {
    && ProcessesOk(w) && ClaimOk(w) && AnalysisOk(w) && DraftOk(w.row.draft) && AllTimely(w)
    && (forall pid | pid in w.processes && w.processes[pid].Admitted? :: w.row.draft.complete)
  }

  lemma StepKeepsProcesses(w: World, e: Event)
    requires ProcessesOk(w)
    ensures ProcessesOk(Step(w, e))
  {
    hide StartTrial;
  }

  lemma StepKeepsRow(w: World, e: Event)
    requires Inv(w)
    ensures var w' := Step(w, e); ClaimOk(w') && AnalysisOk(w') && DraftOk(w'.row.draft)
  {
    hide StartTrial, AllTimely;
    match e
    case Finish(pid, _, _) => assert pid in w.processes ==> ProcessOk(w, w.processes[pid]);
    case Save(pid) => assert pid in w.processes ==> ProcessOk(w, w.processes[pid]);
    case _ =>
  }

  lemma StepKeepsTimely(w: World, e: Event)
    requires ProcessesOk(w) && AllTimely(w)
    ensures AllTimely(Step(w, e))
  {
    hide StartTrial;
  }

  lemma StepKeepsComplete(w: World, e: Event)
    requires w.row.draft.complete
    ensures Step(w, e).row.draft.complete
  {
    hide StartTrial;
  }

  lemma StepKeepsInv(w: World, e: Event)
    requires Inv(w)
    ensures Inv(Step(w, e))
  {
    hide StartTrial, ProcessesOk, ClaimOk, AnalysisOk, DraftOk, AllTimely;
    StepKeepsProcesses(w, e);
    StepKeepsRow(w, e);
    StepKeepsTimely(w, e);
    if w.row.draft.complete {
      StepKeepsComplete(w, e);
    }
  }

  lemma {:induction false} RunKeepsInv(w: World, events: seq<Event>)
    requires Inv(w)
    ensures Inv(Run(w, events))
    decreases |events|
  {
    hide Inv, Step;
    if events == [] {
    } else {
      RunKeepsInv(w, events[..|events| - 1]);
      StepKeepsInv(Run(w, events[..|events| - 1]), events[|events| - 1]);
    }
  }

  // ---------------------------------------------------------------------------
  // Whole runs
  // ---------------------------------------------------------------------------

  lemma StepKeepsAnalysis(w: World, e: Event)
    requires Inv(w) && w.row.analysis.Some?
    ensures Step(w, e).row == w.row
  {
    hide StartTrial, ProcessesOk, AllTimely, DraftOk;
  }

  /** The analysis is written at most once: with it the whole row is final, answers and onboarding included. */
  lemma {:induction false} AnalysisIsFinal(w: World, events: seq<Event>)
    requires Inv(w) && w.row.analysis.Some?
    ensures Run(w, events).row == w.row
    decreases |events|
  {
    hide Inv, Step;
    if events == [] {
    } else {
      AnalysisIsFinal(w, events[..|events| - 1]);
      RunKeepsInv(w, events[..|events| - 1]);
      StepKeepsAnalysis(Run(w, events[..|events| - 1]), events[|events| - 1]);
    }
  }

  /** Over every interleaving: a stored analysis is a model's answer to exactly the stored answers, of an
      onboarding that is complete. */
  lemma AnalysisFitsAnswers(start: World, events: seq<Event>)
    requires Starts(start)
    ensures var w := Run(start, events);
            w.row.analysis.Some? ==>
              && w.row.analysis.value.answers == w.row.answers
              && w.row.analysis.value in w.replies
              && w.row.draft.complete && w.row.draft.company.Some? && w.row.draft.owner.Some? && w.row.draft.goals.Some?
  {
    hide Step;
    RunKeepsInv(start, events);
  }

  lemma {:induction false} ClaimsAreKept(w: World, events: seq<Event>, claimTime: int)
    requires claimTime in w.claims
    ensures claimTime in Run(w, events).claims && Run(w, events).claims[claimTime] == w.claims[claimTime]
    decreases |events|
  {
    hide StartTrial;
    if events == [] {
    } else {
      ClaimsAreKept(w, events[..|events| - 1], claimTime);
    }
  }

  /** As long as one claim is set, no onboarding field and no answer changes. */
  lemma NothingChangesDuringClaim(w: World, events: seq<Event>)
    requires Inv(w) && w.row.processingAt.Some? && Run(w, events).row.processingAt == w.row.processingAt
    ensures Run(w, events).row.draft == w.row.draft && Run(w, events).row.answers == w.row.answers
  {
    hide Step, ProcessesOk, AllTimely, DraftOk;
    RunKeepsInv(w, events);
    ClaimsAreKept(w, events, w.row.processingAt.value);
  }

  /** A run whose model answered within the time budget still has its claim, and stores its analysis unless
      the database fails. */
  lemma TimelyRunStores(w: World, pid: nat, now: nat)
    requires Inv(w) && pid in w.processes && w.processes[pid].Analyzed?
    requires w.now <= w.processes[pid].claimTime + w.budget + SPARE
    ensures Step(w, Finish(pid, now, false)).row.analysis == Some(w.processes[pid].analysis)
    ensures var w' := Step(w, Finish(pid, now, false)); w'.row.trialStartedAt == w'.account.trialStartedAt
  {
    assert Timely(w, w.processes[pid]);
  }

  /** The step is a final transaction that still has its claim and commits. */
  predicate Stores(w: World, e: Event) {
    e.Finish? && !e.broken && e.pid in w.processes && w.processes[e.pid].Analyzed?
    && w.row.processingAt == Some(w.processes[e.pid].claimTime)
  }

  /** The first analysis and the trial start in one step. */
  ghost predicate StoredFirst(w: World, w': World, e: Event)
    requires Stores(w, e)
  {
    && w.row.analysis.None? && w'.row.analysis == Some(w.processes[e.pid].analysis)
    && w'.account == StartTrial(w.account, e.now) && w'.row.trialStartedAt == w'.account.trialStartedAt
  }

  predicate SameTrial(w: World, w': World) {
    w'.account == w.account && w'.row.trialStartedAt == w.row.trialStartedAt && w'.row.analysis == w.row.analysis
  }

  /** Every step stores the first analysis and starts the trial with it, or leaves trial and analysis untouched:
      also a run that was superseded, and fails after another run has stored its analysis. */
  lemma StepStoresOrLeavesTrial(w: World, e: Event)
    requires Inv(w) && !e.Bill?
    ensures if Stores(w, e) then StoredFirst(w, Step(w, e), e) else SameTrial(w, Step(w, e))
  {
    hide StartTrial, ProcessesOk, AllTimely, DraftOk;
  }

  /** Over every run, other billing apart: for each step that is not the one that stores the analysis, the trial
      after it is the trial before it. */
  lemma FailingRunsLeaveTrial(w: World, events: seq<Event>, k: nat)
    requires Inv(w) && k < |events| && !events[k].Bill?
    ensures var before, after := Run(w, events[..k]), Run(w, events[..k + 1]);
            if Stores(before, events[k]) then StoredFirst(before, after, events[k]) else SameTrial(before, after)
  {
    hide Inv, Step, Stores;
    RunKeepsInv(w, events[..k]);
    assert events[..k + 1][..k] == events[..k];
    StepStoresOrLeavesTrial(Run(w, events[..k]), events[k]);
  }

  /** Step `k` of the run stored the analysis, and with it started the trial that `after` has. */
  ghost predicate StartedBy(w: World, events: seq<Event>, k: nat, after: World)
    requires k < |events|
  {
    && events[k].Finish? && Stores(Run(w, events[..k]), events[k])
    && w.row.analysis.None? && after.row.analysis.Some?
    && after.account == StartTrial(w.account, events[k].now)
    && after.row.trialStartedAt == after.account.trialStartedAt
  }

  /** The trial starts at most once, and only with the analysis. */
  lemma {:induction false} TrialStartsOnlyWithAnalysis(w: World, events: seq<Event>)
    requires Inv(w) && forall e | e in events :: !e.Bill?
    ensures SameTrial(w, Run(w, events)) || exists k: nat :: k < |events| && StartedBy(w, events, k, Run(w, events))
    decreases |events|
  {
    hide Inv, Step, Stores, StartTrial;
    if events == [] {
    } else {
      var n := |events| - 1;
      var shorter, e := events[..n], events[n];
      var before := Run(w, shorter);
      assert forall other | other in shorter :: other in events;
      assert e in events;
      TrialStartsOnlyWithAnalysis(w, shorter);
      RunKeepsInv(w, shorter);
      StepStoresOrLeavesTrial(before, e);
      if !SameTrial(w, before) {
        var k: nat :| k < n && StartedBy(w, shorter, k, before);
        assert shorter[..k] == events[..k];
        assert StartedBy(w, events, k, Run(w, events));
      } else if Stores(before, e) {
        StoringIsFinishing(before, e);
        assert StartedBy(w, events, n, Run(w, events));
      }
    }
  }

  /** As long as no analysis is stored, no failed run has touched the trial. */
  lemma NoAnalysisNoTrial(w: World, events: seq<Event>)
    requires Inv(w) && (forall e | e in events :: !e.Bill?) && Run(w, events).row.analysis.None?
    ensures Run(w, events).account == w.account && Run(w, events).row.trialStartedAt == w.row.trialStartedAt
  {
    hide Inv, Step, Stores, StartTrial;
    TrialStartsOnlyWithAnalysis(w, events);
  }

  lemma StoringIsFinishing(w: World, e: Event)
    requires Stores(w, e)
    ensures e.Finish?
  {
  }
}
