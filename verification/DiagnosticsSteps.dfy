/** What forms, claims and analyses leave in the workspace row, and a whole onboarding with its diagnostics. */
module DiagnosticsSteps {
  import opened Options
  import opened Billing
  import opened PaidTerms
  import opened Diagnostics

  // ---------------------------------------------------------------------------
  // Single steps
  // ---------------------------------------------------------------------------

  /** The draft with the form's text in the form's place, and the step at least the form's own. */
  function WithForm(d: Draft, form: Form): Draft {
    match form
    case Company(text) => d.(company := Some(text), step := if d.step < 1 then 1 else d.step)
    case Owner(text) => d.(owner := Some(text), step := if d.step < 2 then 2 else d.step)
    case Goals(text) => d.(goals := Some(text), step := 3, complete := true)
  }

  /** A form is stored if no other one was since it was opened, and diagnostics neither run nor are complete. */
  lemma FormIsStored(w: World, pid: nat)
    requires pid in w.processes && w.processes[pid].Editing?
    ensures var Editing(form, readStep) := w.processes[pid];
            Step(w, Save(pid)).row ==
            if w.row.draft.step == readStep && !w.row.diagnosed && w.row.processingAt == None
            then w.row.(draft := WithForm(w.row.draft, form))
            else w.row
  {
  }

  /** A form is opened unless diagnostics run or are complete, and the forms before it must have been saved. */
  lemma FormIsOpenedExactly(w: World, pid: nat, form: Form)
    requires pid !in w.processes
    ensures var w' := Step(w, OpenForm(pid, form));
            if !w.row.diagnosed && w.row.processingAt == None
               && (form.Owner? ==> 1 <= w.row.draft.step) && (form.Goals? ==> 2 <= w.row.draft.step)
            then w' == w.(processes := w.processes[pid := Editing(form, w.row.draft.step)])
            else w' == w
  {
  }

  /** The answers are stored with the claim, on a row without an analysis and without a claim that is younger than
      the time a model call may take and half a minute. */
  lemma ClaimIsTakenExactly(w: World, pid: nat, claimTime: int, at: int)
    requires pid in w.processes && w.processes[pid].Admitted?
    requires claimTime <= at <= w.now && claimTime !in w.claims
    ensures var submitted := w.processes[pid].submitted;
            var w' := Step(w, MakeClaim(pid, claimTime, at));
            if w.row.analysis == None
               && (w.row.processingAt == None || w.row.processingAt.value + w.budget + 30_000 < at)
            then w'.row == w.row.(processingAt := Some(claimTime), answers := submitted)
                 && w'.processes == w.processes[pid := Working(submitted, claimTime)] && w'.account == w.account
            else w' == w
  {
  }

  /** A run that still has its claim stores its analysis and the trial start together; otherwise, or if the database
      fails, neither changes. */
  lemma AnalysisIsStored(w: World, pid: nat, now: nat, broken: bool)
    requires pid in w.processes && w.processes[pid].Analyzed?
    ensures var Analyzed(analysis, claimTime) := w.processes[pid];
            var w' := Step(w, Finish(pid, now, broken));
            if !broken && w.row.processingAt == Some(claimTime)
            then && w'.account == StartTrial(w.account, now)
                 && w'.row == w.row.(analysis := Some(analysis), diagnosed := true, processingAt := None,
                                     trialStartedAt := w'.account.trialStartedAt)
            else w'.row == w.row && w'.account == w.account
    ensures Step(w, Finish(pid, now, broken)).processes == w.processes[pid := Ending(w.processes[pid].claimTime)]
  {
    hide StartTrial;
  }

  /** In the end a run takes only its own claim away. */
  lemma OwnClaimIsReleased(w: World, pid: nat)
    requires pid in w.processes && w.processes[pid].Ending?
    ensures Step(w, End(pid)) ==
            w.(row := if w.row.processingAt == Some(w.processes[pid].claimTime) then w.row.(processingAt := None)
                 else w.row,
               processes := w.processes - {pid})
  {
  }

  // ---------------------------------------------------------------------------
  // A whole onboarding
  // ---------------------------------------------------------------------------

  lemma OneMore(w: World, events: seq<Event>, e: Event)
    ensures Run(w, events + [e]) == Step(Run(w, events), e)
  {
    assert (events + [e])[..|events|] == events;
  }

  lemma EmptyRun(w: World)
    ensures Run(w, []) == w
  {
  }

  /** A new workspace of a user with a new account. */
  function New(now: int, budget: nat, company: string, bonusDays: nat): World {
    World(now, budget, Created(company), Account([], None, bonusDays), map[], map[], [])
  }

  function Filling(pid: nat, form: Form): seq<Event> {
    [OpenForm(pid, form)] + [Save(pid)]
  }

  /** A form that may be opened is stored when nobody interferes. */
  lemma FormIsFilled(w: World, pid: nat, form: Form)
    requires pid !in w.processes && !w.row.diagnosed && w.row.processingAt == None
    requires (form.Owner? ==> 1 <= w.row.draft.step) && (form.Goals? ==> 2 <= w.row.draft.step)
    ensures Run(w, Filling(pid, form)) == w.(row := w.row.(draft := WithForm(w.row.draft, form)))
  {
    hide StartTrial;
    EmptyRun(w);
    OneMore(w, [], OpenForm(pid, form));
    OneMore(w, [OpenForm(pid, form)], Save(pid));
    assert [] + [OpenForm(pid, form)] == [OpenForm(pid, form)];
    var editing := w.(processes := w.processes[pid := Editing(form, w.row.draft.step)]);
    assert Step(w, OpenForm(pid, form)) == editing;
    assert editing.processes - {pid} == w.processes;
  }

  function Diagnosing(pid: nat, submitted: Answers, at: int, reply: int, now: nat): seq<Event> {
    [Submit(pid, submitted)] + [MakeClaim(pid, at, at)] + [Diagnostics.Reply(pid, reply)] + [Finish(pid, now, false)]
    + [End(pid)]
  }

  /** Answers are admitted for a complete draft without an analysis, and the model's reply is one to them. */
  lemma AnswersAreAdmitted(w: World, pid: nat, submitted: Answers, reply: int)
    ensures pid !in w.processes ==>
              Step(w, Submit(pid, submitted)) ==
              if w.row.draft.complete && !(w.row.diagnosed && w.row.analysis != None)
              then w.(processes := w.processes[pid := Admitted(submitted)])
              else w
    ensures pid in w.processes && w.processes[pid].Working? ==>
              var Working(answers, claimTime) := w.processes[pid];
              var analysis := Analysis(answers, reply);
              Step(w, Diagnostics.Reply(pid, reply)) ==
              w.(processes := w.processes[pid := Analyzed(analysis, claimTime)], replies := w.replies + [analysis])
  {
  }

  /** Submitted answers of a complete draft are analyzed and stored, and the trial starts, when nobody interferes. */
  lemma AnswersAreAnalyzed(w: World, pid: nat, submitted: Answers, reply: int, now: nat)
    requires pid !in w.processes && w.now !in w.claims
    requires w.row.draft.complete && !w.row.diagnosed && w.row.analysis == None && w.row.processingAt == None
    ensures var w' := Run(w, Diagnosing(pid, submitted, w.now, reply, now));
            && w'.account == StartTrial(w.account, now)
            && w'.row == w.row.(answers := submitted, analysis := Some(Analysis(submitted, reply)), diagnosed := true,
                                trialStartedAt := w'.account.trialStartedAt)
            && w'.processes == w.processes
  {
    hide StartTrial, Run, Step;
    var e0, e1, e2, e3 := Submit(pid, submitted), MakeClaim(pid, w.now, w.now), Diagnostics.Reply(pid, reply),
      Finish(pid, now, false);
    EmptyRun(w);
    OneMore(w, [], e0);
    OneMore(w, [e0], e1);
    OneMore(w, [e0] + [e1], e2);
    OneMore(w, [e0] + [e1] + [e2], e3);
    OneMore(w, [e0] + [e1] + [e2] + [e3], End(pid));
    assert [] + [e0] == [e0];
    var w1 := Step(w, e0);
    var w2 := Step(w1, e1);
    var w3 := Step(w2, e2);
    AnswersAreAdmitted(w, pid, submitted, reply);
    ClaimIsTakenExactly(w1, pid, w.now, w.now);
    AnswersAreAdmitted(w2, pid, submitted, reply);
    AnalysisIsStored(w3, pid, now, false);
    OwnClaimIsReleased(Step(w3, e3), pid);
    assert Step(w3, e3).processes - {pid} == w.processes;
  }

  /** From a new workspace on: owner and goals filled in, then the diagnostics, with ten days of trial and the
      pending bonus days at the end. */
  lemma OnboardingIsDiagnosed(start: int, budget: nat, company: string, bonusDays: nat, owner: string, goals: string,
      pid: nat, submitted: Answers, reply: int, now: nat)
    ensures New(start, budget, company, bonusDays).row ==
            Workspace(Draft(Some(company), None, None, 1, false), [], None, false, None, None)
    ensures var filled := Run(Run(New(start, budget, company, bonusDays), Filling(pid, Owner(owner))),
                              Filling(pid, Goals(goals)));
            var w := Run(filled, Diagnosing(pid, submitted, start, reply, now));
            && w.row == Workspace(Draft(Some(company), Some(owner), Some(goals), 3, true), submitted,
                                  Some(Analysis(submitted, reply)), true, None, Some(now))
            && w.account == Account([Subscription(Trial, None, None, now + (10 + bonusDays) * 86_400_000)],
                                    Some(now), 0)
  {
    hide Step, Run;
    var w0 := New(start, budget, company, bonusDays);
    FormIsFilled(w0, pid, Owner(owner));
    var w1 := Run(w0, Filling(pid, Owner(owner)));
    FormIsFilled(w1, pid, Goals(goals));
    AnswersAreAnalyzed(Run(w1, Filling(pid, Goals(goals))), pid, submitted, reply, now);
  }
}
