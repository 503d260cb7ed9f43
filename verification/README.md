# Models of the workspace API

A Dafny 4.11 model of the stateful core of the API, with proofs about every run of it. The API keeps all state in
PostgreSQL rows and protects it with conditional updates, leases and advisory locks. Here a guarded update, or a
transaction under a row or advisory lock, is one step of a state machine; upstream calls may answer late, fail or never
answer; processes may crash at any point; and theorems quantify over all sequences of steps.

Each module has the same three layers:

- row functions and a class whose methods change its fields as the statements of the service do; every method is proved
  to compute exactly the row function;
- a world with all processes, events and `Step`/`Run`, where an event that is not possible changes nothing;
- an invariant kept by every step, and theorems about whole runs.

The modules named `...Steps` say what the steps store, in terms of the columns, and that undisturbed requests reach
their end; with the theorems about all runs, which say what never happens, they fix both sides.

| module | what it models |
|---|---|
| `AiCoo`, `AiCooSteps`, `RequestWindow`, `History` | AI COO conversations: token lease, turns, documents, request window, and the history sent to the model |
| `Meetings`, `MeetingSteps` | meeting transcript, analysis worker with a renewable lease, review and publication |
| `Dashboard`, `DashboardSteps`, `DashboardRuns` | dashboard snapshots: timestamp lease, revision, delayed job queue with job ids |
| `Diagnostics`, `DiagnosticsSteps` | onboarding drafts and the diagnostics claim |
| `Calendar`, `Recurrence`, `Scheduler`, `SchedulerSteps` | UTC calendar and `Date` objects, weekly recurrence, repeating tasks |
| `BillingPlans`, `PaidTerms`, `Billing`, `BillingRuns`, `BillingSteps` | plans, periods, orders, rewards, subscriptions, trials |
| `Amounts`, `Numbers`, `Robokassa` | amounts and order numbers as text, payment notifications and the return page |
| `Team`, `TeamSteps`, `TeamService` | departments, roles, invitations, tasks and assignees |
| `Options` | nullable columns |

Where the code differs from its documentation, or from what a caller may expect, the code is modelled and the exact condition
is proved:

- `docs/ai-coo.md` bounds the history by 24,000 characters. The code can send up to 24,066, exactly when a later pair
  overshoots (`History.HistoryLength`, `History.BoundIsExceeded`).
- `docs/ai-coo.md` allows 30 requests in five minutes. The code admits another one exactly when some of the last 30 belong
  to an earlier window (`RequestWindow.LimitIsPassedExactly`); so it allows 60 in five minutes, and no more
  (`RequestWindow.SixtyIsReached`, `RequestWindow.SixtyPerFiveMinutes`).
- A dashboard job can reschedule under its own id, which the queue ignores, and a wake-up can get lost. It happens exactly
  when the job's claim was refused because the workspace was not active or subscribed although the row could be claimed
  and the job's id was the current one, since then nobody has requested, claimed, finished or released a refresh of the row,
  and the workspace is active again when the job reads it (`DashboardRuns.ReschedulesOwnIdExactly`,
  `DashboardRuns.PausedSubscriptionLosesWakeUp`).
- `docs/team.md` says that removing or demoting the only chief is refused. The code refuses it to everybody but the owner:
  a department loses its chief exactly when the owner removes the chief, gives the chief another role, or chooses other
  departments for the chief (`Team.LosesChiefExactly`). It also says that the creator of a department becomes its first
  chief; the code gives a new department no members (`Team.NewDepartmentHasNoChief`).
- A payment can shorten the access. `PaidTerms.PaymentShortensExactly` gives the exact condition for every subscription and
  `Billing.PayShortensAccessExactly` for every account. Three kinds of payment do it: a change of plan or period, which
  converts the rest of the running term and does not add the period that was paid for (`PaidTerms.UpgradeAlwaysShortens`);
  a payment during a trial with many legacy bonus days (`PaidTerms.TrialShortensExactly`); and a payment for a subscription
  from before plans existed, a paid one without plan and period, the rest of which is lost
  (`PaidTerms.UnpricedTermIsReplaced`, `PaidTerms.UnpricedYearIsShortened`).
- Adding a period keeps the order of days but not of instants (`BillingPlans.AddPeriodReversesInstants`).
- After an exception the payment callbacks read the order again by its text id where a number is expected, so the order is
  never found (`Robokassa.ReadAgainInVain`). A payment that was committed without the process hearing of it is therefore
  answered as a failure, although the order is paid (`Robokassa.LostAcknowledgementIsAnError`).

Assumptions: Europe/Moscow is UTC+3 all year. Tokens are fresh. Two claims of one dashboard snapshot, and two claims of one
workspace's diagnostics, have different timestamps. Processes may crash at any point in every theorem, and a workspace may
become inactive or lose its subscription at any time. Only the wake-up property asks for undisturbed runs: nobody is lost
for good (a run that crashed or failed is redelivered by the queue, at whatever point it was), and while the workspace is
inactive no claimable row is refused and no job reads the row.

`dafny verify dfyconfig.toml` checks the whole project.

## Model

| member | source | states |
|---|---|---|
| AiCoo.ConversationRow.AcquireLock | src/ai-coo/ai-coo.service.ts:86-94 | takes the lease under a new token exactly when it is free or expired; otherwise the row is unchanged |
| AiCoo.ConversationRow.ReleaseLock | src/ai-coo/ai-coo.service.ts:96-98 | gives the lease back only under its own token |
| AiCoo.ConversationRow.HasLease | src/ai-coo/ai-coo.service.ts:107-114 | the fence of every write: own token and not expired |
| AiCoo.ConversationRow.ConsumeRequest | src/ai-coo/ai-coo.service.ts:116-126 | refuses exactly with a full current window, otherwise counts or opens a window |
| AiCoo.ConversationRow.BeginTurn | src/ai-coo/ai-coo.service.ts:149-155 | counts the request and stores the question as pending together, under the lease, or neither |
| AiCoo.ConversationRow.CompleteTurn | src/ai-coo/ai-coo.service.ts:163-164 | writes the answer only under the lease |
| AiCoo.ConversationRow.FailTurn | src/ai-coo/ai-coo.service.ts:165-168 | marks only a pending turn as failed, and only under the lease |
| AiCoo.ConversationRow.CreateDocument | src/ai-coo/ai-coo.service.ts:189-191 | adds the document only under the lease |
| AiCoo.ConversationRow.DeleteDocument | src/ai-coo/ai-coo.service.ts:211-211 | deletes the document only under the lease |
| AiCoo.CompleteTurnIsFinal | src/ai-coo/ai-coo.service.ts:128-175 | a turn that is complete never changes again, over all interleavings of sends, uploads and deletes |
| AiCoo.CompletedTurnsAreProvenAndFinal | src/ai-coo/ai-coo.service.ts:86-175 | every completed turn has an answer that a model call gave to this request with this turn's own question, for ever |
| AiCoo.LostForever | src/ai-coo/ai-coo.service.ts:86-98 | a token that left the row never comes back |
| AiCoo.LateProcessIsFenced | src/ai-coo/ai-coo.service.ts:106-114 | once another token took the lock, no step under the old token changes turns, documents, counters or the lock |
| AiCoo.StepKeepsDocuments | src/ai-coo/ai-coo.service.ts:183-191 | five documents stay the limit although they are counted outside the creating transaction |
| AiCoo.LimitsHold | src/ai-coo/ai-coo.service.ts:116-214 | in every reachable state: at most five documents, at most 30 counted requests, the columns agree with all accepted requests, and no five minutes contain more than 60 of them |
| AiCooSteps.LockIsTakenExactly | src/ai-coo/ai-coo.service.ts:86-94 | a process takes a free or expired conversation and no other one |
| AiCooSteps.QuestionIsStored | src/ai-coo/ai-coo.service.ts:116-155 | in an invariant state the question is stored as pending and counted, exactly under a running lease and in a window with fewer than 30 requests |
| AiCooSteps.AnswerIsStored | src/ai-coo/ai-coo.service.ts:161-164 | in an invariant state the model's reply becomes the answer of the complete turn, exactly under a running lease; nothing else changes |
| AiCooSteps.FailureIsStored | src/ai-coo/ai-coo.service.ts:165-168 | a failed request marks its own pending turn, exactly under a running lease |
| AiCooSteps.FilesAreStored | src/ai-coo/ai-coo.service.ts:189-211 | a file becomes a document, and a document is deleted, exactly under a running lease |
| AiCooSteps.MessageIsAnswered | src/ai-coo/ai-coo.service.ts:128-175 | from any state: a message that nobody disturbs ends complete with the reply, or failed if the model fails; one that is answered already changes nothing; without a subject or room it only gives the conversation back |
| AiCooSteps.FirstMessageIsComplete | src/ai-coo/ai-coo.service.ts:128-175 | from an empty conversation a run reaches a complete turn |
| AiCooSteps.FileRequestsAreServed | src/ai-coo/ai-coo.service.ts:177-214 | from any state: an undisturbed upload stores the file below five documents, a removal deletes the document, and both give the conversation back |
| RequestWindow.AdmitTracks | src/ai-coo/ai-coo.service.ts:116-126 | the two stored columns stay exact with respect to the full log; a refusal means exactly that the current window has 30 |
| RequestWindow.LimitIsPassedExactly | src/ai-coo/ai-coo.service.ts:116-126 | a refusal means 30 requests within five minutes; at that limit a request is admitted exactly if the stored counter is below 30 |
| RequestWindow.OpenerIsLater | src/ai-coo/ai-coo.service.ts:119-125 | windows open at least five minutes apart, after everything in the window before |
| RequestWindow.SixtyPerFiveMinutes | src/ai-coo/ai-coo.service.ts:116-126 | request number i + 60 comes more than five minutes after request i |
| RequestWindow.SixtyIsReached | src/ai-coo/ai-coo.service.ts:119-125 | 60 requests within five minutes are all accepted: the documented 30 is not the bound |
| History.CooHistory | src/ai-coo/ai-coo.service.ts:16-38 | the loop with its budget computes the selection and returns it oldest first |
| History.SelectsNewestRun | src/ai-coo/ai-coo.service.ts:19-37 | the selection is a contiguous run of the newest usable turns, each cut to the budget left by the newer ones |
| History.SelectionIsMaximal | src/ai-coo/ai-coo.service.ts:19-37 | it stops only at a usable turn that does not fit |
| History.ReversedExchanges | src/ai-coo/ai-coo.service.ts:37-38 | whole pairs, the user's question before the assistant's answer, in chronological order |
| History.PairMayOvershoot | src/ai-coo/ai-coo.service.ts:16-38 | a fitting pair exceeds its budget exactly under a stated condition on its lengths, by at most 66 characters |
| History.HistoryLength | src/ai-coo/ai-coo.service.ts:16-38 | at most 24,066 characters; more than 24,000 exactly when a later pair overshoots |
| History.RoomPreventsOvershoot | src/ai-coo/ai-coo.service.ts:16-38 | with 75 characters left before each later pair the bound of 24,000 holds |
| History.BoundIsExceeded | src/ai-coo/ai-coo.service.ts:16-38 | two turns whose history has 24,066 characters |
| History.ShortenedIsMarked | src/ai-coo/ai-coo.service.ts:26-26 | a text within its limit is kept, a longer one cut 38 characters before it and marked |
| History.ExchangeIsCut | src/ai-coo/ai-coo.service.ts:27-36 | the question gets half of the budget and at most 8,000 characters, the answer the rest, and the model's state goes along exactly with the same documents |
| History.ShortHistoryIsWhole | src/ai-coo/ai-coo.service.ts:16-38 | a history that is short enough is sent as it is, every question followed by its answer |
| Meetings.AnalyzeParts | src/meetings/meetings.worker.ts:388-396 | reads the transcript in consecutive parts of 20,000 characters, one model call each, in order; fails exactly when one of the calls fails |
| Meetings.Compose | src/meetings/meetings.worker.ts:388-403 | combines all parts from first to last; a result exactly when the transcript is not empty and 2n - 1 calls succeed |
| Meetings.ComposedCoversText | src/meetings/meetings.worker.ts:388-403 | a composed analysis read every character of the transcript once and in order |
| Meetings.MeetingRow.ClaimAnalysis | src/meetings/meetings.worker.ts:320-332 | claims exactly an unpublished, queued or processing row without a running lease |
| Meetings.MeetingRow.RenewLease | src/meetings/meetings.worker.ts:357-366 | renews exactly under the own revision and lease |
| Meetings.MeetingRow.StoreDraft | src/meetings/meetings.worker.ts:409-417 | fenced write of the draft that clears the lease |
| Meetings.MeetingRow.StoreFailure | src/meetings/meetings.worker.ts:418-428 | fenced write of the failure |
| Meetings.MeetingRow.SubmitTranscript | src/meetings/meetings.service.ts:615-648 | a manual transcript starts a new revision, drops the analysis and the lease; refused before the end and after publication |
| Meetings.MeetingRow.QueueRecordingTranscript | src/meetings/meetings.worker.ts:270-318 | the joined recordings replace the transcript only when all are finished, none was entered by hand, and the text changed; above 250,000 characters the analysis fails |
| Meetings.MeetingRow.JoinRecordings | src/meetings/meetings.worker.ts:292-295 | the loop joins the transcripts in order and leaves out missing ones |
| Meetings.MeetingRow.PublishProtocol | src/meetings/meetings.service.ts:650-732 | all reviewed tasks and the publication, or nothing |
| Meetings.AssigneesFoundExactly | src/meetings/meetings.service.ts:686-698 | comparing the number of members found accepts exactly lists of members without repetition |
| Meetings.DraftIsCurrent | src/meetings/meetings.worker.ts:320-429 | in every reachable state a draft was composed from the whole current transcript at the current revision, and no lease is left |
| Meetings.NoWorkerTouchesReview | src/meetings/meetings.worker.ts:320-429 | no worker step, however late, changes a draft under review or a published protocol |
| Meetings.PublicationIsFinal | src/meetings/meetings.service.ts:650-732 | after publication transcript, analysis, revision, time and created tasks never change |
| Meetings.OnePublication | src/meetings/meetings.service.ts:666-672 | over all concurrent calls at most one publication succeeds |
| Meetings.PublicationIsAtomic | src/meetings/meetings.service.ts:650-732 | the created tasks are exactly those of the one successful call, at the revision its reviewer named; without one there are none |
| Meetings.ManualStaysManual | src/meetings/meetings.worker.ts:286-293 | a transcript entered by hand stays one entered by hand, over every run |
| Meetings.OnlyAHandReplacesManual | src/meetings/meetings.worker.ts:286-293 | over every run it is replaced by entering another one, and by no other step |
| Meetings.ManualTranscriptIsKept | src/meetings/meetings.worker.ts:286-293 | no recording result replaces a transcript entered by hand |
| MeetingSteps.ClaimIsTakenExactly | src/meetings/meetings.worker.ts:320-333 | claims exactly an unpublished transcript that waits or whose worker's lease has passed |
| MeetingSteps.DraftIsStored | src/meetings/meetings.worker.ts:409-417 | whoever still has the row at its revision stores its analysis as the draft and gives the lease up; nobody else writes |
| MeetingSteps.FailureIsStored | src/meetings/meetings.worker.ts:418-428 | the same for a failure, which leaves the analysis |
| MeetingSteps.LeaseIsMoved | src/meetings/meetings.worker.ts:343-367 | renewing and putting off, only by whoever still has the row |
| MeetingSteps.WaitingTranscriptBecomesDraft | src/meetings/meetings.worker.ts:320-417 | from any state an undisturbed worker turns a waiting transcript into a draft |
| MeetingSteps.EveryTextIsComposed | src/meetings/meetings.worker.ts:388-403 | every transcript that is not empty has an analysis |
| MeetingSteps.PartsAreFull | src/meetings/meetings.worker.ts:388-396 | all parts but the last have 20,000 characters |
| MeetingSteps.MeetingIsHeld | src/meetings/meetings.service.ts:482-566 | a new meeting is scheduled; it is started, ended and cancelled only from the state before |
| MeetingSteps.TranscriptIsEntered | src/meetings/meetings.service.ts:615-645 | entered by hand exactly after the end and before publication, at a new revision, with analysis and lease dropped |
| MeetingSteps.JoinedInOrder | src/meetings/meetings.worker.ts:292-295 | transcripts are joined in order by blank lines, and empty ones leave no trace |
| MeetingSteps.RecordingsReplaceTranscript | src/meetings/meetings.worker.ts:270-318 | exactly when the joined recordings replace the transcript, when they are too long, and when nothing changes |
| MeetingSteps.AcceptedExactly | src/meetings/meetings.service.ts:674-698 | a task is accepted exactly with a title, a criterion, two dates, and members named once |
| MeetingSteps.ReviewIsPublishedExactly | src/meetings/meetings.service.ts:650-732 | in every reachable state: exactly a proper review of the current draft is published, with its tasks in order |
| MeetingSteps.MeetingIsPublished | src/meetings/meetings.service.ts:615-732 | every transcript and analysis of it can reach publication |
| Dashboard.DueAtIsLeastClaimTime | src/dashboard/dashboard.service.ts:119-149 | the time given to the queue is exactly the least time at which the claim of the current revision succeeds |
| Dashboard.SnapshotRow.Claim | src/dashboard/dashboard.service.ts:143-149 | in an active and subscribed workspace claims exactly a due row of the job's revision without a running lease; otherwise nothing |
| Dashboard.SnapshotRow.SaveAnalysis | src/dashboard/dashboard.service.ts:159-163 | stores the result under the own claim and revision, due again in a day |
| Dashboard.SnapshotRow.PostponeAfterError | src/dashboard/dashboard.service.ts:164-168 | keeps the previous result and retries in 15 minutes |
| Dashboard.SnapshotRow.ReleaseLease | src/dashboard/dashboard.service.ts:169-171 | releases only the own claim |
| Dashboard.SnapshotRow.RequestRefresh | src/dashboard/dashboard.service.ts:102-112 | a request raises the revision and makes the row due at once |
| Dashboard.DashboardQueue.Schedule | src/dashboard/dashboard.queue.ts:44-50 | adds a delayed job unless its id, made of scope, revision and time, is taken |
| Dashboard.DashboardQueue.ScheduleCurrent | src/dashboard/dashboard.service.ts:119-127 | adds the job of the row's revision and due time, and nothing for an inactive workspace |
| DashboardRuns.NoLostWakeUpAfterVisit | src/dashboard/dashboard.service.ts:114-174 | after any disturbance the same holds from a visit on, in a state in which no id can be computed twice |
| DashboardRuns.NoLostWakeUp | src/dashboard/dashboard.service.ts:119-174 | in undisturbed runs, with crashed and failed runs redelivered at any point, in every reachable state a queued job or a running step will try in time; with nobody running there is a job whose time has come whenever the row can be claimed |
| DashboardRuns.NeverReschedulesOwnId | src/dashboard/dashboard.queue.ts:44-50 | in runs in which no claimable row was refused a finishing job never adds a job under its own id, which the queue would ignore |
| DashboardRuns.ReschedulesOwnIdExactly | src/dashboard/dashboard.service.ts:119-149 | in every run: a job computes its own id exactly if its claim was refused on a claimable row whose current id it had, nothing has touched the row since, and the workspace is active again |
| DashboardRuns.StaysCurrentExactly | src/dashboard/dashboard.service.ts:119-171 | an id whose time has come stays the one that `scheduleCurrent` computes exactly until the next request, claim, finish or late release of the row; once it is not, it never is again |
| DashboardRuns.RefusedThenActive | src/dashboard/dashboard.service.ts:143-149 | every due job of the current id that is refused and reads the row of the workspace active again computes its own id |
| DashboardRuns.PausedSubscriptionLosesWakeUp | src/dashboard/dashboard.service.ts:119-149 | a run that ends without a job or process, with an active workspace and a claimable row |
| DashboardRuns.StoredContextFollowsRequest | src/dashboard/dashboard.service.ts:143-163 | whatever crashed, was redelivered, lost or refused, first runs that go on beside their redelivered job included, an analysis is stored only if its context was read after the latest refresh request |
| DashboardRuns.RequestStaysDue | src/dashboard/dashboard.service.ts:102-174 | over every run after a request the row stays due at the request's time and revision until a refresh claimed at that revision finishes or a newer request comes |
| DashboardRuns.OvertakenForever | src/dashboard/dashboard.service.ts:143-171 | a claim that was given up or taken over never returns |
| DashboardRuns.LateHolderIsFenced | src/dashboard/dashboard.service.ts:159-171 | an overtaken holder, be it another job or the first run of one that was redelivered, neither writes a result nor clears its successor's lease |
| DashboardSteps.AnalysisIsStored | src/dashboard/dashboard.service.ts:158-163 | a run that still holds the row at its revision stores the model's content, due in 24 hours; any other one nothing |
| DashboardSteps.FailureIsPostponed | src/dashboard/dashboard.service.ts:164-168 | a failed run keeps the previous analysis, due in 15 minutes |
| DashboardSteps.ClaimIsTakenExactly | src/dashboard/dashboard.service.ts:143-149 | exactly a due row of the run's revision, without a running lease, in an active workspace |
| DashboardSteps.OwnClaimIsReleased | src/dashboard/dashboard.service.ts:169-171 | a run takes only its own claim away |
| DashboardSteps.RequestIsStored | src/dashboard/dashboard.service.ts:102-112 | a request makes the row due at a new revision and leaves claim and analysis |
| DashboardSteps.ContextIsRead | src/dashboard/dashboard.service.ts:151-157 | a context is read once in a claimed run |
| DashboardSteps.JobStartsOver | src/dashboard/dashboard.queue.ts:30-42 | a job delivered again starts over, beside its first run if that goes on |
| DashboardSteps.NextJobIsQueued | src/dashboard/dashboard.service.ts:119-127 | the next job is that of the row's revision and claim time, queued unless its id is taken |
| DashboardSteps.ReadyJobRefreshes | src/dashboard/dashboard.service.ts:143-174 | from any state an undisturbed ready job stores its analysis, or keeps the previous one, and leaves the next job in its place |
| DashboardSteps.FirstVisitIsAnalyzed | src/dashboard/dashboard.service.ts:66-174 | from the first visit a run reaches a stored analysis |
| Diagnostics.WorkspaceRow.UpdateDraft | src/workspace/workspace.service.ts:278-298 | saves a form exactly if the step is the one read, no claim is set and diagnostics are not complete |
| Diagnostics.WorkspaceRow.ClaimDiagnostics | src/workspace/workspace.service.ts:144-177 | claims exactly without an analysis and without a fresh claim, and replaces the answers |
| Diagnostics.WorkspaceRow.CompleteDiagnostics | src/workspace/workspace.service.ts:180-196 | stores the analysis and starts the trial together under the own claim, or rolls both back |
| Diagnostics.WorkspaceRow.EndClaim | src/workspace/workspace.service.ts:198-204 | clears only the own claim |
| Diagnostics.AnalysisIsFinal | src/workspace/workspace.service.ts:128-205 | the analysis is written at most once; with it answers and onboarding fields are final |
| Diagnostics.AnalysisFitsAnswers | src/workspace/workspace.service.ts:144-196 | a stored analysis is a model's reply to exactly the stored answers, of a complete onboarding |
| Diagnostics.NothingChangesDuringClaim | src/workspace/workspace.service.ts:278-317 | while one claim is set no onboarding field and no answer changes |
| Diagnostics.StepKeepsTimely | src/workspace/workspace.service.ts:145-148 | no other run takes over a claim that is within the time budget |
| Diagnostics.TimelyRunStores | src/workspace/workspace.service.ts:145-196 | a run whose model answered within the budget stores its analysis |
| Diagnostics.StepStoresOrLeavesTrial | src/workspace/workspace.service.ts:178-204 | every step stores the first analysis and starts the trial with it, or leaves trial and analysis untouched, also after another run has stored its analysis |
| Diagnostics.FailingRunsLeaveTrial | src/workspace/workspace.service.ts:178-204 | the same for every step of every run |
| Diagnostics.TrialStartsOnlyWithAnalysis | src/workspace/workspace.service.ts:178-204 | over every run the trial starts at most once, in the step that stores the analysis |
| Diagnostics.NoAnalysisNoTrial | src/workspace/workspace.service.ts:178-204 | as long as no analysis is stored the trial is untouched |
| DiagnosticsSteps.FormIsStored | src/workspace/workspace.service.ts:278-298 | a form's text is stored in its own place exactly if no other form was saved meanwhile and diagnostics neither run nor are complete |
| DiagnosticsSteps.FormIsOpenedExactly | src/workspace/workspace.service.ts:278-317 | a form is opened exactly before the diagnostics and after the forms that precede it |
| DiagnosticsSteps.ClaimIsTakenExactly | src/workspace/workspace.service.ts:144-177 | answers are stored with a claim exactly without an analysis and without a claim younger than the budget and 30 seconds |
| DiagnosticsSteps.AnalysisIsStored | src/workspace/workspace.service.ts:178-196 | analysis and trial start together exactly under the own claim |
| DiagnosticsSteps.OwnClaimIsReleased | src/workspace/workspace.service.ts:198-204 | a run takes only its own claim away |
| DiagnosticsSteps.AnswersAreAnalyzed | src/workspace/workspace.service.ts:128-205 | from any state undisturbed answers of a complete draft end analyzed, with the trial started |
| DiagnosticsSteps.OnboardingIsDiagnosed | src/workspace/workspace.service.ts:128-317 | from a new workspace a run reaches a stored analysis, with a trial of ten days and the pending days |
| Calendar.CivilOrder | src/billing/billing.plans.ts:79-89 | calendar days and day numbers correspond one to one and in order |
| Calendar.WithNextDate | src/tasks/task-recurrence.ts:5-16 | one date more is the next day, across months and years |
| Calendar.YearStart | src/billing/billing.plans.ts:79-89 | the days before a year by the Gregorian leap rule, in closed form |
| Calendar.MonthStartInYear | src/billing/billing.plans.ts:79-89 | the days before each month of a year |
| Calendar.WeekdaysAreCivil | src/tasks/task-recurrence.ts:13-13 | 1 January 1970 is day 719,528 and a Thursday, and weekdays follow each other |
| Calendar.WeekdaySinceEpoch | src/tasks/task-recurrence.ts:13-13 | the weekday of every day, counted from that Thursday |
| Calendar.UtcDate.SetUTCDate | src/billing/billing.plans.ts:82-88 | counts from the first day of the month and carries |
| Calendar.UtcDate.SetUTCMonth | src/billing/billing.plans.ts:82-86 | keeps the day of the month and carries |
| BillingPlans.AddPeriodTo | src/billing/billing.plans.ts:79-89 | the setter calls land on the same day one or twelve months later, or on the last day of a shorter month |
| BillingPlans.AddPeriodLandsOn | src/billing/billing.plans.ts:79-89 | keeps the time of day and lands on the named date |
| BillingPlans.AddPeriodAdvances | src/billing/billing.plans.ts:79-89 | a month adds 28 to 31 days, a year 365 or 366 |
| BillingPlans.LaterKeepsOrder | src/billing/billing.plans.ts:79-89 | monotone on days; two days meet exactly when both are cut to the same month end |
| BillingPlans.AddPeriodReversesInstants | src/billing/billing.plans.ts:79-89 | instants are reversed exactly when both days are cut and the earlier one has the later time of day |
| BillingPlans.InstantsReversedInJanuary | src/billing/billing.plans.ts:79-89 | this happens on 30 and 31 January of every year |
| BillingPlans.AddMonthsLandsOn | src/billing/billing.plans.ts:79-89 | month by month the day is cut to the shortest month passed |
| BillingPlans.TwelveMonthsWithinYear | src/billing/billing.plans.ts:79-89 | twelve months never end after one year; equality exactly when no February cuts the day |
| BillingPlans.PricesAreRight | src/billing/billing.plans.ts:11-75 | the monthly prices, a year for ten months of each plan, and dearer plans upwards |
| PaidTerms.PeriodDays | src/billing/billing.service.ts:367-370 | a whole number of days, from now to the end of the period |
| PaidTerms.ExchangeFor | src/billing/billing.service.ts:405-419 | prices and period lengths are positive, so the guards against zero never apply |
| PaidTerms.ConvertKeepsValue | src/billing/billing.service.ts:421-428 | the converted time is worth the rest of the old term, up to less than one millisecond |
| PaidTerms.ChangeKeepsValue | src/billing/billing.service.ts:400-428 | for every running term and every other plan or period: the new time at the new price over a new period is worth the rest at the old price over an old period, down to a millisecond |
| PaidTerms.RenewalAddsPeriod | src/billing/billing.service.ts:393-398 | renewing the same plan and period adds a whole period to the term |
| PaidTerms.ChangeShortensExactly | src/billing/billing.service.ts:400-428 | another plan or period shortens the access exactly when the pending days do not make up for what the rest is worth less, in prices and lengths of the old and the new period; without such days exactly when the new time is dearer |
| PaidTerms.UpgradeAlwaysShortens | src/billing/billing.service.ts:400-428 | paying for a dearer plan of the same period always shortens a running term |
| PaidTerms.TrialShortensExactly | src/billing/billing.service.ts:384-391 | the first payment shortens a trial exactly when more of it is left than the period has; never with up to 18 legacy days |
| PaidTerms.PaymentShortensExactly | src/billing/billing.service.ts:372-429 | for every subscription, plan, period, time and number of pending days: exactly when a payment shortens the access |
| PaidTerms.UnpricedTermIsReplaced | prisma/migrations/20260927130000_subscriptions_referrals/migration.sql:18-21 | a paid subscription without plan and period is replaced by one period from now, and shortened exactly when more was left |
| PaidTerms.UnpricedYearIsShortened | prisma/migrations/20260927130000_subscriptions_referrals/migration.sql:18-21 | paying for a month shortens a year of such a subscription |
| PaidTerms.ExpiredGivesPeriod | src/billing/billing.service.ts:384-391 | after the end of the access a payment gives one period from now |
| Billing.Current | src/billing/billing.service.ts:48-56 | the subscription that ends last |
| Billing.FindReward | src/billing/billing.service.ts:269-272 | the oldest reward of the user that no order has |
| Billing.DiscountIsExact | src/billing/billing.service.ts:273-274 | the discounted price of every plan is exactly nine tenths; rounding never applies |
| Billing.PlacedAsAsked | src/billing/billing.service.ts:224-292 | what is returned is the user's own unpaid order of the asked plan and period, never cheaper than a running paid term; other rows stay |
| Billing.NewOrderTakesOldestReward | src/billing/billing.service.ts:269-290 | a new order takes the oldest available reward, and the full price only without one |
| Billing.RetryReturnsSameOrder | src/billing/billing.service.ts:244-268 | repeating a request at any later time returns the same order and creates nothing |
| BillingRuns.RetryReturnsSameOrderInRuns | src/billing/billing.service.ts:244-268 | after any run, while the order is unpaid and no downgrade, repeating its request returns it exactly if the key was not used for another order |
| Billing.PaidEndParts | src/billing/billing.service.ts:328-340 | all pending days are in the new end; a first payment gives one period and these days |
| Billing.PayShortensAccessExactly | src/billing/billing.service.ts:302-365 | for every account: a payment shortens the access exactly when it shortens the subscription that ends last and no other one ends as late |
| Billing.BillingTables.Credit | src/billing/billing.service.ts:124-140 | one reward for an inviter, none for oneself or for a user already referred |
| Billing.BillingTables.BeginTrial | src/billing/billing.service.ts:142-164 | one trial of ten days and the pending days; the stored start is returned, and nothing for an unknown user |
| Billing.BillingTables.PlaceOrder | src/billing/billing.service.ts:199-298 | downgrade guard, idempotency key, open discounted order, then a new order with the oldest reward |
| Billing.BillingTables.ConfirmVerifiedPayment | src/billing/billing.service.ts:302-365 | settles exactly a pending order with its amount and currency; repeats of the same payment change nothing |
| BillingRuns.StepKeepsOrders | src/billing/billing.service.ts:224-365 | every operation keeps amounts, currencies and rewards consistent with their orders |
| BillingRuns.StepKeepsApart | src/billing/billing.service.ts:244-292 | every operation keeps order numbers, keys, rewards and payments distinct |
| BillingRuns.PaidIsFinal | src/billing/billing.service.ts:302-365 | an order keeps its offer and price for ever; a paid one stays paid by the same payment |
| BillingRuns.EachOrderAppliesOnce | src/billing/billing.service.ts:302-365 | over every run a paid order was applied exactly once, any other order never |
| BillingRuns.AccessChangesByTermsOnly | src/billing/billing.service.ts:142-164 | a subscription changes only by a first trial or by an order of the user going from pending to paid |
| BillingRuns.OneSubscriptionOneTrial | src/billing/billing.service.ts:142-164 | at most one trial, and no second subscription row, for each user |
| BillingRuns.NoTrialStartNoSubscription | prisma/migrations/20260927130000_subscriptions_referrals/migration.sql:78-93 | from the migrated state on, a subscription implies a trial start |
| BillingRuns.LegacyDaysGrantedOnce | src/billing/billing.service.ts:338-358 | the pending bonus days are conserved and go to exactly one term |
| BillingRuns.RewardsConserved | src/billing/billing.service.ts:99-103 | earned = available + attached to unpaid orders + used, in every reachable state |
| BillingRuns.RewardsAreTheInvitersOwn | src/billing/billing.service.ts:269-290 | a reward is attached to one order only, of its own inviter, and the stored amount is the discounted price |
| BillingRuns.ReferralsAreUnique | src/billing/billing.service.ts:124-140 | one referral for each registered user, never one's own, over every run |
| BillingRuns.RegistrationEarnsReward | src/billing/billing.service.ts:124-140 | a registration gives the inviter, and nobody else, exactly one available reward |
| BillingRuns.OneOpenDiscount | src/billing/billing.service.ts:262-268 | never two unpaid discounted orders of a user for the same plan and period |
| BillingSteps.RegistrationIsStored | src/billing/billing.service.ts:124-140 | an empty account, and a referral of ten percent exactly for a first referral by another existing user |
| BillingSteps.TrialIsGranted | src/billing/billing.service.ts:142-164 | ten days and the pending days exactly for a user without subscription and trial; pending days are taken once |
| BillingSteps.RequestIsRefusedExactly | src/billing/billing.service.ts:208-257 | exactly for an unknown user, less than a running subscription cost, a used key, or a number taken twice |
| BillingSteps.RequestIsServed | src/billing/billing.service.ts:238-292 | the order of the key, else the open discounted one, else a new one at the full price or at nine tenths with the oldest reward left |
| BillingSteps.PaymentSettlesExactly | src/billing/billing.service.ts:302-365 | exactly a fitting payment of an unpaid order settles it, with plan, period and end of the subscription; only repeats are accepted besides |
| BillingSteps.TermsAreWhatWasStored | src/billing/billing.service.ts:142-365 | the recorded terms are the stored ends, with the bonus days in them |
| BillingSteps.ExtensionIsPeriod | src/billing/billing.service.ts:384-398 | a period from now, or from the end of a running term that is renewed |
| BillingSteps.InviterPaysLess | src/billing/billing.service.ts:124-365 | from empty tables a run in which an inviter orders at nine tenths, pays and has the period |
| Amounts.ReadsExactlyDecimals | src/billing/robokassa.service.ts:337-355 | exactly the strings of the grammar are read, with their decimal value times 100 |
| Amounts.FormattedAmountIsReadBack | src/billing/robokassa.gateway.ts:120-126 | a printed amount is read back as itself, a negative one as zero |
| Amounts.FormatIsInjective | src/billing/robokassa.gateway.ts:120-126 | different amounts are printed differently |
| Amounts.SpacesByCodePoint | src/billing/robokassa.service.ts:337-355 | the characters that count as spaces |
| Amounts.AmountsAsPeopleWriteThem | src/billing/robokassa.service.ts:337-355 | spaces are ignored, and a comma is as good as a point |
| Robokassa.Handle | src/billing/robokassa.service.ts:44-205 | one notification or return page from the checks to the answer; after an exception the order is read again, and an `InvId` that is no natural number, in any notation, names no order |
| Robokassa.DecideIsRight | src/billing/robokassa.service.ts:58-104 | only a signed call that names a pending order with its amount and currency is let through; an immediate `Ok` means that the order is paid |
| Robokassa.ResultIsLetThroughExactly | src/billing/robokassa.service.ts:58-104 | exactly a signed call of our merchant that names a pending order with its amount and currency is let through |
| Robokassa.RefusalSaysWhy | src/billing/robokassa.service.ts:58-104 | the answer to a refused call names the first reason that applies |
| Robokassa.CallbacksApplyOnce | src/billing/robokassa.service.ts:44-205 | under any interleaving of callbacks each paid order was applied once and under its own id, and `Ok` was only answered for paid orders |
| Robokassa.OnlyTheDatabaseFails | src/billing/robokassa.service.ts:106-134 | a call that was let through is answered `Ok` exactly if the database commits and the process hears of it |
| Numbers.LetterFirstIsNoNumber | src/billing/robokassa.service.ts:224-239 | a text that begins with a letter, in general with neither a digit nor a sign nor a point, is converted to no order number |
| Numbers.NumeralIsNumber | src/billing/robokassa.service.ts:224-239 | a printed order number is read back |
| Numbers.ExponentIsNumber | src/billing/robokassa.service.ts:224-239 | a letter inside does not hinder: digits with an exponent are the number they denote |
| Numbers.SignedIsNumber | src/billing/robokassa.service.ts:224-239 | a plus sign changes nothing; with a minus sign no order but number zero is named |
| Numbers.HexadecimalIsNumber | src/billing/robokassa.service.ts:224-239 | `0x10` names order 16 |
| Numbers.OctalIsNumber | src/billing/robokassa.service.ts:224-239 | `0o10` names order 8 |
| Numbers.BinaryIsNumber | src/billing/robokassa.service.ts:224-239 | `0b10` names order 2 |
| Numbers.DigitsOfSixteen | src/billing/robokassa.service.ts:224-239 | the digits of these notations and their values |
| Numbers.RadixIsPositional | src/billing/robokassa.service.ts:224-239 | every text in such a notation has its positional value, and no other one is read |
| Robokassa.ReadAgainInVain | src/billing/robokassa.service.ts:120-133 | the order that is read again after an exception, by a key that begins with a letter, is never found |
| Robokassa.LostAcknowledgementIsAnError | src/billing/robokassa.service.ts:106-134 | a commit that the process does not hear of leaves the order paid and is answered as a failure |
| Robokassa.ReadAgainByNumber | src/billing/robokassa.service.ts:120-133 | read again by its number, a paid order would be found and answered as paid |
| Robokassa.CallIsReceived | src/billing/robokassa.service.ts:44-118 | a call that is let through waits for its confirmation, one for a paid order is acknowledged, any other leaves nothing |
| Robokassa.CallIsConfirmed | src/billing/robokassa.service.ts:106-134 | in every reachable state a confirmation pays its order exactly if the database commits, and is acknowledged exactly if the process hears of it |
| Robokassa.NotificationPays | src/billing/robokassa.service.ts:44-134 | in every reachable state the notification that repeats what was printed for an unpaid order pays it |
| Robokassa.PrintedAmountIsAccepted | src/billing/robokassa.service.ts:88-104 | a signed notification that repeats the printed amount is accepted |
| Recurrence.RecurrenceDateOfMidnight | src/tasks/task-recurrence.ts:5-23 | reading a date inverts its Moscow midnight |
| Recurrence.MidnightPassed | src/tasks/task-recurrence.ts:5-23 | a Moscow day has begun exactly when its midnight has passed |
| Recurrence.ComputeNextRecurrence | src/tasks/task-recurrence.ts:5-16 | the loop over the mutable date computes the next recurrence |
| Recurrence.NextRecurrenceIsLeast | src/tasks/task-recurrence.ts:5-16 | the least later date with a chosen weekday, within seven days; null exactly without one |
| Recurrence.ScheduleIsInFuture | src/tasks/task-recurrence.ts:18-23 | strictly later than now and than the start date |
| Recurrence.ScheduleIsLeast | src/tasks/task-recurrence.ts:18-23 | the first chosen weekday after both the start date and today |
| Recurrence.MoscowDay | src/tasks/task-recurrence.ts:5-23 | days begin three hours before those of UTC |
| Recurrence.OneWeekdayRepeatsWeekly | src/tasks/task-recurrence.ts:5-16 | a task for one weekday comes back after seven days |
| Recurrence.FirstDaysOf2024 | src/tasks/task-recurrence.ts:5-16 | after Monday 1 January 2024 the next Monday is the 8th and the next Tuesday the 2nd |
| Scheduler.TaskRecurrenceService.RunDue | src/tasks/task-recurrence.service.ts:43-86 | a pass changes exactly the due sources whose transactions succeed, each independently of the others |
| Scheduler.TaskRecurrenceService.CreateOccurrence | src/tasks/task-recurrence.service.ts:53-81 | one occurrence and one step of the cursor in one transaction |
| Scheduler.PassCreates | src/tasks/task-recurrence.service.ts:63-81 | a due pass creates the cursor's date, never met before, and moves the cursor by one to seven days to the next chosen date |
| Scheduler.CreatedDatesAreExact | src/tasks/task-recurrence.service.ts:43-86 | created dates strictly increase and lie before the cursor, deleted occurrences included, and since the last scheduling are exactly the chosen dates between its base and the cursor |
| Scheduler.BaseOfUneditedSchedule | src/tasks/tasks.service.ts:87-94 | edits that name the same days and start date, or none, keep the schedule |
| Scheduler.UneditedScheduleIsExact | src/tasks/task-recurrence.service.ts:43-86 | for a schedule that is not edited the dates ever created are exactly the matching ones after the start date and the day of saving and before the cursor |
| Scheduler.UneditedScheduleIsMatching | src/tasks/task-recurrence.service.ts:43-86 | the same with the cursor gone because the departments are: for some bound the created dates are the matching ones before it, in order |
| Scheduler.EveryDuePassCreates | src/tasks/task-recurrence.service.ts:63-81 | every due pass creates one new occurrence with the source's duration and details |
| Scheduler.CatchUp | src/tasks/task-recurrence.service.ts:43-86 | after an outage the passes create the missed dates in order, and exactly as many passes are due as dates were missed |
| SchedulerSteps.PassIsExact | src/tasks/task-recurrence.service.ts:43-82 | exactly a due pass copies the task to the cursor's date and goes on to the next chosen weekday; without departments it ends the schedule |
| SchedulerSteps.EditIsStored | src/tasks/tasks.service.ts:87-95 | a proper edit is stored; only other days or another start date begin the schedule anew |
| SchedulerSteps.TaskIsStored | src/tasks/tasks.service.ts:87-95 | a new task with its schedule, and none without days |
| SchedulerSteps.OthersStay | src/tasks/task-recurrence.service.ts:63-66 | deleting or editing one occurrence touches neither the schedule nor other occurrences |
| SchedulerSteps.WeeklyTaskComesBack | src/tasks/task-recurrence.service.ts:43-82 | a task of one weekday has its copy after a week, and the next one is due after another |
| Team.AssigneesFitTheTeam | src/tasks/tasks.service.ts:50-163 | in every reachable state an assignee with an account is the owner or a member of the row's department under the row's email, the department belongs to the row's task, and a member has no pending row there |
| Team.TasksMove | src/notifications/notifications.service.ts:86-94 | unassigning what was lost and binding what was gained keeps every row right when one user's memberships change |
| Team.ResolvedOk | src/tasks/tasks.service.ts:73-86 | a resolved assignee is right: owner, member, or pending only without a member of that email |
| Team.TaskDataOk | src/tasks/tasks.service.ts:50-95 | an accepted request gives exactly the requested rows, each of them right; only the owner reaches several departments |
| Team.RemoveKeepsTasks | src/team/team.service.ts:260-277 | removing a member keeps all assignee rows right |
| Team.SetDepartmentsKeepsTasks | src/team/team.service.ts:279-311 | moving a member between departments keeps all assignee rows right |
| Team.AcceptKeepsTasks | src/team/team.service.ts:354-395 | accepting an invitation binds its pending rows and keeps all rows right |
| Team.RevokedLeavesNoPending | src/team/team.service.ts:208-224 | revoking the last open invitation of an email leaves none of its pending rows in the department |
| Team.InvitationIsSingleUse | src/team/team.service.ts:317-395 | an accepted invitation can never be accepted again |
| Team.RevokedIsNeverAccepted | src/team/team.service.ts:208-224 | a revoked invitation can never be accepted |
| Team.OpenInvitationsStaySeparate | src/team/team.service.ts:162-184 | over whole runs an email has at most one open invitation to a department, and a department at most one for a chief |
| Team.ChiefInvitationByRight | src/team/team.service.ts:160-214 | invitations for a chief are sent, reissued and revoked only by the right of the owner or of the chief |
| Team.AcceptGivesInvitedRole | src/team/team.service.ts:366-391 | the guest gets the invited role and workspace membership, and no row of the email stays pending in the department |
| Team.SetDepartmentsIsExact | src/team/team.service.ts:279-311 | exactly the chosen departments and those the caller does not manage; kept roles stay, new members are workers |
| Team.OwnerMayBeAdministrator | prisma/migrations/20260919100000_owner_task_ranges/migration.sql:32-36 | an old workspace whose owner the migration made administrator of departments is a starting state of all these theorems |
| Team.RolesAreConsistent | src/team/team.service.ts:226-395 | at most one chief in each department; apart from the owner exactly department members belong to the workspace; the owner is chief nowhere |
| Team.LosesChiefExactly | src/team/team.service.ts:226-311 | a step leaves a department that has a chief without one exactly if the owner removes or demotes the chief, or chooses other departments for the chief |
| Team.ChiefStaysUnlessTaken | src/team/team.service.ts:226-395 | over whole runs a department has its chief as long as the owner does not take it |
| Team.NewDepartmentHasNoChief | src/team/team.service.ts:124-135 | only the owner creates a department, and it has no members |
| Team.ChiefStays | src/team/team.service.ts:226-311 | what is not the owner's own doing leaves no department that had a chief without one |
| Team.ChiefStaysWithoutOwner | src/team/team.service.ts:226-395 | the same over whole runs |
| Team.OwnerMayLeaveNoChief | src/team/team.service.ts:226-311 | the owner's removal, demotion or move of a chief does leave none |
| Team.ChiefChangesByRight | src/team/team.service.ts:154-395 | who is chief changes only by the right of the owner or of the chief there, never of an administrator |
| TeamSteps.ManagersExactly | src/team/team.service.ts:30-60 | departments are managed exactly by the owner, their chief and their administrators |
| TeamSteps.WithoutRightNothingChanges | src/team/team.service.ts:30-60 | whoever leads no department changes nothing, and their invitations cannot be accepted |
| TeamSteps.OwnerIsProtected | src/team/team.service.ts:256-258 | over every run nobody changes the owner's memberships |
| TeamSteps.RoleIsSet | src/team/team.service.ts:226-254 | exactly when and how roles change: the member's to the one asked for, an old chief's to administrator |
| TeamSteps.MemberIsRemoved | src/team/team.service.ts:260-277 | exactly this membership, the assignments there, and with the last membership that of the workspace |
| TeamSteps.DepartmentsAreSet | src/team/team.service.ts:279-311 | exactly when and how memberships move, are unassigned and linked |
| TeamSteps.DepartmentsAndUsersAreAdded | src/team/team.service.ts:124-135 | only the owner of an active company adds a department |
| TeamSteps.InvitationIsSent | src/team/team.service.ts:154-206 | exactly when an invitation is sent and which open ones it replaces |
| TeamSteps.InvitationIsRevoked | src/team/team.service.ts:208-224 | exactly when an invitation is revoked and what waited for it is dropped |
| TeamSteps.InvitationIsAccepted | src/team/team.service.ts:317-395 | exactly when an invitation is accepted and what the guest becomes and is linked to |
| TeamSteps.EmailIsResolved | src/tasks/tasks.service.ts:69-86 | an email means the owner or a member, waits if somebody is expected, and is refused otherwise |
| TeamSteps.TaskIsCreated | src/tasks/tasks.service.ts:50-124 | exactly an allowed request creates a task, with exactly its rows |
| TeamSteps.TaskIsEdited | src/tasks/tasks.service.ts:146-186 | exactly an allowed request replaces the rows, and exactly a leader deletes the task |
| TeamSteps.TaskIsRepeated | src/tasks/task-recurrence.service.ts:68-76 | the copy has the departments and assignees of its source |
| TeamService.TeamRows.CreateDepartment | src/team/team.service.ts:124-135 | only the owner creates departments; tells a refusal from a change, and keeps the team consistent |
| TeamService.TeamRows.Invite | src/team/team.service.ts:154-206 | the checks of an invitation; open invitations of the same email are revoked; tells a refusal from a change, and keeps the team consistent |
| TeamService.TeamRows.Revoke | src/team/team.service.ts:208-224 | revokes, and drops pending rows with the last open invitation; tells a refusal from a change, and keeps the team consistent |
| TeamService.TeamRows.SetRole | src/team/team.service.ts:226-243 | the new role; a new chief demotes the old one; tells a refusal from a change, and keeps the team consistent |
| TeamService.TeamRows.DemoteChief | src/team/team.service.ts:245-254 | every other chief of the department becomes administrator, so that nobody but the exception is chief |
| TeamService.TeamRows.RemoveMember | src/team/team.service.ts:260-277 | membership, assignments and, with the last department, the workspace membership; tells a refusal from a change, and keeps the team consistent |
| TeamService.TeamRows.SetDepartments | src/team/team.service.ts:279-311 | removes and adds memberships within what the caller manages; tells a refusal from a change, and keeps the team consistent |
| TeamService.TeamRows.Accept | src/team/team.service.ts:354-395 | account, workspace membership, role and pending rows of the guest; tells a refusal from a change, and keeps the team consistent |
| TeamService.TeamRows.BindPending | src/notifications/notifications.service.ts:86-94 | links the pending rows of an email in some departments; none stays pending there |
| TeamService.TeamRows.CreateTask | src/tasks/tasks.service.ts:109-124 | creates exactly an accepted request; a meeting may propose a task without assignees; tells a refusal from a change, and keeps the team consistent |
| TeamService.TeamRows.UpdateTask | src/tasks/tasks.service.ts:146-163 | replaces departments and assignees by an accepted request; tells a refusal from a change, and keeps the team consistent |
| TeamService.TeamRows.RemoveTask | src/tasks/tasks.service.ts:179-186 | deletes a task of a managed department; tells a refusal from a change, and keeps the team consistent |
| TeamService.Assigned | src/notifications/notifications.service.ts:75-84 | the loop tells each newly assigned user once, about the department of the last new row |
| TeamService.NewExactly | src/notifications/notifications.service.ts:75-84 | a row is new if its department and email were no row before |
| TeamService.ToldExactlyIfNew | src/notifications/notifications.service.ts:75-84 | exactly the users with a new linked row are told, about the department of the last one |

## Left out

- HTTP controllers, request validation, authentication, passwords, mail, rate limits in Redis, signatures and redirect URLs.
- The content of model, speech and call services: a reply is any value, or a failure; the JSON shape checks of replies.
- Read-only projections (`get`, `list`, `getTeam`, dashboard counters), the prompt context and the task rank table; whether a
  caller's rank allows an edit is a parameter.
- Meeting participants, guests, moderation and notes; recordings are a list that may change at any time, because a failed
  recording can be retried while another runs.
- BullMQ and Redis: the dashboard queue is a set of delayed jobs by id that may be redelivered; the number of attempts, their
  delays, `removeOnFail` and reconnection are not modelled.
- `restoreQueue` and the paging of scans; a pass of the scheduler gets its due sources as a list.
- Dates before year 0, and time zone changes of Europe/Moscow.
- Floating point: amounts and conversions are exact and rounded where the source makes an integer. Amounts are those of the
  32-bit column; the 2^53 limit is checked where the source checks it.
- Numbers.NumberOf: values are exact; a number that differs from a whole one, or from another one beyond 2^53, by less than
  doubles can tell is not rounded to it.
- Text ids: orders and referrals are named by their position in creation order, and the text id of an order is a `c` with that number.
- The database's own atomicity: a statement or transaction happens completely or not at all, and the clock is read in its step.
- Team.Accept: the guest's password, the concurrent change of the account and the attempt counter are one parameter.
- Team.Workspace: editing names of departments and `setStatus` change none of the modelled rows.
- BillingRuns.Migrated: of the orders from before rewards existed only unpaid ones are in the initial state; the terms that paid
  ones had granted are not recorded.
- DashboardRuns.NoLostWakeUp: does not cover what is lost for good (a request whose process crashed before it reached the queue, a
  failed queue write, a job out of attempts) and jobs that end while the workspace is inactive, after which the source
  relies on visits and on `restoreQueue`.
- Meetings.MeetingRow.PublishProtocol: dates, departments and rights of a proposed task are one parameter of the review (`acceptable`); its relations are modelled in `Team`.
