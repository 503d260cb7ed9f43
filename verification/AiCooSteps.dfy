/** What the requests of a conversation leave in its row: single statements, and whole requests from start to end. */
module AiCooSteps {
  import opened Options
  import opened RequestWindow
  import opened AiCoo

  // ---------------------------------------------------------------------------
  // Single statements
  // ---------------------------------------------------------------------------

  /** A free or expired conversation is taken, and no other one. */
  lemma LockIsTakenExactly(w: World, pid: nat, token: nat, at: int, until: int)
    requires pid in w.processes && w.processes[pid].Locking? && token !in w.issued
    ensures var w' := Step(w, TakeLock(pid, token, at, until));
            if w.row.lockedUntil.None? || w.row.lockedUntil.value <= at
            then w'.row == w.row.(lockToken := Some(token), lockedUntil := Some(until)) &&
                 w'.processes == w.processes[pid := Locked(w.processes[pid].request, token)]
            else w'.row == w.row && w'.processes == w.processes - {pid}
    ensures Step(w, TakeLock(pid, token, at, until)).issued == w.issued + {token}
  {
  }

  /** Fewer than thirty requests were counted in the five minutes that are running. */
  predicate HasRoom(window: Window, now: int) {
    window.startedAt.Some? && now < window.startedAt.value + 300_000 ==> window.count < 30
  }

  function Counted(window: Window, now: int): Window {
    if window.startedAt.Some? && now < window.startedAt.value + 300_000
    then Window(window.startedAt, window.count + 1)
    else Window(Some(now), 1)
  }

  /** The question is stored as pending and counted, in a window that has room and under a running lease; otherwise
      nothing is. */
  lemma QuestionIsStored(w: World, pid: nat, at: int, acknowledged: bool)
    requires Inv(w) && pid in w.processes && w.processes[pid].Ready? && w.processes[pid].request.Message?
    ensures var Ready(request, token) := w.processes[pid];
            Step(w, Ask(pid, at, acknowledged)).row ==
            if w.row.lockToken == Some(token) && w.row.lockedUntil.Some? && at < w.row.lockedUntil.value
               && HasRoom(w.row.window, w.now)
            then w.row.(window := Counted(w.row.window, w.now),
                        turns := w.row.turns[request.id := Turn(Question(request), Pending, None)])
            else w.row
  {
    hide TokensOk, TurnsOk, CountsOk;
    assert ProcessOk(w, w.processes[pid]);
  }

  /** The reply is stored as the answer, under a running lease; otherwise nothing is, and the request marks its turn
      as failed next, as it does when it does not hear that the answer was stored. */
  lemma AnswerIsStored(w: World, pid: nat, at: int, acknowledged: bool)
    requires Inv(w) && pid in w.processes && w.processes[pid].Answered? && w.processes[pid].request.Message?
    ensures var Answered(request, token, call) := w.processes[pid];
            && call < |w.calls|
            && Step(w, SaveAnswer(pid, at, acknowledged)).row ==
               if w.row.lockToken == Some(token) && w.row.lockedUntil.Some? && at < w.row.lockedUntil.value
               then w.row.(turns := w.row.turns[
                             request.id := Turn(Question(request), Complete, Some(w.calls[call].reply))])
               else w.row
    ensures var Answered(request, token, call) := w.processes[pid];
            Step(w, SaveAnswer(pid, at, acknowledged)).processes == w.processes[pid :=
              if acknowledged && w.row.lockToken == Some(token) && w.row.lockedUntil.Some?
                 && at < w.row.lockedUntil.value
              then Unlocking(token)
              else Recovering(request, token)]
  {
    hide TokensOk, TurnsOk, CountsOk;
    assert ProcessOk(w, w.processes[pid]);
  }

  /** A request that failed marks its own pending turn, under a running lease. */
  lemma FailureIsStored(w: World, pid: nat, at: int)
    requires pid in w.processes && w.processes[pid].Recovering? && w.processes[pid].request.Message?
    ensures var Recovering(request, token) := w.processes[pid];
            Step(w, Recover(pid, at)).row ==
            if w.row.lockToken == Some(token) && w.row.lockedUntil.Some? && at < w.row.lockedUntil.value
               && request.id in w.row.turns && w.row.turns[request.id].status == Pending
            then w.row.(turns := w.row.turns[request.id := w.row.turns[request.id].(status := Failed)])
            else w.row
  {
  }

  /** An uploaded file becomes a document, and a document is deleted, under a running lease. */
  lemma FilesAreStored(w: World, pid: nat, at: int, id: DocumentId)
    requires pid in w.processes
    ensures w.processes[pid].Uploaded? ==>
              var Uploaded(token, file) := w.processes[pid];
              Step(w, SaveFile(pid, at, id)).row ==
              if w.row.lockToken == Some(token) && w.row.lockedUntil.Some? && at < w.row.lockedUntil.value
                 && id !in w.row.documents
              then w.row.(documents := w.row.documents[id := file])
              else w.row
    ensures w.processes[pid].Removing? ==>
              var Removing(document, token) := w.processes[pid];
              Step(w, DeleteFile(pid, at)).row ==
              if w.row.lockToken == Some(token) && w.row.lockedUntil.Some? && at < w.row.lockedUntil.value
              then w.row.(documents := w.row.documents - {document})
              else w.row
  {
  }

  // ---------------------------------------------------------------------------
  // Whole requests
  // ---------------------------------------------------------------------------

  /** The world in which process `pid` stands at `p`, and only the row differs besides. */
  function Standing(w: World, pid: nat, p: Process, row: Conversation): World {
    w.(processes := w.processes[pid := p], row := row)
  }

  /** The question that a text asks; without a text, about the documents. */
  function Asks(text: string): string {
    if text == "" then "Проанализируй загруженные документы." else text
  }

  lemma OneMore(w: World, events: seq<Event>, e: Event)
    ensures Run(w, events + [e]) == Step(Run(w, events), e)
  {
    assert (events + [e])[..|events|] == events;
  }

  /** The conversation can be taken at `at`, under a lease that is still running then. */
  predicate CanTake(w: World, pid: nat, token: nat, at: int, until: int) {
    && pid !in w.processes && token !in w.issued && at < until
    && (w.row.lockedUntil.None? || w.row.lockedUntil.value <= at)
  }

  function Taken(w: World, token: nat, until: int): World {
    w.(issued := w.issued + {token}, row := w.row.(lockToken := Some(token), lockedUntil := Some(until)))
  }

  function Opening(pid: nat, request: Request, token: nat, at: int, until: int): seq<Event> {
    [Arrive(pid, request), ReadFirst(pid), TakeLock(pid, token, at, until)]
  }

  /** The turn of this request, if there is one, asks the same and has no answer yet. */
  predicate IsUnanswered(row: Conversation, request: Request)
    requires request.Message?
  {
    request.id in row.turns ==>
      row.turns[request.id].question == Asks(request.text) && row.turns[request.id].status != Complete
  }

  lemma ArrivesAndReads(w: World, pid: nat, request: Request)
    requires pid !in w.processes
    ensures Step(Step(w, Arrive(pid, request)), ReadFirst(pid)) ==
            if request.Message? && !IsUnanswered(w.row, request) then w
            else w.(processes := w.processes[pid := Locking(request)])
  {
    hide TakeLockStep, AskStep, RecheckStep, ReplyStep, SaveAnswerStep, StopStep, SaveDocument, DropDocument,
         MarkFailed, Unlock;
    assert w.processes[pid := Started(request)] - {pid} == w.processes;
  }

  lemma Takes(w: World, pid: nat, request: Request, token: nat, at: int, until: int)
    requires CanTake(w, pid, token, at, until)
    ensures Step(w.(processes := w.processes[pid := Locking(request)]), TakeLock(pid, token, at, until))
            == Standing(Taken(w, token, until), pid, Locked(request, token), Taken(w, token, until).row)
    ensures Step(w, TakeLock(pid, token, at, until)) == w
  {
    hide AskStep, RecheckStep, ReplyStep, SaveAnswerStep, StopStep, SaveDocument, DropDocument, MarkFailed, Unlock;
  }

  /** Every request first takes the conversation; a message that is another one, or answered already, does not. */
  lemma Opens(w: World, pid: nat, request: Request, token: nat, at: int, until: int)
    requires CanTake(w, pid, token, at, until)
    ensures Run(w, Opening(pid, request, token, at, until)) ==
            if request.Message? && !IsUnanswered(w.row, request) then w
            else Standing(Taken(w, token, until), pid, Locked(request, token), Taken(w, token, until).row)
  {
    hide Step;
    var arrived := Arrive(pid, request);
    assert [] + [arrived] == [arrived];
    OneMore(w, [], arrived);
    OneMore(w, [arrived], ReadFirst(pid));
    OneMore(w, [arrived, ReadFirst(pid)], TakeLock(pid, token, at, until));
    assert [arrived] + [ReadFirst(pid)] == [arrived, ReadFirst(pid)];
    assert [arrived, ReadFirst(pid)] + [TakeLock(pid, token, at, until)] == Opening(pid, request, token, at, until);
    ArrivesAndReads(w, pid, request);
    Takes(w, pid, request, token, at, until);
  }

  /** The row while the question waits for its answer. */
  function Pended(row: Conversation, id: RequestId, question: string, now: int): Conversation {
    row.(window := Counted(row.window, now), turns := row.turns[id := Turn(question, Pending, None)])
  }

  function Asking(pid: nat, request: Request, token: nat, at: int, until: int): seq<Event> {
    Opening(pid, request, token, at, until) + [Recheck(pid)] + [ReadDocuments(pid)] + [Ask(pid, at, true)]
  }

  /** A message has a text or a document to ask about. */
  predicate HasSubject(row: Conversation, request: Request)
    requires request.Message?
  {
    request.text != "" || row.documents != map[]
  }

  /** Where a message stands when the model should answer: not under way, refused, or asked and stored as pending. */
  function WhenAsked(w: World, pid: nat, request: Request, token: nat, until: int): World
    requires request.Message?
  {
    var taken := Taken(w, token, until);
    if !IsUnanswered(w.row, request) then w
    else if !HasSubject(w.row, request) || !HasRoom(w.row.window, w.now)
    then Standing(taken, pid, Unlocking(token), taken.row)
    else Standing(taken, pid, Process.Asking(request, token),
                  Pended(taken.row, request.id, Asks(request.text), w.now)).(admitted := w.admitted + [w.now])
  }

  lemma Locks(w: World, pid: nat, request: Request, token: nat, at: int, until: int)
    requires request.Message? && at < until && w.row.lockToken == Some(token) && w.row.lockedUntil == Some(until)
    requires pid in w.processes && w.processes[pid] == Locked(request, token) && IsUnanswered(w.row, request)
    ensures var asked := Step(Step(Step(w, Recheck(pid)), ReadDocuments(pid)), Ask(pid, at, true));
            asked == if !HasSubject(w.row, request) || !HasRoom(w.row.window, w.now)
              then Standing(w, pid, Unlocking(token), w.row)
              else Standing(w, pid, Process.Asking(request, token),
                            Pended(w.row, request.id, Asks(request.text), w.now)).(admitted := w.admitted + [w.now])
  {
    hide ReplyStep, SaveAnswerStep, StopStep, TakeLockStep, SaveDocument, DropDocument, MarkFailed, Unlock;
    var checked := Step(w, Recheck(pid));
    assert checked == Standing(w, pid, Checked(request, token), w.row);
    var ready := Step(checked, ReadDocuments(pid));
    var next := if HasSubject(w.row, request) then Ready(request, token) else Unlocking(token);
    assert ready == Standing(w, pid, next, w.row);
  }

  lemma NobodyAsks(w: World, pid: nat, at: int)
    requires pid !in w.processes
    ensures Step(Step(Step(w, Recheck(pid)), ReadDocuments(pid)), Ask(pid, at, true)) == w
  {
  }

  lemma AsksExactly(w: World, pid: nat, request: Request, token: nat, at: int, until: int)
    requires request.Message? && CanTake(w, pid, token, at, until)
    ensures Run(w, Asking(pid, request, token, at, until)) == WhenAsked(w, pid, request, token, until)
  {
    hide Step, Run, HasRoom, Opening;
    var opening := Opening(pid, request, token, at, until);
    Opens(w, pid, request, token, at, until);
    OneMore(w, opening, Recheck(pid));
    OneMore(w, opening + [Recheck(pid)], ReadDocuments(pid));
    OneMore(w, opening + [Recheck(pid)] + [ReadDocuments(pid)], Ask(pid, at, true));
    if IsUnanswered(w.row, request) {
      var taken := Taken(w, token, until);
      Locks(Standing(taken, pid, Locked(request, token), taken.row), pid, request, token, at, until);
    } else {
      NobodyAsks(w, pid, at);
    }
  }

  function Answering(pid: nat, request: Request, token: nat, at: int, until: int, reply: string): seq<Event> {
    Asking(pid, request, token, at, until) + [Reply(pid, reply)] + [SaveAnswer(pid, at, true)] + [GiveBack(pid)]
  }

  function Failing(pid: nat, request: Request, token: nat, at: int, until: int): seq<Event> {
    Asking(pid, request, token, at, until) + [Stop(pid)] + [Recover(pid, at)] + [GiveBack(pid)]
  }

  /** The conversation given back. */
  function Returned(row: Conversation): Conversation {
    row.(lockToken := None, lockedUntil := None)
  }

  /** The row after a message: as before if it was answered already or is another one; only given back if there is
      nothing to ask about or no room; otherwise with the turn `turn`. */
  function AfterMessage(w: World, request: Request, turn: Turn): Conversation
    requires request.Message?
  {
    if !IsUnanswered(w.row, request) then w.row
    else if !HasSubject(w.row, request) || !HasRoom(w.row.window, w.now) then Returned(w.row)
    else Returned(w.row).(window := Counted(w.row.window, w.now), turns := w.row.turns[request.id := turn])
  }

  lemma AnswersAndSaves(w: World, pid: nat, request: Request, token: nat, at: int, reply: string, row: Conversation)
    requires request.Message? && request.id in row.turns
    requires row.lockToken == Some(token) && row.lockedUntil.Some? && at < row.lockedUntil.value
    ensures var asked := Standing(w, pid, Process.Asking(request, token), row);
            Step(Step(asked, Reply(pid, reply)), SaveAnswer(pid, at, true))
            == Standing(w.(calls := w.calls + [Call(request.id, Asks(request.text), reply)]), pid, Unlocking(token),
                        row.(turns := row.turns[
                          request.id := row.turns[request.id].(status := Complete, answer := Some(reply))]))
  {
    hide AskStep, TakeLockStep, RecheckStep, StopStep, MayAsk, MarkFailed, SaveDocument, DropDocument, Lock, Unlock;
    var asked := Standing(w, pid, Process.Asking(request, token), row);
    assert Step(asked, Reply(pid, reply))
        == Standing(w.(calls := w.calls + [Call(request.id, Asks(request.text), reply)]), pid,
                    Process.Answered(request, token, |w.calls|), row);
  }

  lemma Answers(w: World, pid: nat, request: Request, token: nat, at: int, until: int, reply: string)
    requires request.Message? && at < until && pid !in w.processes
    requires w.row.lockToken == Some(token) && w.row.lockedUntil == Some(until)
    ensures var asked := Standing(w, pid, Process.Asking(request, token),
                                  Pended(w.row, request.id, Asks(request.text), w.now));
            var answered := Step(Step(Step(asked, Reply(pid, reply)), SaveAnswer(pid, at, true)), GiveBack(pid));
            answered.processes == w.processes
            && answered.row == Returned(w.row).(
                 window := Counted(w.row.window, w.now),
                 turns := w.row.turns[request.id := Turn(Asks(request.text), Complete, Some(reply))])
  {
    hide Step, Counted;
    var row := Pended(w.row, request.id, Asks(request.text), w.now);
    AnswersAndSaves(w, pid, request, token, at, reply, row);
    var turns := row.turns[request.id := row.turns[request.id].(status := Complete, answer := Some(reply))];
    assert turns == w.row.turns[request.id := Turn(Asks(request.text), Complete, Some(reply))];
    GivesBack(w.(calls := w.calls + [Call(request.id, Asks(request.text), reply)]), pid, token,
              row.(turns := turns));
  }

  lemma StopsAndMarks(w: World, pid: nat, request: Request, token: nat, at: int, row: Conversation)
    requires request.Message? && request.id in row.turns && row.turns[request.id].status == Pending
    requires row.lockToken == Some(token) && row.lockedUntil.Some? && at < row.lockedUntil.value
    ensures var asked := Standing(w, pid, Process.Asking(request, token), row);
            Step(Step(asked, Stop(pid)), Recover(pid, at))
            == Standing(w, pid, Unlocking(token),
                        row.(turns := row.turns[request.id := row.turns[request.id].(status := Failed)]))
  {
    hide AskStep, TakeLockStep, RecheckStep, ReplyStep, SaveAnswerStep, MayAsk, SaveDocument, DropDocument, Lock,
         Unlock;
    var asked := Standing(w, pid, Process.Asking(request, token), row);
    assert Step(asked, Stop(pid)) == Standing(w, pid, Recovering(request, token), row);
  }

  lemma Fails(w: World, pid: nat, request: Request, token: nat, at: int, until: int)
    requires request.Message? && at < until && pid !in w.processes
    requires w.row.lockToken == Some(token) && w.row.lockedUntil == Some(until)
    ensures var asked := Standing(w, pid, Process.Asking(request, token),
                                  Pended(w.row, request.id, Asks(request.text), w.now));
            var failed := Step(Step(Step(asked, Stop(pid)), Recover(pid, at)), GiveBack(pid));
            failed.processes == w.processes
            && failed.row == Returned(w.row).(
                 window := Counted(w.row.window, w.now),
                 turns := w.row.turns[request.id := Turn(Asks(request.text), Failed, None)])
  {
    hide Step, Counted;
    var row := Pended(w.row, request.id, Asks(request.text), w.now);
    StopsAndMarks(w, pid, request, token, at, row);
    var turns := row.turns[request.id := row.turns[request.id].(status := Failed)];
    assert turns == w.row.turns[request.id := Turn(Asks(request.text), Failed, None)];
    GivesBack(w, pid, token, row.(turns := turns));
  }

  /** Whoever is refused before asking only gives back what it took. */
  lemma OnlyGivesBack(w: World, pid: nat, token: nat, at: int, reply: string)
    requires pid !in w.processes
    ensures Step(Step(Step(w, Reply(pid, reply)), SaveAnswer(pid, at, true)), GiveBack(pid)) == w
    ensures Step(Step(Step(w, Stop(pid)), Recover(pid, at)), GiveBack(pid)) == w
    ensures w.row.lockToken == Some(token) ==>
              var refused := Standing(w, pid, Unlocking(token), w.row);
              var unanswered := Step(Step(Step(refused, Reply(pid, reply)), SaveAnswer(pid, at, true)), GiveBack(pid));
              var stopped := Step(Step(Step(refused, Stop(pid)), Recover(pid, at)), GiveBack(pid));
              unanswered == stopped == w.(row := Returned(w.row))
  {
    hide Step;
    OnlyUnlocks(w, pid, token, Reply(pid, reply));
    OnlyUnlocks(w, pid, token, SaveAnswer(pid, at, true));
    OnlyUnlocks(w, pid, token, Stop(pid));
    OnlyUnlocks(w, pid, token, Recover(pid, at));
    NobodyGivesBack(w, pid);
    if w.row.lockToken == Some(token) {
      GivesBack(w, pid, token, w.row);
    }
  }

  lemma NobodyGivesBack(w: World, pid: nat)
    requires pid !in w.processes
    ensures Step(w, GiveBack(pid)) == w
  {
  }

  lemma AskedIsTaken(w: World, pid: nat, request: Request, token: nat, until: int)
    requires request.Message? && pid !in w.processes && IsUnanswered(w.row, request)
    ensures var taken, asked := Taken(w, token, until), WhenAsked(w, pid, request, token, until);
            && pid !in taken.processes && Returned(taken.row) == Returned(w.row)
            && taken.row.lockToken == Some(token) && taken.row.lockedUntil == Some(until)
            && asked == if !HasSubject(w.row, request) || !HasRoom(w.row.window, w.now)
                 then Standing(taken, pid, Unlocking(token), taken.row)
                 else Standing(taken.(admitted := w.admitted + [w.now]), pid, Process.Asking(request, token),
                               Pended(taken.row, request.id, Asks(request.text), w.now))
  {
  }

  /** A message that nobody disturbs: with a subject and room in the window its question is stored with the model's
      reply as its answer, or as failed when the model fails; the conversation is given back in any case, and what
      is not about this message stays as it was. */
  lemma MessageIsAnswered(w: World, pid: nat, request: Request, token: nat, at: int, until: int, reply: string)
    requires request.Message? && CanTake(w, pid, token, at, until)
    ensures var answered := Run(w, Answering(pid, request, token, at, until, reply));
            && answered.row == AfterMessage(w, request, Turn(Asks(request.text), Complete, Some(reply)))
            && answered.processes == w.processes
    ensures var failed := Run(w, Failing(pid, request, token, at, until));
            && failed.row == AfterMessage(w, request, Turn(Asks(request.text), Failed, None))
            && failed.processes == w.processes
  {
    hide Step, Run, HasRoom, Asking, CanTake, WhenAsked, HasSubject;
    var asking := Asking(pid, request, token, at, until);
    AsksExactly(w, pid, request, token, at, until);
    OneMore(w, asking, Reply(pid, reply));
    OneMore(w, asking + [Reply(pid, reply)], SaveAnswer(pid, at, true));
    OneMore(w, asking + [Reply(pid, reply)] + [SaveAnswer(pid, at, true)], GiveBack(pid));
    OneMore(w, asking, Stop(pid));
    OneMore(w, asking + [Stop(pid)], Recover(pid, at));
    OneMore(w, asking + [Stop(pid)] + [Recover(pid, at)], GiveBack(pid));
    CanTakeParts(w, pid, token, at, until);
    if !IsUnanswered(w.row, request) {
      WhenNotAsked(w, pid, request, token, until);
      OnlyGivesBack(w, pid, token, at, reply);
    } else {
      var taken := Taken(w, token, until);
      AskedIsTaken(w, pid, request, token, until);
      OnlyGivesBack(taken, pid, token, at, reply);
      var counted := taken.(admitted := w.admitted + [w.now]);
      Answers(counted, pid, request, token, at, until, reply);
      Fails(counted, pid, request, token, at, until);
    }
  }

  lemma CanTakeParts(w: World, pid: nat, token: nat, at: int, until: int)
    requires CanTake(w, pid, token, at, until)
    ensures pid !in w.processes && at < until
  {
  }

  lemma WhenNotAsked(w: World, pid: nat, request: Request, token: nat, until: int)
    requires request.Message? && !IsUnanswered(w.row, request)
    ensures WhenAsked(w, pid, request, token, until) == w
  {
  }

  /** From an empty conversation on: the first message is answered and complete. */
  lemma FirstMessageIsComplete(now: int, pid: nat, id: RequestId, text: string, token: nat, until: int, reply: string)
    requires text != "" && now < until
    ensures var w := Run(Init(now), Answering(pid, Message(id, text), token, now, until, reply));
            && IsComplete(w, id)
            && w.row == Conversation(None, None, Window(Some(now), 1),
                                     map[id := Turn(text, Complete, Some(reply))], map[])
  {
    hide Run, Answering;
    MessageIsAnswered(Init(now), pid, Message(id, text), token, now, until, reply);
  }

  /** An upload that nobody disturbs stores the file while there are fewer than five documents; a removal deletes
      an existing document and nothing else. Both give the conversation back. */
  lemma FileRequestsAreServed(w: World, pid: nat, token: nat, at: int, until: int, id: DocumentId, file: nat)
    requires CanTake(w, pid, token, at, until)
    ensures id !in w.row.documents ==>
              var uploaded := Run(w, Opening(pid, Upload, token, at, until)
                                     + [Recheck(pid)] + [SendFile(pid, file)] + [SaveFile(pid, at, id)]
                                     + [GiveBack(pid)]);
              uploaded.row == Returned(w.row).(
                documents := if |w.row.documents| < 5 then w.row.documents[id := file] else w.row.documents)
    ensures var removed := Run(w, Opening(pid, Removal(id), token, at, until)
                                  + [Recheck(pid)] + [DeleteFile(pid, at)] + [GiveBack(pid)]);
            removed.row == Returned(w.row).(documents := w.row.documents - {id})
  {
    hide Step, Run, Opening;
    Opens(w, pid, Upload, token, at, until);
    Opens(w, pid, Removal(id), token, at, until);
    var upload, removal := Opening(pid, Upload, token, at, until), Opening(pid, Removal(id), token, at, until);
    OneMore(w, upload, Recheck(pid));
    OneMore(w, upload + [Recheck(pid)], SendFile(pid, file));
    OneMore(w, upload + [Recheck(pid)] + [SendFile(pid, file)], SaveFile(pid, at, id));
    OneMore(w, upload + [Recheck(pid)] + [SendFile(pid, file)] + [SaveFile(pid, at, id)], GiveBack(pid));
    OneMore(w, removal, Recheck(pid));
    OneMore(w, removal + [Recheck(pid)], DeleteFile(pid, at));
    OneMore(w, removal + [Recheck(pid)] + [DeleteFile(pid, at)], GiveBack(pid));
    if id !in w.row.documents {
      Uploads(Taken(w, token, until), pid, token, at, until, id, file);
    }
    Removes(Taken(w, token, until), pid, token, at, until, id);
  }

  /** Process `pid` goes from one position to another and leaves the row alone. */
  predicate Goes(w: World, pid: nat, e: Event, from: Process, to: Process) {
    Step(Standing(w, pid, from, w.row), e) == Standing(w, pid, to, w.row)
  }

  lemma CountsAndSends(w: World, pid: nat, token: nat, file: nat)
    ensures Goes(w, pid, Recheck(pid), Locked(Upload, token),
                 if |w.row.documents| < 5 then Process.Counted(token) else Unlocking(token))
    ensures Goes(w, pid, SendFile(pid, file), Process.Counted(token), Uploaded(token, file))
  {
    hide AskStep, ReplyStep, SaveAnswerStep, TakeLockStep, StopStep, MayAsk, MarkFailed, DropDocument, Lock;
  }

  /** Whoever only has to give back ignores the steps in between. */
  lemma OnlyUnlocks(w: World, pid: nat, token: nat, e: Event)
    requires e.SendFile? || e.SaveFile? || e.DeleteFile? || e.Reply? || e.SaveAnswer? || e.Stop? || e.Recover?
    requires e.pid == pid
    ensures Goes(w, pid, e, Unlocking(token), Unlocking(token))
    ensures pid !in w.processes ==> Step(w, e) == w
  {
    hide AskStep, TakeLockStep, RecheckStep, MayAsk, SaveDocument, DropDocument, Lock, Answer, MarkFailed;
  }

  lemma GivesBack(w: World, pid: nat, token: nat, row: Conversation)
    requires pid !in w.processes && row.lockToken == Some(token)
    ensures Step(Standing(w, pid, Unlocking(token), row), GiveBack(pid)) == w.(row := Returned(row))
  {
    hide AskStep, TakeLockStep, RecheckStep, ReplyStep, SaveAnswerStep, StopStep, MayAsk, SaveDocument, DropDocument,
         Lock, MarkFailed;
    assert w.processes[pid := Unlocking(token)] - {pid} == w.processes;
  }

  lemma SavesFile(w: World, pid: nat, token: nat, at: int, id: DocumentId, file: nat)
    requires w.row.lockToken == Some(token) && w.row.lockedUntil.Some? && at < w.row.lockedUntil.value
    requires id !in w.row.documents
    ensures Step(Standing(w, pid, Uploaded(token, file), w.row), SaveFile(pid, at, id))
            == Standing(w, pid, Unlocking(token), w.row.(documents := w.row.documents[id := file]))
  {
    hide AskStep, TakeLockStep, RecheckStep, ReplyStep, SaveAnswerStep, StopStep, MayAsk, DropDocument, Lock,
         MarkFailed;
  }

  lemma Uploads(w: World, pid: nat, token: nat, at: int, until: int, id: DocumentId, file: nat)
    requires at < until && w.row.lockToken == Some(token) && w.row.lockedUntil == Some(until)
    requires pid !in w.processes && id !in w.row.documents
    ensures var locked := Standing(w, pid, Locked(Upload, token), w.row);
            Step(Step(Step(Step(locked, Recheck(pid)), SendFile(pid, file)), SaveFile(pid, at, id)), GiveBack(pid)).row
            == Returned(w.row).(
                 documents := if |w.row.documents| < 5 then w.row.documents[id := file] else w.row.documents)
  {
    hide Step;
    CountsAndSends(w, pid, token, file);
    OnlyUnlocks(w, pid, token, SendFile(pid, file));
    OnlyUnlocks(w, pid, token, SaveFile(pid, at, id));
    SavesFile(w, pid, token, at, id, file);
    GivesBack(w, pid, token, w.row);
    GivesBack(w, pid, token, w.row.(documents := w.row.documents[id := file]));
  }

  lemma FindsAndDeletes(w: World, pid: nat, token: nat, at: int, id: DocumentId)
    requires w.row.lockToken == Some(token) && w.row.lockedUntil.Some? && at < w.row.lockedUntil.value
    ensures Goes(w, pid, Recheck(pid), Locked(Removal(id), token),
                 if id in w.row.documents then Removing(id, token) else Unlocking(token))
    ensures Step(Standing(w, pid, Removing(id, token), w.row), DeleteFile(pid, at))
            == Standing(w, pid, Unlocking(token), w.row.(documents := w.row.documents - {id}))
  {
    hide AskStep, ReplyStep, SaveAnswerStep, TakeLockStep, StopStep, MayAsk, MarkFailed, SaveDocument, Lock;
  }

  lemma Removes(w: World, pid: nat, token: nat, at: int, until: int, id: DocumentId)
    requires at < until && w.row.lockToken == Some(token) && w.row.lockedUntil == Some(until)
    requires pid !in w.processes
    ensures var locked := Standing(w, pid, Locked(Removal(id), token), w.row);
            Step(Step(Step(locked, Recheck(pid)), DeleteFile(pid, at)), GiveBack(pid)).row
            == Returned(w.row).(documents := w.row.documents - {id})
  {
    hide Step;
    FindsAndDeletes(w, pid, token, at, id);
    OnlyUnlocks(w, pid, token, DeleteFile(pid, at));
    GivesBack(w, pid, token, w.row);
    GivesBack(w, pid, token, w.row.(documents := w.row.documents - {id}));
    if id !in w.row.documents {
      assert w.row.documents - {id} == w.row.documents;
    }
  }
}
