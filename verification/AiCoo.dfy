/** One AI COO conversation: its lease, its turns and documents, and the requests that race for them.

    A request holds the conversation under a random token. Leases expire, processes crash, and the model
    answers late or never; every statement that compares the lease with a clock may use any clock value. */
module AiCoo {
  import opened Options
  import opened RequestWindow

  const MAX_DOCUMENTS: nat := 5

  type RequestId = nat
  type DocumentId = nat

  datatype Status = Pending | Complete | Failed

  datatype Turn = Turn(question: string, status: Status, answer: Option<string>)

  datatype Conversation = Conversation(
    lockToken: Option<nat>,
    lockedUntil: Option<int>,
    window: Window,
    turns: map<RequestId, Turn>,
    documents: map<DocumentId, nat>)

  // ---------------------------------------------------------------------------
  // Statements and transactions
  // ---------------------------------------------------------------------------

  predicate Free(c: Conversation, at: int) {
    c.lockedUntil.None? || c.lockedUntil.value <= at
  }

  function Lock(c: Conversation, token: nat, at: int, until: int): Conversation {
    if Free(c, at) then c.(lockToken := Some(token), lockedUntil := Some(until)) else c
  }

  function Unlock(c: Conversation, token: nat): Conversation {
    if c.lockToken == Some(token) then c.(lockToken := None, lockedUntil := None) else c
  }

  /** The fence of every write: the token is still in the row and its lease has not expired. */
  predicate Leased(c: Conversation, token: nat, at: int) {
    c.lockToken == Some(token) && c.lockedUntil.Some? && c.lockedUntil.value > at
  }

  /** Count the request and store its question as pending, in one transaction. */
  predicate CanBegin(c: Conversation, token: nat, at: int, now: int) {
    Leased(c, token, at) && Admit(c.window, now).Some?
  }

  function Begin(c: Conversation, token: nat, at: int, now: int, id: RequestId, question: string): Conversation {
    if CanBegin(c, token, at, now)
    then
      var turn := if id in c.turns then c.turns[id].(status := Pending, answer := None)
        else Turn(question, Pending, None);
      c.(window := Admit(c.window, now).value, turns := c.turns[id := turn])
    else c
  }

  function Answer(c: Conversation, token: nat, at: int, id: RequestId, reply: string): Conversation {
    if Leased(c, token, at) && id in c.turns
    then c.(turns := c.turns[id := c.turns[id].(status := Complete, answer := Some(reply))])
    else c
  }

  function MarkFailed(c: Conversation, token: nat, at: int, id: RequestId): Conversation {
    if Leased(c, token, at) && id in c.turns && c.turns[id].status.Pending?
    then c.(turns := c.turns[id := c.turns[id].(status := Failed)])
    else c
  }

  function SaveDocument(c: Conversation, token: nat, at: int, id: DocumentId, file: nat): Conversation {
    if Leased(c, token, at) && id !in c.documents then c.(documents := c.documents[id := file]) else c
  }

  function DropDocument(c: Conversation, token: nat, at: int, id: DocumentId): Conversation {
    if Leased(c, token, at) then c.(documents := c.documents - {id}) else c
  }

  /** The conversation row with its turns and documents; one method per statement or transaction. */
  class ConversationRow {
    var lockToken: Option<nat>
    var lockedUntil: Option<int>
    var requestWindowAt: Option<int>
    var requestCount: nat
    var turns: map<RequestId, Turn>
    var documents: map<DocumentId, nat>

    function Row(): Conversation
      reads this
    {
      Conversation(lockToken, lockedUntil, Window(requestWindowAt, requestCount), turns, documents)
    }

    constructor ()
      ensures Row() == Conversation(None, None, EMPTY, map[], map[])
    {
      lockToken, lockedUntil, requestWindowAt, requestCount, turns, documents := None, None, None, 0, map[], map[];
    }

    method AcquireLock(token: nat, now: int, totalTimeoutMs: nat) returns (locked: bool)
      modifies this
      ensures locked == old(Free(Row(), now))
      ensures Row() == Lock(old(Row()), token, now, now + totalTimeoutMs + 60_000)
    {
      locked := lockedUntil.None? || lockedUntil.value <= now;
      if locked {
        lockToken, lockedUntil := Some(token), Some(now + totalTimeoutMs + 60_000);
      }
    }

    method ReleaseLock(token: nat)
      modifies this
      ensures Row() == Unlock(old(Row()), token)
    {
      if lockToken == Some(token) {
        lockToken, lockedUntil := None, None;
      }
    }

    method HasLease(token: nat, now: int) returns (held: bool)
      ensures held == Leased(Row(), token, now)
    {
      held := lockToken == Some(token) && lockedUntil.Some? && lockedUntil.value > now;
    }

    method ConsumeRequest(now: int) returns (admitted: bool)
      modifies this`requestWindowAt, this`requestCount
      ensures admitted == old(Admit(Row().window, now)).Some?
      ensures Row().window == if admitted then old(Admit(Row().window, now)).value else old(Row().window)
    {
      var current := requestWindowAt.Some? && now - requestWindowAt.value < WINDOW;
      admitted := !(current && LIMIT <= requestCount);
      if admitted {
        requestCount := if current then requestCount + 1 else 1;
        if !current {
          requestWindowAt := Some(now);
        }
      }
    }

    method BeginTurn(token: nat, now: int, id: RequestId, question: string) returns (begun: bool)
      modifies this
      ensures begun == old(CanBegin(Row(), token, now, now))
      ensures Row() == Begin(old(Row()), token, now, now, id, question)
    {
      begun := HasLease(token, now);
      if begun {
        begun := ConsumeRequest(now);
        if begun {
          turns := turns[id := if id in turns then turns[id].(status := Pending, answer := None)
                               else Turn(question, Pending, None)];
        }
      }
    }

    method CompleteTurn(token: nat, now: int, id: RequestId, reply: string) returns (saved: bool)
      requires id in turns
      modifies this
      ensures saved == old(Leased(Row(), token, now))
      ensures Row() == Answer(old(Row()), token, now, id, reply)
    {
      saved := HasLease(token, now);
      if saved {
        turns := turns[id := turns[id].(status := Complete, answer := Some(reply))];
      }
    }

    method FailTurn(token: nat, now: int, id: RequestId)
      modifies this
      ensures Row() == MarkFailed(old(Row()), token, now, id)
    {
      var held := HasLease(token, now);
      if held && id in turns && turns[id].status.Pending? {
        turns := turns[id := turns[id].(status := Failed)];
      }
    }

    method CreateDocument(token: nat, now: int, id: DocumentId, file: nat) returns (saved: bool)
      requires id !in documents
      modifies this
      ensures saved == old(Leased(Row(), token, now))
      ensures Row() == SaveDocument(old(Row()), token, now, id, file)
    {
      saved := HasLease(token, now);
      if saved {
        documents := documents[id := file];
      }
    }

    method DeleteDocument(token: nat, now: int, id: DocumentId) returns (deleted: bool)
      modifies this
      ensures deleted == old(Leased(Row(), token, now))
      ensures Row() == DropDocument(old(Row()), token, now, id)
    {
      deleted := HasLease(token, now);
      if deleted {
        documents := documents - {id};
      }
    }
  }

  // ---------------------------------------------------------------------------
  // Interleavings
  // ---------------------------------------------------------------------------

  const ANALYZE_DOCUMENTS := "Проанализируй загруженные документы."

  /** A request; the text of a message is already trimmed and may be empty. */
  datatype Request =
    | Message(id: RequestId, text: string)
    | Upload
    | Removal(document: DocumentId)

  function Question(r: Request): string
    requires r.Message?
  {
    if r.text == "" then ANALYZE_DOCUMENTS else r.text
  }

  /** The program position of one process, with its local variables. */
  datatype Process =
    | Started(request: Request)
    | Locking(request: Request)
    | Locked(request: Request, token: nat)
    | Checked(request: Request, token: nat)
    | Ready(request: Request, token: nat)
    | Asking(request: Request, token: nat)
    | Answered(request: Request, token: nat, call: nat)
    | Recovering(request: Request, token: nat)
    | Counted(token: nat)
    | Uploaded(token: nat, file: nat)
    | Removing(document: DocumentId, token: nat)
    | Unlocking(token: nat)

  /** One reply of the model, with the request and the question it was asked with. */
  datatype Call = Call(id: RequestId, question: string, reply: string)

  datatype World = World(
    now: int,
    row: Conversation,
    processes: map<nat, Process>,
    issued: set<nat>,
    calls: seq<Call>,
    admitted: seq<int>)

  datatype Event =
    | Tick(ms: nat)
    | Arrive(pid: nat, request: Request)
    | ReadFirst(pid: nat)
    | TakeLock(pid: nat, token: nat, at: int, until: int)
    | Recheck(pid: nat)
    | ReadDocuments(pid: nat)
    | Ask(pid: nat, at: int, acknowledged: bool)
    | Reply(pid: nat, text: string)
    | Stop(pid: nat)
    | SaveAnswer(pid: nat, at: int, acknowledged: bool)
    | Recover(pid: nat, at: int)
    | SendFile(pid: nat, file: nat)
    | SaveFile(pid: nat, at: int, document: DocumentId)
    | DeleteFile(pid: nat, at: int)
    | GiveBack(pid: nat)
    | Crash(pid: nat)

  function Init(now: int): World {
    World(now, Conversation(None, None, EMPTY, map[], map[]), map[], {}, [], [])
  }

  function Goto(w: World, pid: nat, p: Process): World {
    w.(processes := w.processes[pid := p])
  }

  function Leave(w: World, pid: nat): World {
    w.(processes := w.processes - {pid})
  }

  predicate HasToken(p: Process) {
    !p.Started? && !p.Locking?
  }

  /** A message whose id belongs to another question is refused; one already answered needs no model. */
  predicate MayAsk(row: Conversation, request: Request) {
    request.Message? ==>
      request.id in row.turns ==>
        row.turns[request.id].question == Question(request) && !row.turns[request.id].status.Complete?
  }

  function TakeLockStep(w: World, pid: nat, token: nat, at: int, until: int): World {
    if !(pid in w.processes && w.processes[pid].Locking? && token !in w.issued) then w
    else if !Free(w.row, at) then Leave(w, pid).(issued := w.issued + {token})
    else Goto(w, pid, Locked(w.processes[pid].request, token))
         .(issued := w.issued + {token}, row := Lock(w.row, token, at, until))
  }

  function RecheckStep(w: World, pid: nat): World {
    if !(pid in w.processes && w.processes[pid].Locked?) then w
    else
      var Locked(request, token) := w.processes[pid];
      match request
      case Message(_, _) => Goto(w, pid, if MayAsk(w.row, request) then Checked(request, token) else Unlocking(token))
      case Upload => Goto(w, pid, if |w.row.documents| < MAX_DOCUMENTS then Counted(token) else Unlocking(token))
      case Removal(document) =>
        Goto(w, pid, if document in w.row.documents then Removing(document, token) else Unlocking(token))
  }

  function AskStep(w: World, pid: nat, at: int, acknowledged: bool): World {
    if !(pid in w.processes && w.processes[pid].Ready? && w.processes[pid].request.Message?) then w
    else
      var Ready(request, token) := w.processes[pid];
      if !CanBegin(w.row, token, at, w.now) then Goto(w, pid, Unlocking(token))
      else Goto(w, pid, if acknowledged then Asking(request, token) else Unlocking(token))
           .(row := Begin(w.row, token, at, w.now, request.id, Question(request)), admitted := w.admitted + [w.now])
  }

  function ReplyStep(w: World, pid: nat, text: string): World {
    if !(pid in w.processes && w.processes[pid].Asking? && w.processes[pid].request.Message?) then w
    else
      var Asking(request, token) := w.processes[pid];
      Goto(w, pid, Answered(request, token, |w.calls|))
      .(calls := w.calls + [Call(request.id, Question(request), text)])
  }

  function SaveAnswerStep(w: World, pid: nat, at: int, acknowledged: bool): World {
    if !(pid in w.processes && w.processes[pid].Answered? && w.processes[pid].request.Message?
         && w.processes[pid].call < |w.calls|) then w
    else
      var Answered(request, token, call) := w.processes[pid];
      var next := if Leased(w.row, token, at) && acknowledged then Unlocking(token) else Recovering(request, token);
      Goto(w, pid, next).(row := Answer(w.row, token, at, request.id, w.calls[call].reply))
  }

  /** A failure between the statements of one request: the model, the rights check or the database. */
  function StopStep(w: World, pid: nat): World {
    if pid !in w.processes then w
    else
      match w.processes[pid]
      case Asking(request, token) => Goto(w, pid, Recovering(request, token))
      case Answered(request, token, _) => Goto(w, pid, Recovering(request, token))
      case Started(_) => Leave(w, pid)
      case Locking(_) => Leave(w, pid)
      case p => Goto(w, pid, Unlocking(p.token))
  }

  function Step(w: World, e: Event): World {
    match e
    case Tick(ms) => w.(now := w.now + ms)
    case Arrive(pid, request) => if pid in w.processes then w else Goto(w, pid, Started(request))
    case ReadFirst(pid) =>
      if pid in w.processes && w.processes[pid].Started?
      then if MayAsk(w.row, w.processes[pid].request) then Goto(w, pid, Locking(w.processes[pid].request))
           else Leave(w, pid)
      else w
    case TakeLock(pid, token, at, until) => TakeLockStep(w, pid, token, at, until)
    case Recheck(pid) => RecheckStep(w, pid)
    case ReadDocuments(pid) =>
      if pid in w.processes && w.processes[pid].Checked? && w.processes[pid].request.Message?
      then
        var Checked(request, token) := w.processes[pid];
        Goto(w, pid, if request.text == "" && w.row.documents == map[] then Unlocking(token) else Ready(request, token))
      else w
    case Ask(pid, at, acknowledged) => AskStep(w, pid, at, acknowledged)
    case Reply(pid, text) => ReplyStep(w, pid, text)
    case Stop(pid) => StopStep(w, pid)
    case SaveAnswer(pid, at, acknowledged) => SaveAnswerStep(w, pid, at, acknowledged)
    case Recover(pid, at) =>
      if pid in w.processes && w.processes[pid].Recovering? && w.processes[pid].request.Message?
      then
        var Recovering(request, token) := w.processes[pid];
        Goto(w, pid, Unlocking(token)).(row := MarkFailed(w.row, token, at, request.id))
      else w
    case SendFile(pid, file) =>
      if pid in w.processes && w.processes[pid].Counted? then Goto(w, pid, Uploaded(w.processes[pid].token, file))
        else w
    case SaveFile(pid, at, document) =>
      if pid in w.processes && w.processes[pid].Uploaded?
      then
        var Uploaded(token, file) := w.processes[pid];
        Goto(w, pid, Unlocking(token)).(row := SaveDocument(w.row, token, at, document, file))
      else w
    case DeleteFile(pid, at) =>
      if pid in w.processes && w.processes[pid].Removing?
      then
        var Removing(document, token) := w.processes[pid];
        Goto(w, pid, Unlocking(token)).(row := DropDocument(w.row, token, at, document))
      else w
    case GiveBack(pid) =>
      if pid in w.processes && w.processes[pid].Unlocking?
      then Leave(w, pid).(row := Unlock(w.row, w.processes[pid].token))
      else w
    case Crash(pid) => Leave(w, pid)
  }

  function Run(w: World, events: seq<Event>): World
    decreases |events|
  {
    if events == [] then w else Step(Run(w, events[..|events| - 1]), events[|events| - 1])
  }

  // ---------------------------------------------------------------------------
  // Invariant
  // ---------------------------------------------------------------------------

  /** What a process may rely on while its token is still in the row. */
  predicate Relies(w: World, p: Process) {
    match p
    case Checked(request, _) => MayAsk(w.row, request)
    case Ready(request, _) => MayAsk(w.row, request)
    case Asking(request, _) => request.Message? && request.id in w.row.turns && MayAsk(w.row, request)
    case Answered(request, _, _) => request.Message? && request.id in w.row.turns && MayAsk(w.row, request)
    case Counted(_) => |w.row.documents| < MAX_DOCUMENTS
    case Uploaded(_, _) => |w.row.documents| < MAX_DOCUMENTS
    case _ => true
  }

  predicate ProcessOk(w: World, p: Process) {
    && (HasToken(p) ==> p.token in w.issued && (w.row.lockToken == Some(p.token) ==> Relies(w, p)))
    && (p.Answered? && p.request.Message? ==>
          p.call < |w.calls| && w.calls[p.call].id == p.request.id && w.calls[p.call].question == Question(p.request))
  }

  ghost predicate Proven(w: World, id: RequestId)
    requires id in w.row.turns
  {
    w.row.turns[id].status.Complete? ==>
      && w.row.turns[id].answer.Some?
      && Call(id, w.row.turns[id].question, w.row.turns[id].answer.value) in w.calls
  }

  /** Tokens are issued before use, and no two processes hold the same one. */
  ghost predicate TokensOk(w: World) {
    && (w.row.lockToken.Some? ==> w.row.lockToken.value in w.issued)
    && (forall pid | pid in w.processes && HasToken(w.processes[pid]) :: w.processes[pid].token in w.issued)
    && (forall p, q | p in w.processes && q in w.processes && p != q
          && HasToken(w.processes[p]) && HasToken(w.processes[q]) :: w.processes[p].token != w.processes[q].token)
  }

  ghost predicate ProcessesOk(w: World) {
    forall pid | pid in w.processes :: ProcessOk(w, w.processes[pid])
  }

  ghost predicate TurnsOk(w: World) {
    forall id | id in w.row.turns :: Proven(w, id)
  }

  predicate CountsOk(w: World) {
    && |w.row.documents| <= MAX_DOCUMENTS
    && Tracks(w.row.window, w.admitted)
    && (w.admitted != [] ==> w.admitted[|w.admitted| - 1] <= w.now)
  }

  ghost predicate Inv(w: World) {
    TokensOk(w) && ProcessesOk(w) && TurnsOk(w) && CountsOk(w)
  }

  /** No process has a token that it did not have before. */
  predicate NoNewToken(w: World, w': World) {
    && w.issued <= w'.issued
    && (w'.row.lockToken == w.row.lockToken || w'.row.lockToken.None?)
    && forall pid | pid in w'.processes && HasToken(w'.processes[pid]) ::
         pid in w.processes && HasToken(w.processes[pid]) && w'.processes[pid].token == w.processes[pid].token
  }

  lemma OnlyTakeLockGivesTokens(w: World, e: Event)
    requires !e.TakeLock?
    ensures NoNewToken(w, Step(w, e))
  {
    hide Admit, MayAsk, Question;
  }

  lemma StepKeepsTokens(w: World, e: Event)
    requires TokensOk(w)
    ensures TokensOk(Step(w, e))
  {
    if !e.TakeLock? {
      OnlyTakeLockGivesTokens(w, e);
      assert NoNewToken(w, Step(w, e));
    }
  }

  lemma StepKeepsProcesses(w: World, e: Event)
    requires TokensOk(w) && ProcessesOk(w)
    ensures ProcessesOk(Step(w, e))
  {
    var w' := Step(w, e);
    forall pid | pid in w'.processes ensures ProcessOk(w', w'.processes[pid]) {
      match e
      case TakeLock(_, _, _, _) => TakeLockKeepsProcess(w, e, pid);
      case Ask(_, _, _) => WriteKeepsProcess(w, e, pid);
      case SaveAnswer(_, _, _) => WriteKeepsProcess(w, e, pid);
      case Recover(_, _) => WriteKeepsProcess(w, e, pid);
      case SaveFile(_, _, _) => WriteKeepsProcess(w, e, pid);
      case DeleteFile(_, _) => WriteKeepsProcess(w, e, pid);
      case GiveBack(_) => TakeLockKeepsProcess(w, e, pid);
      case _ => LocalStepKeepsProcess(w, e, pid);
    }
  }

  lemma TakeLockKeepsProcess(w: World, e: Event, pid: nat)
    requires TokensOk(w) && ProcessesOk(w) && (e.TakeLock? || e.GiveBack?)
    requires pid in Step(w, e).processes
    ensures ProcessOk(Step(w, e), Step(w, e).processes[pid])
  {
    if pid in w.processes {
      assert ProcessOk(w, w.processes[pid]);
    }
  }

  /** The events that leave the row alone. */
  predicate Local(e: Event) {
    !e.TakeLock? && !e.GiveBack? && !e.Ask? && !e.SaveAnswer? && !e.Recover? && !e.SaveFile? && !e.DeleteFile?
  }

  lemma LocalStepKeepsRow(w: World, e: Event)
    requires Local(e)
    ensures Step(w, e).row == w.row && Step(w, e).issued == w.issued && w.calls <= Step(w, e).calls
  {
  }

  /** As long as the row stays the same, a process keeps what it relies on. */
  lemma SameRowKeepsProcess(w: World, w': World, p: Process)
    requires ProcessOk(w, p) && w'.row == w.row && w'.issued == w.issued && w.calls <= w'.calls
    ensures ProcessOk(w', p)
  {
  }

  lemma LocalStepMovesProcess(w: World, e: Event)
    requires Local(e) && !e.Tick? && !e.Arrive?
    requires e.pid in w.processes && ProcessOk(w, w.processes[e.pid]) && e.pid in Step(w, e).processes
    ensures ProcessOk(Step(w, e), Step(w, e).processes[e.pid])
  {
  }

  lemma LocalStepKeepsProcess(w: World, e: Event, pid: nat)
    requires ProcessesOk(w) && Local(e)
    requires pid in Step(w, e).processes
    ensures ProcessOk(Step(w, e), Step(w, e).processes[pid])
  {
    LocalStepKeepsRow(w, e);
    if pid in w.processes {
      assert ProcessOk(w, w.processes[pid]);
      if e.Tick? || e.Arrive? || e.pid != pid {
        SameRowKeepsProcess(w, Step(w, e), w.processes[pid]);
      } else {
        LocalStepMovesProcess(w, e);
      }
    }
  }

  predicate Writes(e: Event) {
    e.Ask? || e.SaveAnswer? || e.Recover? || e.SaveFile? || e.DeleteFile?
  }

  /** A write that changes the row is made by the process whose token is in the row. */
  lemma WriteByHolder(w: World, e: Event)
    requires Writes(e)
    ensures var w' := Step(w, e);
            && w'.row.lockToken == w.row.lockToken && w'.issued == w.issued && w'.calls == w.calls
            && (w'.row == w.row ||
                (e.pid in w.processes && HasToken(w.processes[e.pid])
                 && w.row.lockToken == Some(w.processes[e.pid].token)))
  {
    hide Admit, MayAsk, Question;
  }

  /** Who has another token relies on nothing in the row. */
  lemma WriteKeepsOthers(w: World, w': World, p: Process)
    requires ProcessOk(w, p)
    requires w'.row.lockToken == w.row.lockToken && w'.issued == w.issued && w'.calls == w.calls
    requires w'.row == w.row || (HasToken(p) ==> w.row.lockToken != Some(p.token))
    ensures ProcessOk(w', p)
  {
    hide MayAsk, Question;
  }

  lemma WriteMovesProcess(w: World, e: Event)
    requires Writes(e) && e.pid in w.processes && ProcessOk(w, w.processes[e.pid])
    requires e.pid in Step(w, e).processes
    ensures ProcessOk(Step(w, e), Step(w, e).processes[e.pid])
  {
    hide Admit;
  }

  lemma WriteLeavesOthers(w: World, e: Event, pid: nat)
    requires Writes(e) && pid != e.pid && pid in Step(w, e).processes
    ensures pid in w.processes && Step(w, e).processes[pid] == w.processes[pid]
  {
    hide Admit, MayAsk, Question;
  }

  lemma WriteKeepsProcess(w: World, e: Event, pid: nat)
    requires TokensOk(w) && ProcessesOk(w) && Writes(e) && pid in Step(w, e).processes
    ensures ProcessOk(Step(w, e), Step(w, e).processes[pid])
  {
    hide Step, ProcessOk;
    WriteByHolder(w, e);
    if pid != e.pid {
      WriteLeavesOthers(w, e, pid);
      assert ProcessOk(w, w.processes[pid]);
      WriteKeepsOthers(w, Step(w, e), w.processes[pid]);
    } else {
      WriteStays(w, e);
      WriteMovesProcess(w, e);
    }
  }

  lemma WriteStays(w: World, e: Event)
    requires Writes(e) && e.pid in Step(w, e).processes
    ensures e.pid in w.processes
  {
    hide Admit, MayAsk, Question;
  }

  lemma StepOfTurns(w: World, e: Event, id: RequestId)
    requires TokensOk(w) && ProcessesOk(w)
    requires id in Step(w, e).row.turns
    ensures w.calls <= Step(w, e).calls
    ensures || !Step(w, e).row.turns[id].status.Complete?
            || (id in w.row.turns && Step(w, e).row.turns[id] == w.row.turns[id])
            || (e.SaveAnswer? && Proven(Step(w, e), id))
  {
  }

  lemma StepKeepsTurns(w: World, e: Event)
    requires TokensOk(w) && ProcessesOk(w) && TurnsOk(w)
    ensures TurnsOk(Step(w, e))
  {
    var w' := Step(w, e);
    forall id | id in w'.row.turns ensures Proven(w', id) {
      StepOfTurns(w, e, id);
      assert id in w.row.turns ==> Proven(w, id);
    }
  }

  /** The window columns and the admitted requests change together, in `Ask` alone. */
  lemma StepOfWindow(w: World, e: Event)
    ensures var w' := Step(w, e);
            || (w.now <= w'.now && w'.row.window == w.row.window && w'.admitted == w.admitted)
            || (w'.now == w.now && Admit(w.row.window, w.now) == Some(w'.row.window)
                 && w'.admitted == w.admitted + [w.now])
  {
  }

  lemma StepKeepsDocuments(w: World, e: Event)
    requires ProcessesOk(w) && |w.row.documents| <= MAX_DOCUMENTS
    ensures |Step(w, e).row.documents| <= MAX_DOCUMENTS
  {
    if e.SaveFile? && e.pid in w.processes {
      assert ProcessOk(w, w.processes[e.pid]);
    }
  }

  lemma StepKeepsCounts(w: World, e: Event)
    requires ProcessesOk(w) && CountsOk(w)
    ensures CountsOk(Step(w, e))
  {
    hide Step;
    StepKeepsDocuments(w, e);
    StepOfWindow(w, e);
    AdmitTracks(w.row.window, w.admitted, w.now);
  }

  lemma StepKeepsInv(w: World, e: Event)
    requires Inv(w)
    ensures Inv(Step(w, e))
  {
    StepKeepsTokens(w, e);
    StepKeepsProcesses(w, e);
    StepKeepsTurns(w, e);
    StepKeepsCounts(w, e);
  }

  // ---------------------------------------------------------------------------
  // Whole runs
  // ---------------------------------------------------------------------------

  lemma {:induction false} RunKeepsInv(w: World, events: seq<Event>)
    requires Inv(w)
    ensures Inv(Run(w, events))
    decreases |events|
  {
    if events == [] {
    } else {
      RunKeepsInv(w, events[..|events| - 1]);
      StepKeepsInv(Run(w, events[..|events| - 1]), events[|events| - 1]);
    }
  }

  predicate IsComplete(w: World, id: RequestId) {
    id in w.row.turns && w.row.turns[id].status.Complete?
  }

  /** A turn that reached `complete` never changes again. */
  lemma {:induction false} CompleteTurnIsFinal(w: World, id: RequestId, events: seq<Event>)
    requires Inv(w) && IsComplete(w, id)
    ensures IsComplete(Run(w, events), id)
    ensures Run(w, events).row.turns[id] == w.row.turns[id]
    decreases |events|
  {
    if events == [] {
    } else {
      var shorter := events[..|events| - 1];
      CompleteTurnIsFinal(w, id, shorter);
      RunKeepsInv(w, shorter);
      StepKeepsCompleteTurn(Run(w, shorter), id, events[|events| - 1]);
    }
  }

  lemma StepKeepsCompleteTurn(w: World, id: RequestId, e: Event)
    requires Inv(w) && IsComplete(w, id)
    ensures IsComplete(Step(w, e), id)
    ensures Step(w, e).row.turns[id] == w.row.turns[id]
  {
    hide Admit, Free, Tracks;
    if (e.Ask? || e.SaveAnswer?) && e.pid in w.processes {
      assert ProcessOk(w, w.processes[e.pid]);
    }
  }

  /** Over every interleaving: a completed turn keeps its question and answer for ever, and the answer is
      a reply of a model call made for this request with exactly this question. */
  lemma CompletedTurnsAreProvenAndFinal(now: int, before: seq<Event>, after: seq<Event>, id: RequestId)
    ensures var w := Run(Init(now), before);
            IsComplete(w, id) ==>
              && w.row.turns[id].answer.Some?
              && Call(id, w.row.turns[id].question, w.row.turns[id].answer.value) in w.calls
              && IsComplete(Run(w, after), id)
              && Run(w, after).row.turns[id] == w.row.turns[id]
  {
    RunKeepsInv(Init(now), before);
    var w := Run(Init(now), before);
    if IsComplete(w, id) {
      CompleteTurnIsFinal(w, id, after);
      assert Proven(w, id);
    }
  }

  /** The token was issued and is not in the row: the lease was given back or taken over. */
  predicate Lost(w: World, token: nat) {
    token in w.issued && w.row.lockToken != Some(token)
  }

  lemma StepKeepsLost(w: World, token: nat, e: Event)
    requires Lost(w, token)
    ensures Lost(Step(w, e), token)
  {
    hide Admit, MayAsk, Question;
  }

  lemma {:induction false} LostForever(w: World, token: nat, events: seq<Event>)
    requires Lost(w, token)
    ensures Lost(Run(w, events), token)
    decreases |events|
  {
    hide Step, Lost;
    if events == [] {
    } else {
      LostForever(w, token, events[..|events| - 1]);
      StepKeepsLost(Run(w, events[..|events| - 1]), token, events[|events| - 1]);
    }
  }

  /** Once another token took the lock, no step under the old token ever writes anything. */
  lemma LateProcessIsFenced(w: World, token: nat, events: seq<Event>, e: Event)
    requires Lost(w, token)
    ensures var w1 := Run(w, events);
            !e.Tick? && e.pid in w1.processes && HasToken(w1.processes[e.pid]) && w1.processes[e.pid].token == token
            ==> Step(w1, e).row == w1.row && Step(w1, e).admitted == w1.admitted
  {
    LostForever(w, token, events);
  }

  /** Over every interleaving: at most five documents, and the stored window is exactly what the
      admitted requests say, so that no five minutes contain more than sixty of them. */
  lemma LimitsHold(now: int, events: seq<Event>)
    ensures var w := Run(Init(now), events);
            && |w.row.documents| <= MAX_DOCUMENTS
            && w.row.window.count <= LIMIT
            && Tracks(w.row.window, w.admitted)
            && forall i, j | 0 <= i <= j < |w.admitted| && w.admitted[j] - w.admitted[i] <= WINDOW :: j - i < 2 * LIMIT
  {
    RunKeepsInv(Init(now), events);
    var w := Run(Init(now), events);
    forall i, j | 0 <= i <= j < |w.admitted| && w.admitted[j] - w.admitted[i] <= WINDOW ensures j - i < 2 * LIMIT {
      if 2 * LIMIT <= j - i {
        assert NotAfter(w.admitted, i + 2 * LIMIT, j);
        SixtyPerFiveMinutes(w.row.window, w.admitted, i);
      }
    }
  }
}
