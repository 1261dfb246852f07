/** The durable side of owner admission: rows, transcript and event log, and the
    work each store operation does inside one SQLite transaction.

    A transaction is modelled in two halves. The functions here are the first half:
    what `work(conn)` leaves in the open transaction and in the two in-memory sets
    before COMMIT is tried. The sets change at once and do not roll back; the staged
    database becomes durable only if the COMMIT that follows succeeds. */
module AdmissionStore {
  import opened Wrappers
  import opened Utf8
  import opened Texts
  import Json

  type Id = string

  datatype ErrorCode =
    | Unauthorized | Forbidden | NotFound | Conflict | TooLarge | Media
    | InvalidRequest | Quota | Disabled | Audit | Store | Uncertainty

  datatype PilotError = PilotError(code: ErrorCode, uncertain: bool)

  datatype Outcome<+T> = Ok(value: T) | Err(error: PilotError)

  /** The seven values of the state column. */
  datatype State = Admitted | Running | Completed | Failed | Denied | Cancelled | Uncertain

  datatype Phase =
    | PAdmitted | PReserved | PRunning | PDispatch | PRequest | PResult | PStaged
    | PCommitted | PFinished | PFailed | PDenied | PCancelled | PUncertain | PRecovery

  datatype Operation = NewThread | Turn | Cancel

  /** The canonical input a request id is bound to. */
  datatype Input =
    | ThreadInput(title: Text, parent: Option<Id>)
    | TurnInput(thread: Id, message: Text)
    | CancelInput(task: Id)

  /** An execution report, with the digest of its output represented by the output itself. */
  datatype Report = Report(taskId: Id, output: Text, completed: bool)

  datatype TurnResult = TurnResult(taskId: Id, response: Text, report: Option<Report>)

  /** The identifiers only a turn row has. */
  datatype TurnIds = TurnIds(taskId: Id, userMessageId: Id, assistantMessageId: Id)

  datatype Row = Row(
    owner: Id,
    requestId: Id,
    operation: Operation,
    input: Input,
    turn: Option<TurnIds>,
    threadId: Id,
    resourceId: Id,
    state: State,
    phase: Phase,
    cancelRequested: bool,
    modelAttempts: nat,
    toolAttempts: nat,
    result: Option<TurnResult>,
    errorCode: Option<ErrorCode>,
    createdAt: real,
    updatedAt: real)

  datatype Subject = Subject(quota: nat, workspace: Id)

  datatype Thread = Thread(owner: Id, workspace: Id, title: Text, parent: Option<Id>)

  datatype Role = User | Assistant

  datatype Message = Message(id: Id, threadId: Id, role: Role, content: Text)

  /** What an event row says happened: the text of its code column. */
  datatype Code = StateCode(state: State) | FaultCode(error: ErrorCode) | StagedCode | AttemptCode(kind: Kind)

  datatype Event = Event(sequence: nat, phase: Phase, code: Code)

  datatype Kind = Model | Tool

  /** The database file. `byRequest` and `byTask` are the UNIQUE indexes of pilot_requests,
      `next` its AUTOINCREMENT counter (which a rollback restores with everything else). */
  datatype Db = Db(
    subjects: map<Id, Subject>,
    threads: map<Id, Thread>,
    rows: map<nat, Row>,
    next: nat,
    byRequest: map<(Id, Id), nat>,
    byTask: map<Id, nat>,
    messages: seq<Message>,
    events: seq<Event>)

  /** The two in-memory sets that guard claims and leases. */
  datatype Memory = Memory(freshTurns: set<nat>, blocked: set<nat>)

  datatype Reply =
    | WorkspaceReply(workspace: Id)
    | ThreadReply(threadId: Id, replayed: bool)
    | RecordReply(sequence: nat, row: Row, replayed: bool)
    | ClaimReply(claimed: nat, claimedRow: Row, quota: nat)
    | FlagReply(flag: bool)
    | DoneReply

  /** What a transaction body leaves behind: its result, the staged database, the live sets. */
  datatype Work = Work(outcome: Outcome<Reply>, db: Db, memory: Memory)

  /** Every store operation the protocol uses, with the fresh identifiers it draws. */
  datatype Op =
    | EnsureWorkspace(owner: Id, workspaceId: Id)
    | CreateThread(owner: Id, requestId: Id, title: Text, parent: Option<Id>, workspaceId: Id, newThreadId: Id)
    | Admit(owner: Id, requestId: Id, threadId: Id, message: Text, ids: TurnIds)
    | Claim(owner: Id, requestId: Id, taskId: Id)
    | Get(owner: Id, taskId: Id)
    | GetRequest(owner: Id, requestId: Id)
    | HasUncertainty(owner: Id)
    | Transition(sequence: nat, expected: State, state: State, phase: Phase, error: Option<ErrorCode>)
    | Stage(sequence: nat, result: TurnResult)
    | CommitTurn(sequence: nat, text: Text, report: Option<Report>)
    | RequestCancel(owner: Id, taskId: Id, requestId: Id)
    | Recover
    | RecoverPartly(upTo: nat)
    | ReserveAttempt(sequence: nat, kind: Kind, limit: nat)

  const MAX_SEQUENCE: nat := 0x7fff_ffff_ffff_ffff
  const TURN_SECONDS: real := 120.0
  const MAX_MODEL_ATTEMPTS: nat := 8
  const MAX_TOOL_ATTEMPTS: nat := 4
  const MAX_INPUT_BYTES := 32768
  const MAX_RESPONSE_BYTES := 65536

  const EMPTY_DB := Db(map[], map[], map[], 1, map[], map[], [], [])

  function Fail<T>(code: ErrorCode): Outcome<T> {
    Err(PilotError(code, false))
  }

  function Refused(code: ErrorCode, db: Db, memory: Memory): Work {
    Work(Fail(code), db, memory)
  }

  /** `[A-Za-z0-9][A-Za-z0-9._:-]{0,127}` */
  predicate ValidId(id: Id) {
    && 1 <= |id| <= 128
    && Alphanumeric(id[0])
    && (forall i | 0 <= i < |id| :: Alphanumeric(id[i]) || Punctuation(id[i]))
  }

  predicate Alphanumeric(c: char) {
    'A' <= c <= 'Z' || 'a' <= c <= 'z' || '0' <= c <= '9'
  }

  predicate Punctuation(c: char) {
    c == '.' || c == '_' || c == ':' || c == '-'
  }

  predicate Terminal(state: State) {
    state != Admitted && state != Running
  }

  /** A turn that may still run: what a lease is allowed to stand for. */
  predicate Active(row: Row) {
    !Terminal(row.state) && !row.cancelRequested
  }

  predicate Expired(row: Row, now: real) {
    now >= row.createdAt + TURN_SECONDS
  }

  // ---------------------------------------------------------------- lookups

  /** The ownership join: the thread and the subject exist, agree on the workspace and the owner. */
  predicate Visible(db: Db, owner: Id, threadId: Id) {
    && threadId in db.threads
    && db.threads[threadId].owner == owner
    && owner in db.subjects
    && db.subjects[owner].workspace == db.threads[threadId].workspace
  }

  function CheckThread(db: Db, owner: Id, threadId: Id): Option<ErrorCode> {
    if !ValidId(threadId) then Some(InvalidRequest)
    else if Visible(db, owner, threadId) then None
    else Some(NotFound)
  }

  predicate IsTurn(db: Db, sequence: nat) {
    sequence in db.rows && db.rows[sequence].operation == Turn
  }

  /** `_turn`: a turn row by sequence, through the ownership join. */
  function CheckTurn(db: Db, sequence: nat): Option<ErrorCode> {
    if !(1 <= sequence <= MAX_SEQUENCE) then Some(InvalidRequest)
    else if IsTurn(db, sequence) && Visible(db, db.rows[sequence].owner, db.rows[sequence].threadId) then None
    else Some(NotFound)
  }

  predicate HasRequest(db: Db, owner: Id, requestId: Id) {
    (owner, requestId) in db.byRequest && db.byRequest[(owner, requestId)] in db.rows
  }

  function RequestSequence(db: Db, owner: Id, requestId: Id): nat
    requires HasRequest(db, owner, requestId)
  {
    db.byRequest[(owner, requestId)]
  }

  predicate HasTask(db: Db, owner: Id, taskId: Id) {
    && taskId in db.byTask
    && IsTurn(db, db.byTask[taskId])
    && db.rows[db.byTask[taskId]].owner == owner
  }

  predicate SameRequest(row: Row, operation: Operation, input: Input) {
    row.operation == operation && row.input == input
  }

  /** `_live`: the guard shared by staging and committing. */
  function CheckLive(row: Row, now: real): Option<PilotError> {
    if row.state != Running || row.cancelRequested then Some(PilotError(Conflict, false))
    else if Expired(row, now) then Some(PilotError(Uncertainty, true))
    else None
  }

  // ---------------------------------------------------------------- transaction bodies

  /** The JSON object a request id is bound to, keys in order. */
  function InputJson(input: Input): (v: Json.Value)
    ensures Json.Plain(v)
  {
    match input
    case ThreadInput(title, parent) =>
      var id := if parent.Some? then Json.Str(Literal(parent.value)) else Json.Null;
      Json.Dict([Json.Member(Literal("parent_thread_id"), id), Json.Member(Literal("title"), Json.Str(title))])
    case TurnInput(thread, message) =>
      Json.Dict([Json.Member(Literal("message"), Json.Str(message)),
                 Json.Member(Literal("thread_id"), Json.Str(Literal(thread)))])
    case CancelInput(task) => Json.Dict([Json.Member(Literal("task_id"), Json.Str(Literal(task)))])
  }

  /** `_canonical`: an input must have a UTF-8 encoding, and a bounded one. */
  function CheckInput(input: Input): Option<ErrorCode> {
    var text := Json.Print(InputJson(input));
    if !Scalar(text) then Some(InvalidRequest)
    else if |Encode(text)| > MAX_INPUT_BYTES then Some(TooLarge)
    else None
  }

  function NewWorkspace(db: Db, owner: Id, workspaceId: Id): Outcome<Db> {
    if owner in db.subjects then Ok(db)
    else if exists other | other in db.subjects :: db.subjects[other].workspace == workspaceId then Fail(Store)
    else Ok(db.(subjects := db.subjects[owner := Subject(|db.subjects| + 1, workspaceId)]))
  }

  function InsertRow(db: Db, row: Row): Outcome<Db> {
    if db.next > MAX_SEQUENCE
       || (row.owner, row.requestId) in db.byRequest
       || (row.turn.Some? && row.turn.value.taskId in db.byTask)
    then Fail(Store)
    else Ok(db.(
              rows := db.rows[db.next := row],
              next := db.next + 1,
              byRequest := db.byRequest[(row.owner, row.requestId) := db.next],
              byTask := if row.turn.Some? then db.byTask[row.turn.value.taskId := db.next] else db.byTask))
  }

  function LogEvent(db: Db, sequence: nat, phase: Phase, code: Code): Db {
    db.(events := db.events + [Event(sequence, phase, code)])
  }

  function SetRow(db: Db, sequence: nat, row: Row): Db {
    db.(rows := db.rows[sequence := row])
  }

  function Retire(memory: Memory, sequence: nat): Memory {
    Memory(memory.freshTurns - {sequence}, memory.blocked + {sequence})
  }

  function EnsureWorkspaceWork(db: Db, memory: Memory, owner: Id, workspaceId: Id): Work {
    match NewWorkspace(db, owner, workspaceId)
    case Err(e) => Work(Err(e), db, memory)
    case Ok(d) =>
      if owner in d.subjects then Work(Ok(WorkspaceReply(d.subjects[owner].workspace)), d, memory)
      else Refused(Store, db, memory)
  }

  function CreateThreadWork(db: Db, memory: Memory, op: Op, now: real): Work
    requires op.CreateThread?
  {
    var input := ThreadInput(op.title, op.parent);
    if !ValidId(op.requestId) || !(1 <= |op.title| <= 120) then Refused(InvalidRequest, db, memory)
    else if CheckInput(input).Some? then Refused(CheckInput(input).value, db, memory)
    else if HasRequest(db, op.owner, op.requestId) then
      var existing := db.rows[RequestSequence(db, op.owner, op.requestId)];
      if !SameRequest(existing, NewThread, input) then Refused(Conflict, db, memory)
      else
        match CheckThread(db, op.owner, existing.resourceId)
        case Some(code) => Refused(code, db, memory)
        case None => Work(Ok(ThreadReply(existing.resourceId, true)), db, memory)
    else
      match NewWorkspace(db, op.owner, op.workspaceId)
      case Err(e) => Work(Err(e), db, memory)
      case Ok(d) =>
        if op.owner !in d.subjects then Refused(Store, db, memory)
        else if op.parent.Some? && CheckThread(d, op.owner, op.parent.value).Some? then
          Refused(CheckThread(d, op.owner, op.parent.value).value, db, memory)
        else if op.newThreadId in d.threads then Refused(Store, db, memory)
        else
          var thread := Thread(op.owner, d.subjects[op.owner].workspace, op.title, op.parent);
          var row := Row(op.owner, op.requestId, NewThread, input, None, op.newThreadId, op.newThreadId,
                         Completed, PCommitted, false, 0, 0, None, None, now, now);
          match InsertRow(d.(threads := d.threads[op.newThreadId := thread]), row)
          case Err(e) => Work(Err(e), db, memory)
          case Ok(d') =>
            match CheckThread(d', op.owner, op.newThreadId)
            case Some(code) => Refused(code, db, memory)
            case None => Work(Ok(ThreadReply(op.newThreadId, false)), d', memory)
  }

  function AdmitWork(db: Db, memory: Memory, op: Op, now: real): Work
    requires op.Admit?
  {
    var input := TurnInput(op.threadId, op.message);
    if !ValidId(op.requestId) || !(1 <= |op.message| <= 8000) then Refused(InvalidRequest, db, memory)
    else if CheckInput(input).Some? then Refused(CheckInput(input).value, db, memory)
    else
      match CheckThread(db, op.owner, op.threadId)
      case Some(code) => Refused(code, db, memory)
      case None =>
        if HasRequest(db, op.owner, op.requestId) then
          var sequence := RequestSequence(db, op.owner, op.requestId);
          if !SameRequest(db.rows[sequence], Turn, input) then Refused(Conflict, db, memory)
          else Work(Ok(RecordReply(sequence, db.rows[sequence], true)), db, memory)
        else
          var row := Row(op.owner, op.requestId, Turn, input, Some(op.ids), op.threadId, op.ids.taskId,
                         Admitted, PAdmitted, false, 0, 0, None, None, now, now);
          match InsertRow(db, row)
          case Err(e) => Work(Err(e), db, memory)
          case Ok(d) =>
            Work(Ok(RecordReply(db.next, row, false)), d, memory.(freshTurns := memory.freshTurns + {db.next}))
  }

  /** The one-shot claim. The sequence leaves `freshTurns` before the row is written, so the
      claim is spent even when the transaction rolls back. */
  function ClaimWork(db: Db, memory: Memory, op: Op, now: real): Work
    requires op.Claim?
  {
    if !ValidId(op.requestId) || !ValidId(op.taskId) then Refused(InvalidRequest, db, memory)
    else if !HasRequest(db, op.owner, op.requestId) then Refused(NotFound, db, memory)
    else
      var sequence := RequestSequence(db, op.owner, op.requestId);
      var row := db.rows[sequence];
      if !Visible(db, op.owner, row.threadId) || row.operation != Turn
         || row.turn.None? || row.turn.value.taskId != op.taskId
      then Refused(NotFound, db, memory)
      else if !ValidId(row.threadId) then Refused(InvalidRequest, db, memory)
      else if sequence !in memory.freshTurns || row.state != Admitted || row.phase != PAdmitted
              || row.cancelRequested || Expired(row, now)
      then Refused(Conflict, db, memory)
      else
        Work(Ok(ClaimReply(sequence, row, db.subjects[op.owner].quota)),
             SetRow(db, sequence, row.(phase := PReserved, updatedAt := now)),
             memory.(freshTurns := memory.freshTurns - {sequence}))
  }

  function GetWork(db: Db, memory: Memory, owner: Id, taskId: Id): Work {
    if !ValidId(taskId) then Refused(InvalidRequest, db, memory)
    else if !HasTask(db, owner, taskId) then Refused(NotFound, db, memory)
    else
      var row := db.rows[db.byTask[taskId]];
      match CheckThread(db, owner, row.threadId)
      case Some(code) => Refused(code, db, memory)
      case None => Work(Ok(RecordReply(db.byTask[taskId], row, false)), db, memory)
  }

  function GetRequestWork(db: Db, memory: Memory, owner: Id, requestId: Id): Work {
    if !ValidId(requestId) then Refused(InvalidRequest, db, memory)
    else if !HasRequest(db, owner, requestId)
            || !Visible(db, owner, db.rows[RequestSequence(db, owner, requestId)].threadId)
    then Refused(NotFound, db, memory)
    else
      var sequence := RequestSequence(db, owner, requestId);
      Work(Ok(RecordReply(sequence, db.rows[sequence], false)), db, memory)
  }

  predicate UncertainTurn(db: Db, owner: Id, sequence: nat) {
    && IsTurn(db, sequence)
    && db.rows[sequence].owner == owner
    && db.rows[sequence].state == Uncertain
    && Visible(db, owner, db.rows[sequence].threadId)
  }

  predicate AnyUncertain(db: Db, owner: Id) {
    exists s | s in db.rows :: UncertainTurn(db, owner, s)
  }

  predicate MayTransition(expected: State, state: State) {
    match expected
    case Admitted => state != Admitted && state != Completed
    case Running => state == Failed || state == Uncertain
    case _ => false
  }

  function TransitionWork(db: Db, memory: Memory, op: Op, now: real): Work
    requires op.Transition?
  {
    if !MayTransition(op.expected, op.state) then Refused(Conflict, db, memory)
    else
      match CheckTurn(db, op.sequence)
      case Some(code) => Refused(code, db, memory)
      case None =>
        var row := db.rows[op.sequence];
        if row.state != op.expected || (op.state == Running && (row.cancelRequested || Expired(row, now)))
        then Refused(Conflict, db, memory)
        else if op.state == Cancelled && (row.modelAttempts != 0 || row.toolAttempts != 0)
        then Refused(Conflict, db, memory)
        else
          var row' := row.(state := op.state, phase := op.phase, errorCode := op.error, updatedAt := now);
          var code := if op.error.Some? then FaultCode(op.error.value) else StateCode(op.state);
          Work(Ok(DoneReply),
               LogEvent(SetRow(db, op.sequence, row'), op.sequence, op.phase, code),
               if op.state != Running then Retire(memory, op.sequence) else memory)
  }

  /** `_result`: the reply text is nonblank, encodable and bounded, and any report is bound to this
      task and text. */
  function CheckResult(row: Row, text: Text, report: Option<Report>): Option<ErrorCode> {
    if Blank(text) || !Scalar(text) then Some(InvalidRequest)
    else if |Encode(text)| > MAX_RESPONSE_BYTES then Some(TooLarge)
    else if report.Some? && (row.turn.None? || report.value.taskId != row.turn.value.taskId
                             || report.value.output != text || !report.value.completed)
    then Some(Conflict)
    else None
  }

  function StageWork(db: Db, memory: Memory, op: Op, now: real): Work
    requires op.Stage?
  {
    if !Scalar(op.result.response) then Refused(InvalidRequest, db, memory)
    else
      match CheckTurn(db, op.sequence)
      case Some(code) => Refused(code, db, memory)
      case None =>
        var row := db.rows[op.sequence];
        match CheckLive(row, now)
        case Some(e) => Work(Err(e), db, memory)
        case None =>
          match CheckResult(row, op.result.response, op.result.report)
          case Some(code) => Refused(code, db, memory)
          case None =>
            if row.turn.None? || op.result.taskId != row.turn.value.taskId then Refused(Conflict, db, memory)
            else if row.result.Some? && row.result.value != op.result then Refused(Conflict, db, memory)
            else
              Work(Ok(DoneReply),
                   LogEvent(SetRow(db, op.sequence, row.(result := Some(op.result), phase := PStaged, updatedAt := now)),
                            op.sequence, PStaged, StagedCode),
                   memory)
  }

  predicate MessageIdUsed(messages: seq<Message>, id: Id) {
    exists i | 0 <= i < |messages| :: messages[i].id == id
  }

  /** The two messages a completed turn publishes. */
  function Pair(row: Row): seq<Message>
    requires row.turn.Some? && row.input.TurnInput? && row.result.Some?
  {
    [Message(row.turn.value.userMessageId, row.threadId, User, row.input.message),
     Message(row.turn.value.assistantMessageId, row.threadId, Assistant, row.result.value.response)]
  }

  function CommitTurnWork(db: Db, memory: Memory, op: Op, now: real): Work
    requires op.CommitTurn?
  {
    match CheckTurn(db, op.sequence)
    case Some(code) => Refused(code, db, memory)
    case None =>
      var row := db.rows[op.sequence];
      match CheckLive(row, now)
      case Some(e) => Work(Err(e), db, memory)
      case None =>
        match CheckResult(row, op.text, op.report)
        case Some(code) => Refused(code, db, memory)
        case None =>
          if row.turn.None? || row.result != Some(TurnResult(row.turn.value.taskId, op.text, op.report))
          then Refused(Conflict, db, memory)
          else if !row.input.TurnInput? || row.input.thread != row.threadId then Refused(Store, db, memory)
          else
            var ids := row.turn.value;
            if MessageIdUsed(db.messages, ids.userMessageId) || MessageIdUsed(db.messages, ids.assistantMessageId)
               || ids.userMessageId == ids.assistantMessageId
            then Refused(Store, db, memory)
            else
              var published := db.(messages := db.messages + Pair(row));
              var row' := row.(state := Completed, phase := PCommitted, updatedAt := now);
              Work(Ok(DoneReply),
                   LogEvent(SetRow(published, op.sequence, row'), op.sequence, PCommitted, StateCode(Completed)),
                   Retire(memory, op.sequence))
  }

  function CancelledRow(target: Row, now: real): Row {
    var state := if target.state == Admitted && target.modelAttempts == 0 && target.toolAttempts == 0
                 then Cancelled else target.state;
    target.(cancelRequested := true, state := state, phase := PCancelled, updatedAt := now)
  }

  function RequestCancelWork(db: Db, memory: Memory, op: Op, now: real): Work
    requires op.RequestCancel?
  {
    var input := CancelInput(op.taskId);
    if !ValidId(op.taskId) || !ValidId(op.requestId) then Refused(InvalidRequest, db, memory)
    else if !HasTask(db, op.owner, op.taskId) then Refused(NotFound, db, memory)
    else
      var sequence := db.byTask[op.taskId];
      var target := db.rows[sequence];
      match CheckThread(db, op.owner, target.threadId)
      case Some(code) => Refused(code, db, memory)
      case None =>
        if HasRequest(db, op.owner, op.requestId) then
          if !SameRequest(db.rows[RequestSequence(db, op.owner, op.requestId)], Cancel, input)
          then Refused(Conflict, db, memory)
          else Work(Ok(RecordReply(sequence, target, true)), db, memory)
        else
          var row := Row(op.owner, op.requestId, Cancel, input, None, target.threadId, op.taskId,
                         Completed, PCancelled, false, 0, 0, None, None, now, now);
          if Terminal(target.state) then
            match InsertRow(db, row)
            case Err(e) => Work(Err(e), db, memory)
            case Ok(d) => Work(Ok(RecordReply(sequence, target, false)), d, memory)
          else
            var target' := CancelledRow(target, now);
            match InsertRow(SetRow(db, sequence, target'), row)
            case Err(e) => Work(Err(e), db, memory)
            case Ok(d) =>
              Work(Ok(RecordReply(sequence, target', false)),
                   LogEvent(d, sequence, PCancelled, StateCode(Cancelled)),
                   Retire(memory, sequence))
  }

  predicate Interrupted(db: Db, sequence: nat) {
    IsTurn(db, sequence) && !Terminal(db.rows[sequence].state)
  }

  function RecoveredRow(row: Row, now: real): Row {
    row.(state := Uncertain, phase := PRecovery, errorCode := Some(Uncertainty), updatedAt := now)
  }

  /** Recovery after it has visited every row numbered below `upTo`, in ascending order. */
  function RecoverPrefix(db: Db, memory: Memory, upTo: nat, now: real): (r: (Db, Memory))
    decreases upTo
  {
    if upTo == 0 then (db, memory)
    else
      var (d, m) := RecoverPrefix(db, memory, upTo - 1, now);
      if Interrupted(d, upTo - 1) then
        (LogEvent(SetRow(d, upTo - 1, RecoveredRow(d.rows[upTo - 1], now)), upTo - 1, PRecovery, FaultCode(Uncertainty)),
         Retire(m, upTo - 1))
      else (d, m)
  }

  function Attempts(row: Row, kind: Kind): nat {
    if kind == Model then row.modelAttempts else row.toolAttempts
  }

  function MaxAttempts(kind: Kind): nat {
    if kind == Model then MAX_MODEL_ATTEMPTS else MAX_TOOL_ATTEMPTS
  }

  function CountAttempt(row: Row, kind: Kind, now: real): Row {
    if kind == Model then row.(modelAttempts := row.modelAttempts + 1, updatedAt := now)
    else row.(toolAttempts := row.toolAttempts + 1, updatedAt := now)
  }

  function ReserveAttemptWork(db: Db, memory: Memory, op: Op, now: real): Work
    requires op.ReserveAttempt?
  {
    if !(1 <= op.limit <= MaxAttempts(op.kind)) then Refused(InvalidRequest, db, memory)
    else
      match CheckTurn(db, op.sequence)
      case Some(code) => Refused(code, db, memory)
      case None =>
        var row := db.rows[op.sequence];
        if row.state != Running || row.cancelRequested || Attempts(row, op.kind) >= op.limit || Expired(row, now)
        then Work(Ok(FlagReply(false)), db, memory)
        else
          Work(Ok(FlagReply(true)),
               LogEvent(SetRow(db, op.sequence, CountAttempt(row, op.kind, now)), op.sequence, PDispatch, AttemptCode(op.kind)),
               memory)
  }

  /** The body of the transaction of any store operation. */
  function Perform(op: Op, now: real, db: Db, memory: Memory): Work {
    match op
    case EnsureWorkspace(owner, workspaceId) => EnsureWorkspaceWork(db, memory, owner, workspaceId)
    case CreateThread(_, _, _, _, _, _) => CreateThreadWork(db, memory, op, now)
    case Admit(_, _, _, _, _) => AdmitWork(db, memory, op, now)
    case Claim(_, _, _) => ClaimWork(db, memory, op, now)
    case Get(owner, taskId) => GetWork(db, memory, owner, taskId)
    case GetRequest(owner, requestId) => GetRequestWork(db, memory, owner, requestId)
    case HasUncertainty(owner) => Work(Ok(FlagReply(AnyUncertain(db, owner))), db, memory)
    case Transition(_, _, _, _, _) => TransitionWork(db, memory, op, now)
    case Stage(_, _) => StageWork(db, memory, op, now)
    case CommitTurn(_, _, _) => CommitTurnWork(db, memory, op, now)
    case RequestCancel(_, _, _) => RequestCancelWork(db, memory, op, now)
    case Recover =>
      var (d, m) := RecoverPrefix(db, memory, db.next, now);
      Work(Ok(DoneReply), d, m)
    case RecoverPartly(upTo) =>
      var (_, m) := RecoverPrefix(db, memory, upTo, now);
      Work(Fail(Store), db, m)
    case ReserveAttempt(_, _, _) => ReserveAttemptWork(db, memory, op, now)
  }
}
