/** Request ids: replaying a request changes nothing and finds the same resource; using
    its id for anything else is refused and changes nothing. */
module AdmissionRequests {
  import opened Wrappers
  import opened AdmissionStore
  import opened AdmissionInvariants

  /** The three operations a caller names by a request id. */
  predicate IsRequest(op: Op) {
    op.CreateThread? || op.Admit? || op.RequestCancel?
  }

  function OwnerOf(op: Op): Id
    requires IsRequest(op)
  {
    op.owner
  }

  function RequestIdOf(op: Op): Id
    requires IsRequest(op)
  {
    op.requestId
  }

  /** What the caller asks for, without the identifiers the store draws for itself. */
  function InputOf(op: Op): Input
    requires IsRequest(op)
  {
    match op
    case CreateThread(_, _, title, parent, _, _) => ThreadInput(title, parent)
    case Admit(_, _, threadId, message, _) => TurnInput(threadId, message)
    case RequestCancel(_, taskId, _) => CancelInput(taskId)
  }

  predicate SameId(a: Op, b: Op)
    requires IsRequest(a) && IsRequest(b)
  {
    OwnerOf(a) == OwnerOf(b) && RequestIdOf(a) == RequestIdOf(b)
  }

  /** The resource a reply names: a thread, or the row of a turn. */
  datatype Resource = ThreadResource(threadId: Id) | RowResource(sequence: nat) | NoResource

  function ResourceOf(outcome: Outcome<Reply>): Resource {
    match outcome
    case Ok(ThreadReply(threadId, _)) => ThreadResource(threadId)
    case Ok(RecordReply(sequence, _, _)) => RowResource(sequence)
    case _ => NoResource
  }

  function Replayed(outcome: Outcome<Reply>): bool {
    match outcome
    case Ok(ThreadReply(_, replayed)) => replayed
    case Ok(RecordReply(_, _, replayed)) => replayed
    case _ => false
  }

  predicate Visits(db: Db, s: nat, owner: Id, requestId: Id, operation: Operation, input: Input) {
    && HasRequest(db, owner, requestId) && RequestSequence(db, owner, requestId) == s
    && SameRequest(db.rows[s], operation, input)
    && db.rows[s].owner == owner && db.rows[s].requestId == requestId
  }

  function OperationOf(op: Op): Operation
    requires IsRequest(op)
  {
    match op
    case CreateThread(_, _, _, _, _, _) => NewThread
    case Admit(_, _, _, _, _) => Turn
    case RequestCancel(_, _, _) => Cancel
  }

  /** A request that succeeded is recorded under its id, with exactly its input. */
  lemma SuccessIsRecorded(op: Op, now: real, db: Db, memory: Memory) returns (s: nat)
    requires DbInv(db) && IsRequest(op)
    requires Perform(op, now, db, memory).outcome.Ok?
    ensures Visits(Perform(op, now, db, memory).db, s, OwnerOf(op), RequestIdOf(op), OperationOf(op), InputOf(op))
  {
    hide DbInv, ValidId, Visits, CreateThreadWork, AdmitWork, RequestCancelWork, HasRequest;
    if HasRequest(db, OwnerOf(op), RequestIdOf(op)) {
      s := RequestSequence(db, OwnerOf(op), RequestIdOf(op));
      RequestRowAgrees(db, OwnerOf(op), RequestIdOf(op));
      KnownRequest(op, now, db, memory, s);
    } else {
      s := db.next;
      match op
      case CreateThread(_, _, _, _, _, _) => NewThreadRequest(op, now, db, memory);
      case Admit(_, _, _, _, _) => NewTurnRequest(op, now, db, memory);
      case RequestCancel(_, _, _) =>
        NewCancelRequest(op, now, db, memory);
    }
  }

  lemma KnownRequest(op: Op, now: real, db: Db, memory: Memory, s: nat)
    requires IsRequest(op) && Perform(op, now, db, memory).outcome.Ok?
    requires HasRequest(db, OwnerOf(op), RequestIdOf(op)) && s == RequestSequence(db, OwnerOf(op), RequestIdOf(op))
    requires db.rows[s].owner == OwnerOf(op) && db.rows[s].requestId == RequestIdOf(op)
    ensures Visits(Perform(op, now, db, memory).db, s, OwnerOf(op), RequestIdOf(op), OperationOf(op), InputOf(op))
  {
    hide ValidId, Visible, NewWorkspace, InsertRow, CheckThread, HasTask;
  }

  lemma NewThreadRequest(op: Op, now: real, db: Db, memory: Memory)
    requires op.CreateThread? && CreateThreadWork(db, memory, op, now).outcome.Ok?
    requires !HasRequest(db, op.owner, op.requestId)
    ensures Visits(CreateThreadWork(db, memory, op, now).db, db.next, op.owner, op.requestId, NewThread, InputOf(op))
  {
    hide ValidId, Visible, NewWorkspace, CheckThread;
    WorkspaceOnly(db, op.owner, op.workspaceId);
  }

  lemma NewTurnRequest(op: Op, now: real, db: Db, memory: Memory)
    requires op.Admit? && AdmitWork(db, memory, op, now).outcome.Ok?
    requires !HasRequest(db, op.owner, op.requestId)
    ensures Visits(AdmitWork(db, memory, op, now).db, db.next, op.owner, op.requestId, Turn, InputOf(op))
  {
    hide ValidId, CheckThread;
  }

  lemma NewCancelRequest(op: Op, now: real, db: Db, memory: Memory)
    requires op.RequestCancel? && RequestCancelWork(db, memory, op, now).outcome.Ok?
    requires !HasRequest(db, op.owner, op.requestId)
    ensures Visits(RequestCancelWork(db, memory, op, now).db, db.next, op.owner, op.requestId, Cancel, InputOf(op))
  {
    hide ValidId, CheckThread;
  }

  lemma RequestRowAgrees(db: Db, owner: Id, requestId: Id)
    requires DbInv(db) && HasRequest(db, owner, requestId)
    ensures db.rows[RequestSequence(db, owner, requestId)].owner == owner
    ensures db.rows[RequestSequence(db, owner, requestId)].requestId == requestId
  {
    hide TranscriptInv;
    assert RequestEntry(db, owner, requestId);
  }

  /** The record of a request stays where it is through any further history. */
  lemma RecordPersists(d: Db, d': Db, s: nat, owner: Id, requestId: Id, operation: Operation, input: Input)
    requires DbInv(d) && DbInv(d') && DbLater(d, d')
    requires Visits(d, s, owner, requestId, operation, input)
    ensures Visits(d', s, owner, requestId, operation, input)
  {
    hide TranscriptInv, RowOk;
    assert RowKept(d, d', s);
    assert RowAt(d', s);
  }

  lemma VisiblePersists(d: Db, d': Db, owner: Id, threadId: Id)
    requires DbLater(d, d') && CheckThread(d, owner, threadId).None?
    ensures CheckThread(d', owner, threadId).None?
  {
    hide ValidId;
    assert SubjectKept(d, d', owner) && ThreadKept(d, d', threadId);
  }

  /** Replaying a request that once succeeded, at any later point of any history and whatever
      fresh identifiers are drawn, returns the same resource and leaves the database and
      the in-memory sets exactly as they were. */
  lemma ReplayChangesNothing(op: Op, now: real, db: Db, memory: Memory,
                             again: Op, later: real, db': Db, memory': Memory)
    requires DbInv(db) && IsRequest(op)
    requires Perform(op, now, db, memory).outcome.Ok?
    requires DbInv(db') && DbLater(Perform(op, now, db, memory).db, db')
    requires IsRequest(again) && SameId(op, again) && InputOf(again) == InputOf(op)
    ensures var first, w := Perform(op, now, db, memory), Perform(again, later, db', memory');
            && w.outcome.Ok? && Replayed(w.outcome)
            && ResourceOf(w.outcome) == ResourceOf(first.outcome)
            && w.db == db' && w.memory == memory'
  {
    hide DbInv, DbLater, ValidId, RowOk, RowLater, TurnOk, Evolves;
    hide CheckInput, CreateThreadWork, AdmitWork, RequestCancelWork;
    var first := Perform(op, now, db, memory);
    var s := SuccessIsRecorded(op, now, db, memory);
    PerformKeeps(op, now, db, memory);
    RecordPersists(first.db, db', s, OwnerOf(op), RequestIdOf(op), OperationOf(op), InputOf(op));
    match op
    case CreateThread(_, _, _, _, _, _) =>
      CreatedThreadIsVisible(op, now, db, memory, s);
      RowStays(first.db, db', s);
      VisiblePersists(first.db, db', op.owner, first.db.rows[s].resourceId);
      KnownThreadReplays(again, later, db', memory', s);
    case Admit(_, _, _, _, _) =>
      AdmittedThreadIsVisible(op, now, db, memory);
      VisiblePersists(first.db, db', op.owner, op.threadId);
      KnownTurnReplays(again, later, db', memory', s);
    case RequestCancel(_, _, _) =>
      CancelTargetIsVisible(op, now, db, memory);
      var target := db.byTask[op.taskId];
      RowStays(first.db, db', target);
      TaskStays(first.db, db', target);
      VisiblePersists(first.db, db', op.owner, first.db.rows[target].threadId);
      KnownCancelReplays(again, later, db', memory', s);
  }

  lemma KnownThreadReplays(op: Op, now: real, db: Db, memory: Memory, s: nat)
    requires op.CreateThread? && Visits(db, s, op.owner, op.requestId, NewThread, InputOf(op))
    requires ValidId(op.requestId) && 1 <= |op.title| <= 120 && CheckInput(InputOf(op)).None?
    requires CheckThread(db, op.owner, db.rows[s].resourceId).None?
    ensures CreateThreadWork(db, memory, op, now) == Work(Ok(ThreadReply(db.rows[s].resourceId, true)), db, memory)
  {
    hide ValidId, CheckInput, CheckThread, NewWorkspace, InsertRow;
  }

  lemma KnownTurnReplays(op: Op, now: real, db: Db, memory: Memory, s: nat)
    requires op.Admit? && Visits(db, s, op.owner, op.requestId, Turn, InputOf(op))
    requires ValidId(op.requestId) && 1 <= |op.message| <= 8000 && CheckInput(InputOf(op)).None?
    requires CheckThread(db, op.owner, op.threadId).None?
    ensures AdmitWork(db, memory, op, now) == Work(Ok(RecordReply(s, db.rows[s], true)), db, memory)
  {
    hide ValidId, CheckInput, CheckThread, InsertRow;
  }

  lemma KnownCancelReplays(op: Op, now: real, db: Db, memory: Memory, s: nat)
    requires op.RequestCancel? && Visits(db, s, op.owner, op.requestId, Cancel, InputOf(op))
    requires ValidId(op.taskId) && ValidId(op.requestId) && HasTask(db, op.owner, op.taskId)
    requires CheckThread(db, op.owner, db.rows[db.byTask[op.taskId]].threadId).None?
    ensures RequestCancelWork(db, memory, op, now) ==
            Work(Ok(RecordReply(db.byTask[op.taskId], db.rows[db.byTask[op.taskId]], true)), db, memory)
  {
    hide ValidId, CheckThread, InsertRow;
  }

  lemma TaskStays(d: Db, d': Db, s: nat)
    requires DbInv(d') && DbLater(d, d')
    requires IsTurn(d, s) && d.rows[s].turn.Some? && HasTask(d, d.rows[s].owner, d.rows[s].turn.value.taskId)
    ensures HasTask(d', d.rows[s].owner, d.rows[s].turn.value.taskId)
    ensures d'.byTask[d.rows[s].turn.value.taskId] == s
    ensures d'.rows[s].threadId == d.rows[s].threadId
  {
    hide TranscriptInv, RowOk;
    assert RowKept(d, d', s);
    assert RowAt(d', s);
  }

  lemma CreatedThreadIsVisible(op: Op, now: real, db: Db, memory: Memory, s: nat)
    requires DbInv(db) && op.CreateThread?
    requires CreateThreadWork(db, memory, op, now).outcome.Ok?
    requires var d := CreateThreadWork(db, memory, op, now).db;
             HasRequest(d, op.owner, op.requestId) && RequestSequence(d, op.owner, op.requestId) == s
    ensures var w := CreateThreadWork(db, memory, op, now);
            && ValidId(op.requestId) && 1 <= |op.title| <= 120 && CheckInput(InputOf(op)).None?
            && w.outcome.value.ThreadReply? && w.db.rows[s].resourceId == w.outcome.value.threadId
            && CheckThread(w.db, op.owner, w.db.rows[s].resourceId).None?
  {
    hide DbInv, ValidId, CheckInput;
  }

  lemma AdmittedThreadIsVisible(op: Op, now: real, db: Db, memory: Memory)
    requires DbInv(db) && op.Admit?
    requires AdmitWork(db, memory, op, now).outcome.Ok?
    ensures CheckThread(AdmitWork(db, memory, op, now).db, op.owner, op.threadId).None?
    ensures ValidId(op.requestId) && 1 <= |op.message| <= 8000 && CheckInput(InputOf(op)).None?
    ensures var w := AdmitWork(db, memory, op, now);
            HasRequest(w.db, op.owner, op.requestId)
            && ResourceOf(w.outcome) == RowResource(RequestSequence(w.db, op.owner, op.requestId))
  {
    hide DbInv, ValidId, CheckInput;
  }

  lemma CancelTargetIsVisible(op: Op, now: real, db: Db, memory: Memory)
    requires DbInv(db) && op.RequestCancel?
    requires RequestCancelWork(db, memory, op, now).outcome.Ok?
    ensures var w := RequestCancelWork(db, memory, op, now);
            && ValidId(op.taskId) && ValidId(op.requestId)
            && op.taskId in db.byTask
            && var t := db.byTask[op.taskId];
            && ResourceOf(w.outcome) == RowResource(t)
            && IsTurn(w.db, t) && w.db.rows[t].owner == op.owner
            && w.db.rows[t].turn.Some? && w.db.rows[t].turn.value.taskId == op.taskId
            && HasTask(w.db, op.owner, op.taskId) && w.db.byTask[op.taskId] == t
            && CheckThread(w.db, op.owner, w.db.rows[t].threadId).None?
  {
    hide RowsInv, TranscriptInv, ValidId;
    var t := db.byTask[op.taskId];
    RowOkAt(db, t);
    TaskEntryAt(db, op.taskId);
  }

  lemma TaskEntryAt(db: Db, taskId: Id)
    requires DbInv(db) && taskId in db.byTask
    ensures TaskEntry(db, taskId)
  {
    hide TranscriptInv;
  }

  /** Any other operation or payload under an id that is already taken is refused and
      changes neither the database nor the in-memory sets. */
  lemma OtherUseIsRefused(op: Op, now: real, db: Db, memory: Memory,
                          other: Op, later: real, db': Db, memory': Memory)
    requires DbInv(db) && IsRequest(op)
    requires Perform(op, now, db, memory).outcome.Ok?
    requires DbInv(db') && DbLater(Perform(op, now, db, memory).db, db')
    requires IsRequest(other) && SameId(op, other) && InputOf(other) != InputOf(op)
    ensures var w := Perform(other, later, db', memory');
            w.outcome.Err? && w.db == db' && w.memory == memory'
  {
    hide DbInv, DbLater, ValidId, Evolves, CheckInput, CreateThreadWork, AdmitWork, RequestCancelWork;
    var first := Perform(op, now, db, memory);
    var s := SuccessIsRecorded(op, now, db, memory);
    PerformKeeps(op, now, db, memory);
    RecordPersists(first.db, db', s, OwnerOf(op), RequestIdOf(op), OperationOf(op), InputOf(op));
    TakenIdConflicts(other, later, db', memory', s);
  }

  lemma TakenIdConflicts(op: Op, now: real, db: Db, memory: Memory, s: nat)
    requires IsRequest(op) && HasRequest(db, OwnerOf(op), RequestIdOf(op))
    requires RequestSequence(db, OwnerOf(op), RequestIdOf(op)) == s && db.rows[s].input != InputOf(op)
    ensures var w := Perform(op, now, db, memory);
            w.outcome.Err? && w.db == db && w.memory == memory
  {
    hide ValidId, CheckInput, CheckThread, NewWorkspace, InsertRow, HasTask;
  }
}
