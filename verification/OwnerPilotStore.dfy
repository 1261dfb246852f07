/** The store as it runs: an object over the database file, whose transaction bodies write
    the open connection and the two sets in place. Each method is proved against the value
    it leaves behind, and a whole call against the two steps the protocol splits it into. */
module PilotStore {
  import opened Wrappers
  import Utf8
  import opened AdmissionStore
  import opened AdmissionInvariants
  import opened AdmissionProtocol

  /** One call of the store from start to end: body, publication fence, COMMIT or roll-back. */
  datatype Transacted = Transacted(outcome: Outcome<Reply>, db: Db, memory: Memory)

  function Transact(db: Db, memory: Memory, open: bool, fenced: bool, commits: bool, op: Op, now: real): Transacted {
    if !open then Transacted(Fail(Store), db, memory)
    else
      var work := Perform(op, now, db, memory);
      if work.outcome.Err? then Transacted(work.outcome, db, work.memory)
      else if !commits then Transacted(Fail(Store), db, work.memory)
      else if op.CommitTurn? && fenced then Transacted(Err(PilotError(Disabled, true)), db, work.memory)
      else Transacted(work.outcome, work.db, work.memory)
  }

  /** The world after a call that nothing interleaves with. */
  function Alone(w: World, client: Client, op: Op, now: real, commits: bool): World
    requires CanBegin(w.p, client, op)
  {
    var w1 := BeginStep(w, client, op, now);
    if w1.p.tx.None? then w1 else if commits then CommitStep(w1) else RollBackStep(w1)
  }

  /** The object's whole call is exactly the protocol's Begin followed by Commit or RollBack. */
  lemma TransactIsTwoSteps(w: World, client: Client, op: Op, now: real, commits: bool)
    requires CanBegin(w.p, client, op)
    ensures var t := Transact(w.db, w.p.memory, w.p.ready && !w.p.storeClosed, w.p.publicationClosed, commits, op, now);
            var w' := Alone(w, client, op, now, commits);
            && w'.db == t.db && w'.p.memory == t.memory && w'.p.tx.None?
            && client in w'.p.done && w'.p.done[client] == t.outcome
  {
    hide Perform, CanBegin;
    BeginsWithout(w.p, client, op);
    var open, w1 := w.p.ready && !w.p.storeClosed, BeginStep(w, client, op, now);
    if open && Perform(op, now, w.db, w.p.memory).outcome.Ok? {
      assert w1.p.tx == Some(Tx(client, op, Perform(op, now, w.db, w.p.memory).outcome.value,
                                Perform(op, now, w.db, w.p.memory).db));
      EndsTransaction(w1);
    }
  }

  lemma BeginsWithout(p: Process, client: Client, op: Op)
    requires CanBegin(p, client, op)
    ensures p.tx.None? && client !in p.done
  {
  }

  lemma EndsTransaction(w: World)
    requires w.p.tx.Some?
    ensures var tx := w.p.tx.value;
            && var committed, rolledBack := CommitStep(w), RollBackStep(w);
            && rolledBack.db == w.db && rolledBack.p.memory == w.p.memory && rolledBack.p.tx.None?
            && rolledBack.p.done == w.p.done[tx.client := Fail(Store)]
            && committed.p.memory == w.p.memory && committed.p.tx.None?
            && (if tx.op.CommitTurn? && w.p.publicationClosed
                then committed.db == w.db && committed.p.done == w.p.done[tx.client := Err(PilotError(Disabled, true))]
                else committed.db == tx.staged && committed.p.done == w.p.done[tx.client := Ok(tx.reply)])
  {
  }

  /** Whatever a call does, the file it leaves satisfies the invariant and continues the old one. */
  lemma TransactKeeps(db: Db, memory: Memory, open: bool, fenced: bool, commits: bool, op: Op, now: real)
    requires DbInv(db)
    ensures var t := Transact(db, memory, open, fenced, commits, op, now);
            DbInv(t.db) && DbLater(db, t.db)
    ensures fenced && op.CommitTurn? ==> Transact(db, memory, open, fenced, commits, op, now).db == db
  {
    hide DbInv, DbLater, Perform;
    PerformKeeps(op, now, db, memory);
    DbLaterReflexive(db);
  }

  class OwnerPilotStore {
    var file: Db               // what is durable
    var conn: Db               // what the open transaction has made of it
    var freshTurns: set<nat>
    var blockedSequences: set<nat>
    var publicationClosed: bool
    var ready: bool
    var closed: bool

    function Sets(): Memory
      reads this
    {
      Memory(freshTurns, blockedSequences)
    }

    constructor ()
      ensures file == EMPTY_DB && Sets() == Memory({}, {})
      ensures !ready && !closed && !publicationClosed
    {
      file, conn := EMPTY_DB, EMPTY_DB;
      freshTurns, blockedSequences := {}, {};
      publicationClosed, ready, closed := false, false, false;
    }

    method Initialize() returns (ok: bool)
      modifies this`ready
      ensures ok == !closed
      ensures ready == (old(ready) || ok)
    {
      if closed {
        return false;
      }
      ready := true;
      return true;
    }

    method FencePublication()
      modifies this`publicationClosed
      ensures publicationClosed
    {
      publicationClosed := true;
    }

    method Close()
      modifies this`publicationClosed, this`ready, this`closed
      ensures publicationClosed && !ready && closed
    {
      FencePublication();
      ready := false;
      closed := true;
    }

    // -------------------------------------------------------------- writes on the connection

    /** INSERT INTO pilot_requests; false is an integrity error. */
    method InsertRequest(row: Row) returns (ok: bool)
      modifies this`conn
      ensures ok == InsertRow(old(conn), row).Ok?
      ensures conn == if ok then InsertRow(old(conn), row).value else old(conn)
    {
      if conn.next > MAX_SEQUENCE || (row.owner, row.requestId) in conn.byRequest
         || (row.turn.Some? && row.turn.value.taskId in conn.byTask)
      {
        return false;
      }
      var sequence := conn.next;
      conn := conn.(rows := conn.rows[sequence := row], next := sequence + 1);
      conn := conn.(byRequest := conn.byRequest[(row.owner, row.requestId) := sequence]);
      if row.turn.Some? {
        conn := conn.(byTask := conn.byTask[row.turn.value.taskId := sequence]);
      }
      return true;
    }

    /** UPDATE pilot_requests ... WHERE sequence=? */
    method UpdateRequest(sequence: nat, row: Row)
      modifies this`conn
      ensures conn == SetRow(old(conn), sequence, row)
    {
      conn := conn.(rows := conn.rows[sequence := row]);
    }

    method InsertEvent(sequence: nat, phase: Phase, code: Code)
      modifies this`conn
      ensures conn == LogEvent(old(conn), sequence, phase, code)
    {
      conn := conn.(events := conn.events + [Event(sequence, phase, code)]);
    }

    method InsertMessage(message: Message) returns (ok: bool)
      modifies this`conn
      ensures ok == !MessageIdUsed(old(conn).messages, message.id)
      ensures conn == if ok then old(conn).(messages := old(conn).messages + [message]) else old(conn)
    {
      ok := !MessageIdUsed(conn.messages, message.id);
      if ok {
        conn := conn.(messages := conn.messages + [message]);
      }
    }

    method Block(sequence: nat)
      modifies this`freshTurns, this`blockedSequences
      ensures Sets() == Retire(old(Sets()), sequence)
    {
      blockedSequences := blockedSequences + {sequence};
      freshTurns := freshTurns - {sequence};
    }

    method Workspace(owner: Id, workspaceId: Id) returns (ok: bool)
      modifies this`conn
      ensures ok == NewWorkspace(old(conn), owner, workspaceId).Ok?
      ensures conn == if ok then NewWorkspace(old(conn), owner, workspaceId).value else old(conn)
    {
      if owner in conn.subjects {
        return true;
      }
      if exists other | other in conn.subjects :: conn.subjects[other].workspace == workspaceId {
        return false;
      }
      conn := conn.(subjects := conn.subjects[owner := Subject(|conn.subjects| + 1, workspaceId)]);
      return true;
    }

    // -------------------------------------------------------------- transaction bodies

    /** The body has run: its result, the connection and the sets are those of the given work. */
    predicate Left(outcome: Outcome<Reply>, work: Work)
      reads this
    {
      outcome == work.outcome && Sets() == work.memory && (outcome.Ok? ==> conn == work.db)
    }

    method CreateThread(op: Op, now: real) returns (outcome: Outcome<Reply>)
      requires op.CreateThread?
      modifies this`conn
      ensures Left(outcome, CreateThreadWork(old(conn), old(Sets()), op, now))
    {
      hide ValidId, Visible, CheckInput, CheckResult;
      var input := ThreadInput(op.title, op.parent);
      if !ValidId(op.requestId) || !(1 <= |op.title| <= 120) {
        return Fail(InvalidRequest);
      }
      var unfit := CheckInput(input);
      if unfit.Some? {
        return Fail(unfit.value);
      }
      if HasRequest(conn, op.owner, op.requestId) {
        var existing := conn.rows[RequestSequence(conn, op.owner, op.requestId)];
        if !SameRequest(existing, NewThread, input) {
          return Fail(Conflict);
        }
        var missing := CheckThread(conn, op.owner, existing.resourceId);
        return if missing.Some? then Fail(missing.value) else Ok(ThreadReply(existing.resourceId, true));
      }
      var inserted := Workspace(op.owner, op.workspaceId);
      if !inserted || op.owner !in conn.subjects {
        return Fail(Store);
      }
      if op.parent.Some? {
        var missing := CheckThread(conn, op.owner, op.parent.value);
        if missing.Some? {
          return Fail(missing.value);
        }
      }
      if op.newThreadId in conn.threads {
        return Fail(Store);
      }
      var thread := Thread(op.owner, conn.subjects[op.owner].workspace, op.title, op.parent);
      conn := conn.(threads := conn.threads[op.newThreadId := thread]);
      inserted := InsertRequest(Row(op.owner, op.requestId, NewThread, input, None, op.newThreadId, op.newThreadId,
                                    Completed, PCommitted, false, 0, 0, None, None, now, now));
      if !inserted {
        return Fail(Store);
      }
      var unseen := CheckThread(conn, op.owner, op.newThreadId);
      return if unseen.Some? then Fail(unseen.value) else Ok(ThreadReply(op.newThreadId, false));
    }

    method Admit(op: Op, now: real) returns (outcome: Outcome<Reply>)
      requires op.Admit?
      modifies this`conn, this`freshTurns
      ensures Left(outcome, AdmitWork(old(conn), old(Sets()), op, now))
    {
      hide ValidId, Visible, CheckInput, CheckResult;
      var input := TurnInput(op.threadId, op.message);
      if !ValidId(op.requestId) || !(1 <= |op.message| <= 8000) {
        return Fail(InvalidRequest);
      }
      var unfit := CheckInput(input);
      if unfit.Some? {
        return Fail(unfit.value);
      }
      var missing := CheckThread(conn, op.owner, op.threadId);
      if missing.Some? {
        return Fail(missing.value);
      }
      if HasRequest(conn, op.owner, op.requestId) {
        var sequence := RequestSequence(conn, op.owner, op.requestId);
        if !SameRequest(conn.rows[sequence], Turn, input) {
          return Fail(Conflict);
        }
        return Ok(RecordReply(sequence, conn.rows[sequence], true));
      }
      var sequence := conn.next;
      var row := Row(op.owner, op.requestId, Turn, input, Some(op.ids), op.threadId, op.ids.taskId,
                     Admitted, PAdmitted, false, 0, 0, None, None, now, now);
      var inserted := InsertRequest(row);
      if !inserted {
        return Fail(Store);
      }
      freshTurns := freshTurns + {sequence};
      return Ok(RecordReply(sequence, row, false));
    }

    method Claim(op: Op, now: real) returns (outcome: Outcome<Reply>)
      requires op.Claim?
      modifies this`conn, this`freshTurns
      ensures Left(outcome, ClaimWork(old(conn), old(Sets()), op, now))
    {
      hide ValidId;
      if !ValidId(op.requestId) || !ValidId(op.taskId) {
        return Fail(InvalidRequest);
      }
      if !HasRequest(conn, op.owner, op.requestId) {
        return Fail(NotFound);
      }
      var sequence := RequestSequence(conn, op.owner, op.requestId);
      var row := conn.rows[sequence];
      if !Visible(conn, op.owner, row.threadId) || row.operation != Turn
         || row.turn.None? || row.turn.value.taskId != op.taskId
      {
        return Fail(NotFound);
      }
      if !ValidId(row.threadId) {
        return Fail(InvalidRequest);
      }
      if sequence !in freshTurns || row.state != Admitted || row.phase != PAdmitted
         || row.cancelRequested || Expired(row, now)
      {
        return Fail(Conflict);
      }
      freshTurns := freshTurns - {sequence};
      UpdateRequest(sequence, row.(phase := PReserved, updatedAt := now));
      return Ok(ClaimReply(sequence, row, conn.subjects[op.owner].quota));
    }

    method Transition(op: Op, now: real) returns (outcome: Outcome<Reply>)
      requires op.Transition?
      modifies this`conn, this`freshTurns, this`blockedSequences
      ensures Left(outcome, TransitionWork(old(conn), old(Sets()), op, now))
    {
      hide ValidId, Visible, CheckInput, CheckResult;
      if !MayTransition(op.expected, op.state) {
        return Fail(Conflict);
      }
      var missing := CheckTurn(conn, op.sequence);
      if missing.Some? {
        return Fail(missing.value);
      }
      var row := conn.rows[op.sequence];
      if row.state != op.expected || (op.state == Running && (row.cancelRequested || Expired(row, now))) {
        return Fail(Conflict);
      }
      if op.state == Cancelled && (row.modelAttempts != 0 || row.toolAttempts != 0) {
        return Fail(Conflict);
      }
      UpdateRequest(op.sequence, row.(state := op.state, phase := op.phase, errorCode := op.error, updatedAt := now));
      InsertEvent(op.sequence, op.phase, if op.error.Some? then FaultCode(op.error.value) else StateCode(op.state));
      if op.state != Running {
        Block(op.sequence);
      }
      return Ok(DoneReply);
    }

    method StageResult(op: Op, now: real) returns (outcome: Outcome<Reply>)
      requires op.Stage?
      modifies this`conn
      ensures Left(outcome, StageWork(old(conn), old(Sets()), op, now))
    {
      hide ValidId, Visible, CheckInput, CheckResult;
      if !Utf8.Scalar(op.result.response) {
        return Fail(InvalidRequest);
      }
      var missing := CheckTurn(conn, op.sequence);
      if missing.Some? {
        return Fail(missing.value);
      }
      var row := conn.rows[op.sequence];
      var dead := CheckLive(row, now);
      if dead.Some? {
        return Err(dead.value);
      }
      var bad := CheckResult(row, op.result.response, op.result.report);
      if bad.Some? {
        return Fail(bad.value);
      }
      if row.turn.None? || op.result.taskId != row.turn.value.taskId
         || (row.result.Some? && row.result.value != op.result)
      {
        return Fail(Conflict);
      }
      UpdateRequest(op.sequence, row.(result := Some(op.result), phase := PStaged, updatedAt := now));
      InsertEvent(op.sequence, PStaged, StagedCode);
      return Ok(DoneReply);
    }

    /** The two messages go in one after the other; a repeated identifier undoes everything. */
    method CommitTurn(op: Op, now: real) returns (outcome: Outcome<Reply>)
      requires op.CommitTurn?
      modifies this`conn, this`freshTurns, this`blockedSequences
      ensures Left(outcome, CommitTurnWork(old(conn), old(Sets()), op, now))
    {
      hide ValidId, Visible, CheckInput, CheckResult;
      var missing := CheckTurn(conn, op.sequence);
      if missing.Some? {
        return Fail(missing.value);
      }
      var row := conn.rows[op.sequence];
      var dead := CheckLive(row, now);
      if dead.Some? {
        return Err(dead.value);
      }
      var bad := CheckResult(row, op.text, op.report);
      if bad.Some? {
        return Fail(bad.value);
      }
      if row.turn.None? || row.result != Some(TurnResult(row.turn.value.taskId, op.text, op.report)) {
        return Fail(Conflict);
      }
      if !row.input.TurnInput? || row.input.thread != row.threadId {
        return Fail(Store);
      }
      ghost var before := conn.messages;
      var question := Message(row.turn.value.userMessageId, row.threadId, User, row.input.message);
      var answer := Message(row.turn.value.assistantMessageId, row.threadId, Assistant, op.text);
      var inserted := InsertMessage(question);
      if !inserted {
        return Fail(Store);
      }
      UsedAfter(before, question, answer.id);
      inserted := InsertMessage(answer);
      if !inserted {
        return Fail(Store);
      }
      assert before + [question] + [answer] == before + Pair(row);
      UpdateRequest(op.sequence, row.(state := Completed, phase := PCommitted, updatedAt := now));
      InsertEvent(op.sequence, PCommitted, StateCode(Completed));
      Block(op.sequence);
      return Ok(DoneReply);
    }

    static lemma UsedAfter(messages: seq<Message>, message: Message, id: Id)
      ensures MessageIdUsed(messages + [message], id) <==> MessageIdUsed(messages, id) || message.id == id
    {
      if MessageIdUsed(messages, id) {
        var i :| 0 <= i < |messages| && messages[i].id == id;
        assert (messages + [message])[i].id == id;
      }
      assert (messages + [message])[|messages|] == message;
    }

    method RequestCancel(op: Op, now: real) returns (outcome: Outcome<Reply>)
      requires op.RequestCancel?
      modifies this`conn, this`freshTurns, this`blockedSequences
      ensures Left(outcome, RequestCancelWork(old(conn), old(Sets()), op, now))
    {
      hide ValidId, Visible, CheckInput, CheckResult;
      var input := CancelInput(op.taskId);
      if !ValidId(op.taskId) || !ValidId(op.requestId) {
        return Fail(InvalidRequest);
      }
      if !HasTask(conn, op.owner, op.taskId) {
        return Fail(NotFound);
      }
      var sequence := conn.byTask[op.taskId];
      var target := conn.rows[sequence];
      var missing := CheckThread(conn, op.owner, target.threadId);
      if missing.Some? {
        return Fail(missing.value);
      }
      if HasRequest(conn, op.owner, op.requestId) {
        if !SameRequest(conn.rows[RequestSequence(conn, op.owner, op.requestId)], Cancel, input) {
          return Fail(Conflict);
        }
        return Ok(RecordReply(sequence, target, true));
      }
      if !Terminal(target.state) {
        UpdateRequest(sequence, CancelledRow(target, now));
      }
      var inserted := InsertRequest(Row(op.owner, op.requestId, Cancel, input, None, target.threadId, op.taskId,
                                        Completed, PCancelled, false, 0, 0, None, None, now, now));
      if !inserted {
        return Fail(Store);
      }
      if Terminal(target.state) {
        return Ok(RecordReply(sequence, target, false));
      }
      Block(sequence);
      InsertEvent(sequence, PCancelled, StateCode(Cancelled));
      return Ok(RecordReply(sequence, CancelledRow(target, now), false));
    }

    /** Visits every row in ascending order; a fault after `upTo` of them leaves the sets marked. */
    method RecoverInterrupted(upTo: nat, now: real)
      modifies this`conn, this`freshTurns, this`blockedSequences
      ensures (conn, Sets()) == RecoverPrefix(old(conn), old(Sets()), upTo, now)
    {
      var sequence := 0;
      while sequence < upTo
        invariant sequence <= upTo
        invariant (conn, Sets()) == RecoverPrefix(old(conn), old(Sets()), sequence, now)
      {
        if Interrupted(conn, sequence) {
          UpdateRequest(sequence, RecoveredRow(conn.rows[sequence], now));
          Block(sequence);
          InsertEvent(sequence, PRecovery, FaultCode(Uncertainty));
        }
        sequence := sequence + 1;
      }
    }

    method ReserveAttempt(op: Op, now: real) returns (outcome: Outcome<Reply>)
      requires op.ReserveAttempt?
      modifies this`conn
      ensures Left(outcome, ReserveAttemptWork(old(conn), old(Sets()), op, now))
    {
      hide ValidId, Visible, CheckInput, CheckResult;
      if !(1 <= op.limit <= MaxAttempts(op.kind)) {
        return Fail(InvalidRequest);
      }
      var missing := CheckTurn(conn, op.sequence);
      if missing.Some? {
        return Fail(missing.value);
      }
      var row := conn.rows[op.sequence];
      if row.state != Running || row.cancelRequested || Attempts(row, op.kind) >= op.limit || Expired(row, now) {
        return Ok(FlagReply(false));
      }
      UpdateRequest(op.sequence, CountAttempt(row, op.kind, now));
      InsertEvent(op.sequence, PDispatch, AttemptCode(op.kind));
      return Ok(FlagReply(true));
    }

    /** Runs the body an operation names. */
    method Body(op: Op, now: real) returns (outcome: Outcome<Reply>)
      modifies this`conn, this`freshTurns, this`blockedSequences
      ensures Left(outcome, Perform(op, now, old(conn), old(Sets())))
    {
      hide CreateThreadWork, AdmitWork, ClaimWork, TransitionWork, StageWork, CommitTurnWork,
           RequestCancelWork, ReserveAttemptWork;
      match op
      case EnsureWorkspace(owner, workspaceId) =>
        var inserted := Workspace(owner, workspaceId);
        return if inserted && owner in conn.subjects
               then Ok(WorkspaceReply(conn.subjects[owner].workspace)) else Fail(Store);
      case CreateThread(_, _, _, _, _, _) => outcome := CreateThread(op, now);
      case Admit(_, _, _, _, _) => outcome := Admit(op, now);
      case Claim(_, _, _) => outcome := Claim(op, now);
      case Get(owner, taskId) => outcome := GetWork(conn, Sets(), owner, taskId).outcome;
      case GetRequest(owner, requestId) => outcome := GetRequestWork(conn, Sets(), owner, requestId).outcome;
      case HasUncertainty(owner) => outcome := Ok(FlagReply(AnyUncertain(conn, owner)));
      case Transition(_, _, _, _, _) => outcome := Transition(op, now);
      case Stage(_, _) => outcome := StageResult(op, now);
      case CommitTurn(_, _, _) => outcome := CommitTurn(op, now);
      case RequestCancel(_, _, _) => outcome := RequestCancel(op, now);
      case Recover =>
        RecoverInterrupted(conn.next, now);
        outcome := Ok(DoneReply);
      case RecoverPartly(upTo) =>
        RecoverInterrupted(upTo, now);
        outcome := Fail(Store);
      case ReserveAttempt(_, _, _) => outcome := ReserveAttempt(op, now);
    }

    /** `_run` over `_transaction`. Whether COMMIT succeeds is not the store's choice. */
    method Run(op: Op, now: real, commits: bool) returns (outcome: Outcome<Reply>)
      modifies this`file, this`conn, this`freshTurns, this`blockedSequences
      ensures Transacted(outcome, file, Sets()) ==
              Transact(old(file), old(Sets()), ready && !closed, publicationClosed, commits, op, now)
      ensures old(DbInv(file)) ==> DbInv(file) && DbLater(old(file), file)
    {
      hide Perform, DbInv, DbLater;
      ghost var open := ready && !closed;
      if DbInv(file) {
        TransactKeeps(file, Sets(), open, publicationClosed, commits, op, now);
      }
      if !ready || closed {
        return Fail(Store);
      }
      conn := file;
      outcome := Body(op, now);
      if outcome.Err? {
        return;
      }
      if !commits {
        return Fail(Store);
      }
      if op.CommitTurn? && publicationClosed {
        return Err(PilotError(Disabled, true));
      }
      file := conn;
    }
  }
}
