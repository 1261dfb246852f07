/** What every store operation keeps: the invariant of the database file, the way rows
    may change, and the agreement of the transcript with the log of committed turns. */
module AdmissionInvariants {
  import opened Wrappers
  import Texts
  import opened AdmissionStore

  // ---------------------------------------------------------------- one row over time

  /** The legal moves of the state column. */
  predicate Edge(a: State, b: State) {
    match a
    case Admitted => b != Admitted && b != Completed
    case Running => b == Completed || b == Failed || b == Uncertain
    case _ => false
  }

  /** Everything a row can have become after any number of operations. */
  ghost predicate RowLater(r: Row, r': Row) {
    && r'.owner == r.owner && r'.requestId == r.requestId && r'.operation == r.operation
    && r'.input == r.input && r'.turn == r.turn && r'.threadId == r.threadId
    && r'.resourceId == r.resourceId && r'.createdAt == r.createdAt
    && (Terminal(r.state) ==> r' == r)
    && (r.state == Running ==> r'.state != Admitted && r'.state != Denied && r'.state != Cancelled)
    && (r.cancelRequested ==> r'.cancelRequested)
    && r.modelAttempts <= r'.modelAttempts && r.toolAttempts <= r'.toolAttempts
    && (r.result.Some? ==> r'.result == r.result)
  }

  /** One sequence number: its state stays, or moves along one edge. */
  predicate LegalAt(d: Db, d': Db, s: nat) {
    s in d.rows && s in d'.rows && d'.rows[s].state != d.rows[s].state ==>
      Edge(d.rows[s].state, d'.rows[s].state)
  }

  /** What holds of a row at rest. */
  predicate RowOk(db: Db, row: Row) {
    && ValidId(row.threadId) && Visible(db, row.owner, row.threadId)
    && row.modelAttempts <= MAX_MODEL_ATTEMPTS && row.toolAttempts <= MAX_TOOL_ATTEMPTS
    && (row.operation == Turn <==> row.turn.Some?)
    && (row.operation == Turn ==> TurnOk(row))
    && (row.operation != Turn ==> row.state == Completed && row.turn.None?)
    && (row.operation == NewThread ==> row.resourceId == row.threadId)
  }

  predicate TurnOk(row: Row)
    requires row.turn.Some?
  {
    && row.input.TurnInput? && row.input.thread == row.threadId
    && row.resourceId == row.turn.value.taskId
    && (row.state == Admitted ==> !row.cancelRequested && row.result.None?)
    && (row.state == Admitted || row.state == Cancelled || row.state == Denied ==> row.modelAttempts == 0 && row.toolAttempts == 0)
    && (row.state == Completed ==>
          !row.cancelRequested && row.result.Some? && row.updatedAt < row.createdAt + TURN_SECONDS)
    && (row.result.Some? ==> row.result.value.taskId == row.turn.value.taskId && !Texts.Blank(row.result.value.response))
  }

  // ---------------------------------------------------------------- the database at rest

  /** A row and its two index entries. */
  predicate RowAt(db: Db, s: nat) {
    s in db.rows ==>
      && 1 <= s < db.next && s <= MAX_SEQUENCE
      && RowOk(db, db.rows[s])
      && (db.rows[s].owner, db.rows[s].requestId) in db.byRequest
      && db.byRequest[(db.rows[s].owner, db.rows[s].requestId)] == s
      && (db.rows[s].turn.Some? ==>
            && db.rows[s].turn.value.taskId in db.byTask
            && db.byTask[db.rows[s].turn.value.taskId] == s)
  }

  predicate RequestEntry(db: Db, owner: Id, requestId: Id) {
    (owner, requestId) in db.byRequest ==>
      var s := db.byRequest[(owner, requestId)];
      s in db.rows && db.rows[s].owner == owner && db.rows[s].requestId == requestId
  }

  predicate TaskEntry(db: Db, taskId: Id) {
    taskId in db.byTask ==>
      var s := db.byTask[taskId];
      s in db.rows && db.rows[s].turn.Some? && db.rows[s].turn.value.taskId == taskId
  }

  /** A recorded cancellation names a turn that is no longer active. */
  predicate CancelAt(db: Db, s: nat) {
    s in db.rows && db.rows[s].operation == Cancel ==>
      && db.rows[s].input.CancelInput? && db.rows[s].input.task in db.byTask
      && InactiveAt(db, db.byTask[db.rows[s].input.task])
  }

  predicate InactiveAt(db: Db, s: nat) {
    IsTurn(db, s) && !Active(db.rows[s])
  }

  ghost predicate RowsInv(db: Db) {
    && db.next >= 1
    && (forall s {:trigger CancelAt(db, s)} :: CancelAt(db, s))
    && (forall s {:trigger RowAt(db, s)} :: RowAt(db, s))
    && (forall o, r {:trigger RequestEntry(db, o, r)} :: RequestEntry(db, o, r))
    && (forall t {:trigger TaskEntry(db, t)} :: TaskEntry(db, t))
  }

  predicate IsCommit(e: Event) {
    e.phase == PCommitted && e.code == StateCode(Completed)
  }

  /** The turns the event log records as committed, in commit order. */
  function CommitOrder(events: seq<Event>): seq<nat> {
    if events == [] then []
    else
      var last := events[|events| - 1];
      CommitOrder(events[..|events| - 1]) + if IsCommit(last) then [last.sequence] else []
  }

  predicate Published(rows: map<nat, Row>, s: nat) {
    && s in rows && rows[s].operation == Turn && rows[s].state == Completed
    && rows[s].turn.Some? && rows[s].input.TurnInput? && rows[s].result.Some?
  }

  predicate AllPublished(rows: map<nat, Row>, order: seq<nat>) {
    forall i | 0 <= i < |order| :: Published(rows, order[i])
  }

  /** The (user, assistant) pairs of the given turns, in that order. */
  function Transcript(rows: map<nat, Row>, order: seq<nat>): seq<Message>
    requires AllPublished(rows, order)
  {
    if order == [] then []
    else Transcript(rows, order[..|order| - 1]) + Pair(rows[order[|order| - 1]])
  }

  predicate Distinct<T(==)>(s: seq<T>) {
    forall i, j | 0 <= i < j < |s| :: s[i] != s[j]
  }

  /** A completed turn is in the commit order. */
  predicate Committed(db: Db, s: nat) {
    IsTurn(db, s) && db.rows[s].state == Completed ==> s in CommitOrder(db.events)
  }

  ghost predicate TranscriptInv(db: Db) {
    var order := CommitOrder(db.events);
    && AllPublished(db.rows, order)
    && Distinct(order)
    && (forall s {:trigger Committed(db, s)} :: Committed(db, s))
    && db.messages == Transcript(db.rows, order)
  }

  ghost predicate DbInv(db: Db) {
    RowsInv(db) && TranscriptInv(db)
  }

  // ---------------------------------------------------------------- how one operation may move it

  predicate SubjectKept(d: Db, d': Db, o: Id) {
    o in d.subjects ==> o in d'.subjects && d'.subjects[o] == d.subjects[o]
  }

  predicate ThreadKept(d: Db, d': Db, t: Id) {
    t in d.threads ==> t in d'.threads && d'.threads[t] == d.threads[t]
  }

  /** One sequence number: its row moves forward, or appears at or above the old counter. */
  ghost predicate RowKept(d: Db, d': Db, s: nat) {
    && (s in d.rows ==> s in d'.rows && RowLater(d.rows[s], d'.rows[s]))
    && (s in d'.rows && s !in d.rows ==> s >= d.next)
  }

  /** Durable history only grows, and row by row it only moves forward. */
  ghost predicate DbLater(d: Db, d': Db) {
    && d.next <= d'.next
    && (forall s {:trigger RowKept(d, d', s)} :: RowKept(d, d', s))
    && (forall o {:trigger SubjectKept(d, d', o)} :: SubjectKept(d, d', o))
    && (forall t {:trigger ThreadKept(d, d', t)} :: ThreadKept(d, d', t))
    && d.messages <= d'.messages
    && d.events <= d'.events
  }

  /** One sequence number: a turn that stops being active is blocked, and one that appears is active. */
  predicate BlockFollows(d: Db, d': Db, m': Memory, s: nat) {
    IsTurn(d', s) && !Active(d'.rows[s]) ==>
      s in m'.blocked || (IsTurn(d, s) && !Active(d.rows[s]))
  }

  /** The in-memory sets err only towards refusing: a turn that stops being active is
      blocked in the same breath, and only the turn being admitted becomes fresh. */
  ghost predicate MemoryFollows(d: Db, m: Memory, d': Db, m': Memory) {
    && m.blocked <= m'.blocked
    && m'.freshTurns <= m.freshTurns + {d.next}
    && (forall s {:trigger BlockFollows(d, d', m', s)} :: BlockFollows(d, d', m', s))
  }

  ghost predicate Evolves(d: Db, m: Memory, d': Db, m': Memory) {
    DbLater(d, d') && MemoryFollows(d, m, d', m')
  }

  lemma RowLaterTransitive(a: Row, b: Row, c: Row)
    requires RowLater(a, b) && RowLater(b, c)
    ensures RowLater(a, c)
  {
  }

  /** No row is ever lost, and what it has become it became legally. */
  lemma RowStays(d: Db, d': Db, s: nat)
    requires DbLater(d, d') && s in d.rows
    ensures s in d'.rows && RowLater(d.rows[s], d'.rows[s])
  {
    assert RowKept(d, d', s);
  }

  lemma DbLaterReflexive(d: Db)
    ensures DbLater(d, d)
  {
  }

  lemma DbLaterTransitive(a: Db, b: Db, c: Db)
    requires DbLater(a, b) && DbLater(b, c)
    ensures DbLater(a, c)
  {
    forall s ensures RowKept(a, c, s) {
      assert RowKept(a, b, s) && RowKept(b, c, s);
      if s in a.rows {
        RowLaterTransitive(a.rows[s], b.rows[s], c.rows[s]);
      }
    }
    forall o ensures SubjectKept(a, c, o) {
      assert SubjectKept(a, b, o) && SubjectKept(b, c, o);
    }
    forall t ensures ThreadKept(a, c, t) {
      assert ThreadKept(a, b, t) && ThreadKept(b, c, t);
    }
  }

  lemma RowOkKept(d: Db, d': Db, row: Row)
    requires RowOk(d, row)
    requires SubjectKept(d, d', row.owner) && ThreadKept(d, d', row.threadId)
    ensures RowOk(d', row)
  {
  }

  // ---------------------------------------------------------------- the transcript

  lemma CommitOrderAppend(events: seq<Event>, e: Event)
    ensures CommitOrder(events + [e]) == CommitOrder(events) + if IsCommit(e) then [e.sequence] else []
  {
    assert (events + [e])[..|events|] == events;
  }

  lemma TranscriptFrame(rows: map<nat, Row>, rows': map<nat, Row>, order: seq<nat>)
    requires AllPublished(rows, order)
    requires forall i | 0 <= i < |order| :: order[i] in rows' && rows'[order[i]] == rows[order[i]]
    ensures AllPublished(rows', order)
    ensures Transcript(rows', order) == Transcript(rows, order)
  {
    if order != [] {
      TranscriptFrame(rows, rows', order[..|order| - 1]);
    }
  }

  // ---------------------------------------------------------------- the ways a body writes

  /** Replacing one row by a later state of it, other than by completing a turn. */
  ghost predicate Rewrites(db: Db, s: nat, row: Row) {
    && s in db.rows && RowLater(db.rows[s], row) && RowOk(db, row)
    && (row.operation == Turn && row.state == Completed ==> row == db.rows[s])
  }

  lemma UpdateRows(db: Db, s: nat, row: Row)
    requires RowsInv(db) && s in db.rows && RowLater(db.rows[s], row) && RowOk(db, row)
    ensures RowsInv(SetRow(db, s, row))
  {
    hide RowOk;
    var d := SetRow(db, s, row);
    forall t ensures CancelAt(d, t) {
      assert CancelAt(db, t) && CancelAt(db, s);
    }
    forall t ensures RowAt(d, t) {
      assert RowAt(db, t);
      if t in d.rows {
        RowOkKept(db, d, d.rows[t]);
      }
    }
    forall o, r ensures RequestEntry(d, o, r) {
      assert RequestEntry(db, o, r);
    }
    forall t ensures TaskEntry(d, t) {
      assert TaskEntry(db, t);
    }
  }

  lemma UpdateLater(db: Db, s: nat, row: Row)
    requires s in db.rows && RowLater(db.rows[s], row)
    ensures DbLater(db, SetRow(db, s, row))
  {
    var d := SetRow(db, s, row);
    forall t ensures RowKept(db, d, t) {
      if t in db.rows && t != s {
        assert RowLater(db.rows[t], d.rows[t]);
      }
    }
  }

  lemma UpdateTranscript(db: Db, s: nat, row: Row)
    requires TranscriptInv(db) && Rewrites(db, s, row)
    ensures TranscriptInv(SetRow(db, s, row))
  {
    hide RowOk;
    var d := SetRow(db, s, row);
    var order := CommitOrder(db.events);
    forall i | 0 <= i < |order| ensures order[i] in d.rows && d.rows[order[i]] == db.rows[order[i]] {
      assert Published(db.rows, order[i]);
    }
    TranscriptFrame(db.rows, d.rows, order);
    forall t ensures Committed(d, t) {
      assert Committed(db, t);
    }
  }

  lemma UpdateKeeps(db: Db, s: nat, row: Row)
    requires DbInv(db) && Rewrites(db, s, row)
    ensures DbInv(SetRow(db, s, row)) && DbLater(db, SetRow(db, s, row))
  {
    hide RowsInv, TranscriptInv, DbLater, RowOk, RowLater;
    UpdateRows(db, s, row);
    UpdateTranscript(db, s, row);
    UpdateLater(db, s, row);
  }

  /** Anything that leaves the rows and the indexes alone, and keeps subjects and threads. */
  lemma SameRows(db: Db, d: Db)
    requires RowsInv(db)
    requires d.rows == db.rows && d.next == db.next && d.byRequest == db.byRequest && d.byTask == db.byTask
    requires forall o :: SubjectKept(db, d, o)
    requires forall t :: ThreadKept(db, d, t)
    ensures RowsInv(d)
  {
    hide RowOk;
    forall s ensures CancelAt(d, s) {
      assert CancelAt(db, s);
    }
    forall s ensures RowAt(d, s) {
      assert RowAt(db, s);
      if s in d.rows {
        assert SubjectKept(db, d, d.rows[s].owner) && ThreadKept(db, d, d.rows[s].threadId);
        RowOkKept(db, d, d.rows[s]);
      }
    }
    forall o, r ensures RequestEntry(d, o, r) {
      assert RequestEntry(db, o, r);
    }
    forall t ensures TaskEntry(d, t) {
      assert TaskEntry(db, t);
    }
  }

  lemma LogKeeps(db: Db, s: nat, phase: Phase, code: Code)
    requires DbInv(db)
    requires !IsCommit(Event(s, phase, code))
    ensures DbInv(LogEvent(db, s, phase, code))
    ensures DbLater(db, LogEvent(db, s, phase, code))
  {
    hide RowsInv, TranscriptInv, DbLater;
    LogRows(db, s, phase, code);
    LogTranscript(db, s, phase, code);
    LogIsLater(db, s, phase, code);
  }

  lemma LogRows(db: Db, s: nat, phase: Phase, code: Code)
    requires RowsInv(db)
    ensures RowsInv(LogEvent(db, s, phase, code))
  {
    hide RowsInv;
    SameRows(db, LogEvent(db, s, phase, code));
  }

  lemma LogTranscript(db: Db, s: nat, phase: Phase, code: Code)
    requires TranscriptInv(db) && !IsCommit(Event(s, phase, code))
    ensures TranscriptInv(LogEvent(db, s, phase, code))
  {
    hide CommitOrder, Transcript, AllPublished, Distinct;
    var d := LogEvent(db, s, phase, code);
    CommitOrderAppend(db.events, Event(s, phase, code));
    assert CommitOrder(d.events) == CommitOrder(db.events);
    forall t ensures Committed(d, t) {
      assert Committed(db, t);
    }
  }

  lemma LogIsLater(db: Db, s: nat, phase: Phase, code: Code)
    ensures DbLater(db, LogEvent(db, s, phase, code))
  {
    hide RowLater;
    var d := LogEvent(db, s, phase, code);
    forall t ensures RowKept(db, d, t) {
      if t in db.rows {
        RowLaterReflexive(db.rows[t]);
      }
    }
  }

  lemma RowLaterReflexive(r: Row)
    ensures RowLater(r, r)
  {
  }

  lemma LoggedUpdateKeeps(db: Db, s: nat, row: Row, phase: Phase, code: Code)
    requires DbInv(db) && Rewrites(db, s, row)
    requires !IsCommit(Event(s, phase, code))
    ensures DbInv(LogEvent(SetRow(db, s, row), s, phase, code))
    ensures DbLater(db, LogEvent(SetRow(db, s, row), s, phase, code))
  {
    hide DbInv, DbLater, Rewrites, SetRow, LogEvent;
    UpdateKeeps(db, s, row);
    LogKeeps(SetRow(db, s, row), s, phase, code);
    DbLaterTransitive(db, SetRow(db, s, row), LogEvent(SetRow(db, s, row), s, phase, code));
  }

  /** Adding subjects and threads keeps the invariant. */
  lemma ContextKeeps(db: Db, d: Db)
    requires DbInv(db)
    requires d == db.(subjects := d.subjects, threads := d.threads)
    requires forall o :: SubjectKept(db, d, o)
    requires forall t :: ThreadKept(db, d, t)
    ensures DbInv(d) && DbLater(db, d)
  {
    hide RowsInv;
    SameRows(db, d);
    forall s ensures Committed(d, s) {
      assert Committed(db, s);
    }
  }

  /** A new row that records a cancellation comes after its target has been retired. */
  predicate CancelsInactive(db: Db, row: Row) {
    row.operation == Cancel ==>
      row.input.CancelInput? && row.input.task in db.byTask && InactiveAt(db, db.byTask[row.input.task])
  }

  lemma InsertRows(db: Db, row: Row)
    requires RowsInv(db) && RowOk(db, row) && CancelsInactive(db, row)
    requires InsertRow(db, row).Ok?
    ensures RowsInv(InsertRow(db, row).value)
  {
    hide RowOk, CancelAt, RowAt, RequestEntry, TaskEntry, CancelsInactive;
    var d := InsertRow(db, row).value;
    assert RowAt(db, db.next);
    forall s ensures CancelAt(d, s) {
      InsertCancels(db, row, s);
    }
    forall s ensures RowAt(d, s) {
      InsertRowAt(db, row, s);
    }
    forall o, r ensures RequestEntry(d, o, r) {
      InsertEntries(db, row, o, r, "");
    }
    forall t ensures TaskEntry(d, t) {
      InsertEntries(db, row, "", "", t);
    }
  }

  lemma InsertCancels(db: Db, row: Row, s: nat)
    requires RowsInv(db) && RowOk(db, row) && CancelsInactive(db, row)
    requires InsertRow(db, row).Ok?
    ensures CancelAt(InsertRow(db, row).value, s)
  {
    hide RowOk;
    assert RowAt(db, db.next);
    assert CancelAt(db, s);
  }

  lemma InsertRowAt(db: Db, row: Row, s: nat)
    requires RowsInv(db) && RowOk(db, row) && CancelsInactive(db, row)
    requires InsertRow(db, row).Ok?
    ensures RowAt(InsertRow(db, row).value, s)
  {
    hide RowOk, CancelAt, CancelsInactive;
    var d := InsertRow(db, row).value;
    assert RowAt(db, db.next);
    assert RowAt(db, s);
    if s in d.rows {
      RowOkKept(db, d, d.rows[s]);
    }
  }

  lemma InsertEntries(db: Db, row: Row, owner: Id, requestId: Id, taskId: Id)
    requires RowsInv(db) && RowOk(db, row) && CancelsInactive(db, row)
    requires InsertRow(db, row).Ok?
    ensures RequestEntry(InsertRow(db, row).value, owner, requestId)
    ensures TaskEntry(InsertRow(db, row).value, taskId)
  {
    hide RowOk, CancelAt, CancelsInactive;
    assert RowAt(db, db.next);
    assert RequestEntry(db, owner, requestId) && TaskEntry(db, taskId);
  }

  lemma InsertTranscript(db: Db, row: Row)
    requires TranscriptInv(db) && db.next !in db.rows
    requires row.operation == Turn ==> row.state != Completed
    requires InsertRow(db, row).Ok?
    ensures TranscriptInv(InsertRow(db, row).value)
  {
    var d := InsertRow(db, row).value;
    var order := CommitOrder(db.events);
    forall i | 0 <= i < |order| ensures order[i] in d.rows && d.rows[order[i]] == db.rows[order[i]] {
      assert Published(db.rows, order[i]);
    }
    TranscriptFrame(db.rows, d.rows, order);
    forall s ensures Committed(d, s) {
      assert Committed(db, s);
    }
  }

  lemma InsertKeeps(db: Db, row: Row)
    requires DbInv(db) && RowOk(db, row) && CancelsInactive(db, row)
    requires row.operation == Turn ==> row.state != Completed
    requires InsertRow(db, row).Ok?
    ensures DbInv(InsertRow(db, row).value)
    ensures DbLater(db, InsertRow(db, row).value)
  {
    hide TranscriptInv, RowOk;
    assert RowAt(db, db.next);
    InsertRows(db, row);
    InsertTranscript(db, row);
  }

  // ---------------------------------------------------------------- operation by operation

  ghost predicate Keeps(db: Db, memory: Memory, w: Work) {
    DbInv(w.db) && Evolves(db, memory, w.db, w.memory)
  }

  lemma NothingKeeps(db: Db, memory: Memory, memory': Memory)
    requires DbInv(db)
    requires memory.blocked <= memory'.blocked && memory'.freshTurns <= memory.freshTurns + {db.next}
    ensures DbInv(db) && Evolves(db, memory, db, memory')
  {
    hide DbInv;
  }

  lemma EnsureWorkspaceKeeps(db: Db, memory: Memory, owner: Id, workspaceId: Id)
    requires DbInv(db)
    ensures Keeps(db, memory, EnsureWorkspaceWork(db, memory, owner, workspaceId))
  {
    hide DbInv;
    ContextKeeps(db, EnsureWorkspaceWork(db, memory, owner, workspaceId).db);
  }

  /** Creating a workspace touches subjects only. */
  lemma WorkspaceOnly(db: Db, owner: Id, workspaceId: Id)
    ensures NewWorkspace(db, owner, workspaceId).Ok? ==>
              var d := NewWorkspace(db, owner, workspaceId).value;
              d == db.(subjects := d.subjects) && forall o :: SubjectKept(db, d, o)
  {
  }

  lemma CreateThreadKeeps(db: Db, memory: Memory, op: Op, now: real)
    requires DbInv(db) && op.CreateThread?
    ensures Keeps(db, memory, CreateThreadWork(db, memory, op, now))
  {
    hide DbInv, DbLater, ValidId, NewWorkspace, HasRequest, SameRequest;
    var w := CreateThreadWork(db, memory, op, now);
    if w.outcome.Ok? && !w.outcome.value.replayed {
      WorkspaceOnly(db, op.owner, op.workspaceId);
      var d := NewWorkspace(db, op.owner, op.workspaceId).value;
      var thread := Thread(op.owner, d.subjects[op.owner].workspace, op.title, op.parent);
      var d1 := d.(threads := d.threads[op.newThreadId := thread]);
      forall o ensures SubjectKept(db, d1, o) {
        assert SubjectKept(db, d, o);
      }
      ContextKeeps(db, d1);
      var row := Row(op.owner, op.requestId, NewThread, ThreadInput(op.title, op.parent), None, op.newThreadId,
                     op.newThreadId, Completed, PCommitted, false, 0, 0, None, None, now, now);
      assert w.db == InsertRow(d1, row).value;
      InsertKeeps(d1, row);
      DbLaterTransitive(db, d1, w.db);
    } else {
      assert w.db == db;
      NothingKeeps(db, memory, memory);
    }
  }

  lemma AdmitKeeps(db: Db, memory: Memory, op: Op, now: real)
    requires DbInv(db) && op.Admit?
    ensures Keeps(db, memory, AdmitWork(db, memory, op, now))
  {
    hide DbInv, DbLater, ValidId;
    var w := AdmitWork(db, memory, op, now);
    if w.outcome.Ok? && !w.outcome.value.replayed {
      InsertKeeps(db, w.outcome.value.row);
    } else {
      NothingKeeps(db, memory, memory);
    }
  }

  lemma RowOkAt(db: Db, s: nat)
    requires DbInv(db) && s in db.rows
    ensures RowOk(db, db.rows[s]) && s < db.next
  {
    hide RowOk, TranscriptInv;
    assert RowAt(db, s);
  }

  lemma ClaimKeeps(db: Db, memory: Memory, op: Op, now: real)
    requires DbInv(db) && op.Claim?
    ensures Keeps(db, memory, ClaimWork(db, memory, op, now))
  {
    hide DbInv, DbLater, ValidId;
    var w := ClaimWork(db, memory, op, now);
    if w.outcome.Ok? {
      var s := RequestSequence(db, op.owner, op.requestId);
      RowOkAt(db, s);
      UpdateKeeps(db, s, db.rows[s].(phase := PReserved, updatedAt := now));
    } else {
      NothingKeeps(db, memory, memory);
    }
  }

  lemma TransitionKeeps(db: Db, memory: Memory, op: Op, now: real)
    requires DbInv(db) && op.Transition?
    ensures Keeps(db, memory, TransitionWork(db, memory, op, now))
  {
    hide DbInv, DbLater, ValidId;
    var w := TransitionWork(db, memory, op, now);
    if w.outcome.Ok? {
      var row := db.rows[op.sequence];
      RowOkAt(db, op.sequence);
      var row' := row.(state := op.state, phase := op.phase, errorCode := op.error, updatedAt := now);
      assert RowLater(row, row') && RowOk(db, row');
      var code := if op.error.Some? then FaultCode(op.error.value) else StateCode(op.state);
      LoggedUpdateKeeps(db, op.sequence, row', op.phase, code);
    } else {
      NothingKeeps(db, memory, memory);
    }
  }

  lemma StageKeeps(db: Db, memory: Memory, op: Op, now: real)
    requires DbInv(db) && op.Stage?
    ensures Keeps(db, memory, StageWork(db, memory, op, now))
  {
    hide DbInv, DbLater, ValidId;
    var w := StageWork(db, memory, op, now);
    if w.outcome.Ok? {
      var row := db.rows[op.sequence];
      RowOkAt(db, op.sequence);
      LoggedUpdateKeeps(db, op.sequence, row.(result := Some(op.result), phase := PStaged, updatedAt := now), PStaged, StagedCode);
    } else {
      NothingKeeps(db, memory, memory);
    }
  }

  /** The database between the two halves of a commit: the row completed, nothing published. */
  function CompletedRow(row: Row, now: real): Row {
    row.(state := Completed, phase := PCommitted, updatedAt := now)
  }

  lemma CommitTurnKeeps(db: Db, memory: Memory, op: Op, now: real)
    requires DbInv(db) && op.CommitTurn?
    ensures Keeps(db, memory, CommitTurnWork(db, memory, op, now))
  {
    hide RowsInv, TranscriptInv, DbLater, ValidId;
    var w := CommitTurnWork(db, memory, op, now);
    if w.outcome.Ok? {
      var s := op.sequence;
      RowOkAt(db, s);
      var row := CompletedRow(db.rows[s], now);
      var d := SetRow(db, s, row);
      UpdateRows(db, s, row);
      UpdateLater(db, s, row);
      SameRows(d, w.db);
      CommitTurnTranscript(db, memory, op, now);
      PublishLater(d, w.db);
      DbLaterTransitive(db, d, w.db);
    } else {
      NothingKeeps(db, memory, memory);
    }
  }

  lemma PublishLater(d: Db, d': Db)
    requires d' == d.(messages := d'.messages, events := d'.events)
    requires d.messages <= d'.messages && d.events <= d'.events
    ensures DbLater(d, d')
  {
  }

  /** Completing one published turn: its row, its pair and its event go in together. */
  ghost predicate Publishes(db: Db, d: Db, s: nat) {
    && s in db.rows && db.rows[s].state == Running && s in d.rows && Published(d.rows, s)
    && d.rows == db.rows[s := d.rows[s]]
    && db.rows[s].turn.Some? && db.rows[s].input.TurnInput? && db.rows[s].result.Some?
    && Pair(d.rows[s]) == Pair(db.rows[s])
    && d.messages == db.messages + Pair(db.rows[s])
    && d.events == db.events + [Event(s, PCommitted, StateCode(Completed))]
  }

  lemma PublishTranscript(db: Db, d: Db, s: nat)
    requires TranscriptInv(db) && Publishes(db, d, s)
    ensures TranscriptInv(d)
  {
    hide Pair;
    var order := CommitOrder(db.events);
    CommitOrderAppend(db.events, Event(s, PCommitted, StateCode(Completed)));
    assert CommitOrder(d.events) == order + [s];
    forall i | 0 <= i < |order| ensures order[i] != s && order[i] in d.rows && d.rows[order[i]] == db.rows[order[i]] {
      assert Published(db.rows, order[i]);
    }
    TranscriptFrame(db.rows, d.rows, order);
    assert (order + [s])[..|order|] == order;
    assert AllPublished(d.rows, order + [s]);
    forall t ensures Committed(d, t) {
      assert Committed(db, t);
    }
  }

  /** A committed turn appends exactly its own pair, and is appended to the commit order. */
  lemma CommitTurnTranscript(db: Db, memory: Memory, op: Op, now: real)
    requires TranscriptInv(db) && op.CommitTurn? && op.sequence in db.rows && RowOk(db, db.rows[op.sequence])
    requires CommitTurnWork(db, memory, op, now).outcome.Ok?
    ensures TranscriptInv(CommitTurnWork(db, memory, op, now).db)
  {
    hide ValidId, CheckResult, TranscriptInv, Visible;
    PublishTranscript(db, CommitTurnWork(db, memory, op, now).db, op.sequence);
  }

  /** The three writes that cancel an open turn. */
  lemma CancelOpenKeeps(db: Db, s: nat, target: Row, row: Row)
    requires DbInv(db) && Rewrites(db, s, target) && row.operation == Cancel
    requires var d := SetRow(db, s, target);
             InsertRow(d, row).Ok? && RowOk(d, row) && CancelsInactive(d, row)
    ensures var d' := InsertRow(SetRow(db, s, target), row).value;
            && DbInv(LogEvent(d', s, PCancelled, StateCode(Cancelled)))
            && DbLater(db, LogEvent(d', s, PCancelled, StateCode(Cancelled)))
  {
    hide DbInv, DbLater, Rewrites, SetRow, InsertRow, LogEvent, RowOk, CancelsInactive;
    var d := SetRow(db, s, target);
    var d' := InsertRow(d, row).value;
    UpdateKeeps(db, s, target);
    InsertKeeps(d, row);
    LogKeeps(d', s, PCancelled, StateCode(Cancelled));
    DbLaterTransitive(db, d, d');
    DbLaterTransitive(db, d', LogEvent(d', s, PCancelled, StateCode(Cancelled)));
  }

  lemma RequestCancelKeeps(db: Db, memory: Memory, op: Op, now: real)
    requires DbInv(db) && op.RequestCancel?
    ensures Keeps(db, memory, RequestCancelWork(db, memory, op, now))
  {
    hide DbInv, DbLater, ValidId;
    var w := RequestCancelWork(db, memory, op, now);
    if w.outcome.Ok? && !w.outcome.value.replayed {
      var s := db.byTask[op.taskId];
      var target := db.rows[s];
      RowOkAt(db, s);
      var row := Row(op.owner, op.requestId, Cancel, CancelInput(op.taskId), None, target.threadId, op.taskId,
                     Completed, PCancelled, false, 0, 0, None, None, now, now);
      if Terminal(target.state) {
        InsertKeeps(db, row);
      } else {
        var target' := CancelledRow(target, now);
        UpdateKeeps(db, s, target');
        CancelOpenKeeps(db, s, target', row);
      }
    } else {
      NothingKeeps(db, memory, memory);
    }
  }

  /** One sequence number after recovery has visited everything below `upTo`. */
  predicate RecoveredAt(db: Db, d: Db, upTo: nat, now: real, s: nat) {
    && (s in d.rows <==> s in db.rows)
    && (s in db.rows ==>
          d.rows[s] == if s < upTo && Interrupted(db, s) then RecoveredRow(db.rows[s], now) else db.rows[s])
  }

  ghost predicate Recovered(db: Db, d: Db, upTo: nat, now: real) {
    && d.next == db.next && d.messages == db.messages
    && (forall s {:trigger RecoveredAt(db, d, upTo, now, s)} :: RecoveredAt(db, d, upTo, now, s))
  }

  /** Recovery settles exactly the interrupted turns it has visited and blocks each of them. */
  lemma {:induction false} RecoverPrefixKeeps(db: Db, memory: Memory, upTo: nat, now: real)
    requires DbInv(db)
    ensures var (d, m) := RecoverPrefix(db, memory, upTo, now);
            DbInv(d) && Evolves(db, memory, d, m) && Recovered(db, d, upTo, now)
  {
    hide DbInv, DbLater, ValidId;
    if upTo == 0 {
      NothingKeeps(db, memory, memory);
    } else {
      var s := upTo - 1;
      RecoverPrefixKeeps(db, memory, s, now);
      var (d, m) := RecoverPrefix(db, memory, s, now);
      RecoverOneMore(db, memory, d, m, s, upTo, now);
    }
  }

  function RecoveredDb(d: Db, s: nat, now: real): Db
    requires s in d.rows
  {
    LogEvent(SetRow(d, s, RecoveredRow(d.rows[s], now)), s, PRecovery, FaultCode(Uncertainty))
  }

  lemma RecoverOneMore(db: Db, memory: Memory, d: Db, m: Memory, s: nat, upTo: nat, now: real)
    requires upTo == s + 1 && DbInv(d) && Evolves(db, memory, d, m) && Recovered(db, d, s, now)
    ensures var d' := if Interrupted(d, s) then RecoveredDb(d, s, now) else d;
            var m' := if Interrupted(d, s) then Retire(m, s) else m;
            DbInv(d') && Evolves(db, memory, d', m') && Recovered(db, d', upTo, now)
  {
    hide DbInv, DbLater, ValidId, Visible;
    var d' := if Interrupted(d, s) then RecoveredDb(d, s, now) else d;
    var m' := if Interrupted(d, s) then Retire(m, s) else m;
    assert RecoveredAt(db, d, s, now, s);
    if Interrupted(d, s) {
      RowOkAt(d, s);
      RecoveredUpdate(d, s, now);
      DbLaterTransitive(db, d, d');
    }
    forall t ensures RecoveredAt(db, d', upTo, now, t) && BlockFollows(db, d', m', t) {
      assert RecoveredAt(db, d, s, now, t) && BlockFollows(db, d, m, t);
    }
  }

  lemma RecoveredUpdate(d: Db, s: nat, now: real)
    requires DbInv(d) && Interrupted(d, s) && RowOk(d, d.rows[s])
    ensures var d' := RecoveredDb(d, s, now);
            DbInv(d') && DbLater(d, d')
  {
    hide DbInv, DbLater, ValidId, Visible;
    LoggedUpdateKeeps(d, s, RecoveredRow(d.rows[s], now), PRecovery, FaultCode(Uncertainty));
  }

  lemma RecoverPartlyKeeps(db: Db, memory: Memory, upTo: nat, now: real)
    requires DbInv(db)
    ensures Keeps(db, memory, Perform(RecoverPartly(upTo), now, db, memory))
  {
    hide DbInv, DbLater;
    RecoverPrefixKeeps(db, memory, upTo, now);
    NothingKeeps(db, memory, RecoverPrefix(db, memory, upTo, now).1);
  }

  lemma ReserveAttemptKeeps(db: Db, memory: Memory, op: Op, now: real)
    requires DbInv(db) && op.ReserveAttempt?
    ensures Keeps(db, memory, ReserveAttemptWork(db, memory, op, now))
  {
    hide DbInv, DbLater, ValidId;
    var w := ReserveAttemptWork(db, memory, op, now);
    if w.outcome == Ok(FlagReply(true)) {
      var row := db.rows[op.sequence];
      RowOkAt(db, op.sequence);
      LoggedUpdateKeeps(db, op.sequence, CountAttempt(row, op.kind, now), PDispatch, AttemptCode(op.kind));
    } else {
      NothingKeeps(db, memory, memory);
    }
  }

  /** Every operation, at every time: the staged database satisfies the invariant, durable
      history only moves forward, and the in-memory sets already refuse what it retires. */
  lemma PerformKeeps(op: Op, now: real, db: Db, memory: Memory)
    requires DbInv(db)
    ensures Keeps(db, memory, Perform(op, now, db, memory))
  {
    hide DbInv, Evolves, ValidId;
    match op
    case EnsureWorkspace(owner, workspaceId) => EnsureWorkspaceKeeps(db, memory, owner, workspaceId);
    case CreateThread(_, _, _, _, _, _) => CreateThreadKeeps(db, memory, op, now);
    case Admit(_, _, _, _, _) => AdmitKeeps(db, memory, op, now);
    case Claim(_, _, _) => ClaimKeeps(db, memory, op, now);
    case Get(_, _) => NothingKeeps(db, memory, memory);
    case GetRequest(_, _) => NothingKeeps(db, memory, memory);
    case HasUncertainty(_) => NothingKeeps(db, memory, memory);
    case Transition(_, _, _, _, _) => TransitionKeeps(db, memory, op, now);
    case Stage(_, _) => StageKeeps(db, memory, op, now);
    case CommitTurn(_, _, _) => CommitTurnKeeps(db, memory, op, now);
    case RequestCancel(_, _, _) => RequestCancelKeeps(db, memory, op, now);
    case Recover => RecoverPrefixKeeps(db, memory, db.next, now);
    case RecoverPartly(upTo) => RecoverPartlyKeeps(db, memory, upTo, now);
    case ReserveAttempt(_, _, _) => ReserveAttemptKeeps(db, memory, op, now);
  }
}
