/** What each store operation answers and writes, column by column, stated over the rows alone:
    exactly when it succeeds, and everything it then leaves. */
module AdmissionMeaning {
  import opened Wrappers
  import opened Utf8
  import opened Texts
  import Json
  import opened AdmissionStore
  import opened AdmissionInvariants

  // ---------------------------------------------------------------- what rows say

  /** The thread is this owner's, in this owner's workspace. */
  predicate OwnsThread(db: Db, owner: Id, threadId: Id) {
    && threadId in db.threads && owner in db.subjects
    && db.threads[threadId].owner == owner
    && db.threads[threadId].workspace == db.subjects[owner].workspace
  }

  /** A turn that can be addressed by its sequence number. */
  predicate Addressable(db: Db, s: nat) {
    && 1 <= s <= 0x7fff_ffff_ffff_ffff
    && s in db.rows && db.rows[s].operation == Turn
    && OwnsThread(db, db.rows[s].owner, db.rows[s].threadId)
  }

  /** The database with one row rewritten and one event appended. */
  function Rewritten(db: Db, s: nat, row: Row, phase: Phase, code: AdmissionStore.Code): Db {
    db.(rows := db.rows[s := row], events := db.events + [Event(s, phase, code)])
  }

  predicate InTime(row: Row, now: real) {
    now < row.createdAt + 120.0
  }

  // ---------------------------------------------------------------- transition

  /** The moves a caller may ask for. */
  predicate LegalMove(expected: State, state: State) {
    || (expected == Admitted && (state == Running || state == Failed || state == Denied || state == Cancelled || state == Uncertain))
    || (expected == Running && (state == Failed || state == Uncertain))
  }

  predicate CanTransition(db: Db, s: nat, expected: State, state: State, now: real) {
    && LegalMove(expected, state) && Addressable(db, s) && db.rows[s].state == expected
    && (state == Running ==> !db.rows[s].cancelRequested && InTime(db.rows[s], now))
    && (state == Cancelled ==> db.rows[s].modelAttempts == 0 && db.rows[s].toolAttempts == 0)
  }

  /** A transition succeeds exactly when the move is legal and the row is where it starts from; it
      then writes the state, phase and error asked for and nothing else, logs them, and blocks
      the turn unless it runs now. */
  lemma TransitionMeans(s: nat, expected: State, state: State, phase: Phase, error: Option<ErrorCode>,
                        now: real, db: Db, memory: Memory)
    ensures var w := Perform(Transition(s, expected, state, phase, error), now, db, memory);
            && (w.outcome.Ok? <==> CanTransition(db, s, expected, state, now))
            && (w.outcome.Ok? ==>
                  && w.db == Rewritten(db, s, db.rows[s].(state := state, phase := phase, errorCode := error, updatedAt := now),
                                       phase, if error.Some? then FaultCode(error.value) else StateCode(state))
                  && w.memory == (if state == Running then memory
                                  else Memory(memory.freshTurns - {s}, memory.blocked + {s})))
            && (w.outcome.Err? ==> w.db == db && w.memory == memory && !w.outcome.error.uncertain)
  {
  }

  // ---------------------------------------------------------------- the size of an input

  type AsciiCode = c: int | 0 <= c < 0x80

  /** The bytes a turn's input takes: its two strings as JSON, and twenty-five around them. */
  function TurnInputBytes(threadId: Id, message: Text): nat {
    |Encode(Json.Quoted(message))| + |Encode(Json.Quoted(Literal(threadId)))| + 25
  }

  lemma {:induction false} EncodeJoin(a: Text, b: Text)
    ensures Encode(a + b) == Encode(a) + Encode(b)
  {
    if a == [] {
      assert a + b == b;
    } else {
      assert (a + b)[1..] == a[1..] + b;
      EncodeJoin(a[1..], b);
    }
  }

  lemma {:induction false} AsciiBytes(t: Text)
    requires Ascii(t)
    ensures |Encode(t)| == |t|
  {
    if t != [] {
      AsciiBytes(t[1..]);
    }
  }

  lemma TurnInputText(threadId: Id, message: Text)
    ensures Json.Print(InputJson(TurnInput(threadId, message))) ==
            [Json.LBRACE] + Json.Quoted(Literal("message")) + [Json.COLON] + Json.Quoted(message) + [Json.COMMA]
            + Json.Quoted(Literal("thread_id")) + [Json.COLON] + Json.Quoted(Literal(threadId)) + [Json.RBRACE]
  {
    hide Json.Quoted, Json.Print, Json.Plain, Literal;
    var a := Json.Member(Literal("message"), Json.Str(message));
    var b := Json.Member(Literal("thread_id"), Json.Str(Literal(threadId)));
    var v := InputJson(TurnInput(threadId, message));
    assert v == Json.Dict([a, b]);
    TwoMembers(v, a, b);
  }

  lemma TwoMembers(v: Json.Value, a: Json.Member, b: Json.Member)
    requires Json.Plain(v) && v == Json.Dict([a, b]) && a.value.Str? && b.value.Str?
    ensures Json.Print(v) ==
            [Json.LBRACE] + Json.Quoted(a.key) + [Json.COLON] + Json.Quoted(a.value.t) + [Json.COMMA]
            + Json.Quoted(b.key) + [Json.COLON] + Json.Quoted(b.value.t) + [Json.RBRACE]
  {
    hide Json.Quoted, Json.PrintMembers, Json.PrintMember, Json.Plain, Json.DistinctKeys;
    StrIsPlain(a.value);
    StrIsPlain(b.value);
    BothMembers(a, b);
    assert Json.Print(v) == [Json.LBRACE] + Json.PrintMembers([a, b]) + [Json.RBRACE];
    var q, r := Json.Quoted(a.key) + [Json.COLON] + Json.Quoted(a.value.t), Json.Quoted(b.key) + [Json.COLON] + Json.Quoted(b.value.t);
    assert Json.PrintMembers([a, b]) == q + [Json.COMMA] + r;
  }

  lemma StrIsPlain(v: Json.Value)
    requires v.Str?
    ensures Json.Plain(v)
  {
  }

  lemma BothMembers(a: Json.Member, b: Json.Member)
    requires a.value.Str? && b.value.Str? && Json.Plain(a.value) && Json.Plain(b.value)
    ensures Json.PrintMembers([a, b]) ==
            Json.Quoted(a.key) + [Json.COLON] + Json.Quoted(a.value.t) + [Json.COMMA]
            + (Json.Quoted(b.key) + [Json.COLON] + Json.Quoted(b.value.t))
  {
    hide Json.Quoted, Json.Plain;
    var ms := [a, b];
    assert ms[1..] == [b];
    assert Json.PrintMembers(ms[1..]) == Json.PrintMember(b);
    assert Json.PrintMembers(ms) == Json.PrintMember(a) + [Json.COMMA] + Json.PrintMember(b);
  }

  lemma IdIsAscii(id: Id)
    requires ValidId(id)
    ensures Ascii(Literal(id))
  {
    forall i | 0 <= i < |id| ensures Literal(id)[i] < 0x80 {
      assert Alphanumeric(id[i]) || Punctuation(id[i]);
    }
  }

  lemma NamesInInputs()
    ensures Encode(Json.Quoted(Literal("message"))) == [0x22] + Encode(Literal("message")) + [0x22]
    ensures Encode(Json.Quoted(Literal("thread_id"))) == [0x22] + Encode(Literal("thread_id")) + [0x22]
    ensures Scalar(Json.Quoted(Literal("message"))) && Scalar(Json.Quoted(Literal("thread_id")))
    ensures |Encode(Literal("message"))| == 7 && |Encode(Literal("thread_id"))| == 9
  {
    PlainQuote(Literal("message"));
    PlainQuote(Literal("thread_id"));
    AsciiBytes(Literal("message"));
    AsciiBytes(Literal("thread_id"));
  }

  predicate NothingToEscape(t: Text) {
    forall i | 0 <= i < |t| :: 0x20 <= t[i] < 0x80 && t[i] != Json.QUOTE && t[i] != Json.BACKSLASH
  }

  lemma {:induction false} PlainEscape(t: Text)
    requires NothingToEscape(t)
    ensures Json.Escape(t) == t
  {
    if t != [] {
      assert forall i | 0 <= i < |t[1..]| :: t[1..][i] == t[i + 1];
      PlainEscape(t[1..]);
    }
  }

  lemma PlainQuote(t: Text)
    requires NothingToEscape(t)
    ensures Encode(Json.Quoted(t)) == [0x22] + Encode(t) + [0x22] && Scalar(Json.Quoted(t))
  {
    PlainEscape(t);
    EncodeJoin([0x22] + t, [0x22]);
    EncodeJoin([0x22], t);
    assert Encode([0x22]) == [0x22] by { assert [0x22][1..] == []; }
  }

  lemma {:induction false} EscapeScalar(t: Text)
    ensures Scalar(Json.Escape(t)) <==> Scalar(t)
  {
    if t != [] {
      EscapeScalar(t[1..]);
      ScalarJoin(Json.EscapeCode(t[0]), Json.Escape(t[1..]));
      ScalarJoin([t[0]], t[1..]);
      assert t == [t[0]] + t[1..];
      assert Scalar(Json.EscapeCode(t[0])) <==> Scalar([t[0]]);
    }
  }

  lemma ScalarJoin(a: Text, b: Text)
    ensures Scalar(a + b) <==> Scalar(a) && Scalar(b)
  {
    assert forall i | 0 <= i < |a| :: (a + b)[i] == a[i];
    assert forall i | 0 <= i < |b| :: (a + b)[|a| + i] == b[i];
  }

  lemma QuotedScalar(t: Text)
    ensures Scalar(Json.Quoted(t)) <==> Scalar(t)
  {
    EscapeScalar(t);
    ScalarJoin([Json.QUOTE], Json.Escape(t));
    ScalarJoin([Json.QUOTE] + Json.Escape(t), [Json.QUOTE]);
  }

  lemma OneByte(c: AsciiCode)
    ensures Encode([c]) == [c] && Scalar([c])
  {
    assert [c][1..] == [];
  }

  /** An input fits exactly when its message can be encoded and its JSON takes at most 32768 bytes. */
  lemma TurnInputFits(threadId: Id, message: Text)
    requires ValidId(threadId)
    ensures CheckInput(TurnInput(threadId, message)).None? <==>
            Scalar(message) && TurnInputBytes(threadId, message) <= 32768
    ensures !Scalar(message) ==> CheckInput(TurnInput(threadId, message)) == Some(InvalidRequest)
  {
    hide Json.Quoted, Json.Print, InputJson, Scalar, Encode, Literal, ValidId;
    var q, r := Json.Quoted(message), Json.Quoted(Literal(threadId));
    TurnInputText(threadId, message);
    NamesInInputs();
    IdIsAscii(threadId);
    AsciiScalar(Literal(threadId));
    QuotedScalar(message);
    QuotedScalar(Literal(threadId));
    var a := [Json.LBRACE] + Json.Quoted(Literal("message")) + [Json.COLON];
    var b := [Json.COMMA] + Json.Quoted(Literal("thread_id")) + [Json.COLON];
    Around(Json.LBRACE, Json.Quoted(Literal("message")), Json.COLON);
    Around(Json.COMMA, Json.Quoted(Literal("thread_id")), Json.COLON);
    OneByte(Json.RBRACE);
    var text := Json.Print(InputJson(TurnInput(threadId, message)));
    assert text == a + q + b + r + [Json.RBRACE];
    Five(a, q, b, r, [Json.RBRACE]);
  }

  lemma AsciiScalar(t: Text)
    requires Ascii(t)
    ensures Scalar(t)
  {
  }

  lemma Around(c: AsciiCode, t: Text, d: AsciiCode)
    requires Scalar(t)
    ensures Scalar([c] + t + [d]) && |Encode([c] + t + [d])| == |Encode(t)| + 2
  {
    hide Encode, Scalar;
    OneByte(c);
    OneByte(d);
    ScalarJoin([c], t);
    ScalarJoin([c] + t, [d]);
    EncodeJoin([c], t);
    EncodeJoin([c] + t, [d]);
  }

  lemma Five(a: Text, b: Text, c: Text, d: Text, e: Text)
    ensures Scalar(a + b + c + d + e) <==> Scalar(a) && Scalar(b) && Scalar(c) && Scalar(d) && Scalar(e)
    ensures |Encode(a + b + c + d + e)| == |Encode(a)| + |Encode(b)| + |Encode(c)| + |Encode(d)| + |Encode(e)|
  {
    hide Encode, Scalar;
    ScalarJoin(a, b);
    ScalarJoin(a + b, c);
    ScalarJoin(a + b + c, d);
    ScalarJoin(a + b + c + d, e);
    EncodeJoin(a, b);
    EncodeJoin(a + b, c);
    EncodeJoin(a + b + c, d);
    EncodeJoin(a + b + c + d, e);
  }

  // ---------------------------------------------------------------- admit

  predicate CanAdmit(db: Db, owner: Id, requestId: Id, threadId: Id, message: Text, taskId: Id) {
    && ValidId(requestId) && ValidId(threadId) && 1 <= |message| <= 8000
    && Scalar(message) && TurnInputBytes(threadId, message) <= 32768
    && OwnsThread(db, owner, threadId)
    && (owner, requestId) !in db.byRequest && taskId !in db.byTask && db.next <= 0x7fff_ffff_ffff_ffff
  }

  /** A new turn is admitted exactly when its request is well formed and small enough, the thread is
      the owner's and the ids are unused; then there is one more row, ADMITTED, with the message as
      its input and nothing attempted, which alone becomes fresh. */
  lemma AdmitMeans(owner: Id, requestId: Id, threadId: Id, message: Text, ids: TurnIds, now: real, db: Db, memory: Memory)
    requires DbInv(db)
    ensures var w := Perform(Admit(owner, requestId, threadId, message, ids), now, db, memory);
            var row := Row(owner, requestId, Turn, TurnInput(threadId, message), Some(ids), threadId, ids.taskId,
                           Admitted, PAdmitted, false, 0, 0, None, None, now, now);
            && (w.outcome.Ok? && (owner, requestId) !in db.byRequest <==>
                  CanAdmit(db, owner, requestId, threadId, message, ids.taskId))
            && (CanAdmit(db, owner, requestId, threadId, message, ids.taskId) ==>
                  && w.outcome == Ok(RecordReply(db.next, row, false))
                  && w.db == db.(rows := db.rows[db.next := row], next := db.next + 1,
                                 byRequest := db.byRequest[(owner, requestId) := db.next],
                                 byTask := db.byTask[ids.taskId := db.next])
                  && w.memory == Memory(memory.freshTurns + {db.next}, memory.blocked))
  {
    hide DbInv, CheckInput, TurnInputBytes, Scalar, ValidId;
    if ValidId(threadId) {
      TurnInputFits(threadId, message);
    }
    RequestsHaveRows(db, owner, requestId);
  }

  lemma RequestsHaveRows(db: Db, owner: Id, requestId: Id)
    requires DbInv(db)
    ensures HasRequest(db, owner, requestId) <==> (owner, requestId) in db.byRequest
    ensures (owner, requestId) in db.byRequest ==>
              var s := db.byRequest[(owner, requestId)];
              s in db.rows && db.rows[s].owner == owner && db.rows[s].requestId == requestId
  {
    hide TranscriptInv;
    assert RequestEntry(db, owner, requestId);
  }

  // ---------------------------------------------------------------- claim

  predicate CanClaim(db: Db, memory: Memory, owner: Id, requestId: Id, taskId: Id, now: real) {
    && ValidId(requestId) && ValidId(taskId) && (owner, requestId) in db.byRequest
    && var s := db.byRequest[(owner, requestId)];
    && s in db.rows && s in memory.freshTurns
    && db.rows[s].operation == Turn && db.rows[s].turn.Some? && db.rows[s].turn.value.taskId == taskId
    && OwnsThread(db, owner, db.rows[s].threadId)
    && db.rows[s].state == Admitted && db.rows[s].phase == PAdmitted && !db.rows[s].cancelRequested
    && InTime(db.rows[s], now)
  }

  /** A claim succeeds exactly on a fresh, untouched, unexpired turn of the owner under its own
      request and task ids; it answers with the row as it was and the owner's quota subject, marks
      the row as reserved, and takes the freshness away. */
  lemma ClaimMeans(owner: Id, requestId: Id, taskId: Id, now: real, db: Db, memory: Memory)
    requires DbInv(db)
    ensures var w := Perform(Claim(owner, requestId, taskId), now, db, memory);
            && (w.outcome.Ok? <==> CanClaim(db, memory, owner, requestId, taskId, now))
            && (w.outcome.Ok? ==>
                  var s := db.byRequest[(owner, requestId)];
                  && w.outcome == Ok(ClaimReply(s, db.rows[s], db.subjects[owner].quota))
                  && w.db == db.(rows := db.rows[s := db.rows[s].(phase := PReserved, updatedAt := now)])
                  && w.memory == Memory(memory.freshTurns - {s}, memory.blocked))
            && (w.outcome.Err? ==> w.db == db && w.memory == memory)
  {
    hide DbInv, ValidId;
    RequestsHaveRows(db, owner, requestId);
    if (owner, requestId) in db.byRequest {
      RowOkAt(db, db.byRequest[(owner, requestId)]);
    }
  }

  // ---------------------------------------------------------------- attempts

  predicate CanAttempt(row: Row, kind: Kind, limit: nat, now: real) {
    && row.state == Running && !row.cancelRequested && InTime(row, now)
    && (if kind == Model then row.modelAttempts else row.toolAttempts) < limit
  }

  /** An attempt is counted exactly for a running, uncancelled, unexpired turn below the limit; a
      legal question about any other turn is answered with no, and changes nothing. */
  lemma ReserveAttemptMeans(s: nat, kind: Kind, limit: nat, now: real, db: Db, memory: Memory)
    ensures var w := Perform(ReserveAttempt(s, kind, limit), now, db, memory);
            && (w.outcome.Ok? <==> 1 <= limit <= (if kind == Model then 8 else 4) && Addressable(db, s))
            && (w.outcome.Ok? ==> w.outcome == Ok(FlagReply(CanAttempt(db.rows[s], kind, limit, now))))
            && (w.outcome == Ok(FlagReply(true)) ==>
                  var row := db.rows[s];
                  w.db == Rewritten(db, s,
                                    if kind == Model then row.(modelAttempts := row.modelAttempts + 1, updatedAt := now)
                                    else row.(toolAttempts := row.toolAttempts + 1, updatedAt := now),
                                    PDispatch, AttemptCode(kind)))
            && (w.outcome != Ok(FlagReply(true)) ==> w.db == db)
            && w.memory == memory
  {
  }

  // ---------------------------------------------------------------- stage and commit

  /** A running turn, uncancelled and in time, that the report, if any, speaks about. */
  predicate Publishable(row: Row, text: Text, report: Option<Report>, now: real) {
    && row.state == Running && !row.cancelRequested && InTime(row, now)
    && !Blank(text) && Scalar(text) && |Encode(text)| <= 65536
    && row.turn.Some?
    && (report.Some? ==> report.value == Report(row.turn.value.taskId, text, true))
  }

  /** A result is staged exactly for a running, uncancelled, unexpired turn, with nonblank bounded
      text under its task id, a report, if any, completed and bound to both, and no other result
      staged before; the row then holds it. A turn past its deadline fails as uncertain. */
  lemma StageMeans(s: nat, result: TurnResult, now: real, db: Db, memory: Memory)
    ensures var w := Perform(Stage(s, result), now, db, memory);
            && (w.outcome.Ok? <==>
                  && Addressable(db, s) && Publishable(db.rows[s], result.response, result.report, now)
                  && result.taskId == db.rows[s].turn.value.taskId
                  && (db.rows[s].result == None || db.rows[s].result == Some(result)))
            && (w.outcome.Ok? ==>
                  w.db == Rewritten(db, s, db.rows[s].(result := Some(result), phase := PStaged, updatedAt := now),
                                    PStaged, StagedCode))
            && (w.outcome.Err? ==> w.db == db)
            && w.memory == memory
            && (Scalar(result.response) && Late(db, s, now) ==> w.outcome == Err(PilotError(Uncertainty, true)))
  {
    hide Scalar, Blank, Encode;
  }

  predicate Late(db: Db, s: nat, now: real) {
    Addressable(db, s) && db.rows[s].state == Running && !db.rows[s].cancelRequested && !InTime(db.rows[s], now)
  }

  /** A turn is committed exactly when it could be staged with this very result, has been, and its
      two message ids are new: two messages more, the row COMPLETED and blocked, the commit logged. */
  lemma CommitTurnMeans(s: nat, text: Text, report: Option<Report>, now: real, db: Db, memory: Memory)
    requires DbInv(db)
    ensures var w := Perform(CommitTurn(s, text, report), now, db, memory);
            && (w.outcome.Ok? <==>
                  && Addressable(db, s) && Publishable(db.rows[s], text, report, now)
                  && db.rows[s].result == Some(TurnResult(db.rows[s].turn.value.taskId, text, report))
                  && NewIds(db.messages, db.rows[s].turn.value))
            && (w.outcome.Ok? ==>
                  var row := db.rows[s];
                  && row.input.TurnInput?
                  && w.db == Rewritten(db, s, row.(state := Completed, phase := PCommitted, updatedAt := now),
                                       PCommitted, StateCode(Completed)).(
                               messages := db.messages
                                           + [Message(row.turn.value.userMessageId, row.threadId, User, row.input.message),
                                              Message(row.turn.value.assistantMessageId, row.threadId, Assistant, text)])
                  && w.memory == Memory(memory.freshTurns - {s}, memory.blocked + {s}))
            && (w.outcome.Err? ==> w.db == db && w.memory == memory)
            && (Late(db, s, now) ==> w.outcome == Err(PilotError(Uncertainty, true)))
  {
    hide Scalar, Blank, Encode, DbInv;
    if s in db.rows {
      RowOkAt(db, s);
    }
  }

  predicate NewIds(messages: seq<Message>, ids: TurnIds) {
    && ids.userMessageId != ids.assistantMessageId
    && forall i | 0 <= i < |messages| ::
         messages[i].id != ids.userMessageId && messages[i].id != ids.assistantMessageId
  }

  // ---------------------------------------------------------------- cancel

  predicate CanCancel(db: Db, owner: Id, taskId: Id, requestId: Id) {
    && ValidId(taskId) && ValidId(requestId) && taskId in db.byTask
    && var s := db.byTask[taskId];
    && s in db.rows && db.rows[s].operation == Turn && db.rows[s].owner == owner
    && OwnsThread(db, owner, db.rows[s].threadId)
    && (owner, requestId) !in db.byRequest && db.next <= 0x7fff_ffff_ffff_ffff
  }

  /** What a first cancellation makes of its target: a terminal turn stays as it is; an open one is
      flagged, and cancelled outright when it was admitted and nothing was attempted. */
  function AfterCancel(row: Row, now: real): Row {
    if row.state != Admitted && row.state != Running then row
    else row.(cancelRequested := true, phase := PCancelled, updatedAt := now,
              state := if row.state == Admitted && row.modelAttempts == 0 && row.toolAttempts == 0
                       then Cancelled else row.state)
  }

  /** A first cancellation succeeds exactly for a turn of the owner under an unused request id. It
      records the request, answers with the turn as it then is, and blocks it if it was open. */
  lemma RequestCancelMeans(owner: Id, taskId: Id, requestId: Id, now: real, db: Db, memory: Memory)
    requires DbInv(db)
    ensures var w := Perform(RequestCancel(owner, taskId, requestId), now, db, memory);
            && (w.outcome.Ok? && (owner, requestId) !in db.byRequest <==> CanCancel(db, owner, taskId, requestId))
            && (CanCancel(db, owner, taskId, requestId) ==>
                  var s := db.byTask[taskId];
                  var target, was := AfterCancel(db.rows[s], now), db.rows[s];
                  var row := Row(owner, requestId, Cancel, CancelInput(taskId), None, was.threadId, taskId,
                                 Completed, PCancelled, false, 0, 0, None, None, now, now);
                  && w.outcome == Ok(RecordReply(s, target, false))
                  && w.db == db.(rows := db.rows[s := target][db.next := row], next := db.next + 1,
                                 byRequest := db.byRequest[(owner, requestId) := db.next],
                                 events := db.events + if target == was && was.state != Admitted && was.state != Running
                                                       then [] else [Event(s, PCancelled, StateCode(Cancelled))])
                  && w.memory == (if was.state != Admitted && was.state != Running then memory
                                  else Memory(memory.freshTurns - {s}, memory.blocked + {s})))
  {
    hide DbInv, ValidId;
    RequestsHaveRows(db, owner, requestId);
    if taskId in db.byTask && db.byTask[taskId] in db.rows {
      RowOkAt(db, db.byTask[taskId]);
      assert db.rows[db.byTask[taskId] := db.rows[db.byTask[taskId]]] == db.rows;
    }
  }

  // ---------------------------------------------------------------- reads and recovery

  /** The uncertainty question is answered with yes exactly when some visible turn of the owner is
      UNCERTAIN. */
  lemma HasUncertaintyMeans(owner: Id, now: real, db: Db, memory: Memory)
    ensures var w := Perform(HasUncertainty(owner), now, db, memory);
            && w.db == db && w.memory == memory
            && w.outcome == Ok(FlagReply(exists s | s in db.rows ::
                                           && db.rows[s].operation == Turn && db.rows[s].owner == owner
                                           && db.rows[s].state == Uncertain && OwnsThread(db, owner, db.rows[s].threadId)))
  {
    assert AnyUncertain(db, owner) <==>
           exists s | s in db.rows ::
             && db.rows[s].operation == Turn && db.rows[s].owner == owner
             && db.rows[s].state == Uncertain && OwnsThread(db, owner, db.rows[s].threadId) by {
      if s :| s in db.rows && UncertainTurn(db, owner, s) {
        assert OwnsThread(db, owner, db.rows[s].threadId);
      }
    }
  }

  /** Reading by task id, or by request id, finds exactly the owner's own rows, as they are. */
  lemma ReadsMean(owner: Id, id: Id, now: real, db: Db, memory: Memory)
    requires DbInv(db)
    ensures var w := Perform(Get(owner, id), now, db, memory);
            && w.db == db && w.memory == memory
            && (w.outcome.Ok? <==> ValidId(id) && id in db.byTask && db.byTask[id] in db.rows && db.rows[db.byTask[id]].owner == owner)
            && (w.outcome.Ok? ==> w.outcome == Ok(RecordReply(db.byTask[id], db.rows[db.byTask[id]], false)))
    ensures var w := Perform(GetRequest(owner, id), now, db, memory);
            && w.db == db && w.memory == memory
            && (w.outcome.Ok? <==> ValidId(id) && (owner, id) in db.byRequest)
            && (w.outcome.Ok? ==>
                  var s := db.byRequest[(owner, id)];
                  w.outcome == Ok(RecordReply(s, db.rows[s], false)))
  {
    hide DbInv, ValidId;
    RequestsHaveRows(db, owner, id);
    TasksHaveRows(db, id);
    if id in db.byTask {
      RowOkAt(db, db.byTask[id]);
    }
    if (owner, id) in db.byRequest {
      RowOkAt(db, db.byRequest[(owner, id)]);
    }
  }

  lemma TasksHaveRows(db: Db, taskId: Id)
    requires DbInv(db)
    ensures taskId in db.byTask ==>
              var s := db.byTask[taskId];
              s in db.rows && db.rows[s].turn.Some? && db.rows[s].turn.value.taskId == taskId
  {
    hide TranscriptInv;
    assert TaskEntry(db, taskId);
  }

  /** Recovery rewrites the open turns, all of them and nothing else, to UNCERTAIN from recovery. */
  lemma RecoverMeans(now: real, db: Db, memory: Memory, s: nat)
    requires DbInv(db) && s in db.rows
    ensures var w := Perform(Recover, now, db, memory);
            && w.outcome == Ok(DoneReply) && s in w.db.rows
            && w.db.rows[s] == if db.rows[s].operation == Turn && (db.rows[s].state == Admitted || db.rows[s].state == Running)
                               then db.rows[s].(state := Uncertain, phase := PRecovery, errorCode := Some(Uncertainty), updatedAt := now)
                               else db.rows[s]
  {
    hide DbInv, Evolves;
    RecoverPrefixKeeps(db, memory, db.next, now);
    RowOkAt(db, s);
    RowIsNumbered(db, s);
    assert RecoveredAt(db, Perform(Recover, now, db, memory).db, db.next, now, s);
  }

  lemma RowIsNumbered(db: Db, s: nat)
    requires DbInv(db) && s in db.rows
    ensures s < db.next
  {
    hide TranscriptInv;
    assert RowAt(db, s);
  }

  // ---------------------------------------------------------------- threads

  function WithWorkspace(db: Db, owner: Id, workspaceId: Id): Db {
    if owner in db.subjects then db
    else db.(subjects := db.subjects[owner := Subject(|db.subjects| + 1, workspaceId)])
  }

  predicate CanCreateThread(db: Db, op: Op)
    requires op.CreateThread?
  {
    && ValidId(op.requestId) && 1 <= |op.title| <= 120 && CheckInput(ThreadInput(op.title, op.parent)).None?
    && (op.owner in db.subjects || forall o | o in db.subjects :: db.subjects[o].workspace != op.workspaceId)
    && (op.parent.Some? ==>
          ValidId(op.parent.value) && OwnsThread(WithWorkspace(db, op.owner, op.workspaceId), op.owner, op.parent.value))
    && ValidId(op.newThreadId) && op.newThreadId !in db.threads
    && (op.owner, op.requestId) !in db.byRequest && db.next <= 0x7fff_ffff_ffff_ffff
  }

  /** A thread is created exactly under an unused request id, in the owner's workspace, which is
      created with it when there is none, and below a parent of the owner's own. */
  lemma CreateThreadMeans(op: Op, now: real, db: Db, memory: Memory)
    requires DbInv(db) && op.CreateThread?
    ensures var w := Perform(op, now, db, memory);
            && w.memory == memory
            && (w.outcome.Ok? && (op.owner, op.requestId) !in db.byRequest <==> CanCreateThread(db, op))
            && (CanCreateThread(db, op) ==>
                  && w.outcome == Ok(ThreadReply(op.newThreadId, false)) && op.owner in w.db.subjects
                  && w.db.subjects == WithWorkspace(db, op.owner, op.workspaceId).subjects
                  && w.db.threads == db.threads[op.newThreadId := Thread(op.owner, w.db.subjects[op.owner].workspace,
                                                                         op.title, op.parent)]
                  && w.db.messages == db.messages && w.db.events == db.events)
  {
    hide DbInv, ValidId, CheckInput, NewWorkspace, InsertRow, WithWorkspace;
    RequestsHaveRows(db, op.owner, op.requestId);
    WorkspaceMeans(db, op.owner, op.workspaceId);
    if NewWorkspace(db, op.owner, op.workspaceId).Ok? {
      var d := WithWorkspace(db, op.owner, op.workspaceId);
      var thread := Thread(op.owner, d.subjects[op.owner].workspace, op.title, op.parent);
      InsertMeans(d.(threads := d.threads[op.newThreadId := thread]),
                  Row(op.owner, op.requestId, NewThread, ThreadInput(op.title, op.parent), None, op.newThreadId, op.newThreadId,
                      Completed, PCommitted, false, 0, 0, None, None, now, now));
    }
  }

  lemma WorkspaceMeans(db: Db, owner: Id, workspaceId: Id)
    ensures NewWorkspace(db, owner, workspaceId).Ok? <==>
            owner in db.subjects || forall o | o in db.subjects :: db.subjects[o].workspace != workspaceId
    ensures NewWorkspace(db, owner, workspaceId).Ok? ==>
              NewWorkspace(db, owner, workspaceId).value == WithWorkspace(db, owner, workspaceId)
    ensures var d := WithWorkspace(db, owner, workspaceId);
            owner in d.subjects && d == db.(subjects := d.subjects)
  {
  }

  lemma InsertMeans(db: Db, row: Row)
    requires row.turn.None?
    ensures InsertRow(db, row).Ok? <==> db.next <= 0x7fff_ffff_ffff_ffff && (row.owner, row.requestId) !in db.byRequest
    ensures InsertRow(db, row).Ok? ==>
              InsertRow(db, row).value == db.(rows := db.rows[db.next := row], next := db.next + 1,
                                              byRequest := db.byRequest[(row.owner, row.requestId) := db.next])
  {
  }

  /** Asking for the owner's workspace finds the one there is, or makes the given one if nobody has it. */
  lemma EnsureWorkspaceMeans(owner: Id, workspaceId: Id, now: real, db: Db, memory: Memory)
    ensures var w := Perform(EnsureWorkspace(owner, workspaceId), now, db, memory);
            if owner in db.subjects then w == Work(Ok(WorkspaceReply(db.subjects[owner].workspace)), db, memory)
            else if exists other | other in db.subjects :: db.subjects[other].workspace == workspaceId
            then w == Work(Err(PilotError(Store, false)), db, memory)
            else w == Work(Ok(WorkspaceReply(workspaceId)),
                           db.(subjects := db.subjects[owner := Subject(|db.subjects| + 1, workspaceId)]), memory)
  {
  }
}
