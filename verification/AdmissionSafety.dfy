/** Safety of the owner admission protocol over every run. */
module AdmissionSafety {
  import opened Wrappers
  import opened AdmissionStore
  import opened AdmissionInvariants
  import opened AdmissionProtocol

  // ---------------------------------------------------------------- the invariant

  /** A turn committed by this process is active in the given database, or blocked. */
  predicate Guarded(db: Db, memory: Memory, s: nat) {
    IsTurn(db, s) ==> Active(db.rows[s]) || s in memory.blocked
  }

  /** The staged database is a legal continuation, and the in-memory sets already answer for it. */
  ghost predicate StagedOk(w: World, tx: Tx) {
    && DbInv(tx.staged) && DbLater(w.db, tx.staged)
    && (!tx.op.CommitTurn? ==> tx.staged.messages == w.db.messages)
    && (forall s {:trigger LegalAt(w.db, tx.staged, s)} :: LegalAt(w.db, tx.staged, s))
    && (forall s {:trigger Guarded(tx.staged, w.p.memory, s)} ::
          s in w.h.session || s !in w.db.rows ==> Guarded(tx.staged, w.p.memory, s))
  }

  ghost predicate StoreInv(w: World) {
    && DbInv(w.db)
    && w.h.session <= w.db.rows.Keys
    && (forall s {:trigger Guarded(w.db, w.p.memory, s)} :: s in w.h.session ==> Guarded(w.db, w.p.memory, s))
    && (forall s | s in w.p.memory.freshTurns && s in w.db.rows :: s in w.h.session)
    && (w.p.tx.Some? ==> StagedOk(w, w.p.tx.value))
  }

  /** Every claim that passed its guard is over: it names a committed row, it can never
      pass again, and no other claim names the same row. */
  ghost predicate ClaimInv(w: World) {
    && Distinct(w.h.claims)
    && (forall i | 0 <= i < |w.h.claims| ::
          w.h.claims[i] in w.db.rows && w.h.claims[i] !in w.p.memory.freshTurns)
  }

  /** The row's turn goes by this task id, one that the store takes. */
  predicate HasTaskId(row: Row, taskId: Id) {
    row.turn.Some? && row.turn.value.taskId == taskId && ValidId(taskId)
  }

  /** A lease stands for a turn this process committed, with the row's own identity and deadline. */
  predicate Backed(w: World, lease: Lease) {
    var s := lease.sequence;
    && s in w.h.session && IsTurn(w.db, s)
    && w.db.rows[s].owner == lease.owner && w.db.rows[s].requestId == lease.requestId
    && HasTaskId(w.db.rows[s], lease.taskId)
    && w.db.rows[s].createdAt + TURN_SECONDS == lease.deadline
  }

  predicate ReservationBacked(w: World, call: Call, s: nat, createdAt: real)
    requires call.ReserveRequest?
  {
    && s in w.h.session && IsTurn(w.db, s)
    && w.db.rows[s].owner == call.owner && w.db.rows[s].requestId == call.requestId
    && HasTaskId(w.db.rows[s], call.taskId)
    && w.db.rows[s].createdAt == createdAt
  }

  predicate OwnedAt(w: World, s: nat) {
    s in w.p.owned ==> w.p.owned[s].lease.sequence == s && Backed(w, w.p.owned[s].lease)
  }

  predicate ClaimBacked(w: World, call: Call, reply: Reply)
    requires call.ReserveRequest?
  {
    reply.ClaimReply? ==> ReservationBacked(w, call, reply.claimed, reply.claimedRow.createdAt)
  }

  /** Only stages its own call can reach. */
  predicate FrameShape(frame: Frame) {
    match frame
    case Idle => true
    case Busy(call, at) =>
      match call
      case ReserveRequest(_, _, _) => at.Claiming? || at.QuotaReserving? || at.Leasing?
      case MarkRunning(_) => at.Checking? || at.QuotaMarking? || at.Moving? || at.Confirming?
      case ModelCall(_, _) => at.Checking? || at.Counting? || at.Metering? || at.Confirming?
      case ToolCall(_, _) => at.Checking? || at.Counting? || at.Confirming?
      case FinishRequest(_, _) => at.Checking? || at.QuotaFinishing?
  }

  /** What a suspended reserve_request relies on. */
  predicate StageBacked(w: World, call: Call, at: Stage)
    requires call.ReserveRequest?
  {
    match at
    case Claiming =>
      && (Adapter in w.p.done && w.p.done[Adapter].Ok? ==> ClaimBacked(w, call, w.p.done[Adapter].value))
      && (w.p.tx.Some? && w.p.tx.value.client == Adapter ==> ClaimBacked(w, call, w.p.tx.value.reply))
    case QuotaReserving(s, quota, createdAt) => ReservationBacked(w, call, s, createdAt)
    case Leasing(lease) => Backed(w, lease)
    case _ => true
  }

  predicate FrameOk(w: World) {
    && FrameShape(w.p.frame)
    && (w.p.frame.Busy? && w.p.frame.call.ReserveRequest? ==> StageBacked(w, w.p.frame.call, w.p.frame.at))
  }

  /** The adapter's transaction, if one is open, is the one its suspended call waits for. */
  predicate AdapterTxOk(w: World) {
    && (w.p.tx.Some? && w.p.tx.value.client == Adapter ==>
          && AwaitedOp(w.p.frame) == Some(w.p.tx.value.op)
          && Adapter !in w.p.done)
    && (Adapter in w.p.done ==> AwaitedOp(w.p.frame).Some?)
  }

  ghost predicate LeaseInv(w: World) {
    && (forall s {:trigger OwnedAt(w, s)} :: OwnedAt(w, s))
    && FrameOk(w)
    && AdapterTxOk(w)
  }

  function Grants(h: History, kind: Kind, s: nat): nat {
    GrantCount(if kind == Model then h.modelGrants else h.toolGrants, s)
  }

  function AttemptsAt(db: Db, kind: Kind, s: nat): nat {
    if s in db.rows then Attempts(db.rows[s], kind) else 0
  }

  /** The suspended call has been counted durably but has not answered yet. */
  predicate Pending(p: Process, kind: Kind, s: nat) {
    && p.frame.Busy? && MeteredFor(p.frame.call, kind, s)
    && (p.frame.at.Metering? || p.frame.at.Confirming?
        || (p.frame.at.Counting? && Adapter in p.done && p.done[Adapter] == Ok(FlagReply(true))))
  }

  predicate MeteredFor(call: Call, kind: Kind, s: nat) {
    && (if kind == Model then call.ModelCall? else call.ToolCall?)
    && call.lease.sequence == s
  }

  predicate MeterAt(w: World, kind: Kind, s: nat) {
    && Grants(w.h, kind, s) + (if Pending(w.p, kind, s) then 1 else 0) <= AttemptsAt(w.db, kind, s)
    && (w.p.tx.Some? && w.p.tx.value.client == Adapter && w.p.tx.value.reply == FlagReply(true)
        && w.p.frame.Busy? && w.p.frame.at.Counting? && MeteredFor(w.p.frame.call, kind, s) ==>
          Grants(w.h, kind, s) + 1 <= AttemptsAt(w.p.tx.value.staged, kind, s))
  }

  ghost predicate MeterInv(w: World) {
    forall kind, s {:trigger MeterAt(w, kind, s)} :: MeterAt(w, kind, s)
  }

  ghost predicate Inv(w: World) {
    StoreInv(w) && ClaimInv(w) && LeaseInv(w) && MeterInv(w)
  }

  // ---------------------------------------------------------------- what bodies return

  lemma ClaimFacts(op: Op, now: real, db: Db, memory: Memory)
    requires DbInv(db) && op.Claim?
    requires Perform(op, now, db, memory).outcome.Ok?
    ensures var w := Perform(op, now, db, memory);
            && w.outcome.value.ClaimReply?
            && var s := w.outcome.value.claimed;
            && IsTurn(db, s) && s in memory.freshTurns
            && w.memory.freshTurns == memory.freshTurns - {s}
            && w.outcome.value.claimedRow == db.rows[s]
            && db.rows[s].owner == op.owner && db.rows[s].requestId == op.requestId
            && HasTaskId(db.rows[s], op.taskId)
  {
    hide TranscriptInv, ValidId;
    assert RequestEntry(db, op.owner, op.requestId);
  }

  lemma AttemptFacts(op: Op, now: real, db: Db, memory: Memory)
    requires op.ReserveAttempt?
    requires Perform(op, now, db, memory).outcome == Ok(FlagReply(true))
    ensures var w := Perform(op, now, db, memory);
            AttemptsAt(w.db, op.kind, op.sequence) == AttemptsAt(db, op.kind, op.sequence) + 1
  {
    hide ValidId;
  }

  lemma OnlyCommitPublishes(op: Op, now: real, db: Db, memory: Memory)
    requires DbInv(db) && !op.CommitTurn?
    ensures Perform(op, now, db, memory).db.messages == db.messages
  {
    hide DbInv, ValidId, Visible, RequestCancelWork, CreateThreadWork, TransitionWork, StageWork, ReserveAttemptWork;
    match op
    case Recover => RecoverPrefixKeeps(db, memory, db.next, now);
    case CreateThread(_, _, _, _, _, _) => CreateThreadIsPlain(op, now, db, memory, 0);
    case RequestCancel(_, _, _) => RequestCancelIsPlain(op, now, db, memory, 0);
    case Transition(_, _, _, _, _) => TransitionIsPlain(op, now, db, memory, 0);
    case Stage(_, _) => UpdateIsPlain(op, now, db, memory, 0);
    case ReserveAttempt(_, _, _) => UpdateIsPlain(op, now, db, memory, 0);
    case _ =>
  }

  lemma RecoverIsLegal(db: Db, memory: Memory, upTo: nat, now: real, s: nat)
    requires DbInv(db)
    ensures LegalAt(db, RecoverPrefix(db, memory, upTo, now).0, s)
  {
    hide DbInv, Evolves;
    RecoverPrefixKeeps(db, memory, upTo, now);
    assert RecoveredAt(db, RecoverPrefix(db, memory, upTo, now).0, upTo, now, s);
  }

  /** What a body that publishes nothing does to one row and to the messages. */
  predicate Plainly(db: Db, d: Db, s: nat) {
    d.messages == db.messages && LegalAt(db, d, s)
  }

  lemma CreateThreadIsPlain(op: Op, now: real, db: Db, memory: Memory, s: nat)
    requires DbInv(db) && op.CreateThread?
    ensures Plainly(db, CreateThreadWork(db, memory, op, now).db, s)
  {
    hide DbInv, ValidId, Visible, HasRequest, CheckThread, SameRequest, NewWorkspace;
    NextIsUnused(db);
    WorkspaceOnly(db, op.owner, op.workspaceId);
  }

  lemma RequestCancelIsPlain(op: Op, now: real, db: Db, memory: Memory, s: nat)
    requires DbInv(db) && op.RequestCancel?
    ensures Plainly(db, RequestCancelWork(db, memory, op, now).db, s)
  {
    hide DbInv, ValidId, Visible, HasRequest, CheckThread, SameRequest;
    NextIsUnused(db);
  }

  lemma TransitionIsPlain(op: Op, now: real, db: Db, memory: Memory, s: nat)
    requires DbInv(db) && op.Transition?
    ensures Plainly(db, TransitionWork(db, memory, op, now).db, s)
  {
    hide DbInv, ValidId, Visible;
  }

  lemma UpdateIsPlain(op: Op, now: real, db: Db, memory: Memory, s: nat)
    requires DbInv(db) && (op.Stage? || op.ReserveAttempt?)
    ensures Plainly(db, Perform(op, now, db, memory).db, s)
  {
    hide DbInv, ValidId, Visible, CheckResult;
  }

  /** One transaction body moves every row along at most one legal edge. */
  lemma PerformIsLegal(op: Op, now: real, db: Db, memory: Memory, s: nat)
    requires DbInv(db)
    ensures LegalAt(db, Perform(op, now, db, memory).db, s)
  {
    hide DbInv, ValidId, Visible, HasRequest, HasTask, CheckResult, RequestCancelWork, CreateThreadWork, TransitionWork;
    NextIsUnused(db);
    match op
    case Recover => RecoverIsLegal(db, memory, db.next, now, s);
    case CreateThread(_, _, _, _, _, _) => CreateThreadIsPlain(op, now, db, memory, s);
    case RequestCancel(_, _, _) => RequestCancelIsPlain(op, now, db, memory, s);
    case Transition(_, _, _, _, _) => TransitionIsPlain(op, now, db, memory, s);
    case _ =>
  }

  lemma NextIsUnused(db: Db)
    requires DbInv(db)
    ensures db.next !in db.rows
  {
    hide TranscriptInv, RowOk;
    assert RowAt(db, db.next);
  }

  // ---------------------------------------------------------------- Begin

  lemma BeginStore(w: World, client: Client, op: Op, now: real)
    requires StoreInv(w) && CanBegin(w.p, client, op)
    ensures StoreInv(BeginStep(w, client, op, now))
  {
    hide DbInv, Perform, DbLater, Active;
    var w' := BeginStep(w, client, op, now);
    var work := Perform(op, now, w.db, w.p.memory);
    PerformKeeps(op, now, w.db, w.p.memory);
    NextIsUnused(w.db);
    forall s | s in w.h.session ensures Guarded(w.db, w'.p.memory, s) {
      assert Guarded(w.db, w.p.memory, s);
    }
    if w'.p.tx.Some? {
      if !op.CommitTurn? {
        OnlyCommitPublishes(op, now, w.db, w.p.memory);
      }
      forall s ensures LegalAt(w.db, work.db, s) {
        PerformIsLegal(op, now, w.db, w.p.memory, s);
      }
      forall s | s in w.h.session || s !in w.db.rows ensures Guarded(work.db, work.memory, s) {
        assert BlockFollows(w.db, work.db, work.memory, s);
        assert Guarded(w.db, w.p.memory, s);
      }
    }
  }

  lemma BeginClaims(w: World, client: Client, op: Op, now: real)
    requires StoreInv(w) && ClaimInv(w) && CanBegin(w.p, client, op)
    ensures ClaimInv(BeginStep(w, client, op, now))
  {
    hide DbInv, Perform, DbLater;
    var work := Perform(op, now, w.db, w.p.memory);
    PerformKeeps(op, now, w.db, w.p.memory);
    NextIsUnused(w.db);
    if op.Claim? && work.outcome.Ok? {
      ClaimFacts(op, now, w.db, w.p.memory);
    }
  }

  /** What Begin leaves alone, and what it may leave for the adapter. */
  lemma BeginShape(w: World, client: Client, op: Op, now: real)
    requires CanBegin(w.p, client, op)
    ensures var w' := BeginStep(w, client, op, now);
            && w'.db == w.db && w'.h.session == w.h.session
            && w'.p.owned == w.p.owned && w'.p.frame == w.p.frame
            && (Adapter in w'.p.done ==>
                  (client == Adapter && w'.p.done[Adapter].Err? && w'.p.tx.None?)
                  || (Adapter in w.p.done && w'.p.done[Adapter] == w.p.done[Adapter]))
            && (w'.p.tx.Some? ==>
                  && w'.p.tx.value.client == client && w'.p.tx.value.op == op
                  && Perform(op, now, w.db, w.p.memory).outcome == Ok(w'.p.tx.value.reply)
                  && w'.p.done == w.p.done)
  {
    hide Perform;
  }

  lemma ClaimIsBacked(w: World, op: Op, now: real, call: Call)
    requires StoreInv(w) && op.Claim? && call.ReserveRequest?
    requires op.owner == call.owner && op.requestId == call.requestId && op.taskId == call.taskId
    requires Perform(op, now, w.db, w.p.memory).outcome.Ok?
    ensures ClaimBacked(w, call, Perform(op, now, w.db, w.p.memory).outcome.value)
  {
    hide DbInv, Perform, DbLater, Guarded;
    ClaimFacts(op, now, w.db, w.p.memory);
  }

  lemma BeginFrame(w: World, client: Client, op: Op, now: real)
    requires StoreInv(w) && FrameOk(w) && AdapterTxOk(w) && CanBegin(w.p, client, op)
    ensures FrameOk(BeginStep(w, client, op, now)) && AdapterTxOk(BeginStep(w, client, op, now))
  {
    hide StoreInv, Perform, BeginStep;
    var w' := BeginStep(w, client, op, now);
    BeginShape(w, client, op, now);
    if client == Adapter && op.Claim? && w'.p.tx.Some? {
      ClaimIsBacked(w, op, now, w.p.frame.call);
    }
  }

  lemma BeginLeases(w: World, client: Client, op: Op, now: real)
    requires StoreInv(w) && LeaseInv(w) && CanBegin(w.p, client, op)
    ensures LeaseInv(BeginStep(w, client, op, now))
  {
    hide StoreInv, BeginStep, FrameOk, AdapterTxOk;
    var w' := BeginStep(w, client, op, now);
    BeginShape(w, client, op, now);
    BeginFrame(w, client, op, now);
    forall s ensures OwnedAt(w', s) {
      assert OwnedAt(w, s);
    }
  }

  lemma BeginMeter(w: World, client: Client, op: Op, now: real)
    requires StoreInv(w) && MeterInv(w) && CanBegin(w.p, client, op)
    ensures MeterInv(BeginStep(w, client, op, now))
  {
    hide StoreInv, Perform, BeginStep, CanBegin;
    var w' := BeginStep(w, client, op, now);
    BeginShape(w, client, op, now);
    BeginGrants(w, client, op, now);
    forall kind, s ensures MeterAt(w', kind, s) {
      assert MeterAt(w, kind, s);
      if w'.p.tx.Some? && client == Adapter && op.ReserveAttempt? && w'.p.tx.value.reply == FlagReply(true) {
        AttemptFacts(op, now, w.db, w.p.memory);
      }
    }
  }

  /** Begin grants nothing, and the adapter may only begin what its call awaits. */
  lemma BeginGrants(w: World, client: Client, op: Op, now: real)
    requires CanBegin(w.p, client, op)
    ensures var w' := BeginStep(w, client, op, now);
            && w'.h.modelGrants == w.h.modelGrants && w'.h.toolGrants == w.h.toolGrants
            && (client == Adapter ==> AwaitedOp(w.p.frame) == Some(op) && Adapter !in w.p.done)
            && (w'.p.tx.Some? ==> w'.p.tx.value.staged == Perform(op, now, w.db, w.p.memory).db)
  {
    hide Perform, AwaitedOp;
  }

  lemma BeginKeeps(w: World, client: Client, op: Op, now: real)
    requires Inv(w) && CanBegin(w.p, client, op)
    ensures Inv(BeginStep(w, client, op, now))
  {
    hide StoreInv, ClaimInv, LeaseInv, MeterInv, BeginStep;
    BeginStore(w, client, op, now);
    BeginClaims(w, client, op, now);
    BeginLeases(w, client, op, now);
    BeginMeter(w, client, op, now);
  }

  // ---------------------------------------------------------------- Commit and roll-back

  lemma BackedKept(w: World, w': World, lease: Lease)
    requires Backed(w, lease) && DbLater(w.db, w'.db) && w.h.session <= w'.h.session
    ensures Backed(w', lease)
  {
    RowStays(w.db, w'.db, lease.sequence);
  }

  lemma FrameKept(w: World, w': World)
    requires FrameOk(w) && DbLater(w.db, w'.db) && w.h.session <= w'.h.session
    requires w'.p.frame == w.p.frame
    requires Adapter in w'.p.done && w'.p.done[Adapter].Ok? ==>
               (Adapter in w.p.done && w.p.done[Adapter] == w'.p.done[Adapter])
               || (w.p.tx.Some? && w.p.tx.value.client == Adapter && w'.p.done[Adapter] == Ok(w.p.tx.value.reply))
    requires w'.p.tx.None?
    ensures FrameOk(w')
  {
    hide DbLater;
    forall s | s in w.db.rows ensures s in w'.db.rows && RowLater(w.db.rows[s], w'.db.rows[s]) {
      RowStays(w.db, w'.db, s);
    }
  }

  lemma CommitStore(w: World)
    requires StoreInv(w) && w.p.tx.Some?
    ensures StoreInv(CommitStep(w)) && DbLater(w.db, CommitStep(w).db)
  {
    hide DbInv, Active;
    var staged := w.p.tx.value.staged;
    forall s | s in w.db.rows ensures s in staged.rows {
      RowStays(w.db, staged, s);
    }
  }

  lemma CommitClaims(w: World)
    requires StoreInv(w) && ClaimInv(w) && w.p.tx.Some?
    ensures ClaimInv(CommitStep(w))
  {
    hide DbInv, DbLater, Guarded, LegalAt;
    CommitStore(w);
    forall s | s in w.db.rows ensures s in CommitStep(w).db.rows {
      RowStays(w.db, CommitStep(w).db, s);
    }
  }

  /** How a commit moves the world, apart from what it makes durable. */
  lemma CommitShows(w: World)
    requires w.p.tx.Some?
    ensures var p := CommitStep(w).p;
            p.tx.None? && p.frame == w.p.frame && p.owned == w.p.owned
    ensures var h := CommitStep(w).h;
            w.h.session <= h.session && h == w.h.(session := h.session)
  {
    CommitEnds(w);
  }

  lemma CommitEnds(w: World)
    requires w.p.tx.Some?
    ensures CommitStep(w).p == w.p.(tx := None, done := CommitStep(w).p.done)
  {
  }

  lemma CommitReplies(w: World)
    requires w.p.tx.Some?
    ensures var w' := CommitStep(w);
            && (w'.db == w.db || w'.db == w.p.tx.value.staged)
            && (Adapter in w'.p.done <==> Adapter in w.p.done || w.p.tx.value.client == Adapter)
            && (w.p.tx.value.client != Adapter && Adapter in w'.p.done ==> w'.p.done[Adapter] == w.p.done[Adapter])
            && (w.p.tx.value.client == Adapter && w'.p.done[Adapter].Ok? ==>
                  w'.p.done[Adapter] == Ok(w.p.tx.value.reply) && w'.db == w.p.tx.value.staged)
  {
  }

  lemma CommitLeases(w: World)
    requires StoreInv(w) && LeaseInv(w) && w.p.tx.Some?
    ensures LeaseInv(CommitStep(w))
  {
    hide StoreInv, FrameOk, CommitStep, Backed;
    var w' := CommitStep(w);
    CommitStore(w);
    CommitShows(w);
    CommitReplies(w);
    FrameKept(w, w');
    forall s ensures OwnedAt(w', s) {
      assert OwnedAt(w, s);
      if s in w.p.owned {
        BackedKept(w, w', w.p.owned[s].lease);
      }
    }
  }

  lemma CommitMeter(w: World)
    requires StoreInv(w) && MeterInv(w) && LeaseInv(w) && w.p.tx.Some?
    ensures MeterInv(CommitStep(w))
  {
    hide StoreInv, FrameOk, CommitStep, OwnedAt, DbLater;
    var w' := CommitStep(w);
    CommitStore(w);
    CommitShows(w);
    CommitReplies(w);
    forall s | s in w.db.rows ensures s in w'.db.rows && RowLater(w.db.rows[s], w'.db.rows[s]) {
      RowStays(w.db, w'.db, s);
    }
    forall kind, s ensures MeterAt(w', kind, s) {
      assert MeterAt(w, kind, s);
    }
  }

  lemma CommitKeeps(w: World)
    requires Inv(w) && w.p.tx.Some?
    ensures Inv(CommitStep(w))
  {
    hide StoreInv, ClaimInv, LeaseInv, MeterInv, CommitStep;
    CommitStore(w);
    CommitClaims(w);
    CommitLeases(w);
    CommitMeter(w);
  }

  lemma RollBackKeeps(w: World)
    requires Inv(w) && w.p.tx.Some?
    ensures Inv(RollBackStep(w))
  {
    hide DbInv, Active;
    var w' := RollBackStep(w);
    DbLaterReflexive(w.db);
    FrameKept(w, w');
    forall s ensures OwnedAt(w', s) {
      assert OwnedAt(w, s);
    }
    forall kind, s ensures MeterAt(w', kind, s) {
      assert MeterAt(w, kind, s);
    }
    forall s | s in w.h.session ensures Guarded(w'.db, w'.p.memory, s) {
      assert Guarded(w.db, w.p.memory, s);
    }
  }

  // ---------------------------------------------------------------- steps that touch no transaction

  predicate Quiet(w: World, w': World) {
    && w'.db == w.db && w'.p.memory == w.p.memory && w'.p.tx == w.p.tx
    && w'.h.session == w.h.session && w'.h.claims == w.h.claims
  }

  lemma QuietKeeps(w: World, w': World)
    requires StoreInv(w) && ClaimInv(w) && Quiet(w, w')
    ensures StoreInv(w') && ClaimInv(w')
  {
    hide DbInv, DbLater, Active;
    forall s | s in w.h.session ensures Guarded(w'.db, w'.p.memory, s) {
      assert Guarded(w.db, w.p.memory, s);
    }
    if w.p.tx.Some? {
      forall s | s in w'.h.session || s !in w'.db.rows ensures Guarded(w'.p.tx.value.staged, w'.p.memory, s) {
        assert Guarded(w.p.tx.value.staged, w.p.memory, s);
      }
    }
  }

  /** The leases of the later world are leases of the earlier one, perhaps in another state. */
  predicate FewerLeases(w: World, w': World) {
    forall s | s in w'.p.owned :: s in w.p.owned && w'.p.owned[s].lease == w.p.owned[s].lease
  }

  lemma FewerLeasesKeep(w: World, w': World)
    requires forall s :: OwnedAt(w, s)
    requires Quiet(w, w') && FewerLeases(w, w')
    ensures forall s {:trigger OwnedAt(w', s)} :: OwnedAt(w', s)
  {
    forall s ensures OwnedAt(w', s) {
      assert OwnedAt(w, s);
    }
  }

  /** Nothing is pending after a step that leaves the call counted-and-unanswered nowhere. */
  lemma MeterKept(w: World, w': World)
    requires MeterInv(w) && Quiet(w, w')
    requires w'.h.modelGrants == w.h.modelGrants && w'.h.toolGrants == w.h.toolGrants
    requires forall kind, s | Pending(w'.p, kind, s) :: Pending(w.p, kind, s)
    requires w.p.tx.Some? && w.p.tx.value.client == Adapter ==> w'.p.frame == w.p.frame
    ensures MeterInv(w')
  {
    forall kind, s ensures MeterAt(w', kind, s) {
      assert MeterAt(w, kind, s);
    }
  }

  /** When a call may make each move. */
  predicate MoveOk(p: Process, call: Call, at: Stage, outcome: Outcome<Reply>, move: Move) {
    match move
    case Wait(at') =>
      && FrameShape(Busy(call, at')) && !at'.Leasing?
      && (at'.QuotaReserving? ==>
            && call.ReserveRequest? && at.Claiming?
            && outcome.Ok? && outcome.value.ClaimReply? && outcome.value.claimed == at'.sequence
            && outcome.value.claimedRow.createdAt == at'.createdAt)
      && (Metered(call) && (at'.Metering? || at'.Confirming?) ==>
            at.Metering? || (at.Counting? && outcome == Ok(FlagReply(true))))
    case Acquire(lease) => call.ReserveRequest? && at.QuotaReserving? && lease == NewLease(call, at, lease.token)
    case Promote(lease) => HoldsLease(p, lease)
    case Grant => Metered(call) && at.Confirming?
    case _ => true
  }

  predicate Metered(call: Call) {
    call.ModelCall? || call.ToolCall?
  }

  lemma ConfirmedOwns(p: Process, lease: Lease, expected: State, outcome: Outcome<Reply>, now: real)
    requires CheckCurrent(p, lease, expected, outcome, now) == Confirmed
    ensures Owns(p, lease, now) && HoldsLease(p, lease)
    ensures outcome.Ok? && outcome.value.RecordReply? && outcome.value.row.state == expected
  {
  }

  lemma ResumeMoveOk(p: Process, call: Call, at: Stage, outcome: Outcome<Reply>,
                     interrupted: bool, backend: Backend, token: nat, now: real)
    requires FrameShape(Busy(call, at))
    ensures MoveOk(p, call, at, outcome, ResumeMove(p, call, at, outcome, interrupted, backend, token, now))
  {
    hide Owns, CheckCurrent, HoldsLease;
    if call.MarkRunning? && CheckCurrent(p, call.lease, Running, outcome, now) == Confirmed {
      ConfirmedOwns(p, call.lease, Running, outcome, now);
    }
  }

  /** The circumstances in which a call runs: its reply taken, no transaction of its own open. */
  predicate Runnable(w: World, p: Process, call: Call, at: Stage, outcome: Outcome<Reply>) {
    && p.owned == w.p.owned && p.tx == w.p.tx && Adapter !in p.done
    && !(p.tx.Some? && p.tx.value.client == Adapter)
    && (w.p.frame == Busy(call, at) || (w.p.frame.Idle? && at.Checking?))
    && (w.p.frame.Busy? && (at.Claiming? || at.Counting?) ==> Adapter in w.p.done && outcome == w.p.done[Adapter])
  }

  lemma MovesKeepOwned(w: World, p: Process, call: Call, at: Stage, outcome: Outcome<Reply>, move: Move, s: nat)
    requires LeaseInv(w) && MoveOk(p, call, at, outcome, move) && Runnable(w, p, call, at, outcome)
    ensures OwnedAt(Moves(w, p, call, move), s)
  {
    hide AdapterTxOk;
    assert OwnedAt(w, s);
  }

  lemma MovesKeepFrame(w: World, p: Process, call: Call, at: Stage, outcome: Outcome<Reply>, move: Move)
    requires FrameOk(w) && MoveOk(p, call, at, outcome, move) && Runnable(w, p, call, at, outcome)
    ensures FrameOk(Moves(w, p, call, move))
  {
    hide MovedProcess;
    MovedFrame(p, call, move);
  }

  lemma MovesKeepLeases(w: World, p: Process, call: Call, at: Stage, outcome: Outcome<Reply>, move: Move)
    requires LeaseInv(w) && MoveOk(p, call, at, outcome, move) && Runnable(w, p, call, at, outcome)
    ensures LeaseInv(Moves(w, p, call, move))
  {
    hide MovedProcess, FrameOk, OwnedAt;
    MovedFrame(p, call, move);
    MovesKeepFrame(w, p, call, at, outcome, move);
    forall s ensures OwnedAt(Moves(w, p, call, move), s) {
      MovesKeepOwned(w, p, call, at, outcome, move, s);
    }
  }

  lemma MovesKeepMeter(w: World, p: Process, call: Call, at: Stage, outcome: Outcome<Reply>, move: Move)
    requires MeterInv(w) && MoveOk(p, call, at, outcome, move) && Runnable(w, p, call, at, outcome)
    ensures MeterInv(Moves(w, p, call, move))
  {
    hide MovedProcess;
    var w' := Moves(w, p, call, move);
    MovedFrame(p, call, move);
    forall kind, s ensures MeterAt(w', kind, s) {
      assert MeterAt(w, kind, s);
    }
  }

  lemma MovedFrame(p: Process, call: Call, move: Move)
    ensures var q := MovedProcess(p, call, move);
            && q.tx == p.tx && q.done == p.done && q.memory == p.memory
            && q.ready == p.ready && q.storeClosed == p.storeClosed
            && q.publicationClosed == p.publicationClosed && q.adapterClosed == p.adapterClosed
            && q.frame == if move.Wait? then Busy(call, move.at)
                          else if move.Acquire? then Busy(call, Leasing(move.gained)) else Idle
  {
  }

  lemma StartKeeps(w: World, call: Call, now: real)
    requires Inv(w) && w.p.frame.Idle?
    ensures Inv(StartStep(w, call, now))
  {
    hide StoreInv, ClaimInv, MeterInv, Moves, StartMove;
    var p := w.p.(answer := None);
    var move := StartMove(w.p, call, now);
    StartMoveOk(w.p, call, now);
    MovesQuiet(w, p, call, move);
    QuietKeeps(w, StartStep(w, call, now));
    MovesKeepLeases(w, p, call, Checking, Fail(Store), move);
    MovesKeepMeter(w, p, call, Checking, Fail(Store), move);
  }

  lemma StartMoveOk(p: Process, call: Call, now: real)
    ensures MoveOk(p.(answer := None), call, Checking, Fail(Store), StartMove(p, call, now))
  {
    hide Owns;
  }

  lemma MovesQuiet(w: World, p: Process, call: Call, move: Move)
    requires p.memory == w.p.memory && p.tx == w.p.tx
    ensures Quiet(w, Moves(w, p, call, move))
  {
    MovedFrame(p, call, move);
  }

  lemma ResumeKeeps(w: World, interrupted: bool, backend: Backend, token: nat, now: real)
    requires Inv(w) && CanResume(w.p)
    ensures Inv(ResumeStep(w, interrupted, backend, token, now))
  {
    hide StoreInv, ClaimInv, MeterInv, Moves, ResumeMove, MoveOk;
    var p := AfterTaking(w.p);
    var call, at := w.p.frame.call, w.p.frame.at;
    var outcome := TakenReply(w.p);
    var move := ResumeMove(p, call, at, outcome, interrupted, backend, token, now);
    ResumeMoveOk(p, call, at, outcome, interrupted, backend, token, now);
    MovesQuiet(w, p, call, move);
    QuietKeeps(w, ResumeStep(w, interrupted, backend, token, now));
    MovesKeepLeases(w, p, call, at, outcome, move);
    MovesKeepMeter(w, p, call, at, outcome, move);
  }

  lemma CrashKeeps(w: World)
    requires Inv(w)
    ensures Inv(Next(w, Crash))
  {
    hide DbInv, DbLater;
    var w' := Next(w, Crash);
    forall kind, s ensures MeterAt(w', kind, s) {
      assert MeterAt(w, kind, s);
    }
  }

  /** Initialize, Revoke, CloseAdapter, Fence, CloseStore, Take and TakeAnswer. */
  lemma SmallKeeps(w: World, a: Action)
    requires Inv(w) && Enabled(w, a)
    requires a.Initialize? || a.Revoke? || a.CloseAdapter? || a.Fence? || a.CloseStore? || a.Take? || a.TakeAnswer?
    ensures Inv(Next(w, a))
  {
    hide DbInv, DbLater, StoreInv, ClaimInv, MeterInv, MeterAt;
    var w' := Next(w, a);
    QuietKeeps(w, w');
    FewerLeasesKeep(w, w');
    MeterKept(w, w');
  }

  lemma NextKeeps(w: World, a: Action)
    requires Inv(w) && Enabled(w, a)
    ensures Inv(Next(w, a))
  {
    hide Inv, BeginStep, CommitStep, RollBackStep, StartStep, ResumeStep;
    match a
    case Begin(client, op, now) => BeginKeeps(w, client, op, now);
    case Commit => CommitKeeps(w);
    case RollBack => RollBackKeeps(w);
    case Start(call, now) => StartKeeps(w, call, now);
    case Resume(interrupted, backend, token, now) =>
      ResumeKeeps(w, interrupted, backend, token, now);
    case Crash => CrashKeeps(w);
    case _ => SmallKeeps(w, a);
  }

  lemma StartHolds()
    ensures Inv(START)
  {
    forall kind, s ensures MeterAt(START, kind, s) {
    }
  }

  lemma {:induction false} RunKeeps(w: World, schedule: seq<Action>)
    requires Inv(w)
    ensures Inv(Run(w, schedule))
    decreases |schedule|
  {
    hide Inv, Next, Enabled;
    if schedule != [] {
      if Enabled(w, schedule[0]) {
        NextKeeps(w, schedule[0]);
        RunKeeps(Next(w, schedule[0]), schedule[1..]);
      } else {
        RunKeeps(w, schedule[1..]);
      }
    }
  }
}
