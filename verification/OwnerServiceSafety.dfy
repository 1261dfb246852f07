/** What the service keeps over every run: one turn at a time, a finished execution leaves
    no open turn unless the service refuses new ones, uncertainty closes admission for good,
    and a turn is published only after its result was staged, the gateway record was
    acknowledged and the quota request was finished, in that order. */
module OwnerServiceSafety {
  import opened Wrappers
  import Utf8
  import opened AdmissionStore
  import opened AdmissionInvariants
  import opened AdmissionProtocol
  import opened AdmissionSafety
  import opened OwnerService

  // ---------------------------------------------------------------- what single bodies can do

  /** The open transaction is what some body made of the current database. */
  ghost predicate PerformedFrom(db: Db, tx: Tx) {
    exists now, memory :: Performs(db, tx, now, memory)
  }

  ghost predicate Performs(db: Db, tx: Tx, now: real, memory: Memory) {
    && Perform(tx.op, now, db, memory).outcome == Ok(tx.reply)
    && Perform(tx.op, now, db, memory).db == tx.staged
  }

  predicate CompletedAt(db: Db, s: nat) {
    IsTurn(db, s) && db.rows[s].state == Completed
  }

  predicate RunningAt(db: Db, s: nat) {
    IsTurn(db, s) && db.rows[s].state == Running
  }

  predicate UncertainAt(db: Db, owner: Id, s: nat) {
    IsTurn(db, s) && db.rows[s].owner == owner && db.rows[s].state == Uncertain
  }

  predicate NewTurn(reply: Reply, s: nat) {
    reply.RecordReply? && !reply.replayed && reply.sequence == s
  }

  /** What one body can do to the state of one sequence number. */
  predicate BodyAt(db: Db, op: Op, reply: Reply, staged: Db, owner: Id, s: nat) {
    && (Interrupted(staged, s) ==> Interrupted(db, s) || (op.Admit? && NewTurn(reply, s)))
    && (IsTurn(staged, s) ==> IsTurn(db, s) || op.Admit?)
    && (CompletedAt(staged, s) ==> CompletedAt(db, s) || (op.CommitTurn? && op.sequence == s))
    && (RunningAt(staged, s) ==> RunningAt(db, s) || op.Transition?)
    && (UncertainAt(staged, owner, s) ==> UncertainAt(db, owner, s) || op.Transition? || op.Recover?)
  }

  /** What the successful body of each operation achieves. */
  predicate Achieves(db: Db, op: Op, reply: Reply, staged: Db) {
    match op
    case CommitTurn(s, _, _) => CompletedAt(staged, s)
    case Transition(s, _, state, _, _) => state != Running ==> IsTurn(staged, s) && Terminal(staged.rows[s].state)
    case Get(owner, taskId) =>
      && staged == db && HasTask(db, owner, taskId)
      && reply == RecordReply(db.byTask[taskId], db.rows[db.byTask[taskId]], false)
    case HasUncertainty(owner) => staged == db && reply == FlagReply(AnyUncertain(db, owner))
    case RequestCancel(_, taskId, _) => taskId in staged.byTask && InactiveAt(staged, staged.byTask[taskId])
    case Admit(owner, _, _, _, _) =>
      reply.RecordReply? && !reply.replayed ==>
        && IsTurn(staged, reply.sequence) && staged.rows[reply.sequence] == reply.row
        && reply.row.owner == owner && reply.row.state == Admitted
        && reply.row.turn.Some? && reply.row.turn.value.taskId in staged.byTask
        && staged.byTask[reply.row.turn.value.taskId] == reply.sequence
    case _ => true
  }

  lemma RecoverBody(db: Db, memory: Memory, now: real, owner: Id, s: nat)
    requires DbInv(db)
    ensures BodyAt(db, Recover, DoneReply, Perform(Recover, now, db, memory).db, owner, s)
    ensures !Interrupted(Perform(Recover, now, db, memory).db, s)
  {
    hide DbInv, Evolves;
    RecoverPrefixKeeps(db, memory, db.next, now);
    assert RecoveredAt(db, Perform(Recover, now, db, memory).db, db.next, now, s);
    if s in db.rows {
      RowOkAt(db, s);
    }
  }

  lemma UnchangedBody(db: Db, op: Op, reply: Reply, staged: Db, owner: Id, s: nat)
    requires s in staged.rows ==> s in db.rows && staged.rows[s] == db.rows[s]
    ensures BodyAt(db, op, reply, staged, owner, s)
  {
  }

  lemma CreateThreadBody(op: Op, now: real, db: Db, memory: Memory, owner: Id, s: nat)
    requires db.next !in db.rows && op.CreateThread? && CreateThreadWork(db, memory, op, now).outcome.Ok?
    ensures var w := CreateThreadWork(db, memory, op, now);
            BodyAt(db, op, w.outcome.value, w.db, owner, s)
  {
    hide ValidId, Visible, CheckResult, HasRequest, CheckThread, CreateThreadWork;
    CreateThreadRows(op, now, db, memory);
  }

  /** A new thread adds at most one row, which is not a turn. */
  lemma CreateThreadRows(op: Op, now: real, db: Db, memory: Memory)
    requires db.next !in db.rows && op.CreateThread? && CreateThreadWork(db, memory, op, now).outcome.Ok?
    ensures var d := CreateThreadWork(db, memory, op, now).db;
            forall s | s in d.rows :: (s in db.rows && d.rows[s] == db.rows[s]) || d.rows[s].operation == NewThread
  {
    hide ValidId, Visible, CheckResult, CheckThread, HasRequest, SameRequest, NewWorkspace;
    WorkspaceOnly(db, op.owner, op.workspaceId);
  }

  lemma AdmitBody(op: Op, now: real, db: Db, memory: Memory, owner: Id, s: nat)
    requires db.next !in db.rows && op.Admit? && AdmitWork(db, memory, op, now).outcome.Ok?
    ensures var w := AdmitWork(db, memory, op, now);
            BodyAt(db, op, w.outcome.value, w.db, owner, s)
  {
    hide ValidId, Visible, CheckResult;
  }

  lemma ClaimBody(op: Op, now: real, db: Db, memory: Memory, owner: Id, s: nat)
    requires db.next !in db.rows && op.Claim? && ClaimWork(db, memory, op, now).outcome.Ok?
    ensures var w := ClaimWork(db, memory, op, now);
            BodyAt(db, op, w.outcome.value, w.db, owner, s)
  {
    hide ValidId, Visible, CheckResult;
  }

  lemma TransitionBody(op: Op, now: real, db: Db, memory: Memory, owner: Id, s: nat)
    requires db.next !in db.rows && op.Transition? && TransitionWork(db, memory, op, now).outcome.Ok?
    ensures var w := TransitionWork(db, memory, op, now);
            BodyAt(db, op, w.outcome.value, w.db, owner, s)
  {
    hide ValidId, Visible, CheckResult;
  }

  lemma StageBody(op: Op, now: real, db: Db, memory: Memory, owner: Id, s: nat)
    requires db.next !in db.rows && op.Stage? && StageWork(db, memory, op, now).outcome.Ok?
    ensures var w := StageWork(db, memory, op, now);
            BodyAt(db, op, w.outcome.value, w.db, owner, s)
  {
    hide ValidId, Visible, CheckResult;
  }

  lemma CommitTurnBody(op: Op, now: real, db: Db, memory: Memory, owner: Id, s: nat)
    requires db.next !in db.rows && op.CommitTurn? && CommitTurnWork(db, memory, op, now).outcome.Ok?
    ensures var w := CommitTurnWork(db, memory, op, now);
            BodyAt(db, op, w.outcome.value, w.db, owner, s)
  {
    hide ValidId, Visible, CheckResult;
  }

  lemma RequestCancelBody(op: Op, now: real, db: Db, memory: Memory, owner: Id, s: nat)
    requires db.next !in db.rows && op.RequestCancel? && RequestCancelWork(db, memory, op, now).outcome.Ok?
    ensures var w := RequestCancelWork(db, memory, op, now);
            BodyAt(db, op, w.outcome.value, w.db, owner, s)
  {
    hide ValidId, Visible, CheckResult, HasRequest, HasTask, CheckThread, LogEvent, Retire;
    LoggedRows(db, op, now, memory);
  }

  /** A cancellation touches its target and adds one row that is not a turn. */
  lemma LoggedRows(db: Db, op: Op, now: real, memory: Memory)
    requires db.next !in db.rows && op.RequestCancel? && RequestCancelWork(db, memory, op, now).outcome.Ok?
    ensures var d := RequestCancelWork(db, memory, op, now).db;
            && op.taskId in db.byTask && db.byTask[op.taskId] in db.rows
            && var target := db.rows[db.byTask[op.taskId]];
            && (forall s | s in d.rows ::
                  || (s in db.rows && d.rows[s] == db.rows[s])
                  || (s == db.byTask[op.taskId] && !Terminal(target.state) && d.rows[s] == CancelledRow(target, now))
                  || (s == db.next && d.rows[s].operation == Cancel))
  {
    hide ValidId, Visible, CheckResult, CheckThread, SameRequest;
  }

  lemma ReserveAttemptBody(op: Op, now: real, db: Db, memory: Memory, owner: Id, s: nat)
    requires db.next !in db.rows && op.ReserveAttempt? && ReserveAttemptWork(db, memory, op, now).outcome.Ok?
    ensures var w := ReserveAttemptWork(db, memory, op, now);
            BodyAt(db, op, w.outcome.value, w.db, owner, s)
  {
    hide ValidId, Visible, CheckResult;
  }

  lemma BodyHolds(op: Op, now: real, db: Db, memory: Memory, owner: Id, s: nat)
    requires DbInv(db) && Perform(op, now, db, memory).outcome.Ok?
    ensures var w := Perform(op, now, db, memory);
            BodyAt(db, op, w.outcome.value, w.db, owner, s)
  {
    hide DbInv, BodyAt, CreateThreadWork, AdmitWork, ClaimWork, TransitionWork, StageWork, CommitTurnWork,
         RequestCancelWork, ReserveAttemptWork, RecoverPrefix, HasTask, HasRequest, ValidId;
    var w := Perform(op, now, db, memory);
    NextIsUnused(db);
    match op
    case CreateThread(_, _, _, _, _, _) => CreateThreadBody(op, now, db, memory, owner, s);
    case Admit(_, _, _, _, _) => AdmitBody(op, now, db, memory, owner, s);
    case Claim(_, _, _) => ClaimBody(op, now, db, memory, owner, s);
    case Transition(_, _, _, _, _) => TransitionBody(op, now, db, memory, owner, s);
    case Stage(_, _) => StageBody(op, now, db, memory, owner, s);
    case CommitTurn(_, _, _) => CommitTurnBody(op, now, db, memory, owner, s);
    case RequestCancel(_, _, _) => RequestCancelBody(op, now, db, memory, owner, s);
    case ReserveAttempt(_, _, _) => ReserveAttemptBody(op, now, db, memory, owner, s);
    case Recover => RecoverBody(db, memory, now, owner, s);
    case RecoverPartly(_) =>
    case _ => UnchangedBody(db, op, w.outcome.value, w.db, owner, s);
  }

  lemma AchievesHolds(op: Op, now: real, db: Db, memory: Memory)
    requires DbInv(db) && Perform(op, now, db, memory).outcome.Ok?
    ensures var w := Perform(op, now, db, memory);
            Achieves(db, op, w.outcome.value, w.db)
  {
    hide DbInv, ValidId, Visible, CheckResult;
    match op
    case RequestCancel(owner, taskId, requestId) => CancelAchieves(op, now, db, memory);
    case _ =>
  }

  lemma CancelAchieves(op: Op, now: real, db: Db, memory: Memory)
    requires DbInv(db) && op.RequestCancel? && RequestCancelWork(db, memory, op, now).outcome.Ok?
    ensures Achieves(db, op, RequestCancelWork(db, memory, op, now).outcome.value, RequestCancelWork(db, memory, op, now).db)
  {
    hide TranscriptInv, ValidId, Visible, RowOk;
    var w := RequestCancelWork(db, memory, op, now);
    var t := db.byTask[op.taskId];
    assert RowAt(db, t);
    if w.outcome.value.replayed {
      assert CancelAt(db, RequestSequence(db, op.owner, op.requestId));
    }
  }

  // ---------------------------------------------------------------- progress of a turn

  /** How far a turn has come in the order staged, recorded, quota finished. */
  function Progress(trace: seq<Mark>, s: nat): (k: nat)
    ensures k <= 3
  {
    if trace == [] then 0
    else
      var k := Progress(trace[..|trace| - 1], s);
      match trace[|trace| - 1]
      case ResultStaged(t) => if t == s && k == 0 then 1 else k
      case GatewayRecorded(t) => if t == s && k == 1 then 2 else k
      case QuotaFinished(t) => if t == s && k == 2 then 3 else k
      case TurnPublished(_) => k
  }

  lemma ProgressAppend(trace: seq<Mark>, m: Mark, s: nat)
    ensures Progress(trace, s) <= Progress(trace + [m], s)
    ensures m == ResultStaged(s) ==> Progress(trace + [m], s) >= 1
    ensures m == GatewayRecorded(s) && Progress(trace, s) >= 1 ==> Progress(trace + [m], s) >= 2
    ensures m == QuotaFinished(s) && Progress(trace, s) >= 2 ==> Progress(trace + [m], s) >= 3
  {
    assert (trace + [m])[..|trace|] == trace;
  }

  /** Every published turn had come all the way at the moment it was published. */
  predicate Ordered(trace: seq<Mark>) {
    forall i | 0 <= i < |trace| && trace[i].TurnPublished? :: Progress(trace[..i], trace[i].sequence) == 3
  }

  lemma OrderedAppend(trace: seq<Mark>, m: Mark)
    requires Ordered(trace)
    requires m.TurnPublished? ==> Progress(trace, m.sequence) == 3
    ensures Ordered(trace + [m])
  {
    forall i | 0 <= i < |trace + [m]| && (trace + [m])[i].TurnPublished?
      ensures Progress((trace + [m])[..i], (trace + [m])[i].sequence) == 3
    {
      assert (trace + [m])[..i] == trace[..i];
    }
  }

  /** The progress an execution at this await must have behind it. */
  function Needed(at: Spot): nat {
    match at
    case Recording => 1
    case DurableCheck(point) => if point == AfterRecord then 2 else if point == AfterFinish then 3 else 0
    case AuditCheck(point, _) => if point == AfterRecord then 2 else if point == AfterFinish then 3 else 0
    case Finishing => 2
    case Publishing => 3
    case _ => 0
  }

  predicate PublishedAt(db: Db, trace: seq<Mark>, s: nat) {
    CompletedAt(db, s) ==> TurnPublished(s) in trace
  }

  ghost predicate TraceInv(sys: System) {
    && Ordered(sys.trace)
    && (forall s {:trigger PublishedAt(sys.w.db, sys.trace, s)} :: PublishedAt(sys.w.db, sys.trace, s))
    && (sys.s.execution.Task? ==> Needed(sys.s.execution.at) <= Progress(sys.trace, sys.s.execution.sequence))
  }

  // ---------------------------------------------------------------- who waits for what

  predicate AdapterMay(op: Op) {
    op.Claim? || op.Get? || op.ReserveAttempt? || (op.Transition? && op.state == Running)
  }

  predicate MayBegin(s: Service, client: Client, op: Op) {
    match client
    case Adapter => AdapterMay(op)
    case Gate => GateMay(s, op)
    case Execution => ExecutionMay(s, op)
    case Caller => CallerMay(op)
  }

  /** Transactions and replies belong to tasks that are waiting for them. */
  ghost predicate WaitInv(sys: System) {
    var w, s := sys.w, sys.s;
    && (w.p.tx.Some? ==>
          && PerformedFrom(w.db, w.p.tx.value)
          && MayBegin(s, w.p.tx.value.client, w.p.tx.value.op)
          && w.p.tx.value.client !in w.p.done)
    && (Gate in w.p.done ==> GateAwaitsStore(s.gate))
    && (Execution in w.p.done ==> s.execution.Task? && AwaitsStore(s.execution.at))
    && (w.p.frame.Busy? ==> s.execution.Task? && AwaitsAdapter(s.execution.at))
    && (w.p.answer.Some? ==> s.execution.Task? && AwaitsAdapter(s.execution.at))
  }

  // ---------------------------------------------------------------- the execution and its row

  predicate Names(db: Db, s: Service)
    requires s.execution.Task?
  {
    var e := s.execution;
    && IsTurn(db, e.sequence)
    && e.taskId in db.byTask && db.byTask[e.taskId] == e.sequence
    && s.activeTask == Some(e.taskId)
  }

  predicate SettledRow(db: Db, s: nat) {
    IsTurn(db, s) ==> Terminal(db.rows[s].state)
  }

  /** What a reply in hand tells the execution about its row. */
  ghost predicate ReplyMeans(db: Db, e: ExecutionTask, reply: Reply)
    requires e.Task?
  {
    match e.at
    case Publishing => SettledRow(db, e.sequence)
    case Settling(_, _, _) => SettledRow(db, e.sequence)
    case Rereading(_, _) =>
      reply.RecordReply? ==>
        reply.sequence == e.sequence && e.sequence in db.rows && RowLater(reply.row, db.rows[e.sequence])
    case _ => true
  }

  ghost predicate ExecutionInv(sys: System) {
    var w, s, e := sys.w, sys.s, sys.s.execution;
    e.Task? ==>
      && Names(w.db, s)
      && (e.at.NotStarted? ==>
            && !RunningAt(w.db, e.sequence)
            && (e.cancelling ==> s.stopping || InactiveAt(w.db, e.sequence)))
      && (e.at.Over? ==> SettledRow(w.db, e.sequence) || s.blocked || s.stopping)
      && (Execution in w.p.done && w.p.done[Execution].Ok? ==> ReplyMeans(w.db, e, w.p.done[Execution].value))
      && (e.at.Staging? && Execution in w.p.done && w.p.done[Execution].Ok? ==> Progress(sys.trace, e.sequence) >= 1)
  }

  // ---------------------------------------------------------------- the gate

  /** The turn a finished admission has put into the database, before its task exists. */
  predicate JustAdmitted(sys: System, s: nat) {
    && sys.s.gate.Submitting? && sys.s.gate.submit.SAdmit?
    && Gate in sys.w.p.done && sys.w.p.done[Gate].Ok? && NewTurn(sys.w.p.done[Gate].value, s)
  }

  /** The only turns that may be open. */
  predicate OpenAt(sys: System, s: nat) {
    Interrupted(sys.w.db, s) ==>
      || (sys.s.execution.Task? && s == sys.s.execution.sequence && !AdmissionPending(sys))
      || JustAdmitted(sys, s)
  }

  /** An admission is under way: the previous execution has settled its turn. */
  predicate AdmissionPending(sys: System) {
    sys.s.gate.Submitting? && sys.s.gate.submit.SAdmit?
  }

  ghost predicate NoUncertain(db: Db, owner: Id) {
    !AnyUncertain(db, owner)
  }

  ghost predicate SubmitMeans(sys: System) {
    var w, s := sys.w, sys.s;
    s.gate.Submitting? ==>
      match s.gate.submit
      case SScope => true
      case SLookup => true
      case SDurable =>
        && ExecutionIdle(s.execution)
        && (Gate in w.p.done && w.p.done[Gate].Ok? && w.p.done[Gate].value == FlagReply(false) ==>
              NoUncertain(w.db, s.owner))
      case SAudit(durable) => ExecutionIdle(s.execution) && (!durable ==> NoUncertain(w.db, s.owner))
      case SAdmit =>
        && ExecutionIdle(s.execution) && NoUncertain(w.db, s.owner)
        && (Gate in w.p.done && w.p.done[Gate].Ok? ==> AdmittedMeans(w.db, s.owner, w.p.done[Gate].value))
  }

  predicate AdmittedMeans(db: Db, owner: Id, reply: Reply) {
    reply.RecordReply? && !reply.replayed ==>
      && IsTurn(db, reply.sequence) && !RunningAt(db, reply.sequence)
      && reply.row.turn.Some?
      && reply.row.turn.value.taskId in db.byTask
      && db.byTask[reply.row.turn.value.taskId] == reply.sequence
  }

  ghost predicate GateInv(sys: System) {
    var w, s := sys.w, sys.s;
    && (s.gate.Submitting? || s.gate.Cancelling? ==> s.ready)
    && SubmitMeans(sys)
    && (s.gate.Cancelling? && s.gate.cancel.CRequest? && Gate in w.p.done && w.p.done[Gate].Ok? ==>
          s.gate.taskId in w.db.byTask && InactiveAt(w.db, w.db.byTask[s.gate.taskId]))
    && (s.gate.Starting? ==> s.execution.NoExecution? && !s.ready)
    && (s.gate == Starting(TRecover) && Gate in w.p.done && w.p.done[Gate].Ok? ==>
          forall t {:trigger Interrupted(w.db, t)} :: !Interrupted(w.db, t))
  }

  ghost predicate OpenInv(sys: System) {
    && (sys.s.ready ==> forall t {:trigger OpenAt(sys, t)} :: OpenAt(sys, t))
    && (!sys.s.ready && !sys.s.closed ==> sys.s.execution.NoExecution?)
  }

  ghost predicate SysInv(sys: System) {
    && Inv(sys.w) && WaitInv(sys) && ExecutionInv(sys) && GateInv(sys) && OpenInv(sys) && TraceInv(sys)
  }

  // ---------------------------------------------------------------- Begin, roll-back, adapter steps

  lemma BeginWait(sys: System, client: Client, op: Op, now: real)
    requires WaitInv(sys) && CanBegin(sys.w.p, client, op) && MayBegin(sys.s, client, op)
    ensures WaitInv(sys.(w := BeginStep(sys.w, client, op, now)))
  {
    hide Perform, PerformedFrom, MayBegin, BeginStep, CanBegin, AwaitsStore, AwaitsAdapter, GateAwaitsStore;
    var w' := BeginStep(sys.w, client, op, now);
    MayAwaits(sys.s, client, op);
    BeginLeaves(sys.w, client, op, now);
    BeginShape(sys.w, client, op, now);
    if w'.p.tx.Some? {
      BeginPerforms(sys.w, client, op, now);
    }
  }

  lemma BeginLeaves(w: World, client: Client, op: Op, now: real)
    requires CanBegin(w.p, client, op)
    ensures var w' := BeginStep(w, client, op, now);
            && client !in w.p.done && w'.p.answer == w.p.answer
            && (forall c | c in w'.p.done :: c in w.p.done || c == client)
  {
    hide Perform, AwaitedOp;
  }

  lemma BeginPerforms(w: World, client: Client, op: Op, now: real)
    requires CanBegin(w.p, client, op) && BeginStep(w, client, op, now).p.tx.Some?
    ensures PerformedFrom(w.db, BeginStep(w, client, op, now).p.tx.value)
  {
    hide Perform, AwaitedOp;
    assert Performs(w.db, BeginStep(w, client, op, now).p.tx.value, now, w.p.memory);
  }

  /** Only a task that waits for the store may begin a transaction. */
  lemma MayAwaits(s: Service, client: Client, op: Op)
    requires MayBegin(s, client, op)
    ensures client == Gate ==> GateAwaitsStore(s.gate)
    ensures client == Execution ==> s.execution.Task? && AwaitsStore(s.execution.at)
  {
  }

  /** The replies waiting for a client are the same, as far as they are not errors. */
  predicate SameReply(p: Process, q: Process, c: Client) {
    && (c in p.done && p.done[c].Ok? <==> c in q.done && q.done[c].Ok?)
    && (c in p.done && p.done[c].Ok? ==> q.done[c] == p.done[c])
  }

  /** What such a step can change is the open transaction, the adapter's own state, and an
      error reply for its client. */
  predicate OnlyErrors(w: World, w': World) {
    w'.db == w.db && SameReply(w.p, w'.p, Gate) && SameReply(w.p, w'.p, Execution)
  }

  lemma OnlyErrorsKeep(sys: System, sys': System)
    requires SysInv(sys) && sys' == sys.(w := sys'.w) && OnlyErrors(sys.w, sys'.w)
    requires Inv(sys'.w) && WaitInv(sys')
    ensures SysInv(sys')
  {
    hide Inv, WaitInv, AnyUncertain, IsTurn;
    if sys.s.ready {
      forall t ensures OpenAt(sys', t) {
        assert OpenAt(sys, t);
      }
    }
    forall t ensures PublishedAt(sys'.w.db, sys'.trace, t) {
      assert PublishedAt(sys.w.db, sys.trace, t);
    }
  }

  lemma BeginSystem(sys: System, client: Client, op: Op, now: real)
    requires SysInv(sys) && CanBegin(sys.w.p, client, op) && MayBegin(sys.s, client, op)
    ensures SysInv(sys.(w := BeginStep(sys.w, client, op, now)))
  {
    hide SysInv, Perform, MayBegin, CanBegin, WaitInv;
    var sys' := sys.(w := BeginStep(sys.w, client, op, now));
    SysHasWorld(sys);
    BeginKeeps(sys.w, client, op, now);
    BeginWait(sys, client, op, now);
    BeginOnlyErrors(sys, client, op, now);
    OnlyErrorsKeep(sys, sys');
  }

  lemma SysHasWorld(sys: System)
    requires SysInv(sys)
    ensures Inv(sys.w) && WaitInv(sys) && DbInv(sys.w.db)
  {
    hide DbInv, ClaimInv, LeaseInv, MeterInv, WaitInv, ExecutionInv, GateInv, OpenInv, TraceInv;
  }

  lemma BeginOnlyErrors(sys: System, client: Client, op: Op, now: real)
    requires CanBegin(sys.w.p, client, op)
    ensures OnlyErrors(sys.w, BeginStep(sys.w, client, op, now))
  {
    hide Perform;
    BeginShape(sys.w, client, op, now);
  }

  lemma RollBackSystem(sys: System)
    requires SysInv(sys) && sys.w.p.tx.Some?
    ensures SysInv(sys.(w := RollBackStep(sys.w)))
  {
    hide Inv, ExecutionInv, GateInv, OpenInv, TraceInv, PerformedFrom;
    var sys' := sys.(w := RollBackStep(sys.w));
    RollBackKeeps(sys.w);
    RollBackWait(sys);
    OnlyErrorsKeep(sys, sys');
  }

  lemma RollBackWait(sys: System)
    requires WaitInv(sys) && sys.w.p.tx.Some?
    ensures WaitInv(sys.(w := RollBackStep(sys.w)))
  {
    hide PerformedFrom, MayBegin, RollBackStep, AwaitsStore, AwaitsAdapter, GateAwaitsStore;
    MayAwaits(sys.s, sys.w.p.tx.value.client, sys.w.p.tx.value.op);
    EndShape(sys.w);
  }

  // ---------------------------------------------------------------- COMMIT

  /** What a COMMIT that is not fenced makes durable. */
  ghost predicate CommitFacts(db: Db, op: Op, reply: Reply, staged: Db, owner: Id) {
    && DbInv(db) && DbInv(staged) && DbLater(db, staged)
    && Achieves(db, op, reply, staged)
    && (forall t {:trigger BodyAt(db, op, reply, staged, owner, t)} :: BodyAt(db, op, reply, staged, owner, t))
    && (op.Recover? ==> forall t {:trigger Interrupted(staged, t)} :: !Interrupted(staged, t))
    && !op.RecoverPartly?
  }

  lemma CommitFactsHold(sys: System)
    requires Inv(sys.w) && WaitInv(sys) && sys.w.p.tx.Some?
    ensures var tx := sys.w.p.tx.value;
            CommitFacts(sys.w.db, tx.op, tx.reply, tx.staged, sys.s.owner)
  {
    hide DbInv, DbLater, Perform, MayBegin, Achieves, BodyAt, ClaimInv, LeaseInv, MeterInv;
    var tx := sys.w.p.tx.value;
    var now, memory :| Performs(sys.w.db, tx, now, memory);
    AchievesHolds(tx.op, now, sys.w.db, memory);
    forall t ensures BodyAt(sys.w.db, tx.op, tx.reply, tx.staged, sys.s.owner, t) {
      BodyHolds(tx.op, now, sys.w.db, memory, sys.s.owner, t);
    }
    if tx.op.Recover? {
      forall t ensures !Interrupted(tx.staged, t) {
        RecoverBody(sys.w.db, memory, now, sys.s.owner, t);
      }
    }
    PartlyFails(tx.op, now, sys.w.db, memory);
  }

  lemma PartlyFails(op: Op, now: real, db: Db, memory: Memory)
    ensures op.RecoverPartly? ==> Perform(op, now, db, memory).outcome.Err?
  {
  }

  /** A turn keeps its row and its task index entry. */
  lemma TurnStays(d: Db, d': Db, taskId: Id)
    requires DbInv(d) && DbInv(d') && DbLater(d, d') && taskId in d.byTask
    ensures var s := d.byTask[taskId];
            && IsTurn(d, s) && IsTurn(d', s) && RowLater(d.rows[s], d'.rows[s])
            && taskId in d'.byTask && d'.byTask[taskId] == s
  {
    hide TranscriptInv, RowLater;
    var s := d.byTask[taskId];
    assert TaskEntry(d, taskId);
    assert RowAt(d, s) && RowAt(d', s);
    RowStays(d, d', s);
    TurnKept(d.rows[s], d'.rows[s]);
  }

  lemma TurnKept(r: Row, r': Row)
    requires RowLater(r, r')
    ensures r'.turn == r.turn && r'.operation == r.operation
  {
  }

  lemma CommitWait(sys: System)
    requires WaitInv(sys) && sys.w.p.tx.Some?
    ensures WaitInv(sys.(w := CommitStep(sys.w)))
  {
    hide PerformedFrom, MayBegin, CommitStep, AwaitsStore, AwaitsAdapter, GateAwaitsStore;
    MayAwaits(sys.s, sys.w.p.tx.value.client, sys.w.p.tx.value.op);
    EndShape(sys.w);
  }

  /** However a transaction ends, it is closed and its client has a reply. */
  lemma EndShape(w: World)
    requires w.p.tx.Some?
    ensures forall w' | w' == CommitStep(w) || w' == RollBackStep(w) ::
              && w'.p.tx.None? && w'.p.frame == w.p.frame && w'.p.answer == w.p.answer
              && (forall c | c in w'.p.done :: c in w.p.done || c == w.p.tx.value.client)
  {
  }

  /** An adapter transaction belongs to an execution that is waiting for the adapter. */
  lemma AdapterTxWaits(sys: System)
    requires Inv(sys.w) && WaitInv(sys) && sys.w.p.tx.Some? && sys.w.p.tx.value.client == Adapter
    ensures sys.s.execution.Task? && AwaitsAdapter(sys.s.execution.at)
  {
    hide StoreInv, ClaimInv, MeterInv, FrameOk, PerformedFrom, OwnedAt;
  }

  lemma CommitReply(sys: System)
    requires Inv(sys.w) && WaitInv(sys) && ExecutionInv(sys) && sys.s.execution.Task?
    requires sys.w.p.tx.Some? && sys.w.p.tx.value.client == Execution
    requires var tx := sys.w.p.tx.value;
             CommitFacts(sys.w.db, tx.op, tx.reply, tx.staged, sys.s.owner)
    ensures ReplyMeans(sys.w.p.tx.value.staged, sys.s.execution, sys.w.p.tx.value.reply)
    ensures sys.s.execution.at.Staging? ==> sys.w.p.tx.value.op.Stage? && sys.w.p.tx.value.op.sequence == sys.s.execution.sequence
  {
    hide Inv, DbInv, DbLater, PerformedFrom, BodyAt, RowLater;
    RowLaterItself(sys.w.db, sys.s.execution.sequence);
  }

  lemma RowLaterItself(db: Db, s: nat)
    requires s in db.rows
    ensures RowLater(db.rows[s], db.rows[s])
  {
  }

  lemma ReplyKept(d: Db, d': Db, e: ExecutionTask, reply: Reply)
    requires DbLater(d, d') && e.Task? && e.sequence in d.rows && ReplyMeans(d, e, reply)
    ensures ReplyMeans(d', e, reply)
  {
    hide DbLater;
    RowStays(d, d', e.sequence);
    if e.at.Rereading? && reply.RecordReply? {
      RowLaterTransitive(reply.row, d.rows[e.sequence], d'.rows[e.sequence]);
    }
  }

  lemma ProgressGrows(trace: seq<Mark>, marks: seq<Mark>, s: nat)
    requires |marks| <= 1
    ensures Progress(trace, s) <= Progress(trace + marks, s)
    ensures marks == [ResultStaged(s)] ==> Progress(trace + marks, s) >= 1
  {
    if marks == [] {
      assert trace + marks == trace;
    } else {
      assert marks == [marks[0]];
      ProgressAppend(trace, marks[0], s);
    }
  }

  predicate Unfenced(w: World) {
    w.p.tx.Some? && !(w.p.tx.value.op.CommitTurn? && w.p.publicationClosed)
  }

  lemma CommitShape(w: World)
    requires Unfenced(w)
    ensures var w' := CommitStep(w);
            && w'.db == w.p.tx.value.staged && w'.p.tx.None?
            && w'.p.done == w.p.done[w.p.tx.value.client := Ok(w.p.tx.value.reply)]
  {
  }

  lemma CommitExecution(sys: System)
    requires Inv(sys.w) && WaitInv(sys) && ExecutionInv(sys) && Unfenced(sys.w)
    requires var tx := sys.w.p.tx.value;
             CommitFacts(sys.w.db, tx.op, tx.reply, tx.staged, sys.s.owner)
    ensures ExecutionInv(System(CommitStep(sys.w), sys.s, sys.trace + CommitMarks(sys.w)))
  {
    hide Inv, DbInv, DbLater, PerformedFrom, RowLater, ReplyMeans, Achieves, CommitStep, Progress;
    var tx, e := sys.w.p.tx.value, sys.s.execution;
    CommitShape(sys.w);
    if e.Task? {
      TurnStays(sys.w.db, tx.staged, e.taskId);
      RowStateStays(sys.w.db.rows[e.sequence], tx.staged.rows[e.sequence]);
      assert BodyAt(sys.w.db, tx.op, tx.reply, tx.staged, sys.s.owner, e.sequence);
      if tx.client == Adapter {
        AdapterTxWaits(sys);
      }
      if tx.client == Execution {
        CommitReply(sys);
      } else if Execution in sys.w.p.done && sys.w.p.done[Execution].Ok? {
        ReplyKept(sys.w.db, tx.staged, e, sys.w.p.done[Execution].value);
      }
      ProgressGrows(sys.trace, CommitMarks(sys.w), e.sequence);
    }
  }

  lemma RowStateStays(r: Row, r': Row)
    requires RowLater(r, r')
    ensures Terminal(r.state) ==> Terminal(r'.state)
    ensures !Active(r) ==> !Active(r')
  {
  }

  lemma CommitTrace(sys: System)
    requires WaitInv(sys) && TraceInv(sys) && Unfenced(sys.w)
    requires var tx := sys.w.p.tx.value;
             CommitFacts(sys.w.db, tx.op, tx.reply, tx.staged, sys.s.owner)
    ensures TraceInv(System(CommitStep(sys.w), sys.s, sys.trace + CommitMarks(sys.w)))
  {
    hide DbInv, DbLater, PerformedFrom, Achieves, CommitStep, Progress, Ordered;
    var tx, e, marks := sys.w.p.tx.value, sys.s.execution, CommitMarks(sys.w);
    CommitShape(sys.w);
    if e.Task? {
      ProgressGrows(sys.trace, marks, e.sequence);
    }
    if marks == [] {
      assert sys.trace + marks == sys.trace;
    } else {
      OrderedAppend(sys.trace, marks[0]);
    }
    forall t ensures PublishedAt(tx.staged, sys.trace + marks, t) {
      assert PublishedAt(sys.w.db, sys.trace, t);
      assert BodyAt(sys.w.db, tx.op, tx.reply, tx.staged, sys.s.owner, t);
    }
  }

  lemma CommitOpen(sys: System, trace: seq<Mark>)
    requires WaitInv(sys) && OpenInv(sys) && Unfenced(sys.w)
    requires var tx := sys.w.p.tx.value;
             CommitFacts(sys.w.db, tx.op, tx.reply, tx.staged, sys.s.owner)
    ensures OpenInv(System(CommitStep(sys.w), sys.s, trace))
  {
    hide DbInv, DbLater, PerformedFrom, Achieves, CommitStep, Interrupted;
    var tx := sys.w.p.tx.value;
    var sys' := System(CommitStep(sys.w), sys.s, trace);
    CommitShape(sys.w);
    if sys.s.ready {
      forall t ensures OpenAt(sys', t) {
        assert OpenAt(sys, t);
        assert BodyAt(sys.w.db, tx.op, tx.reply, tx.staged, sys.s.owner, t);
      }
    }
  }

  /** While no execution is under way, no transaction makes a turn uncertain or running. */
  lemma NoUncertainStays(sys: System)
    requires Inv(sys.w) && WaitInv(sys) && Unfenced(sys.w) && ExecutionIdle(sys.s.execution) && sys.s.gate.Submitting?
    requires var tx := sys.w.p.tx.value;
             CommitFacts(sys.w.db, tx.op, tx.reply, tx.staged, sys.s.owner)
    ensures !sys.w.p.tx.value.op.Transition? && !sys.w.p.tx.value.op.Recover?
    ensures NoUncertain(sys.w.db, sys.s.owner) ==> NoUncertain(sys.w.p.tx.value.staged, sys.s.owner)
  {
    hide Inv, DbInv, DbLater, PerformedFrom, Achieves, Visible;
    var tx, owner := sys.w.p.tx.value, sys.s.owner;
    if tx.client == Adapter {
      AdapterTxWaits(sys);
    }
    if AnyUncertain(tx.staged, owner) {
      var t :| t in tx.staged.rows && UncertainTurn(tx.staged, owner, t);
      assert BodyAt(sys.w.db, tx.op, tx.reply, tx.staged, owner, t);
      UncertainIsFound(sys.w.db, owner, t);
    }
  }

  lemma UncertainIsFound(db: Db, owner: Id, s: nat)
    requires DbInv(db) && UncertainAt(db, owner, s)
    ensures AnyUncertain(db, owner)
  {
    hide DbInv, Visible;
    RowOkAt(db, s);
    assert UncertainTurn(db, owner, s);
  }

  lemma CommitSubmit(sys: System, trace: seq<Mark>)
    requires Inv(sys.w) && WaitInv(sys) && SubmitMeans(sys) && Unfenced(sys.w) && sys.s.gate.Submitting?
    requires var tx := sys.w.p.tx.value;
             CommitFacts(sys.w.db, tx.op, tx.reply, tx.staged, sys.s.owner)
    ensures SubmitMeans(System(CommitStep(sys.w), sys.s, trace))
  {
    hide Inv, DbInv, DbLater, PerformedFrom, CommitStep, NoUncertain, IsTurn, AdmittedMeans, AnyUncertain;
    CommitShape(sys.w);
    var tx := sys.w.p.tx.value;
    if !sys.s.gate.submit.SScope? && !sys.s.gate.submit.SLookup? {
      NoUncertainStays(sys);
      if sys.s.gate.submit.SAdmit? {
        if tx.client == Gate {
          AdmittedIsMeant(sys.w.db, tx.op, tx.reply, tx.staged);
        } else if Gate in sys.w.p.done && sys.w.p.done[Gate].Ok? {
          AdmittedStays(sys.w.db, tx.op, tx.reply, tx.staged, sys.s.owner, sys.w.p.done[Gate].value);
        }
      } else if sys.s.gate.submit.SDurable? && tx.client == Gate {
        DurableIsMeant(sys.w.db, tx.op, tx.reply, tx.staged, sys.s.owner);
      }
    }
  }

  lemma DurableIsMeant(db: Db, op: Op, reply: Reply, staged: Db, owner: Id)
    requires op == HasUncertainty(owner) && Achieves(db, op, reply, staged)
    ensures reply == FlagReply(false) ==> NoUncertain(staged, owner)
  {
    hide AnyUncertain;
  }

  lemma AdmittedIsMeant(db: Db, op: Op, reply: Reply, staged: Db)
    requires op.Admit? && Achieves(db, op, reply, staged)
    ensures AdmittedMeans(staged, op.owner, reply)
  {
  }

  lemma AdmittedStays(db: Db, op: Op, reply: Reply, staged: Db, owner: Id, earlier: Reply)
    requires CommitFacts(db, op, reply, staged, owner) && AdmittedMeans(db, owner, earlier) && !op.Transition?
    ensures AdmittedMeans(staged, owner, earlier)
  {
    hide DbInv, DbLater, Achieves, RowLater;
    if earlier.RecordReply? && !earlier.replayed {
      TurnStays(db, staged, earlier.row.turn.value.taskId);
      assert BodyAt(db, op, reply, staged, owner, earlier.sequence);
    }
  }

  lemma CommitGate(sys: System, trace: seq<Mark>)
    requires Inv(sys.w) && WaitInv(sys) && GateInv(sys) && Unfenced(sys.w)
    requires var tx := sys.w.p.tx.value;
             CommitFacts(sys.w.db, tx.op, tx.reply, tx.staged, sys.s.owner)
    ensures GateInv(System(CommitStep(sys.w), sys.s, trace))
  {
    hide Inv, DbInv, DbLater, PerformedFrom, CommitStep, SubmitMeans, RowLater, Interrupted;
    var tx, sys' := sys.w.p.tx.value, System(CommitStep(sys.w), sys.s, trace);
    CommitShape(sys.w);
    if sys.s.gate.Submitting? {
      CommitSubmit(sys, trace);
    } else {
      SubmitMeansNothing(sys');
    }
    if sys.s.gate.Cancelling? && sys.s.gate.cancel.CRequest? && tx.client != Gate && Gate in sys.w.p.done && sys.w.p.done[Gate].Ok? {
      TurnStays(sys.w.db, tx.staged, sys.s.gate.taskId);
      RowStateStays(sys.w.db.rows[sys.w.db.byTask[sys.s.gate.taskId]], tx.staged.rows[sys.w.db.byTask[sys.s.gate.taskId]]);
    }
    if sys.s.gate == Starting(TRecover) && tx.client != Gate && Gate in sys.w.p.done && sys.w.p.done[Gate].Ok? {
      forall t ensures !Interrupted(tx.staged, t) {
        assert BodyAt(sys.w.db, tx.op, tx.reply, tx.staged, sys.s.owner, t);
        assert !Interrupted(sys.w.db, t);
      }
    }
  }

  lemma SubmitMeansNothing(sys: System)
    requires !sys.s.gate.Submitting?
    ensures SubmitMeans(sys)
  {
  }

  lemma FencedCommit(sys: System)
    requires SysInv(sys) && sys.w.p.tx.Some? && !Unfenced(sys.w)
    ensures SysInv(System(CommitStep(sys.w), sys.s, sys.trace + CommitMarks(sys.w)))
  {
    hide Inv, ExecutionInv, GateInv, OpenInv, TraceInv, PerformedFrom;
    assert sys.trace + CommitMarks(sys.w) == sys.trace;
    CommitKeeps(sys.w);
    CommitWait(sys);
    OnlyErrorsKeep(sys, sys.(w := CommitStep(sys.w)));
  }

  lemma CommitSystem(sys: System)
    requires SysInv(sys) && sys.w.p.tx.Some?
    ensures SysInv(System(CommitStep(sys.w), sys.s, sys.trace + CommitMarks(sys.w)))
  {
    hide Inv, ExecutionInv, GateInv, OpenInv, TraceInv, WaitInv, CommitStep, CommitFacts;
    if Unfenced(sys.w) {
      CommitFactsHold(sys);
      CommitKeeps(sys.w);
      CommitWait(sys);
      CommitExecution(sys);
      CommitTrace(sys);
      CommitOpen(sys, sys.trace + CommitMarks(sys.w));
      CommitGate(sys, sys.trace + CommitMarks(sys.w));
      WaitIgnoresTrace(sys.(w := CommitStep(sys.w)), sys.trace + CommitMarks(sys.w));
    } else {
      FencedCommit(sys);
    }
  }

  lemma WaitIgnoresTrace(sys: System, trace: seq<Mark>)
    requires WaitInv(sys)
    ensures WaitInv(sys.(trace := trace))
  {
    hide PerformedFrom, MayBegin;
  }

  // ---------------------------------------------------------------- the adapter and other callers

  /** Steps of the adapter and of callers: no reply for the service's own tasks changes. */
  predicate AdapterStep(sys: System, w': World) {
    var w := sys.w;
    && w'.db == w.db && w'.p.tx == w.p.tx
    && (forall c | c in w'.p.done :: c in w.p.done && w'.p.done[c] == w.p.done[c])
    && OnlyErrors(w, w')
    && (w'.p.frame.Busy? || w'.p.answer.Some? ==> sys.s.execution.Task? && AwaitsAdapter(sys.s.execution.at))
  }

  lemma AdapterStepKeeps(sys: System, w': World)
    requires SysInv(sys) && AdapterStep(sys, w') && Inv(w')
    ensures SysInv(sys.(w := w'))
  {
    hide Inv, PerformedFrom, MayBegin, ExecutionInv, GateInv, OpenInv, TraceInv;
    OnlyErrorsKeep(sys, sys.(w := w'));
  }

  lemma AdapterResumesKeeps(sys: System, interrupted: bool, backend: Backend, token: nat, now: real)
    requires SysInv(sys) && CanResume(sys.w.p)
    ensures SysInv(sys.(w := ResumeStep(sys.w, interrupted, backend, token, now)))
  {
    hide SysInv, ResumeMove, MovedProcess;
    var w := sys.w;
    SysHasWorld(sys);
    ResumeKeeps(w, interrupted, backend, token, now);
    var move := ResumeMove(AfterTaking(w.p), w.p.frame.call, w.p.frame.at, TakenReply(w.p), interrupted, backend, token, now);
    MovedFrame(AfterTaking(w.p), w.p.frame.call, move);
    FrameWaits(sys);
    AdapterStepKeeps(sys, ResumeStep(w, interrupted, backend, token, now));
  }

  lemma FrameWaits(sys: System)
    requires WaitInv(sys)
    ensures sys.w.p.frame.Busy? || sys.w.p.answer.Some? ==> sys.s.execution.Task? && AwaitsAdapter(sys.s.execution.at)
  {
    hide PerformedFrom, MayBegin;
  }

  lemma ExecutionCallsKeeps(sys: System, call: Call, now: real)
    requires SysInv(sys) && sys.w.p.frame.Idle? && ExecutionCalls(sys.s, call)
    ensures SysInv(sys.(w := StartStep(sys.w, call, now)))
  {
    hide SysInv, StartMove, MovedProcess;
    SysHasWorld(sys);
    StartKeeps(sys.w, call, now);
    MovedFrame(sys.w.p.(answer := None), call, StartMove(sys.w.p, call, now));
    AdapterStepKeeps(sys, StartStep(sys.w, call, now));
  }

  lemma TakeCallerKeeps(sys: System)
    requires SysInv(sys) && Enabled(sys.w, Take(Caller))
    ensures SysInv(sys.(w := Next(sys.w, Take(Caller))))
  {
    hide SysInv, Inv, Next, Enabled;
    SysHasWorld(sys);
    TakeIs(sys.w, Caller);
    NextKeeps(sys.w, Take(Caller));
    FrameWaits(sys);
    AdapterStepKeeps(sys, Next(sys.w, Take(Caller)));
  }

  lemma CrashSystem(sys: System)
    requires SysInv(sys)
    ensures SysInv(System(Next(sys.w, Crash), NewService(sys.s.owner), sys.trace))
  {
    hide Inv;
    CrashKeeps(sys.w);
    var sys' := System(Next(sys.w, Crash), NewService(sys.s.owner), sys.trace);
    forall t ensures PublishedAt(sys'.w.db, sys'.trace, t) {
      assert PublishedAt(sys.w.db, sys.trace, t);
    }
  }

  // ---------------------------------------------------------------- the execution task runs

  /** The world once the execution has taken what it waited for, perhaps revoking its lease. */
  predicate Taken(w: World, w': World) {
    && w'.db == w.db && w'.p.tx == w.p.tx
    && SameReply(w.p, w'.p, Gate)
    && (Gate in w'.p.done ==> Gate in w.p.done)
    && (forall c | c in w'.p.done :: c in w.p.done)
    && Execution !in w'.p.done
    && w'.p.frame == w.p.frame
    && (w'.p.answer.Some? ==> w'.p.answer == w.p.answer)
  }

  lemma TakeIs(w: World, c: Client)
    ensures Enabled(w, Take(c)) <==> c != Adapter && c in w.p.done
    ensures Enabled(w, Take(c)) ==> Next(w, Take(c)) == w.(p := w.p.(done := w.p.done - {c}))
  {
    hide BeginStep, CommitStep, RollBackStep, StartStep, ResumeStep, CanBegin, CanResume;
  }

  lemma TakeAnswerIs(w: World)
    ensures Enabled(w, TakeAnswer) <==> w.p.frame.Idle?
    ensures Enabled(w, TakeAnswer) ==> Next(w, TakeAnswer) == w.(p := w.p.(answer := None))
  {
    hide BeginStep, CommitStep, RollBackStep, StartStep, ResumeStep, CanBegin, CanResume;
  }

  lemma TakesShape(w: World, at: Spot)
    requires Inv(w)
    ensures Taken(w, ExecutionTakes(w, at)) && Inv(ExecutionTakes(w, at))
    ensures w.p.frame.Idle? && AwaitsAdapter(at) ==> ExecutionTakes(w, at).p.answer.None?
  {
    hide Inv, Next, Enabled;
    TakeIs(w, Execution);
    if Enabled(w, Take(Execution)) {
      NextKeeps(w, Take(Execution));
    }
    var w1 := if Enabled(w, Take(Execution)) then Next(w, Take(Execution)) else w;
    TakeAnswerIs(w1);
    if Enabled(w1, TakeAnswer) {
      NextKeeps(w1, TakeAnswer);
    }
  }

  lemma RevokeShape(w: World, lease: Option<Lease>)
    requires Inv(w)
    ensures Inv(RevokeHeld(w, lease))
    ensures var w' := RevokeHeld(w, lease);
            && w'.db == w.db && w'.h == w.h && w'.p == w.p.(owned := w'.p.owned)
  {
    hide Inv;
    if lease.Some? {
      NextKeeps(w, Revoke(lease.value));
    }
  }

  /** The execution moves on: to a new place, with its turn and its progress accounted for. */
  ghost predicate Moved(sys: System, sys': System) {
    var s, s', e, e' := sys.s, sys'.s, sys.s.execution, sys'.s.execution;
    && e.Task? && !e.at.Over? && e'.Task? && !e'.at.NotStarted?
    && e' == e.(at := e'.at, result := e'.result)
    && s' == s.(execution := e', lease := s'.lease, blocked := s'.blocked)
    && (s.blocked ==> s'.blocked)
    && Taken(sys.w, sys'.w) && sys'.w.p.frame.Idle? && sys'.w.p.answer.None?
    && (sys.w.p.tx.Some? ==> sys.w.p.tx.value.client == Gate || sys.w.p.tx.value.client == Caller)
    && (e'.at.Over? ==> SettledRow(sys.w.db, e.sequence) || s'.blocked || s.stopping)
    && Needed(e'.at) <= Progress(sys'.trace, e.sequence)
    && (sys'.trace == sys.trace || (exists m: Mark :: !m.TurnPublished? && sys'.trace == sys.trace + [m]))
  }

  lemma MovedTrace(sys: System, sys': System)
    requires TraceInv(sys) && Moved(sys, sys')
    ensures TraceInv(sys')
  {
    hide Progress, Ordered, Taken;
    TakenDb(sys, sys');
    if sys'.trace != sys.trace {
      var m: Mark :| !m.TurnPublished? && sys'.trace == sys.trace + [m];
      OrderedAppend(sys.trace, m);
    }
    forall t ensures PublishedAt(sys'.w.db, sys'.trace, t) {
      assert PublishedAt(sys.w.db, sys.trace, t);
    }
  }

  lemma TakenDb(sys: System, sys': System)
    requires Taken(sys.w, sys'.w)
    ensures sys'.w.db == sys.w.db && sys'.w.p.tx == sys.w.p.tx && Execution !in sys'.w.p.done
  {
  }

  lemma MovedWait(sys: System, sys': System)
    requires WaitInv(sys) && Moved(sys, sys')
    ensures WaitInv(sys')
  {
    hide PerformedFrom, Progress;
  }

  lemma MovedExecution(sys: System, sys': System)
    requires ExecutionInv(sys) && Moved(sys, sys')
    ensures ExecutionInv(sys')
  {
    hide Progress;
  }

  lemma MovedGate(sys: System, sys': System)
    requires GateInv(sys) && OpenInv(sys) && Moved(sys, sys')
    ensures GateInv(sys') && OpenInv(sys')
  {
    hide Progress, IsTurn, NoUncertain, Interrupted, InactiveAt, AdmittedMeans;
    if sys'.s.ready {
      forall t ensures OpenAt(sys', t) {
        assert OpenAt(sys, t);
      }
    }
  }

  lemma MovedKeeps(sys: System, sys': System)
    requires SysInv(sys) && Moved(sys, sys') && Inv(sys'.w)
    ensures SysInv(sys')
  {
    hide Inv, Moved, WaitInv, ExecutionInv, GateInv, OpenInv, TraceInv;
    MovedTrace(sys, sys');
    MovedWait(sys, sys');
    MovedExecution(sys, sys');
    MovedGate(sys, sys');
  }

  /** When the execution runs, no transaction of its own or of the adapter is open. */
  lemma RunningAlone(sys: System, faulted: bool)
    requires Inv(sys.w) && WaitInv(sys) && ExecutionCanRun(sys, faulted)
    ensures sys.w.p.tx.Some? ==> sys.w.p.tx.value.client == Gate || sys.w.p.tx.value.client == Caller
    ensures sys.w.p.frame.Idle?
    ensures AwaitsAdapter(sys.s.execution.at) || sys.w.p.answer.None?
  {
    hide StoreInv, ClaimInv, MeterInv, FrameOk, PerformedFrom, OwnedAt;
  }

  /** What the execution may do next agrees with its row and its progress. */
  predicate StepFits(sys: System, step: Step)
    requires sys.s.execution.Task?
  {
    var e := sys.s.execution;
    match step
    case Goto(at) => !at.NotStarted? && !at.Over? && Needed(at) <= Progress(sys.trace, e.sequence)
    case Hold(_) => true
    case Answered(_) => true
    case Noted(m, at) =>
      !m.TurnPublished? && !at.NotStarted? && !at.Over? && Needed(at) <= Progress(sys.trace + [m], e.sequence)
    case Throw(_) => true
    case Quit(block) => block || SettledRow(sys.w.db, e.sequence)
    case BlockAndGoto(at) => !at.NotStarted? && !at.Over? && Needed(at) == 0
  }

  lemma PerformFits(sys: System, audit: AuditAnswer, acknowledged: bool, reply: Option<(Utf8.Text, Option<Report>)>, now: real)
    requires ExecutionInv(sys) && TraceInv(sys) && sys.s.execution.Task?
    requires AwaitsStore(sys.s.execution.at) ==> Execution in sys.w.p.done
    ensures StepFits(sys, PerformStep(sys.s, sys.w.p, audit, acknowledged, reply, now))
  {
    hide Progress, Ordered, Owns, Names, RowLater;
    ProgressAppend(sys.trace, GatewayRecorded(sys.s.execution.sequence), sys.s.execution.sequence);
    ProgressAppend(sys.trace, QuotaFinished(sys.s.execution.sequence), sys.s.execution.sequence);
  }

  lemma HandlerFits(sys: System, faulted: bool, audit: AuditAnswer, now: real)
    requires ExecutionInv(sys) && sys.s.execution.Task?
    ensures StepFits(sys, HandlerStep(sys.s, sys.w.p, faulted, audit, now))
  {
    hide Progress, Owns;
  }

  lemma ApplyMoves(sys: System, faulted: bool, step: Step)
    requires Inv(sys.w) && WaitInv(sys) && ExecutionCanRun(sys, faulted) && StepFits(sys, step)
    ensures Moved(sys, ApplyStep(sys, step)) && Inv(ApplyStep(sys, step).w)
  {
    hide Inv, WaitInv, Progress, ExecutionTakes, RevokeHeld, ExecutionCanRun;
    RunIsTask(sys, faulted);
    RunningAlone(sys, faulted);
    TakesShape(sys.w, sys.s.execution.at);
    RevokeShape(ExecutionTakes(sys.w, sys.s.execution.at), sys.s.lease);
    if step.Noted? {
      assert ApplyStep(sys, step).trace == sys.trace + [step.mark];
    }
  }

  lemma RunIsTask(sys: System, faulted: bool)
    requires ExecutionCanRun(sys, faulted)
    ensures sys.s.execution.Task? && !sys.s.execution.at.Over?
  {
  }

  lemma ExecutionRunsKeeps(sys: System, fault: Option<Exc>, audit: AuditAnswer, acknowledged: bool,
                           reply: Option<(Utf8.Text, Option<Report>)>, now: real)
    requires SysInv(sys) && ExecutionCanRun(sys, fault.Some?)
    ensures SysInv(ApplyStep(sys, ExecutionStep(sys, fault, audit, acknowledged, reply, now)))
  {
    hide Inv, WaitInv, ExecutionInv, GateInv, OpenInv, TraceInv, PerformStep, HandlerStep, ApplyStep, Moved;
    var step := ExecutionStep(sys, fault, audit, acknowledged, reply, now);
    if InHandler(sys.s.execution.at) {
      HandlerFits(sys, fault.Some?, audit, now);
    } else if fault.None? {
      PerformFits(sys, audit, acknowledged, reply, now);
    }
    ApplyMoves(sys, fault.Some?, step);
    MovedKeeps(sys, ApplyStep(sys, step));
  }

  lemma NeverStartsIs(sys: System)
    requires Possible(sys, ExecutionNeverStarts)
    ensures sys.s.execution.Task? && sys.s.execution.at.NotStarted? && sys.s.execution.cancelling
    ensures Happen(sys, ExecutionNeverStarts) == sys.(s := sys.s.(execution := sys.s.execution.(at := Over)))
  {
  }

  lemma NeverStartsKeeps(sys: System)
    requires SysInv(sys) && Possible(sys, ExecutionNeverStarts)
    ensures SysInv(Happen(sys, ExecutionNeverStarts))
  {
    hide Inv, DbInv, PerformedFrom, Visible, Happen, Possible;
    SysHasWorld(sys);
    NeverStartsIs(sys);
    var sys', e := Happen(sys, ExecutionNeverStarts), sys.s.execution;
    RowOkAt(sys.w.db, e.sequence);
    if sys'.s.ready {
      forall t ensures OpenAt(sys', t) {
        assert OpenAt(sys, t);
      }
    }
    forall t ensures PublishedAt(sys'.w.db, sys'.trace, t) {
      assert PublishedAt(sys.w.db, sys.trace, t);
    }
  }

  // ---------------------------------------------------------------- the gate moves on

  /** The task is the same, except that it may have been told to cancel. */
  predicate SameTask(e: ExecutionTask, e': ExecutionTask) {
    e' == e || (e.Task? && !ExecutionIdle(e) && e' == e.(cancelling := true))
  }

  /** The gate's call has taken its reply, and no transaction of its own is open. */
  predicate TookReply(w: World, w': World) {
    && w'.db == w.db && w'.p.tx == w.p.tx && w'.p.frame == w.p.frame && w'.p.answer == w.p.answer
    && Gate !in w'.p.done
    && (forall c | c in w'.p.done :: c in w.p.done && w'.p.done[c] == w.p.done[c])
    && (w.p.tx.Some? ==> w.p.tx.value.client != Gate)
  }

  /** The gate's call has moved on; the execution is where it was, perhaps told to cancel. */
  predicate Advances(db: Db, s: Service, s': Service) {
    && SameTask(s.execution, s'.execution)
    && s' == s.(workspace := s'.workspace, ready := s'.ready, closed := s'.closed, stopping := s'.stopping,
                blocked := s'.blocked, gate := s'.gate, execution := s'.execution)
    && (s.blocked ==> s'.blocked) && (s.stopping ==> s'.stopping)
    && (s'.execution != s.execution && s.execution.at.NotStarted? ==>
          s'.stopping || InactiveAt(db, s.execution.sequence))
  }

  predicate GateStep(sys: System, sys': System) {
    TookReply(sys.w, sys'.w) && Advances(sys.w.db, sys.s, sys'.s) && sys'.trace == sys.trace
  }

  lemma GateStepWait(sys: System, sys': System)
    requires WaitInv(sys) && GateStep(sys, sys')
    ensures WaitInv(sys')
  {
    hide PerformedFrom, InactiveAt;
  }

  lemma GateStepExecution(sys: System, sys': System)
    requires ExecutionInv(sys) && TraceInv(sys) && GateStep(sys, sys')
    ensures ExecutionInv(sys') && TraceInv(sys')
  {
    hide InactiveAt, Ordered, Progress, RowLater;
    forall t ensures PublishedAt(sys'.w.db, sys'.trace, t) {
      assert PublishedAt(sys.w.db, sys.trace, t);
    }
  }

  /** What the next stage of the gate's call needs, once no reply is waiting. */
  ghost predicate GateReady(db: Db, s: Service) {
    match s.gate
    case Free => true
    case Submitting(_, _, _, at) =>
      && s.ready
      && (at.SDurable? || at.SAudit? || at.SAdmit? ==> ExecutionIdle(s.execution))
      && ((at.SAudit? && !at.durable) || at.SAdmit? ==> NoUncertain(db, s.owner))
    case Cancelling(_, _, _) => s.ready
    case Starting(_) => s.execution.NoExecution? && !s.ready
    case Stopping(_) => true
  }

  lemma GateStepKeeps(sys: System, sys': System)
    requires SysInv(sys) && GateStep(sys, sys') && Inv(sys'.w)
    requires GateReady(sys.w.db, sys'.s) && OpenInv(sys')
    ensures SysInv(sys')
  {
    hide Inv, GateStep, WaitInv, ExecutionInv, OpenInv, TraceInv, NoUncertain;
    GateStepWait(sys, sys');
    GateStepExecution(sys, sys');
    GateTook(sys, sys');
  }

  lemma GateTook(sys: System, sys': System)
    requires GateStep(sys, sys')
    ensures Gate !in sys'.w.p.done && sys'.w.db == sys.w.db && sys'.trace == sys.trace
  {
  }

  /** Open turns stay open turns when neither the execution's turn nor the pending admission changes. */
  lemma StaysOpen(sys: System, sys': System)
    requires OpenInv(sys) && GateStep(sys, sys')
    requires !AdmissionPending(sys) && !AdmissionPending(sys')
    requires (sys'.s.ready ==> sys.s.ready) && (sys.s.closed ==> sys'.s.closed)
    requires !sys'.s.ready && !sys'.s.closed ==> !sys.s.ready
    ensures OpenInv(sys')
  {
    hide InactiveAt, Interrupted;
    if sys'.s.ready {
      forall t ensures OpenAt(sys', t) {
        assert OpenAt(sys, t);
      }
    }
  }

  /** An admission that has ended without a new turn leaves no open turn. */
  lemma NothingOpen(sys: System, sys': System)
    requires OpenInv(sys) && AdmissionPending(sys) && sys'.s.gate.Free?
    requires sys'.w.db == sys.w.db && sys'.s == sys.s.(gate := sys'.s.gate)
    requires forall t :: !JustAdmitted(sys, t)
    ensures OpenInv(sys')
  {
    hide Interrupted, JustAdmitted;
    if sys'.s.ready {
      forall t ensures OpenAt(sys', t) {
        assert OpenAt(sys, t);
        assert !JustAdmitted(sys, t);
      }
    }
  }

  /** An admission may begin only when the previous execution has settled its turn. */
  lemma AdmissionOpens(sys: System, sys': System)
    requires OpenInv(sys) && ExecutionInv(sys) && ExecutionIdle(sys.s.execution) && !AdmissionPending(sys)
    requires !sys.s.blocked && !sys.s.stopping
    requires sys'.w.db == sys.w.db && sys'.s == sys.s.(gate := sys'.s.gate)
    ensures OpenInv(sys')
  {
    if sys'.s.ready {
      forall t ensures OpenAt(sys', t) {
        assert OpenAt(sys, t);
      }
    }
  }

  lemma GateTakesShape(w: World)
    requires Inv(w)
    ensures Inv(GateTakes(w))
    ensures var w' := GateTakes(w);
            && w'.db == w.db && w'.h == w.h && w'.p == w.p.(done := w'.p.done) && Gate !in w'.p.done
            && (forall c | c in w'.p.done :: c in w.p.done && w'.p.done[c] == w.p.done[c])
            && (forall c | c in w.p.done && c != Gate :: c in w'.p.done)
  {
    hide Inv, Next, Enabled;
    TakeIs(w, Gate);
    if Enabled(w, Take(Gate)) {
      NextKeeps(w, Take(Gate));
    }
  }

  /** When the gate's call runs, no transaction of its own is open. */
  lemma GateAlone(sys: System)
    requires WaitInv(sys) && GateCanRun(sys)
    ensures sys.w.p.tx.Some? ==> sys.w.p.tx.value.client != Gate
    ensures GateAwaitsStore(sys.s.gate) ==> Gate in sys.w.p.done
  {
    hide PerformedFrom;
  }

  lemma InitializeShape(w: World)
    requires Inv(w) && Enabled(w, Initialize)
    ensures Inv(Next(w, Initialize))
    ensures Next(w, Initialize) == w.(p := w.p.(ready := true))
  {
    hide Inv, BeginStep, CommitStep, RollBackStep, StartStep, ResumeStep, CanBegin, CanResume;
    NextKeeps(w, Initialize);
  }

  lemma CloseStoreShape(w: World)
    requires Inv(w) && Enabled(w, CloseStore)
    ensures Inv(Next(w, CloseStore))
    ensures Next(w, CloseStore) == w.(p := w.p.(ready := false, storeClosed := true))
  {
    hide Inv, BeginStep, CommitStep, RollBackStep, StartStep, ResumeStep, CanBegin, CanResume;
    NextKeeps(w, CloseStore);
  }

  lemma CloseOwnedShape(w: World)
    requires Inv(w)
    ensures Inv(CloseOwned(w))
    ensures CloseOwned(w) == w.(p := w.p.(adapterClosed := true, owned := map[]))
  {
    hide Inv, BeginStep, CommitStep, RollBackStep, StartStep, ResumeStep, CanBegin, CanResume;
    NextKeeps(w, CloseAdapter);
  }

  lemma InitializeAfterTake(w: World)
    ensures Enabled(w, Initialize) ==> Enabled(GateTakes(w), Initialize)
    ensures Enabled(w, CloseStore) ==> Enabled(GateTakes(w), CloseStore)
  {
    hide Next, CanBegin, CanResume;
    TakeIs(w, Gate);
  }

  /** When it runs, the gate's call needs the store open or closable only where it says so. */
  lemma GateNeeds(sys: System)
    requires GateCanRun(sys)
    ensures sys.s.gate == Starting(TInit) ==> Enabled(sys.w, Initialize)
    ensures sys.s.gate == Stopping(PCloseStore) ==> Enabled(sys.w, CloseStore)
  {
    hide Enabled, GateAwaitsStore;
  }

  lemma GateWorldTook(sys: System, s': Service)
    requires Inv(sys.w) && WaitInv(sys) && GateCanRun(sys)
    ensures TookReply(sys.w, GateWorld(sys, s')) && Inv(GateWorld(sys, s'))
  {
    hide Inv, WaitInv, GateCanRun, GateTakes, Next, Enabled, CloseOwned, RevokeHeld, CancelRevokes;
    GateTakesShape(sys.w);
    GateAlone(sys);
    GateNeeds(sys);
    InitializeAfterTake(sys.w);
    var w := GateTakes(sys.w);
    RevokeShape(w, sys.s.lease);
    CloseOwnedShape(w);
    if sys.s.gate == Starting(TInit) {
      InitializeShape(w);
      CloseOwnedShape(Next(w, Initialize));
    } else if sys.s.gate == Stopping(PCloseStore) {
      CloseStoreShape(w);
    }
  }

  lemma GateRunsStep(sys: System, audit: AuditAnswer)
    requires Inv(sys.w) && WaitInv(sys) && GateCanRun(sys)
    requires Advances(sys.w.db, sys.s, GateService(sys.s, TakenFor(sys.w.p, Gate), audit))
    ensures GateStep(sys, GateRuns(sys, audit)) && Inv(GateRuns(sys, audit).w)
  {
    hide Inv, WaitInv, GateCanRun, GateWorld, TookReply, Advances, GateService;
    GateWorldTook(sys, GateService(sys.s, TakenFor(sys.w.p, Gate), audit));
  }

  lemma GateRunsFields(sys: System, audit: AuditAnswer)
    requires GateCanRun(sys)
    ensures GateRuns(sys, audit).s == GateService(sys.s, TakenFor(sys.w.p, Gate), audit)
  {
    hide GateCanRun, GateWorld, GateService;
  }

  // ---------------------------------------------------------------- submit

  lemma ScopeAdvances(db: Db, s: Service, outcome: Outcome<Reply>, audit: AuditAnswer)
    requires s.gate.Submitting? && (s.gate.submit.SScope? || s.gate.submit.SLookup?)
    ensures var s' := SubmitRuns(s, outcome, audit);
            && Advances(db, s, s') && s'.ready == s.ready && s'.closed == s.closed
            && !(s'.gate.Submitting? && s'.gate.submit.SAdmit?)
  {
    hide InactiveAt, ExecutionIdle;
  }

  lemma AskAdvances(db: Db, s: Service, outcome: Outcome<Reply>, audit: AuditAnswer)
    requires s.gate.Submitting? && (s.gate.submit.SDurable? || s.gate.submit.SAudit?)
    ensures var s' := SubmitRuns(s, outcome, audit);
            && Advances(db, s, s') && s' == s.(gate := s'.gate)
            && (s'.gate.Submitting? && s'.gate.submit.SAdmit? ==>
                  s.gate.submit == SAudit(false) && !s.blocked && !s.stopping)
  {
    hide InactiveAt, ExecutionIdle;
  }

  lemma SubmitAdvances(db: Db, s: Service, outcome: Outcome<Reply>, audit: AuditAnswer)
    requires s.gate.Submitting? && !s.gate.submit.SAdmit?
    ensures var s' := SubmitRuns(s, outcome, audit);
            && Advances(db, s, s') && s'.ready == s.ready && s'.closed == s.closed
            && (s'.gate.Submitting? && s'.gate.submit.SAdmit? ==>
                  s.gate.submit == SAudit(false) && !s.blocked && !s.stopping && s' == s.(gate := s'.gate))
  {
    hide Advances, SubmitRuns;
    if s.gate.submit.SScope? || s.gate.submit.SLookup? {
      ScopeAdvances(db, s, outcome, audit);
    } else {
      AskAdvances(db, s, outcome, audit);
    }
  }

  lemma SubmitIsReady(sys: System, audit: AuditAnswer)
    requires GateInv(sys) && sys.s.gate.Submitting? && !sys.s.gate.submit.SAdmit?
    requires GateAwaitsStore(sys.s.gate) ==> Gate in sys.w.p.done
    ensures GateReady(sys.w.db, SubmitRuns(sys.s, TakenFor(sys.w.p, Gate), audit))
    ensures sys.s.gate.submit.SAudit? ==> ExecutionIdle(sys.s.execution)
  {
    hide NoUncertain, InactiveAt, Interrupted, AdmittedMeans;
  }

  lemma SubmitStage(sys: System, audit: AuditAnswer)
    requires SysInv(sys) && GateCanRun(sys) && sys.s.gate.Submitting? && !sys.s.gate.submit.SAdmit?
    ensures SysInv(GateRuns(sys, audit))
  {
    hide Inv, WaitInv, ExecutionInv, GateInv, TraceInv, GateRuns, GateCanRun, GateStep, GateReady, OpenInv, Advances,
         SubmitRuns;
    var sys' := GateRuns(sys, audit);
    GateAlone(sys);
    SubmitAdvances(sys.w.db, sys.s, TakenFor(sys.w.p, Gate), audit);
    SubmitIsReady(sys, audit);
    GateRunsStep(sys, audit);
    GateRunsFields(sys, audit);
    GateTook(sys, sys');
    if AdmissionPending(sys') {
      AdmissionOpens(sys, sys');
    } else {
      StaysOpen(sys, sys');
    }
    GateStepKeeps(sys, sys');
  }

  /** An idle execution has nothing under way with the adapter. */
  lemma IdleIsQuiet(sys: System)
    requires Inv(sys.w) && WaitInv(sys) && ExecutionIdle(sys.s.execution)
    ensures sys.w.p.frame.Idle? && sys.w.p.answer.None? && Execution !in sys.w.p.done
    ensures sys.w.p.tx.Some? ==> sys.w.p.tx.value.client == Gate || sys.w.p.tx.value.client == Caller
  {
    hide StoreInv, ClaimInv, MeterInv, FrameOk, PerformedFrom, OwnedAt;
  }

  /** The admission created a new turn: its execution task takes over. */
  predicate Launches(sys: System, sys': System) {
    var w, w', s, s' := sys.w, sys'.w, sys.s, sys'.s;
    && AdmissionPending(sys) && Gate in w.p.done && w.p.done[Gate].Ok?
    && var reply := w.p.done[Gate].value;
    && reply.RecordReply? && !reply.replayed && reply.row.turn.Some?
    && var taskId := reply.row.turn.value.taskId;
    && w'.db == w.db && w'.p == w.p.(done := w'.p.done) && Gate !in w'.p.done
    && (forall c | c in w'.p.done :: c in w.p.done && w'.p.done[c] == w.p.done[c])
    && s' == s.(gate := Free, activeTask := Some(taskId),
                execution := Task(reply.sequence, reply.row.requestId, taskId, NotStarted, false, None))
    && sys'.trace == sys.trace
  }

  lemma LaunchWait(sys: System, sys': System)
    requires Inv(sys.w) && WaitInv(sys) && ExecutionIdle(sys.s.execution) && Launches(sys, sys')
    ensures WaitInv(sys') && Execution !in sys'.w.p.done
  {
    hide Inv, PerformedFrom;
    IdleIsQuiet(sys);
  }

  lemma LaunchOpens(sys: System, sys': System)
    requires OpenInv(sys) && Launches(sys, sys') && sys.s.ready
    ensures OpenInv(sys')
  {
    hide Interrupted;
    if sys'.s.ready {
      forall t ensures OpenAt(sys', t) {
        assert OpenAt(sys, t);
      }
    }
  }

  lemma LaunchTrace(sys: System, sys': System)
    requires TraceInv(sys) && Launches(sys, sys')
    ensures TraceInv(sys')
  {
    hide Ordered, Progress;
    forall t ensures PublishedAt(sys'.w.db, sys'.trace, t) {
      assert PublishedAt(sys.w.db, sys.trace, t);
    }
  }

  lemma LaunchKeeps(sys: System, sys': System)
    requires SysInv(sys) && Launches(sys, sys') && Inv(sys'.w)
    ensures SysInv(sys')
  {
    hide Inv, WaitInv, OpenInv, TraceInv, NoUncertain;
    LaunchWait(sys, sys');
    LaunchOpens(sys, sys');
    LaunchTrace(sys, sys');
  }

  /** An admission that ends without a new turn only frees the gate. */
  lemma SubmitEndsEmpty(sys: System, audit: AuditAnswer)
    requires SysInv(sys) && GateCanRun(sys) && AdmissionPending(sys)
    requires GateService(sys.s, TakenFor(sys.w.p, Gate), audit) == Leave(sys.s)
    requires forall t :: !JustAdmitted(sys, t)
    ensures SysInv(GateRuns(sys, audit))
  {
    hide Inv, WaitInv, ExecutionInv, GateInv, TraceInv, GateRuns, GateCanRun, GateStep, OpenInv, JustAdmitted,
         GateService, TookReply;
    var sys' := GateRuns(sys, audit);
    GateRunsStep(sys, audit);
    GateRunsFields(sys, audit);
    GateTook(sys, sys');
    NothingOpen(sys, sys');
    GateStepKeeps(sys, sys');
  }

  lemma SubmitLaunches(sys: System, audit: AuditAnswer)
    requires Inv(sys.w) && WaitInv(sys) && GateCanRun(sys) && AdmissionPending(sys)
    requires Gate in sys.w.p.done && sys.w.p.done[Gate].Ok?
    requires var reply := sys.w.p.done[Gate].value;
             reply.RecordReply? && !reply.replayed && reply.row.turn.Some?
    ensures Launches(sys, GateRuns(sys, audit)) && Inv(GateRuns(sys, audit).w)
  {
    hide Inv, WaitInv, GateCanRun, GateTakes;
    GateTakesShape(sys.w);
  }

  lemma SubmitEnds(sys: System, audit: AuditAnswer)
    requires SysInv(sys) && GateCanRun(sys) && AdmissionPending(sys)
    ensures SysInv(GateRuns(sys, audit))
  {
    hide Inv, WaitInv, ExecutionInv, OpenInv, TraceInv, GateRuns, GateCanRun, NoUncertain, Launches, IsTurn, RunningAt;
    GateAlone(sys);
    var outcome := sys.w.p.done[Gate];
    if outcome.Ok? && outcome.value.RecordReply? && !outcome.value.replayed {
      SubmitLaunches(sys, audit);
      LaunchKeeps(sys, GateRuns(sys, audit));
    } else {
      SubmitEndsEmpty(sys, audit);
    }
  }

  // ---------------------------------------------------------------- cancel, start, stop

  lemma CancelAdvances(db: Db, s: Service, outcome: Outcome<Reply>)
    requires s.gate.Cancelling? && (s.execution.Task? ==> Names(db, s))
    requires s.gate.cancel.CRequest? && outcome.Ok? ==>
               s.gate.taskId in db.byTask && InactiveAt(db, db.byTask[s.gate.taskId])
    ensures var s' := CancelRuns(s, outcome);
            && Advances(db, s, s') && s'.ready == s.ready && s'.closed == s.closed && s'.gate.Submitting? == false
            && (s.ready ==> GateReady(db, s'))
  {
    hide InactiveAt, IsTurn;
  }

  lemma CancelMeans(sys: System)
    requires GateInv(sys) && ExecutionInv(sys) && sys.s.gate.Cancelling?
    requires GateAwaitsStore(sys.s.gate) ==> Gate in sys.w.p.done
    ensures sys.s.ready && (sys.s.execution.Task? ==> Names(sys.w.db, sys.s))
    ensures sys.s.gate.cancel.CRequest? && TakenFor(sys.w.p, Gate).Ok? ==>
              sys.s.gate.taskId in sys.w.db.byTask && InactiveAt(sys.w.db, sys.w.db.byTask[sys.s.gate.taskId])
  {
    hide SubmitMeans, InactiveAt, Interrupted, IsTurn, ReplyMeans, SettledRow;
  }

  lemma CancelStages(sys: System, audit: AuditAnswer)
    requires SysInv(sys) && GateCanRun(sys) && sys.s.gate.Cancelling?
    ensures SysInv(GateRuns(sys, audit))
  {
    hide Inv, WaitInv, ExecutionInv, GateInv, TraceInv, GateRuns, GateCanRun, GateStep, GateReady, OpenInv, Advances,
         Names, InactiveAt,
         CancelRuns;
    GateAlone(sys);
    CancelMeans(sys);
    CancelAdvances(sys.w.db, sys.s, TakenFor(sys.w.p, Gate));
    GateRunsStep(sys, audit);
    GateRunsFields(sys, audit);
    StaysOpen(sys, GateRuns(sys, audit));
    GateStepKeeps(sys, GateRuns(sys, audit));
  }

  /** A service that is closed, or has no execution and no open turn. */
  lemma OpensFresh(sys: System)
    requires sys.s.execution.NoExecution? || (sys.s.closed && !sys.s.ready)
    requires sys.s.ready ==> forall t {:trigger Interrupted(sys.w.db, t)} :: !Interrupted(sys.w.db, t)
    ensures OpenInv(sys)
  {
    hide Interrupted;
  }

  lemma StartAdvances(db: Db, s: Service, outcome: Outcome<Reply>, audit: AuditAnswer)
    requires s.gate.Starting? && s.execution.NoExecution? && !s.ready
    ensures var s' := StartRuns(s, outcome, audit);
            && Advances(db, s, s') && GateReady(db, s') && s'.execution.NoExecution?
            && (s'.ready ==> s.gate == Starting(TRecover) && outcome.Ok?)
  {
  }

  lemma StartMeans(sys: System)
    requires GateInv(sys) && sys.s.gate.Starting?
    ensures sys.s.execution.NoExecution? && !sys.s.ready
    ensures sys.s.gate == Starting(TRecover) && Gate in sys.w.p.done && sys.w.p.done[Gate].Ok? ==>
              forall t {:trigger Interrupted(sys.w.db, t)} :: !Interrupted(sys.w.db, t)
  {
    hide SubmitMeans, InactiveAt, Interrupted;
  }

  lemma StartStages(sys: System, audit: AuditAnswer)
    requires SysInv(sys) && GateCanRun(sys) && sys.s.gate.Starting?
    ensures SysInv(GateRuns(sys, audit))
  {
    hide Inv, WaitInv, ExecutionInv, GateInv, TraceInv, OpenInv, GateRuns, GateCanRun, GateStep, GateReady,
         Interrupted, Advances,
         StartRuns;
    GateAlone(sys);
    StartMeans(sys);
    StartAdvances(sys.w.db, sys.s, TakenFor(sys.w.p, Gate), audit);
    GateRunsStep(sys, audit);
    GateRunsFields(sys, audit);
    GateTook(sys, GateRuns(sys, audit));
    OpensFresh(GateRuns(sys, audit));
    GateStepKeeps(sys, GateRuns(sys, audit));
  }

  lemma StopAdvances(db: Db, s: Service, audit: AuditAnswer)
    requires s.gate.Stopping?
    ensures var s' := StopRuns(s, audit);
            && Advances(db, s, s') && GateReady(db, s') && !s'.gate.Submitting?
            && (if s.gate.stop.PAudit? then s'.closed && !s'.ready else s'.closed == s.closed && s'.ready == s.ready)
  {
  }

  lemma StopStages(sys: System, audit: AuditAnswer)
    requires SysInv(sys) && GateCanRun(sys) && sys.s.gate.Stopping?
    ensures SysInv(GateRuns(sys, audit))
  {
    hide Inv, WaitInv, ExecutionInv, GateInv, TraceInv, OpenInv, GateRuns, GateCanRun, GateStep, GateReady, Advances,
         StopRuns;
    var sys' := GateRuns(sys, audit);
    StopAdvances(sys.w.db, sys.s, audit);
    GateRunsStep(sys, audit);
    GateRunsFields(sys, audit);
    if sys.s.gate.stop.PAudit? {
      OpensFresh(sys');
    } else {
      StaysOpen(sys, sys');
    }
    GateStepKeeps(sys, sys');
  }

  lemma GateRunsKeeps(sys: System, audit: AuditAnswer)
    requires SysInv(sys) && GateCanRun(sys)
    ensures SysInv(GateRuns(sys, audit))
  {
    hide SysInv, GateRuns, GateAwaitsStore;
    match sys.s.gate
    case Free =>
    case Submitting(_, _, _, at) =>
      if at.SAdmit? {
        SubmitEnds(sys, audit);
      } else {
        SubmitStage(sys, audit);
      }
    case Cancelling(_, _, _) => CancelStages(sys, audit);
    case Starting(_) => StartStages(sys, audit);
    case Stopping(_) => StopStages(sys, audit);
  }

  lemma GateIsFree(sys: System)
    requires WaitInv(sys) && sys.s.gate.Free?
    ensures Gate !in sys.w.p.done && (sys.w.p.tx.Some? ==> sys.w.p.tx.value.client != Gate)
  {
    hide PerformedFrom;
  }

  lemma EnterKeeps(sys: System, entry: Entry)
    requires SysInv(sys) && CanEnter(sys.s, entry)
    ensures SysInv(Enter(sys, entry))
  {
    hide Inv, WaitInv, ExecutionInv, TraceInv, OpenInv, RevokeHeld;
    var sys' := Enter(sys, entry);
    GateIsFree(sys);
    RevokeShape(sys.w, sys.s.lease);
    assert GateStep(sys, sys');
    StaysOpen(sys, sys');
    if entry.StartUp? {
      NoExecutionYet(sys);
    }
    GateStepKeeps(sys, sys');
  }

  lemma NoExecutionYet(sys: System)
    requires OpenInv(sys) && !sys.s.ready && !sys.s.closed
    ensures sys.s.execution.NoExecution?
  {
    hide OpenAt;
  }

  lemma StopKeeps(sys: System)
    requires SysInv(sys)
    ensures SysInv(StopCalled(sys))
  {
    hide Inv, PerformedFrom, RevokeHeld, NoUncertain, IsTurn, Interrupted, Ordered, Progress, ReplyMeans;
    var sys', w := StopCalled(sys), RevokeHeld(sys.w, sys.s.lease);
    RevokeShape(sys.w, sys.s.lease);
    NextKeeps(w, Fence);
    if sys'.s.ready {
      forall t ensures OpenAt(sys', t) {
        assert OpenAt(sys, t);
      }
    }
    forall t ensures PublishedAt(sys'.w.db, sys'.trace, t) {
      assert PublishedAt(sys.w.db, sys.trace, t);
    }
  }

  // ---------------------------------------------------------------- every event

  lemma BeginsAreAllowed(sys: System, op: Op)
    requires Inv(sys.w) && AwaitedOp(sys.w.p.frame) == Some(op)
    ensures AdapterMay(op)
  {
  }

  lemma HappenKeeps(sys: System, event: SystemEvent)
    requires SysInv(sys) && Possible(sys, event)
    ensures SysInv(Happen(sys, event))
  {
    hide SysInv, BeginStep, CommitStep, RollBackStep, ResumeStep, StartStep, ApplyStep, ExecutionStep,
         GateRuns, Enter, StopCalled, ExecutionCanRun, GateCanRun, ExecutionMay, GateMay, CallerMay, AdapterMay, AwaitedOp,
         Perform, ExecutionCalls;
    SysHasWorld(sys);
    match event
    case BeginGate(op, now) => BeginSystem(sys, Gate, op, now);
    case BeginExecution(op, now) => BeginSystem(sys, Execution, op, now);
    case BeginCaller(op, now) => BeginSystem(sys, Caller, op, now);
    case BeginAdapter(op, now) =>
      BeginsAreAllowed(sys, op);
      BeginSystem(sys, Adapter, op, now);
    case TakeCaller => TakeCallerKeeps(sys);
    case CommitTx => CommitSystem(sys);
    case RollBackTx => RollBackSystem(sys);
    case AdapterResumes(interrupted, backend, token, now) =>
      AdapterResumesKeeps(sys, interrupted, backend, token, now);
    case ExecutionCallsAdapter(call, now) => ExecutionCallsKeeps(sys, call, now);
    case ExecutionRuns(fault, audit, acknowledged, reply, now) =>
      ExecutionRunsKeeps(sys, fault, audit, acknowledged, reply, now);
    case ExecutionNeverStarts => NeverStartsKeeps(sys);
    case GateProceeds(audit) => GateRunsKeeps(sys, audit);
    case Enters(entry) => EnterKeeps(sys, entry);
    case StopIsCalled => StopKeeps(sys);
    case ProcessCrashes => CrashSystem(sys);
  }

  lemma SystemStarts(owner: Id)
    ensures SysInv(StartSystem(owner))
  {
    hide Inv;
    StartHolds();
  }

  lemma {:induction false} RunSystemKeeps(sys: System, events: seq<SystemEvent>)
    requires SysInv(sys)
    ensures SysInv(RunSystem(sys, events))
    decreases |events|
  {
    hide SysInv, Happen, Possible;
    if events != [] {
      if Possible(sys, events[0]) {
        HappenKeeps(sys, events[0]);
        RunSystemKeeps(Happen(sys, events[0]), events[1..]);
      } else {
        RunSystemKeeps(sys, events[1..]);
      }
    }
  }
}
