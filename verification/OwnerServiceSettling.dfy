/** How a turn ends, over every run, told by a chronicle that only watches: which awaits of its
    execution went well, what was raised, and what the durable audit then said. */
module OwnerServiceSettling {
  import opened Wrappers
  import Utf8
  import opened AdmissionStore
  import opened AdmissionInvariants
  import opened AdmissionProtocol
  import opened AdmissionSafety
  import opened AdmissionMeaning
  import opened OwnerService
  import opened OwnerServiceSafety
  import opened OwnerServiceTheorems

  // ---------------------------------------------------------------- the chronicle

  /** An await of `_perform` that went well. */
  datatype Milestone =
    | Sound(point: Point)              // the store knew of no uncertain turn
    | Unsound(point: Point)            // the store knew of one
    | Cleared(point: Point)            // and the audit was clear, the service neither blocked nor stopping
    | GotLease
    | SetRunning
    | Replied(result: TurnResult)      // the butler's bound answer
    | WasStaged
    | WasRecorded
    | QuotaDone

  /** What an onlooker knows of each turn: the way its execution has come, what it raised, whether
      the outcome was doubted afterwards, and whether it ever ran. */
  datatype Chronicle = Chronicle(
    path: map<nat, seq<Milestone>>, raised: map<nat, Exc>, doubted: set<nat>, ran: set<nat>)

  const NOTHING_KNOWN := Chronicle(map[], map[], {}, {})

  function PathOf(c: Chronicle, s: nat): seq<Milestone> {
    if s in c.path then c.path[s] else []
  }

  predicate Performing(at: Spot) {
    !InHandler(at) && !at.Over?
  }

  /** The exception of a store call or an adapter call that did not answer as it should. */
  function StoreFault(outcome: Outcome<Reply>): Option<Exc> {
    match outcome
    case Ok(_) => None
    case Err(e) => Some(Exc(e.uncertain, e.code))
  }

  function AdapterFault(answer: Option<Answer>): Exc {
    if answer.Some? && answer.value.Raised? then Exc(answer.value.error.uncertain, answer.value.error.code)
    else Exc(true, Uncertainty)
  }

  predicate HoldsHerLease(sys: System, now: real) {
    sys.s.lease.Some? && Owns(sys.w.p, sys.s.lease.value, now)
  }

  /** The butler's answer is encodable and comes with a completed report of this task and text. */
  predicate Vouched(taskId: Id, reply: Option<(Utf8.Text, Option<Report>)>) {
    reply.Some? && Utf8.Scalar(reply.value.0) && reply.value.1 == Some(Report(taskId, reply.value.0, true))
  }

  /** What `_perform` raises at the await where it is: a fault from outside, or what the source
      raises itself. */
  function RaisedBy(sys: System, c: Chronicle, event: SystemEvent): Option<Exc>
    requires event.ExecutionRuns? && sys.s.execution.Task?
  {
    var s, p, e := sys.s, sys.w.p, sys.s.execution;
    if event.fault.Some? then event.fault
    else
      match e.at
      case NotStarted => if s.stopping then Some(Exc(true, Uncertainty)) else None
      case DurableCheck(_) =>
        if TakenFor(p, Execution).Ok? && !TakenFor(p, Execution).value.FlagReply? then Some(Exc(true, Uncertainty))
        else StoreFault(TakenFor(p, Execution))
      case AuditCheck(point, _) =>
        var path := PathOf(c, e.sequence);
        if event.audit.AuditFails? then Some(Exc(true, Audit))
        else if event.audit.PendingCalls? || s.blocked || s.stopping || (path != [] && path[|path| - 1] == Unsound(point))
        then Some(Exc(true, Uncertainty))
        else if point == AfterMark && !HoldsHerLease(sys, event.now) then Some(Exc(false, Forbidden))
        else None
      case Reserving => if p.answer.Some? && p.answer.value.Leased? then None else Some(AdapterFault(p.answer))
      case Marking => if p.answer == Some(Answer.Moved) then None else Some(AdapterFault(p.answer))
      case Handling => if Vouched(e.taskId, event.reply) then None else Some(Exc(false, Conflict))
      case Recording => if event.acknowledged then None else Some(Exc(true, Audit))
      case Finishing => if p.answer == Some(Finished(true)) then None else Some(AdapterFault(p.answer))
      case _ => StoreFault(TakenFor(p, Execution))
  }

  /** The milestone an await reaches that has raised nothing. */
  function Reached(sys: System, event: SystemEvent): seq<Milestone>
    requires event.ExecutionRuns? && sys.s.execution.Task?
  {
    var e := sys.s.execution;
    match e.at
    case DurableCheck(point) =>
      [if TakenFor(sys.w.p, Execution) == Ok(FlagReply(true)) then Unsound(point) else Sound(point)]
    case AuditCheck(point, _) => [Cleared(point)]
    case Reserving => [GotLease]
    case Marking => [SetRunning]
    case Handling => if event.reply.Some? then [Replied(TurnResult(e.taskId, event.reply.value.0, event.reply.value.1))] else []
    case Staging => [WasStaged]
    case Recording => [WasRecorded]
    case Finishing => [QuotaDone]
    case _ => []
  }

  function RunningTurns(db: Db): set<nat> {
    set s | s in db.rows && RunningAt(db, s)
  }

  function OpenTurns(db: Db): set<nat> {
    set s | s in db.rows && Interrupted(db, s)
  }

  /** The audit is not clear after the exception, or the request could not be given back. */
  predicate CastsDoubt(sys: System, event: SystemEvent)
    requires event.ExecutionRuns? && sys.s.execution.Task?
  {
    && event.fault.None?
    && ((sys.s.execution.at.Inspecting? && !event.audit.Clear?)
        || (sys.s.execution.at.Refunding? && sys.w.p.answer.Some? && sys.w.p.answer.value.Raised?))
  }

  function Tell(sys: System, c: Chronicle, event: SystemEvent): Chronicle
    requires Possible(sys, event)
  {
    var e := sys.s.execution;
    if event.CommitTx? then
      c.(doubted := if sys.w.p.tx.value.op.Recover? then c.doubted + OpenTurns(sys.w.db) else c.doubted,
         ran := c.ran + RunningTurns(Happen(sys, event).w.db))
    else if !event.ExecutionRuns? then c
    else if Performing(e.at) then
      match RaisedBy(sys, c, event)
      case Some(exc) => c.(raised := c.raised[e.sequence := exc])
      case None => c.(path := c.path[e.sequence := PathOf(c, e.sequence) + Reached(sys, event)])
    else if CastsDoubt(sys, event) then c.(doubted := c.doubted + {e.sequence})
    else c
  }

  function Told(sys: System, c: Chronicle, events: seq<SystemEvent>): Chronicle
    decreases |events|
  {
    if events == [] then c
    else if Possible(sys, events[0]) then Told(Happen(sys, events[0]), Tell(sys, c, events[0]), events[1..])
    else Told(sys, c, events[1..])
  }

  // ---------------------------------------------------------------- what the chronicle says of the rows

  function Depth(at: Spot): nat {
    match at
    case DurableCheck(point) => (match point case AtStart => 0 case AfterMark => 4 case AfterRecord => 9 case AfterFinish => 12)
    case AuditCheck(point, _) => (match point case AtStart => 1 case AfterMark => 5 case AfterRecord => 10 case AfterFinish => 13)
    case Reserving => 2
    case Marking => 3
    case Handling => 6
    case Staging => 7
    case Recording => 8
    case Finishing => 11
    case Publishing => 14
    case _ => 0
  }

  /** The way to each await of `_perform`. */
  function Way(at: Spot, result: Option<TurnResult>): seq<Milestone>
    decreases Depth(at)
  {
    match at
    case DurableCheck(point) => (
      match point
      case AtStart => []
      case AfterMark => Way(Marking, result) + [SetRunning]
      case AfterRecord => Way(Recording, result) + [WasRecorded]
      case AfterFinish => Way(Finishing, result) + [QuotaDone])
    case AuditCheck(point, durable) => Way(DurableCheck(point), result) + [if durable then Unsound(point) else Sound(point)]
    case Reserving => Way(AuditCheck(AtStart, false), result) + [Cleared(AtStart)]
    case Marking => Way(Reserving, result) + [GotLease]
    case Handling => Way(AuditCheck(AfterMark, false), result) + [Cleared(AfterMark)]
    case Staging => Way(Handling, result) + if result.Some? then [Replied(result.value)] else []
    case Recording => Way(Staging, result) + [WasStaged]
    case Finishing => Way(AuditCheck(AfterRecord, false), result) + [Cleared(AfterRecord)]
    case Publishing => Way(AuditCheck(AfterFinish, false), result) + [Cleared(AfterFinish)]
    case _ => []
  }

  predicate RaisedCertain(c: Chronicle, s: nat) {
    s in c.raised && !c.raised[s].uncertain && s !in c.doubted
  }

  predicate InDoubt(c: Chronicle, db: Db, s: nat) {
    (s in c.raised && c.raised[s].uncertain) || s in c.doubted || (s in db.rows && db.rows[s].result.Some?)
  }

  /** What the state of a turn tells of how it came to be in it. */
  predicate RowTold(db: Db, c: Chronicle, s: nat) {
    IsTurn(db, s) ==>
      var row := db.rows[s];
      match row.state
      case Admitted => s !in c.ran
      case Running => s in c.ran
      case Completed => row.result.Some? && PathOf(c, s) == Way(Publishing, row.result)
      case Failed => RaisedCertain(c, s) && row.result.None? && row.errorCode == Some(c.raised[s].code) && s in c.ran
      case Denied => RaisedCertain(c, s) && row.result.None? && row.errorCode == Some(c.raised[s].code) && s !in c.ran
      case Uncertain => InDoubt(c, db, s) && row.errorCode == Some(Uncertainty)
      case Cancelled => s !in c.ran
  }

  predicate Unknown(c: Chronicle, s: nat) {
    s !in c.path && s !in c.raised && s !in c.doubted
  }

  /** A turn given up for a reason that leaves no doubt. */
  predicate GivenUp(db: Db, s: nat) {
    IsTurn(db, s) && (db.rows[s].state == Failed || db.rows[s].state == Denied)
  }

  predicate NothingStaged(db: Db, s: nat) {
    s in db.rows && db.rows[s].result.None?
  }

  predicate Rereads(db: Db, s: nat, p: Process) {
    Execution in p.done && p.done[Execution].Ok? && p.done[Execution].value.RecordReply? ==>
      s in db.rows && p.done[Execution].value.row.result == db.rows[s].result
  }

  predicate TaskTold(sys: System, c: Chronicle) {
    var e, db := sys.s.execution, sys.w.db;
    e.Task? ==>
      var s := e.sequence;
      && (e.result.Some? ==> e.result.value.taskId == e.taskId)
      &&
      match e.at
      case Inspecting(exc) => s in c.raised && c.raised[s] == exc && s !in c.doubted && !GivenUp(db, s)
      case Rereading(exc, pending) =>
        s in c.raised && c.raised[s] == exc && (s in c.doubted <==> pending) && !GivenUp(db, s) && Rereads(db, s, sys.w.p)
      case Refunding(exc, _) =>
        s in c.raised && c.raised[s] == exc && RaisedCertain(c, s) && !GivenUp(db, s) && NothingStaged(db, s)
      case Settling(_, uncertain, code) =>
        s in c.raised
        && (if uncertain then code == Uncertainty && InDoubt(c, db, s)
            else RaisedCertain(c, s) && code == c.raised[s].code && NothingStaged(db, s))
      case Over => s in c.raised ==> SettledRow(db, s) || sys.s.blocked
      case at => s !in c.raised && s !in c.doubted && PathOf(c, s) == Way(at, e.result)
  }

  ghost predicate Tells(sys: System, c: Chronicle) {
    && c.ran <= sys.w.db.rows.Keys
    && (forall s {:trigger RowTold(sys.w.db, c, s)} :: RowTold(sys.w.db, c, s))
    && (forall s {:trigger Unknown(c, s)} :: s in sys.w.db.rows || Unknown(c, s))
    && (forall s {:trigger JustAdmitted(sys, s)} :: JustAdmitted(sys, s) ==> Unknown(c, s))
    && TaskTold(sys, c)
  }

  // ---------------------------------------------------------------- what one transaction does to a turn

  predicate Untouched(r: Row, r': Row) {
    r'.state == r.state && r'.result == r.result && r'.errorCode == r.errorCode
  }

  /** How one body may touch the state, result and error of a turn. */
  predicate Touches(db: Db, op: Op, r: Row, r': Row, s: nat) {
    match op
    case Transition(t, expected, state, _, error) =>
      s == t ==> MayTransition(expected, state) && r.state == expected && r'.state == state && r'.errorCode == error && r'.result == r.result
    case Recover => Interrupted(db, s) ==> r'.state == Uncertain && r'.errorCode == Some(Uncertainty) && r'.result == r.result
    case Stage(t, result) =>
      s == t ==> r.state == Running && r'.state == Running && r'.errorCode == r.errorCode && r'.result == Some(result)
    case CommitTurn(t, text, report) =>
      s == t ==> r.state == Running && r'.state == Completed && r'.result == r.result && r.turn.Some?
                 && r.result == Some(TurnResult(r.turn.value.taskId, text, report))
    case RequestCancel(_, _, _) =>
      r'.result == r.result && r'.errorCode == r.errorCode
      && (r'.state == r.state || (r.state == Admitted && r'.state == Cancelled))
    case _ => Untouched(r, r')
  }

  predicate Writes(op: Op, s: nat) {
    match op
    case Transition(t, _, _, _, _) => s == t
    case Stage(t, _) => s == t
    case CommitTurn(t, _, _) => s == t
    case Recover => true
    case RequestCancel(_, _, _) => true
    case _ => false
  }

  predicate TurnTouched(db: Db, op: Op, staged: Db, s: nat) {
    IsTurn(staged, s) ==>
      if IsTurn(db, s) then
        && Touches(db, op, db.rows[s], staged.rows[s], s)
        && (!Writes(op, s) ==> Untouched(db.rows[s], staged.rows[s]))
        && (op.Recover? && !Interrupted(db, s) ==> Untouched(db.rows[s], staged.rows[s]))
      else op.Admit? && s !in db.rows && staged.rows[s].state == Admitted && staged.rows[s].result.None?
  }

  lemma PlainTouches(op: Op, now: real, db: Db, memory: Memory, s: nat)
    requires Perform(op, now, db, memory).outcome.Ok? && db.next !in db.rows
    requires op.Claim? || op.Get? || op.GetRequest? || op.HasUncertainty? || op.EnsureWorkspace? || op.ReserveAttempt? || op.Admit?
    ensures TurnTouched(db, op, Perform(op, now, db, memory).db, s)
  {
    hide ValidId, Visible, CheckInput, HasTask, SameRequest, NewWorkspace;
    if op.EnsureWorkspace? {
      WorkspaceOnly(db, op.owner, op.workspaceId);
    }
  }

  lemma CreateThreadTouches(op: Op, now: real, db: Db, memory: Memory, s: nat)
    requires op.CreateThread? && CreateThreadWork(db, memory, op, now).outcome.Ok? && db.next !in db.rows
    ensures TurnTouched(db, op, CreateThreadWork(db, memory, op, now).db, s)
  {
    hide CreateThreadWork;
    CreateThreadRows(op, now, db, memory);
  }

  lemma WriteTouches(op: Op, now: real, db: Db, memory: Memory, s: nat)
    requires op.Transition? || op.Stage? || op.CommitTurn?
    requires Perform(op, now, db, memory).outcome.Ok?
    ensures TurnTouched(db, op, Perform(op, now, db, memory).db, s)
  {
    hide ValidId, Visible, CheckResult;
  }

  lemma CancelTouches(op: Op, now: real, db: Db, memory: Memory, s: nat)
    requires op.RequestCancel? && RequestCancelWork(db, memory, op, now).outcome.Ok? && db.next !in db.rows
    ensures TurnTouched(db, op, RequestCancelWork(db, memory, op, now).db, s)
  {
    hide RequestCancelWork, HasRequest, HasTask, CheckThread, LogEvent, Retire;
    LoggedRows(db, op, now, memory);
  }

  lemma RecoverTouches(now: real, db: Db, memory: Memory, s: nat)
    requires DbInv(db)
    ensures TurnTouched(db, Recover, Perform(Recover, now, db, memory).db, s)
  {
    hide DbInv, Evolves;
    RecoverPrefixKeeps(db, memory, db.next, now);
    assert RecoveredAt(db, Perform(Recover, now, db, memory).db, db.next, now, s);
    if s in db.rows {
      RowOkAt(db, s);
    }
  }

  lemma BodyTouches(op: Op, now: real, db: Db, memory: Memory, s: nat)
    requires DbInv(db) && Perform(op, now, db, memory).outcome.Ok?
    ensures TurnTouched(db, op, Perform(op, now, db, memory).db, s)
  {
    hide DbInv, TurnTouched, CreateThreadWork, AdmitWork, ClaimWork, TransitionWork, StageWork, CommitTurnWork,
         RequestCancelWork, ReserveAttemptWork, RecoverPrefix, HasTask, HasRequest, ValidId;
    NextIsUnused(db);
    match op
    case CreateThread(_, _, _, _, _, _) => CreateThreadTouches(op, now, db, memory, s);
    case Transition(_, _, _, _, _) => WriteTouches(op, now, db, memory, s);
    case Stage(_, _) => WriteTouches(op, now, db, memory, s);
    case CommitTurn(_, _, _) => WriteTouches(op, now, db, memory, s);
    case RequestCancel(_, _, _) => CancelTouches(op, now, db, memory, s);
    case Recover => RecoverTouches(now, db, memory, s);
    case RecoverPartly(_) => PartlyFails(op, now, db, memory);
    case _ => PlainTouches(op, now, db, memory, s);
  }

  // ---------------------------------------------------------------- COMMIT

  lemma CommitTouches(sys: System, s: nat)
    requires Inv(sys.w) && WaitInv(sys) && sys.w.p.tx.Some?
    ensures TurnTouched(sys.w.db, sys.w.p.tx.value.op, sys.w.p.tx.value.staged, s)
  {
    hide DbInv, Perform, MayBegin, TurnTouched, ClaimInv, LeaseInv, MeterInv;
    var tx := sys.w.p.tx.value;
    var now, memory :| Performs(sys.w.db, tx, now, memory);
    BodyTouches(tx.op, now, sys.w.db, memory, s);
  }

  /** What the waiting tasks say of the open transaction. */
  lemma TxIsExpected(sys: System)
    requires Inv(sys.w) && WaitInv(sys) && GateInv(sys) && sys.w.p.tx.Some?
    ensures var tx := sys.w.p.tx.value;
            && (tx.op.Stage? || tx.op.CommitTurn? ==> tx.client == Execution && ExecutionMay(sys.s, tx.op))
            && (tx.op.Transition? && tx.op.state != Running ==> tx.client == Execution && ExecutionMay(sys.s, tx.op))
            && (tx.op.Recover? ==> sys.s.execution.NoExecution? && !sys.s.gate.Submitting?)
            && (tx.client == Execution ==> ExecutionMay(sys.s, tx.op))
            && (tx.client == Gate ==> GateMay(sys.s, tx.op))
  {
    hide Inv, PerformedFrom, SubmitMeans, Interrupted, InactiveAt;
  }

  function AfterCommit(sys: System, c: Chronicle): Chronicle
    requires sys.w.p.tx.Some?
  {
    c.(doubted := if sys.w.p.tx.value.op.Recover? then c.doubted + OpenTurns(sys.w.db) else c.doubted,
       ran := c.ran + RunningTurns(sys.w.p.tx.value.staged))
  }

  lemma TaskNamesItsTurn(sys: System)
    requires Inv(sys.w) && ExecutionInv(sys) && sys.s.execution.Task?
    ensures var db, e := sys.w.db, sys.s.execution;
            IsTurn(db, e.sequence) && db.rows[e.sequence].turn.Some? && db.rows[e.sequence].turn.value.taskId == e.taskId
  {
    hide StoreInv, ClaimInv, LeaseInv, MeterInv, DbInv, ReplyMeans;
    var db, e := sys.w.db, sys.s.execution;
    assert DbInv(db) by {
      WorldHasDb(sys.w);
    }
    EntryHolds(db, e.taskId);
  }

  lemma WorldHasDb(w: World)
    requires Inv(w)
    ensures DbInv(w.db)
  {
    hide DbInv, ClaimInv, LeaseInv, MeterInv;
  }

  lemma EntryHolds(db: Db, taskId: Id)
    requires DbInv(db) && taskId in db.byTask
    ensures var s := db.byTask[taskId]; s in db.rows && db.rows[s].turn.Some? && db.rows[s].turn.value.taskId == taskId
  {
    hide TranscriptInv;
    assert TaskEntry(db, taskId);
  }

  /** What the rows and tasks around a commit come to. */
  ghost predicate CommitContext(sys: System, c: Chronicle) {
    && Inv(sys.w) && WaitInv(sys) && GateInv(sys) && ExecutionInv(sys) && sys.w.p.tx.Some?
    && TaskTold(sys, c) && c.ran <= sys.w.db.rows.Keys
  }

  /** A turn whose row the commit leaves in its state. */
  lemma RowInPlace(db: Db, staged: Db, c: Chronicle, c': Chronicle, s: nat)
    requires RowTold(db, c, s) && IsTurn(db, s) && IsTurn(staged, s)
    requires staged.rows[s].state == db.rows[s].state && staged.rows[s].errorCode == db.rows[s].errorCode
    requires staged.rows[s].result == db.rows[s].result || (staged.rows[s].state == Running && staged.rows[s].result.Some?)
    requires c'.raised == c.raised && c'.path == c.path && c.ran <= c'.ran && c.doubted <= c'.doubted
    requires s in c'.ran ==> s in c.ran || staged.rows[s].state == Running
    requires s in c'.doubted ==> s in c.doubted || Interrupted(db, s)
    ensures RowTold(staged, c', s)
  {
    hide Way;
  }

  /** One row, before and after the commit. */
  lemma CommitRow(sys: System, c: Chronicle, s: nat)
    requires CommitContext(sys, c) && RowTold(sys.w.db, c, s)
    ensures RowTold(sys.w.p.tx.value.staged, AfterCommit(sys, c), s)
  {
    hide Inv, WaitInv, GateInv, ExecutionInv, Way;
    CommitTouches(sys, s);
    TxIsExpected(sys);
    var db, tx, c' := sys.w.db, sys.w.p.tx.value, AfterCommit(sys, c);
    if IsTurn(tx.staged, s) && IsTurn(db, s) {
      if tx.staged.rows[s].state == db.rows[s].state && !tx.op.Transition? {
        RowInPlace(db, tx.staged, c, c', s);
      } else if sys.s.execution.Task? {
        TaskNamesItsTurn(sys);
      }
    }
  }

  /** The reply an unfenced commit leaves with its client. */
  lemma CommitTask(sys: System, c: Chronicle)
    requires CommitContext(sys, c) && Unfenced(sys.w) && sys.s.execution.Task?
    requires var tx := sys.w.p.tx.value; Achieves(sys.w.db, tx.op, tx.reply, tx.staged)
    ensures TaskTold(sys.(w := CommitStep(sys.w)), AfterCommit(sys, c))
  {
    hide Inv, WaitInv, GateInv, ExecutionInv, Way, CommitStep, ReplyMeans;
    var e, tx := sys.s.execution, sys.w.p.tx.value;
    CommitTouches(sys, e.sequence);
    TxIsExpected(sys);
    TaskNamesItsTurn(sys);
    CommitShape(sys.w);
    TurnIsKept(sys);
    if tx.client == Execution && e.at.Rereading? {
      GetReadsTheTurn(sys);
    }
  }

  lemma TurnIsKept(sys: System)
    requires Inv(sys.w) && ExecutionInv(sys) && sys.s.execution.Task? && sys.w.p.tx.Some?
    ensures IsTurn(sys.w.p.tx.value.staged, sys.s.execution.sequence)
    ensures Terminal(sys.w.db.rows[sys.s.execution.sequence].state) ==>
              Terminal(sys.w.p.tx.value.staged.rows[sys.s.execution.sequence].state)
    ensures IsTurn(sys.w.db, sys.s.execution.sequence)
  {
    hide DbInv, ClaimInv, LeaseInv, MeterInv, ReplyMeans, Guarded, LegalAt;
    RowStays(sys.w.db, sys.w.p.tx.value.staged, sys.s.execution.sequence);
  }

  lemma GetReadsTheTurn(sys: System)
    requires ExecutionInv(sys) && sys.s.execution.Task? && sys.s.execution.at.Rereading? && sys.w.p.tx.Some?
    requires var tx := sys.w.p.tx.value;
             ExecutionMay(sys.s, tx.op) && Achieves(sys.w.db, tx.op, tx.reply, tx.staged)
    ensures var tx := sys.w.p.tx.value;
            && tx.staged == sys.w.db && tx.reply.RecordReply?
            && sys.s.execution.sequence in sys.w.db.rows && tx.reply.row == sys.w.db.rows[sys.s.execution.sequence]
  {
    hide ReplyMeans, SettledRow;
  }

  lemma CommitAdmission(sys: System, c: Chronicle, t: nat)
    requires CommitContext(sys, c) && Unfenced(sys.w)
    requires forall s {:trigger JustAdmitted(sys, s)} :: JustAdmitted(sys, s) ==> Unknown(c, s)
    requires forall s {:trigger Unknown(c, s)} :: s in sys.w.db.rows || Unknown(c, s)
    requires JustAdmitted(sys.(w := CommitStep(sys.w)), t)
    ensures Unknown(AfterCommit(sys, c), t)
  {
    hide Inv, WaitInv, GateInv, ExecutionInv, CommitStep, TaskTold;
    var tx := sys.w.p.tx.value;
    CommitShape(sys.w);
    TxIsExpected(sys);
    if tx.client == Gate {
      AdmissionIsNewTurn(sys, t);
      assert Unknown(c, t);
    } else {
      assert JustAdmitted(sys, t);
    }
  }

  lemma AdmissionIsNewTurn(sys: System, t: nat)
    requires Inv(sys.w) && WaitInv(sys) && sys.w.p.tx.Some? && sys.w.p.tx.value.op.Admit? && NewTurn(sys.w.p.tx.value.reply, t)
    ensures t !in sys.w.db.rows
  {
    hide StoreInv, ClaimInv, LeaseInv, MeterInv, DbInv, ValidId, CheckInput, CheckThread, HasRequest, SameRequest, MayBegin;
    WorldHasDb(sys.w);
    NextIsUnused(sys.w.db);
    var now, memory :| Performs(sys.w.db, sys.w.p.tx.value, now, memory);
    assert AdmitWork(sys.w.db, memory, sys.w.p.tx.value.op, now).outcome == Ok(sys.w.p.tx.value.reply);
  }

  // ---------------------------------------------------------------- steps that touch no row

  predicate NoNewReply(p: Process, p': Process, client: Client) {
    client in p'.done && p'.done[client].Ok? ==> client in p.done && p'.done[client] == p.done[client]
  }

  /** A step after which everyone is where he was, or his task has been told to cancel. */
  predicate StandsStill(sys: System, sys': System) {
    && sys'.w.db == sys.w.db
    && NoNewReply(sys.w.p, sys'.w.p, Gate) && NoNewReply(sys.w.p, sys'.w.p, Execution)
    && (SameTask(sys.s.execution, sys'.s.execution) || sys'.s.execution.NoExecution?)
    && (sys'.s.execution.Task? && sys.s.blocked ==> sys'.s.blocked)
    && (AdmissionPending(sys') ==> AdmissionPending(sys) || Gate !in sys'.w.p.done)
  }

  lemma StillTells(sys: System, sys': System, c: Chronicle)
    requires Tells(sys, c) && StandsStill(sys, sys')
    ensures Tells(sys', c)
  {
    hide RowTold, Way;
    forall t | JustAdmitted(sys', t) ensures Unknown(c, t) {
      assert JustAdmitted(sys, t);
    }
    assert TaskTold(sys', c) by {
      StillTold(sys, sys', c);
    }
    forall s ensures RowTold(sys'.w.db, c, s) {
      assert RowTold(sys.w.db, c, s);
    }
  }

  lemma StillTold(sys: System, sys': System, c: Chronicle)
    requires TaskTold(sys, c) && StandsStill(sys, sys')
    ensures TaskTold(sys', c)
  {
    hide Way, GivenUp, InDoubt, RaisedCertain;
  }

  function Committed(sys: System): System
    requires sys.w.p.tx.Some?
  {
    System(CommitStep(sys.w), sys.s, sys.trace + CommitMarks(sys.w))
  }

  function Learnt(sys: System, c: Chronicle): Chronicle
    requires sys.w.p.tx.Some?
  {
    c.(doubted := if sys.w.p.tx.value.op.Recover? then c.doubted + OpenTurns(sys.w.db) else c.doubted,
       ran := c.ran + RunningTurns(CommitStep(sys.w).db))
  }

  lemma CommitIsTold(sys: System, c: Chronicle)
    requires Possible(sys, CommitTx)
    ensures sys.w.p.tx.Some?
    ensures Happen(sys, CommitTx) == Committed(sys) && Tell(sys, c, CommitTx) == Learnt(sys, c)
  {
    hide CommitStep, CommitMarks;
  }

  lemma CommitTells(sys: System, c: Chronicle)
    requires SysInv(sys) && Tells(sys, c) && sys.w.p.tx.Some?
    ensures Tells(Committed(sys), Learnt(sys, c))
  {
    hide Inv, WaitInv, GateInv, ExecutionInv, OpenInv, TraceInv, CommitStep, RowTold, TaskTold, CommitMarks, DbInv, DbLater, Achieves, BodyAt;
    if Unfenced(sys.w) {
      UnfencedTells(sys, c);
    } else {
      FencedTells(sys, c);
    }
  }

  lemma UnfencedTells(sys: System, c: Chronicle)
    requires SysInv(sys) && Tells(sys, c) && Unfenced(sys.w)
    ensures Tells(Committed(sys), Learnt(sys, c))
  {
    hide Inv, WaitInv, GateInv, ExecutionInv, OpenInv, TraceInv, CommitStep, RowTold, TaskTold, CommitMarks, DbInv, DbLater, Achieves, BodyAt,
         Perform, JustAdmitted;
    var tx, sys', c' := sys.w.p.tx.value, Committed(sys), AfterCommit(sys, c);
    CommitShape(sys.w);
    CommitFactsHold(sys);
    forall s ensures RowTold(sys'.w.db, c', s) {
      assert RowTold(sys.w.db, c, s);
      CommitRow(sys, c, s);
    }
    forall s | s !in sys'.w.db.rows ensures Unknown(c', s) {
      KeysStay(sys.w.db, tx.staged, s);
      assert Unknown(c, s);
    }
    forall s | s in c'.ran ensures s in sys'.w.db.rows {
      if s in c.ran {
        KeysStay(sys.w.db, tx.staged, s);
      }
    }
    forall t | JustAdmitted(sys', t) ensures Unknown(c', t) {
      AdmittedIgnoresTrace(sys.(w := CommitStep(sys.w)), sys', t);
      CommitAdmission(sys, c, t);
    }
    TaskIgnoresTrace(sys.(w := CommitStep(sys.w)), sys', c');
    if sys.s.execution.Task? {
      CommitTask(sys, c);
    } else {
      NoTaskTold(sys', c');
    }
  }

  lemma KeysStay(d: Db, d': Db, s: nat)
    requires DbLater(d, d')
    ensures s in d.rows ==> s in d'.rows
  {
    hide DbLater;
    if s in d.rows {
      RowStays(d, d', s);
    }
  }

  lemma AdmittedIgnoresTrace(a: System, b: System, t: nat)
    requires JustAdmitted(b, t) && b.w == a.w && b.s == a.s
    ensures JustAdmitted(a, t)
  {
  }

  lemma TaskIgnoresTrace(a: System, b: System, c: Chronicle)
    requires b.w == a.w && b.s == a.s
    ensures TaskTold(a, c) == TaskTold(b, c)
  {
  }

  lemma NoTaskTold(sys: System, c: Chronicle)
    requires sys.s.execution.NoExecution?
    ensures TaskTold(sys, c)
  {
  }

  lemma FencedTells(sys: System, c: Chronicle)
    requires Tells(sys, c) && sys.w.p.tx.Some? && !Unfenced(sys.w)
    ensures Tells(Committed(sys), Learnt(sys, c))
  {
    hide TaskTold, RowTold;
    assert RunningTurns(sys.w.db) <= c.ran by {
      RunningIsTold(sys, c);
    }
    assert c.ran + RunningTurns(sys.w.db) == c.ran;
    assert Learnt(sys, c) == c;
    StillTells(sys, Committed(sys), c);
  }

  lemma RunningIsTold(sys: System, c: Chronicle)
    requires Tells(sys, c)
    ensures RunningTurns(sys.w.db) <= c.ran
  {
    hide TaskTold, Way;
    forall s | s in RunningTurns(sys.w.db) ensures s in c.ran {
      assert RowTold(sys.w.db, c, s);
    }
  }

  // ---------------------------------------------------------------- the execution runs

  predicate StepsTo(sys: System, sys': System, event: SystemEvent)
    requires event.ExecutionRuns? && sys.s.execution.Task?
  {
    && sys'.w.db == sys.w.db && Execution !in sys'.w.p.done
    && sys'.s == StepService(sys.s, ExecutionStep(sys, event.fault, event.audit, event.acknowledged, event.reply, event.now))
  }

  lemma PerformTold(sys: System, sys': System, c: Chronicle, event: SystemEvent)
    requires event.ExecutionRuns? && sys.s.execution.Task? && Performing(sys.s.execution.at) && Possible(sys, event)
    requires StepsTo(sys, sys', event) && TaskTold(sys, c) && RowTold(sys.w.db, c, sys.s.execution.sequence)
    ensures TaskTold(sys', Tell(sys, c, event))
  {
    hide Owns, Possible, Happen, PerformStep, RaisedBy, Reached, Way, TaskTold;
    var e, c' := sys.s.execution, Tell(sys, c, event);
    match RaisedBy(sys, c, event)
    case Some(exc) =>
      PerformThrows(sys, c, event);
      ThrownTold(sys, sys', c, exc);
    case None =>
      if event.fault.Some? {
        FaultsAreRaised(sys, c, event);
        assert false;
      }
      PerformGoesOn(sys, c, event);
      GoneOnTold(sys, sys', c, event);
  }

  lemma FaultsAreRaised(sys: System, c: Chronicle, event: SystemEvent)
    requires event.ExecutionRuns? && sys.s.execution.Task? && event.fault.Some?
    ensures RaisedBy(sys, c, event).Some?
  {
  }

  /** An await raises exactly what the chronicle says. */
  lemma PerformThrows(sys: System, c: Chronicle, event: SystemEvent)
    requires event.ExecutionRuns? && sys.s.execution.Task? && Performing(sys.s.execution.at) && TaskTold(sys, c)
    requires RaisedBy(sys, c, event).Some?
    ensures ExecutionStep(sys, event.fault, event.audit, event.acknowledged, event.reply, event.now)
            == Throw(RaisedBy(sys, c, event).value)
  {
    hide Owns;
  }

  lemma ThrownTold(sys: System, sys': System, c: Chronicle, exc: Exc)
    requires sys.s.execution.Task? && Performing(sys.s.execution.at)
    requires TaskTold(sys, c) && RowTold(sys.w.db, c, sys.s.execution.sequence)
    requires sys'.w.db == sys.w.db && sys'.s == StepService(sys.s, Throw(exc))
    ensures TaskTold(sys', c.(raised := c.raised[sys.s.execution.sequence := exc]))
  {
    hide Way;
  }

  /** One milestone further. */
  predicate GoesOn(sys: System, event: SystemEvent, e': ExecutionTask)
    requires event.ExecutionRuns? && sys.s.execution.Task?
  {
    var e := sys.s.execution;
    && e'.Task? && e' == e.(at := e'.at, result := e'.result)
    && (e'.result == e.result || (e'.result.Some? && e'.result.value.taskId == e.taskId))
    && (e'.at.Over? || (Performing(e'.at) && Way(e'.at, e'.result) == Way(e.at, e.result) + Reached(sys, event)))
  }

  ghost predicate Quiet(sys: System, c: Chronicle, event: SystemEvent) {
    && event.ExecutionRuns? && sys.s.execution.Task? && Performing(sys.s.execution.at) && TaskTold(sys, c)
    && event.fault.None? && RaisedBy(sys, c, event).None?
  }

  function Performed(sys: System, event: SystemEvent): ExecutionTask
    requires event.ExecutionRuns? && sys.s.execution.Task?
  {
    StepService(sys.s, PerformStep(sys.s, sys.w.p, event.audit, event.acknowledged, event.reply, event.now)).execution
  }

  lemma CheckGoesOn(sys: System, c: Chronicle, event: SystemEvent)
    requires Quiet(sys, c, event) && sys.s.execution.at.DurableCheck?
    ensures GoesOn(sys, event, Performed(sys, event))
  {
  }

  lemma AuditGoesOn(sys: System, c: Chronicle, event: SystemEvent)
    requires Quiet(sys, c, event) && sys.s.execution.at.AuditCheck?
    ensures GoesOn(sys, event, Performed(sys, event))
  {
    hide Owns;
    var e := sys.s.execution;
    var point, durable := e.at.point, e.at.durable;
    assert Way(e.at, e.result) == Way(DurableCheck(point), e.result) + [if durable then Unsound(point) else Sound(point)];
    assert !durable by {
      hide Way;
    }
  }

  lemma AdapterGoesOn(sys: System, c: Chronicle, event: SystemEvent)
    requires Quiet(sys, c, event)
    requires sys.s.execution.at.Reserving? || sys.s.execution.at.Marking? || sys.s.execution.at.Finishing?
    ensures GoesOn(sys, event, Performed(sys, event))
  {
  }

  lemma RestGoesOn(sys: System, c: Chronicle, event: SystemEvent)
    requires Quiet(sys, c, event)
    requires sys.s.execution.at.Staging? || sys.s.execution.at.Recording? || sys.s.execution.at.Publishing?
    ensures GoesOn(sys, event, Performed(sys, event))
  {
  }

  lemma StartGoesOn(sys: System, c: Chronicle, event: SystemEvent)
    requires Quiet(sys, c, event) && sys.s.execution.at.NotStarted?
    ensures GoesOn(sys, event, Performed(sys, event))
  {
    assert [] + [] == Way(DurableCheck(AtStart), sys.s.execution.result);
  }

  lemma AnswerGoesOn(sys: System, c: Chronicle, event: SystemEvent)
    requires Quiet(sys, c, event) && sys.s.execution.at.Handling?
    ensures GoesOn(sys, event, Performed(sys, event))
  {
  }

  /** An await that raises nothing leads one milestone further. */
  lemma PerformGoesOn(sys: System, c: Chronicle, event: SystemEvent)
    requires Quiet(sys, c, event)
    ensures GoesOn(sys, event, Performed(sys, event))
  {
    hide Quiet, GoesOn, Performed;
    QuietPerforms(sys, c, event);
    var at := sys.s.execution.at;
    match at
    case NotStarted => StartGoesOn(sys, c, event);
    case DurableCheck(_) => CheckGoesOn(sys, c, event);
    case AuditCheck(_, _) => AuditGoesOn(sys, c, event);
    case Handling => AnswerGoesOn(sys, c, event);
    case Reserving => AdapterGoesOn(sys, c, event);
    case Marking => AdapterGoesOn(sys, c, event);
    case Finishing => AdapterGoesOn(sys, c, event);
    case Staging => RestGoesOn(sys, c, event);
    case Recording => RestGoesOn(sys, c, event);
    case Publishing => RestGoesOn(sys, c, event);
    case _ => assert false;
  }

  lemma QuietPerforms(sys: System, c: Chronicle, event: SystemEvent)
    requires Quiet(sys, c, event)
    ensures sys.s.execution.Task? && Performing(sys.s.execution.at)
  {
  }

  lemma GoneOnTold(sys: System, sys': System, c: Chronicle, event: SystemEvent)
    requires Quiet(sys, c, event) && StepsTo(sys, sys', event) && GoesOn(sys, event, sys'.s.execution)
    ensures var s := sys.s.execution.sequence;
            TaskTold(sys', c.(path := c.path[s := PathOf(c, s) + Reached(sys, event)]))
  {
    hide Way, Reached, ExecutionStep, StepService, RaisedBy;
  }

  // ---------------------------------------------------------------- the handler runs

  ghost predicate Handles(sys: System, sys': System, c: Chronicle, event: SystemEvent) {
    && event.ExecutionRuns? && sys.s.execution.Task? && InHandler(sys.s.execution.at)
    && StepsTo(sys, sys', event) && TaskTold(sys, c)
    && ExecutionCanRun(sys, event.fault.Some?)
    && sys'.s.execution.Task?
    && (sys'.s.execution.at.Over? ==> SettledRow(sys.w.db, sys.s.execution.sequence) || sys'.s.blocked)
  }

  function Doubts(sys: System, c: Chronicle, event: SystemEvent): Chronicle
    requires event.ExecutionRuns? && sys.s.execution.Task?
  {
    if CastsDoubt(sys, event) then c.(doubted := c.doubted + {sys.s.execution.sequence}) else c
  }

  lemma InspectingTold(sys: System, sys': System, c: Chronicle, event: SystemEvent)
    requires Handles(sys, sys', c, event) && sys.s.execution.at.Inspecting?
    ensures TaskTold(sys', Doubts(sys, c, event))
  {
    hide Way, Owns, PerformStep, GivenUp;
  }

  lemma RereadingTold(sys: System, sys': System, c: Chronicle, event: SystemEvent)
    requires Handles(sys, sys', c, event) && sys.s.execution.at.Rereading?
    ensures TaskTold(sys', Doubts(sys, c, event))
  {
    hide Way, Owns, HandlerStep, PerformStep, GivenUp, ExecutionCanRun;
    assert ReadsOn(sys, event, sys'.s.execution) by {
      RereadingStep(sys, sys', event);
    }
  }

  /** Where the row that was read again leads. */
  predicate ReadsOn(sys: System, event: SystemEvent, e': ExecutionTask)
    requires event.ExecutionRuns? && sys.s.execution.Task? && sys.s.execution.at.Rereading?
  {
    var e, exc, pending := sys.s.execution, sys.s.execution.at.exc, sys.s.execution.at.pending;
    && e'.Task? && e' == e.(at := e'.at)
    && (e'.at.Over?
        || (&& Execution in sys.w.p.done && sys.w.p.done[Execution].Ok? && sys.w.p.done[Execution].value.RecordReply?
            && var doubt := pending || exc.uncertain || sys.w.p.done[Execution].value.row.result.Some?;
            && ((e'.at.Refunding? && e'.at.exc == exc && !doubt)
                || (e'.at.Settling? && e'.at.uncertain == doubt && e'.at.code == if doubt then Uncertainty else exc.code))))
  }

  lemma RereadingStep(sys: System, sys': System, event: SystemEvent)
    requires event.ExecutionRuns? && sys.s.execution.Task? && sys.s.execution.at.Rereading?
    requires sys'.s == StepService(sys.s, ExecutionStep(sys, event.fault, event.audit, event.acknowledged, event.reply, event.now))
    ensures ReadsOn(sys, event, sys'.s.execution)
  {
    hide Owns, PerformStep;
  }

  lemma RefundingTold(sys: System, sys': System, c: Chronicle, event: SystemEvent)
    requires Handles(sys, sys', c, event) && sys.s.execution.at.Refunding?
    ensures TaskTold(sys', Doubts(sys, c, event))
  {
    hide Way, Owns, HandlerStep, PerformStep, GivenUp, ExecutionCanRun;
    assert GivesBack(sys, event, sys'.s.execution) by {
      RefundingStep(sys, sys', event);
    }
  }

  /** Where the backend's answer leads. */
  predicate GivesBack(sys: System, event: SystemEvent, e': ExecutionTask)
    requires event.ExecutionRuns? && sys.s.execution.Task? && sys.s.execution.at.Refunding?
  {
    var e, failed := sys.s.execution, sys.w.p.answer.Some? && sys.w.p.answer.value.Raised?;
    && e'.Task? && e' == e.(at := e'.at)
    && (e'.at.Over?
        || (event.fault.None? && e'.at.Settling? && e'.at.uncertain == failed
            && e'.at.code == if failed then Uncertainty else e.at.exc.code))
  }

  lemma RefundingStep(sys: System, sys': System, event: SystemEvent)
    requires event.ExecutionRuns? && sys.s.execution.Task? && sys.s.execution.at.Refunding?
    requires sys'.s == StepService(sys.s, ExecutionStep(sys, event.fault, event.audit, event.acknowledged, event.reply, event.now))
    ensures GivesBack(sys, event, sys'.s.execution)
  {
    hide Owns, PerformStep;
  }

  lemma SettlingTold(sys: System, sys': System, c: Chronicle, event: SystemEvent)
    requires Handles(sys, sys', c, event) && sys.s.execution.at.Settling?
    ensures TaskTold(sys', Doubts(sys, c, event))
  {
    hide Way, Owns, PerformStep, GivenUp, InDoubt;
  }

  lemma HandlerTold(sys: System, sys': System, c: Chronicle, event: SystemEvent)
    requires Handles(sys, sys', c, event)
    ensures TaskTold(sys', Doubts(sys, c, event))
  {
    hide Handles, Doubts, TaskTold;
    assert sys.s.execution.Task? && InHandler(sys.s.execution.at) by {
      HandlesHandles(sys, sys', c, event);
    }
    match sys.s.execution.at
    case Inspecting(_) => InspectingTold(sys, sys', c, event);
    case Rereading(_, _) => RereadingTold(sys, sys', c, event);
    case Refunding(_, _) => RefundingTold(sys, sys', c, event);
    case Settling(_, _, _) => SettlingTold(sys, sys', c, event);
    case _ => assert false;
  }

  lemma HandlesHandles(sys: System, sys': System, c: Chronicle, event: SystemEvent)
    requires Handles(sys, sys', c, event)
    ensures event.ExecutionRuns? && sys.s.execution.Task? && InHandler(sys.s.execution.at)
  {
    hide ExecutionStep, TaskTold;
  }

  lemma ExecutionMoves(sys: System, event: SystemEvent)
    requires SysInv(sys) && event.ExecutionRuns? && ExecutionCanRun(sys, event.fault.Some?)
    ensures sys.s.execution.Task? && !sys.s.execution.at.Over?
    ensures OwnerServiceSafety.Moved(sys, ApplyStep(sys, ExecutionStep(sys, event.fault, event.audit, event.acknowledged, event.reply, event.now)))
    ensures StepFits(sys, ExecutionStep(sys, event.fault, event.audit, event.acknowledged, event.reply, event.now))
  {
    hide Inv, WaitInv, ExecutionInv, GateInv, OpenInv, TraceInv, PerformStep, HandlerStep, ApplyStep, OwnerServiceSafety.Moved, ExecutionCanRun;
    RunIsTask(sys, event.fault.Some?);
    if InHandler(sys.s.execution.at) {
      HandlerFits(sys, event.fault.Some?, event.audit, event.now);
    } else if event.fault.None? {
      StoreHasAnswered(sys);
      PerformFits(sys, event.audit, event.acknowledged, event.reply, event.now);
    }
    ApplyMoves(sys, event.fault.Some?, ExecutionStep(sys, event.fault, event.audit, event.acknowledged, event.reply, event.now));
  }

  lemma StoreHasAnswered(sys: System)
    requires ExecutionCanRun(sys, false)
    ensures AwaitsStore(sys.s.execution.at) ==> Execution in sys.w.p.done
  {
  }

  lemma QuitFits(sys: System, sys': System, event: SystemEvent)
    requires event.ExecutionRuns? && sys.s.execution.Task? && InHandler(sys.s.execution.at) && StepsTo(sys, sys', event)
    requires StepFits(sys, ExecutionStep(sys, event.fault, event.audit, event.acknowledged, event.reply, event.now))
    ensures sys'.s.execution.Task?
    ensures sys'.s.execution.at.Over? ==> SettledRow(sys.w.db, sys.s.execution.sequence) || sys'.s.blocked
  {
    hide ExecutionStep, Progress, SettledRow;
  }

  lemma ExecutionTask(sys: System, sys': System, c: Chronicle, event: SystemEvent)
    requires SysInv(sys) && Tells(sys, c) && event.ExecutionRuns? && Possible(sys, event)
    requires sys.s.execution.Task? && !sys.s.execution.at.Over? && StepsTo(sys, sys', event)
    requires StepFits(sys, ExecutionStep(sys, event.fault, event.audit, event.acknowledged, event.reply, event.now))
    ensures TaskTold(sys', Tell(sys, c, event))
  {
    hide SysInv, RowTold, TaskTold, Unknown, ExecutionStep, StepsTo, RaisedBy, Reached, Happen, ExecutionCanRun, StepFits, CastsDoubt;
    assert RowTold(sys.w.db, c, sys.s.execution.sequence);
    if Performing(sys.s.execution.at) {
      PerformTold(sys, sys', c, event);
    } else {
      QuitFits(sys, sys', event);
      assert Handles(sys, sys', c, event);
      HandlerTold(sys, sys', c, event);
    }
  }

  /** The rows are as they were; the chronicle has learnt of the execution's own turn only. */
  lemma ExecutionRow(sys: System, c: Chronicle, event: SystemEvent, t: nat)
    requires event.ExecutionRuns? && Possible(sys, event) && sys.s.execution.Task? && !sys.s.execution.at.Over?
    requires TaskTold(sys, c) && RowTold(sys.w.db, c, t) && RowTold(sys.w.db, c, sys.s.execution.sequence)
    ensures RowTold(sys.w.db, Tell(sys, c, event), t)
  {
    hide RaisedBy, Reached, Happen, ExecutionCanRun;
    var e, c' := sys.s.execution, Tell(sys, c, event);
    if t == e.sequence && Performing(e.at) && c'.path != c.path {
      assert PathOf(c, t) + [] == PathOf(c, t);
      if CompletedAt(sys.w.db, t) && sys.w.db.rows[t].result.Some? {
        WaysDiffer(e.at, e.result, sys.w.db.rows[t].result);
      }
      PublishingReachesNothing(sys, event);
    }
  }

  lemma PublishingReachesNothing(sys: System, event: SystemEvent)
    requires event.ExecutionRuns? && sys.s.execution.Task?
    ensures sys.s.execution.at.Publishing? ==> Reached(sys, event) == []
  {
  }

  /** Only before its commit has a turn come all the way. */
  lemma WaysDiffer(at: Spot, a: Option<TurnResult>, b: Option<TurnResult>)
    ensures Way(at, a) == Way(Publishing, b) ==> at.Publishing?
  {
    LastOfWay(at, a);
    LastOfWay(Publishing, b);
  }

  lemma LastOfWay(at: Spot, result: Option<TurnResult>)
    ensures at.Publishing? <==> Way(at, result) != [] && Way(at, result)[|Way(at, result)| - 1] == Cleared(AfterFinish)
  {
    hide Way;
    if at.Staging? {
      StagingEnds(result);
    } else {
      OtherEnds(at, result);
    }
  }

  lemma OtherEnds(at: Spot, result: Option<TurnResult>)
    requires !at.Staging?
    ensures at.Publishing? <==> Way(at, result) != [] && Way(at, result)[|Way(at, result)| - 1] == Cleared(AfterFinish)
  {
  }

  lemma StagingEnds(result: Option<TurnResult>)
    ensures var way := Way(Staging, result); way != [] && way[|way| - 1] != Cleared(AfterFinish)
  {
    var before := Way(Handling, result);
    assert before[|before| - 1] == Cleared(AfterMark);
  }

  /** What the chronicle does not know, it has not learnt from the execution of another turn. */
  lemma ExecutionLearns(sys: System, c: Chronicle, event: SystemEvent, t: nat)
    requires event.ExecutionRuns? && Possible(sys, event) && sys.s.execution.Task?
    requires Unknown(c, t) && t != sys.s.execution.sequence
    ensures Unknown(Tell(sys, c, event), t)
  {
    hide RaisedBy, Reached, Happen, ExecutionCanRun;
  }

  lemma RunsAre(sys: System, c: Chronicle, event: SystemEvent)
    requires event.ExecutionRuns? && Possible(sys, event) && sys.s.execution.Task?
    ensures Happen(sys, event) == ApplyStep(sys, ExecutionStep(sys, event.fault, event.audit, event.acknowledged, event.reply, event.now))
    ensures ExecutionCanRun(sys, event.fault.Some?) && Tell(sys, c, event).ran == c.ran
  {
    hide ExecutionStep, ApplyStep, RaisedBy, Reached, ExecutionCanRun;
  }

  lemma MovedIs(sys: System, sys': System)
    requires OwnerServiceSafety.Moved(sys, sys')
    ensures sys'.w.db == sys.w.db && Execution !in sys'.w.p.done && sys'.s.gate == sys.s.gate && SameReply(sys.w.p, sys'.w.p, Gate)
  {
    hide Progress;
  }

  /** While an execution is under way no turn has just been admitted. */
  lemma NobodyWaits(sys: System)
    requires SysInv(sys) && sys.s.execution.Task? && !sys.s.execution.at.Over?
    ensures !AdmissionPending(sys)
    ensures IsTurn(sys.w.db, sys.s.execution.sequence)
  {
    hide Inv, WaitInv, OpenInv, TraceInv, ReplyMeans, NoUncertain;
  }

  lemma ExecutionTells(sys: System, c: Chronicle, event: SystemEvent)
    requires SysInv(sys) && Tells(sys, c) && event.ExecutionRuns? && Possible(sys, event)
    ensures Tells(Happen(sys, event), Tell(sys, c, event))
  {
    hide SysInv, RowTold, TaskTold, ExecutionStep, ApplyStep, RaisedBy, Reached, Happen, ExecutionCanRun, Unknown, Tell,
         OwnerServiceSafety.Moved, StepFits;
    PossibleFacts(sys, event);
    RunsAre(sys, c, event);
    ExecutionMoves(sys, event);
    var sys', c' := Happen(sys, event), Tell(sys, c, event);
    MovedIs(sys, sys');
    NobodyWaits(sys);
    AppliedFields(sys, event);
    ExecutionTask(sys, sys', c, event);
    forall s ensures RowTold(sys'.w.db, c', s) {
      assert RowTold(sys.w.db, c, s) && RowTold(sys.w.db, c, sys.s.execution.sequence);
      ExecutionRow(sys, c, event, s);
    }
    forall s | s !in sys'.w.db.rows ensures Unknown(c', s) {
      assert Unknown(c, s);
      ExecutionLearns(sys, c, event, s);
    }
  }

  lemma AppliedFields(sys: System, event: SystemEvent)
    requires event.ExecutionRuns? && sys.s.execution.Task?
    ensures var step := ExecutionStep(sys, event.fault, event.audit, event.acknowledged, event.reply, event.now);
            ApplyStep(sys, step).s == StepService(sys.s, step)
  {
    hide ExecutionStep, ExecutionTakes, RevokeHeld;
  }

  // ---------------------------------------------------------------- the other events

  lemma NeverStartedTells(sys: System, c: Chronicle)
    requires SysInv(sys) && Tells(sys, c) && Possible(sys, ExecutionNeverStarts)
    ensures Tells(Happen(sys, ExecutionNeverStarts), c)
  {
    hide SysInv, RowTold, Unknown, Way, Happen, Possible;
    NeverStartsIs(sys);
    var sys' := Happen(sys, ExecutionNeverStarts);
    forall t | JustAdmitted(sys', t) ensures Unknown(c, t) {
      assert JustAdmitted(sys, t);
    }
    forall s ensures RowTold(sys'.w.db, c, s) {
      assert RowTold(sys.w.db, c, s);
    }
  }

  lemma LaunchTells(sys: System, sys': System, c: Chronicle)
    requires Tells(sys, c) && Launches(sys, sys')
    ensures Tells(sys', c)
  {
    hide RowTold, Unknown;
    var t := sys'.s.execution.sequence;
    assert JustAdmitted(sys, t);
    LaunchedTold(sys', c);
    forall s ensures RowTold(sys'.w.db, c, s) {
      assert RowTold(sys.w.db, c, s);
    }
  }

  lemma LaunchedTold(sys: System, c: Chronicle)
    requires sys.s.execution.Task? && sys.s.execution.at.NotStarted? && sys.s.execution.result.None?
    requires Unknown(c, sys.s.execution.sequence)
    ensures TaskTold(sys, c)
  {
  }

  lemma CrashTells(sys: System, c: Chronicle)
    requires Tells(sys, c)
    ensures Tells(System(Next(sys.w, Crash), NewService(sys.s.owner), sys.trace), c)
  {
    hide RowTold, Unknown;
    forall s ensures RowTold(sys.w.db, c, s) {
      assert RowTold(sys.w.db, c, s);
    }
  }

  lemma BeginTells(sys: System, client: Client, op: Op, now: real, c: Chronicle)
    requires Tells(sys, c) && CanBegin(sys.w.p, client, op)
    ensures Tells(sys.(w := BeginStep(sys.w, client, op, now)), c)
  {
    hide Tells, BeginStep, CanBegin;
    BeginOnlyErrors(sys, client, op, now);
    StillTells(sys, sys.(w := BeginStep(sys.w, client, op, now)), c);
  }

  lemma RollBackTells(sys: System, c: Chronicle)
    requires Tells(sys, c) && sys.w.p.tx.Some?
    ensures Tells(sys.(w := RollBackStep(sys.w)), c)
  {
    hide Tells;
    StillTells(sys, sys.(w := RollBackStep(sys.w)), c);
  }

  lemma ResumeTells(sys: System, interrupted: bool, backend: Backend, token: nat, now: real, c: Chronicle)
    requires Tells(sys, c) && CanResume(sys.w.p)
    ensures Tells(sys.(w := ResumeStep(sys.w, interrupted, backend, token, now)), c)
  {
    hide Tells, ResumeMove, CanResume, AwaitedOp;
    StillTells(sys, sys.(w := ResumeStep(sys.w, interrupted, backend, token, now)), c);
  }

  lemma CallTells(sys: System, call: Call, now: real, c: Chronicle)
    requires Tells(sys, c) && sys.w.p.frame.Idle?
    ensures Tells(sys.(w := StartStep(sys.w, call, now)), c)
  {
    hide Tells, StartMove, MovedProcess;
    MovedFrame(sys.w.p.(answer := None), call, StartMove(sys.w.p, call, now));
    StillTells(sys, sys.(w := StartStep(sys.w, call, now)), c);
  }

  lemma TakeTells(sys: System, c: Chronicle)
    requires Tells(sys, c) && Enabled(sys.w, Take(Caller))
    ensures Tells(sys.(w := Next(sys.w, Take(Caller))), c)
  {
    hide Tells, Next, Enabled;
    TakeIs(sys.w, Caller);
    StillTells(sys, sys.(w := Next(sys.w, Take(Caller))), c);
  }

  lemma EnterTells(sys: System, entry: Entry, c: Chronicle)
    requires Tells(sys, c) && CanEnter(sys.s, entry)
    ensures Tells(Enter(sys, entry), c)
  {
    hide Tells;
    StillTells(sys, Enter(sys, entry), c);
  }

  lemma StopTells(sys: System, c: Chronicle)
    requires Tells(sys, c)
    ensures Tells(StopCalled(sys), c)
  {
    hide Tells;
    StillTells(sys, StopCalled(sys), c);
  }

  /** The gate's call leaves the execution alone, tells it to cancel, or launches a new one. */
  predicate TaskKept(s: Service, s': Service) {
    SameTask(s.execution, s'.execution) && (s.blocked ==> s'.blocked)
  }

  lemma SubmitTask(s: Service, outcome: Outcome<Reply>, audit: AuditAnswer)
    requires s.gate.Submitting? && !s.gate.submit.SAdmit?
    ensures TaskKept(s, SubmitRuns(s, outcome, audit))
  {
  }

  lemma CancelTaskKept(s: Service, outcome: Outcome<Reply>)
    requires s.gate.Cancelling?
    ensures TaskKept(s, CancelRuns(s, outcome))
  {
  }

  lemma OtherTask(s: Service, outcome: Outcome<Reply>, audit: AuditAnswer)
    requires s.gate.Free? || s.gate.Starting? || s.gate.Stopping?
    ensures TaskKept(s, GateService(s, outcome, audit))
  {
  }

  lemma GateTask(sys: System, audit: AuditAnswer)
    requires GateCanRun(sys)
    ensures AdmissionPending(sys) || TaskKept(sys.s, GateService(sys.s, TakenFor(sys.w.p, Gate), audit))
  {
    hide TaskKept, SubmitRuns, CancelRuns, StartRuns, StopRuns, GateCanRun;
    var outcome := TakenFor(sys.w.p, Gate);
    match sys.s.gate
    case Submitting(_, _, _, at) =>
      if !at.SAdmit? {
        SubmitTask(sys.s, outcome, audit);
      }
    case Cancelling(_, _, _) => CancelTaskKept(sys.s, outcome);
    case _ => OtherTask(sys.s, outcome, audit);
  }

  lemma StillAfterGate(sys: System, sys': System, c: Chronicle)
    requires Tells(sys, c) && TookReply(sys.w, sys'.w) && TaskKept(sys.s, sys'.s)
    ensures Tells(sys', c)
  {
    hide Tells;
    StillTells(sys, sys', c);
  }

  lemma GateTells(sys: System, audit: AuditAnswer, c: Chronicle)
    requires SysInv(sys) && Tells(sys, c) && GateCanRun(sys)
    ensures Tells(GateRuns(sys, audit), c)
  {
    hide SysInv, Tells, GateRuns, GateService, GateCanRun, Launches, TookReply, GateWorld, TaskKept;
    SysHasWorld(sys);
    GateRunsFields(sys, audit);
    GateRunsWorld(sys, audit);
    GateWorldTook(sys, GateService(sys.s, TakenFor(sys.w.p, Gate), audit));
    GateAlone(sys);
    GateTask(sys, audit);
    if AdmissionPending(sys) {
      var outcome := sys.w.p.done[Gate];
      if outcome.Ok? && outcome.value.RecordReply? && !outcome.value.replayed && outcome.value.row.turn.Some? {
        SubmitLaunches(sys, audit);
        LaunchTells(sys, GateRuns(sys, audit), c);
      } else {
        AdmissionFails(sys, audit);
        StillAfterGate(sys, GateRuns(sys, audit), c);
      }
    } else {
      StillAfterGate(sys, GateRuns(sys, audit), c);
    }
  }

  lemma GateRunsWorld(sys: System, audit: AuditAnswer)
    requires GateCanRun(sys)
    ensures GateRuns(sys, audit).w == GateWorld(sys, GateService(sys.s, TakenFor(sys.w.p, Gate), audit))
  {
    hide GateWorld, GateService, GateCanRun;
  }

  lemma AdmissionFails(sys: System, audit: AuditAnswer)
    requires AdmissionPending(sys) && Gate in sys.w.p.done
    requires var outcome := sys.w.p.done[Gate];
             !(outcome.Ok? && outcome.value.RecordReply? && !outcome.value.replayed && outcome.value.row.turn.Some?)
    ensures TaskKept(sys.s, GateService(sys.s, TakenFor(sys.w.p, Gate), audit))
  {
  }

  /** The chronicle stays true whatever happens. */
  lemma HappenTells(sys: System, c: Chronicle, event: SystemEvent)
    requires SysInv(sys) && Tells(sys, c) && Possible(sys, event)
    ensures Tells(Happen(sys, event), Tell(sys, c, event))
  {
    hide SysInv, Tells, BeginStep, CommitStep, RollBackStep, ResumeStep, StartStep, ApplyStep, ExecutionStep, RaisedBy,
         GateRuns, Enter, StopCalled, ExecutionCanRun, GateCanRun, ExecutionMay, GateMay, CallerMay, AwaitedOp, Reached,
         Perform, ExecutionCalls, CanBegin;
    match event
    case BeginGate(op, now) => BeginTells(sys, Gate, op, now, c);
    case BeginExecution(op, now) => BeginTells(sys, Execution, op, now, c);
    case BeginCaller(op, now) => BeginTells(sys, Caller, op, now, c);
    case BeginAdapter(op, now) => BeginTells(sys, Adapter, op, now, c);
    case TakeCaller => TakeTells(sys, c);
    case CommitTx =>
      CommitIsTold(sys, c);
      CommitTells(sys, c);
    case RollBackTx => RollBackTells(sys, c);
    case AdapterResumes(interrupted, backend, token, now) => ResumeTells(sys, interrupted, backend, token, now, c);
    case ExecutionCallsAdapter(call, now) => CallTells(sys, call, now, c);
    case ExecutionRuns(_, _, _, _, _) => ExecutionTells(sys, c, event);
    case ExecutionNeverStarts => NeverStartedTells(sys, c);
    case GateProceeds(audit) => GateTells(sys, audit, c);
    case Enters(entry) => EnterTells(sys, entry, c);
    case StopIsCalled => StopTells(sys, c);
    case ProcessCrashes => CrashTells(sys, c);
  }

  lemma {:induction false} RunTells(sys: System, c: Chronicle, events: seq<SystemEvent>)
    requires SysInv(sys) && Tells(sys, c)
    ensures Tells(RunSystem(sys, events), Told(sys, c, events)) && SysInv(RunSystem(sys, events))
    decreases |events|
  {
    hide SysInv, Tells, Happen, Possible, Tell;
    if events != [] {
      if Possible(sys, events[0]) {
        HappenKeeps(sys, events[0]);
        HappenTells(sys, c, events[0]);
        RunTells(Happen(sys, events[0]), Tell(sys, c, events[0]), events[1..]);
      } else {
        RunTells(sys, c, events[1..]);
      }
    }
  }

  lemma NothingTells(owner: Id)
    ensures Tells(StartSystem(owner), NOTHING_KNOWN)
  {
  }

  lemma EveryRunTells(owner: Id, events: seq<SystemEvent>)
    ensures var sys, c := RunSystem(StartSystem(owner), events), Told(StartSystem(owner), NOTHING_KNOWN, events);
            Tells(sys, c) && SysInv(sys)
  {
    hide SysInv, Tells;
    SystemStarts(owner);
    NothingTells(owner);
    RunTells(StartSystem(owner), NOTHING_KNOWN, events);
  }

  // ---------------------------------------------------------------- how turns end

  /** Over every run: a turn FAILED or DENIED raised an exception that leaves no doubt, the audit was
      clear afterwards, a request that was given back was taken back, and no result had been staged;
      its error is the exception's; and it FAILED if it ever ran and was DENIED if it did not. A turn
      is UNCERTAIN only for a reason: an uncertain exception, a doubt of the audit's or of the
      backend's, a result already staged, or a restart that found it open. */
  lemma SettledAsRaised(owner: Id, events: seq<SystemEvent>, s: nat)
    ensures var sys, c := RunSystem(StartSystem(owner), events), Told(StartSystem(owner), NOTHING_KNOWN, events);
            IsTurn(sys.w.db, s) ==>
              var row := sys.w.db.rows[s];
              && (row.state == Failed || row.state == Denied ==>
                    && s in c.raised && !c.raised[s].uncertain && s !in c.doubted && row.result == None
                    && row.errorCode == Some(c.raised[s].code) && (row.state == Failed <==> s in c.ran))
              && (row.state == Uncertain ==>
                    && ((s in c.raised && c.raised[s].uncertain) || s in c.doubted || row.result.Some?)
                    && row.errorCode == Some(Uncertainty))
  {
    hide SysInv, RunSystem, Told, Way;
    EveryRunTells(owner, events);
    assert RowTold(RunSystem(StartSystem(owner), events).w.db, Told(StartSystem(owner), NOTHING_KNOWN, events), s);
  }

  /** Over every run: once the execution that raised is over, its turn is settled or the service is
      blocked; and in doubt it is never settled as FAILED or DENIED. */
  lemma DoubtIsSettled(owner: Id, events: seq<SystemEvent>)
    ensures var sys, c := RunSystem(StartSystem(owner), events), Told(StartSystem(owner), NOTHING_KNOWN, events);
            sys.s.execution.Task? && sys.s.execution.at.Over? ==>
              var s := sys.s.execution.sequence;
              && s in sys.w.db.rows
              && var row := sys.w.db.rows[s];
              && (s in c.raised ==> Terminal(row.state) || sys.s.blocked)
              && (s in c.raised && (c.raised[s].uncertain || s in c.doubted || row.result.Some?) ==>
                    row.state == Uncertain || row.state == Completed || row.state == Cancelled || sys.s.blocked)
  {
    hide Inv, WaitInv, GateInv, OpenInv, TraceInv, RunSystem, Told, Way;
    EveryRunTells(owner, events);
    var sys, c := RunSystem(StartSystem(owner), events), Told(StartSystem(owner), NOTHING_KNOWN, events);
    if sys.s.execution.Task? {
      assert RowTold(sys.w.db, c, sys.s.execution.sequence);
    }
  }

  /** Over every run: a request is given back only for a turn that raised without leaving a doubt,
      found the audit clear and had staged nothing. */
  lemma RefundsOnlyTheCertain(owner: Id, events: seq<SystemEvent>, call: Call)
    ensures var sys, c := RunSystem(StartSystem(owner), events), Told(StartSystem(owner), NOTHING_KNOWN, events);
            ExecutionCalls(sys.s, call) && call.FinishRequest? && !call.success ==>
              var s := sys.s.execution.sequence;
              s in c.raised && !c.raised[s].uncertain && s !in c.doubted && s in sys.w.db.rows && sys.w.db.rows[s].result == None
  {
    hide SysInv, RunSystem, Told, Way, RowTold;
    EveryRunTells(owner, events);
  }

  /** Over every run: a COMPLETED turn has come all the way, each await once and in order, with the
      store and the audit clear each of the four times they were asked, and its result is the one
      the butler gave. */
  lemma CompletedCameAllTheWay(owner: Id, events: seq<SystemEvent>, s: nat)
    ensures var sys, c := RunSystem(StartSystem(owner), events), Told(StartSystem(owner), NOTHING_KNOWN, events);
            CompletedAt(sys.w.db, s) ==>
              && sys.w.db.rows[s].result.Some?
              && PathOf(c, s) ==
                 [Sound(AtStart), Cleared(AtStart), GotLease, SetRunning, Sound(AfterMark), Cleared(AfterMark),
                  Replied(sys.w.db.rows[s].result.value), WasStaged, WasRecorded, Sound(AfterRecord), Cleared(AfterRecord),
                  QuotaDone, Sound(AfterFinish), Cleared(AfterFinish)]
  {
    hide SysInv, RunSystem, Told, Way;
    EveryRunTells(owner, events);
    var sys, c := RunSystem(StartSystem(owner), events), Told(StartSystem(owner), NOTHING_KNOWN, events);
    assert RowTold(sys.w.db, c, s);
    if CompletedAt(sys.w.db, s) && sys.w.db.rows[s].result.Some? {
      WholeWay(sys.w.db.rows[s].result.value);
    }
  }

  lemma WholeWay(r: TurnResult)
    ensures Way(Publishing, Some(r)) ==
            [Sound(AtStart), Cleared(AtStart), GotLease, SetRunning, Sound(AfterMark), Cleared(AfterMark), Replied(r),
             WasStaged, WasRecorded, Sound(AfterRecord), Cleared(AfterRecord), QuotaDone, Sound(AfterFinish), Cleared(AfterFinish)]
  {
    assert Way(Handling, Some(r)) ==
           [Sound(AtStart), Cleared(AtStart), GotLease, SetRunning, Sound(AfterMark), Cleared(AfterMark)];
    assert Way(Finishing, Some(r)) ==
           Way(Handling, Some(r)) + [Replied(r), WasStaged, WasRecorded, Sound(AfterRecord), Cleared(AfterRecord)];
  }

  // ---------------------------------------------------------------- what admits a turn

  function At(s: Service, submit: SubmitStage): Holder
    requires s.gate.Submitting?
  {
    Submitting(s.gate.requestId, s.gate.threadId, s.gate.message, submit)
  }

  /** A submission goes on to the store's admission exactly when the workspace is this process's own,
      the service ready and not stopping, the request new, no execution under way, no turn
      uncertain, the audit clear and the service not blocked, each asked for in turn; anything
      else frees the gate and changes nothing. */
  lemma SubmitGoesOn(s: Service, outcome: Outcome<Reply>, audit: AuditAnswer)
    requires s.gate.Submitting? && !s.gate.submit.SAdmit?
    ensures var s' := SubmitRuns(s, outcome, audit);
            && (s'.gate == At(s, SLookup) <==>
                  && s.gate.submit.SScope? && outcome.Ok? && outcome.value.WorkspaceReply? && s.ready && !s.stopping
                  && (s.workspace == "" || s.workspace == outcome.value.workspace))
            && (s'.gate == At(s, SDurable) <==>
                  s.gate.submit.SLookup? && outcome.Err? && outcome.error.code == NotFound && ExecutionIdle(s.execution))
            && (s'.gate.Submitting? && s'.gate.submit.SAudit? ==>
                  s.gate.submit.SDurable? && outcome == Ok(FlagReply(s'.gate.submit.durable)))
            && (s'.gate == At(s, SAdmit) <==>
                  s.gate.submit == SAudit(false) && audit.Clear? && !s.blocked && !s.stopping)
            && s' == s.(gate := s'.gate, workspace := s'.workspace)
            && (s'.gate.Free? ==> s' == s.(gate := Free))
  {
  }

  /** Only a turn that the store has just admitted anew starts an execution, and every such turn does. */
  lemma AdmissionStarts(s: Service, outcome: Outcome<Reply>, audit: AuditAnswer)
    requires s.gate.Submitting? && s.gate.submit.SAdmit?
    ensures var s' := SubmitRuns(s, outcome, audit);
            if outcome.Ok? && outcome.value.RecordReply? && !outcome.value.replayed && outcome.value.row.turn.Some? then
              var row := outcome.value.row;
              s' == s.(gate := Free, activeTask := Some(row.turn.value.taskId),
                       execution := Task(outcome.value.sequence, row.requestId, row.turn.value.taskId, NotStarted, false, None))
            else s' == s.(gate := Free)
  {
  }

  // ---------------------------------------------------------------- cancel, start and stop

  /** The adapter holds a lease no longer, if it ever did, and nothing else has changed. */
  predicate LeaseDropped(w: World, w': World, lease: Option<Lease>) {
    && w'.db == w.db && w'.h == w.h
    && w'.p == w.p.(owned := if lease.Some? && HoldsLease(w.p, lease.value) then w.p.owned - {lease.value.sequence} else w.p.owned)
  }

  /** Cancelling the active task revokes its lease, tells a live execution to cancel and waits for it;
      cancelling any other task only reads it again. A cancellation the store refuses changes
      nothing. */
  lemma CancelGoesOn(sys: System, audit: AuditAnswer)
    requires GateCanRun(sys) && sys.s.gate.Cancelling? && sys.s.gate.cancel.CRequest?
    ensures var s, sys' := sys.s, GateRuns(sys, audit);
            var taken := GateTakes(sys.w);
            if TakenFor(sys.w.p, Gate).Err? then sys'.s == s.(gate := Free) && sys'.w == taken
            else if s.activeTask == Some(s.gate.taskId) && s.execution.Task? then
              && LeaseDropped(taken, sys'.w, s.lease)
              && sys'.s == s.(gate := Cancelling(s.gate.taskId, s.gate.requestId, CAwait), execution := sys'.s.execution)
              && (if s.execution.at.Over? then sys'.s.execution == s.execution
                  else sys'.s.execution == s.execution.(cancelling := true))
            else sys'.s == s.(gate := Cancelling(s.gate.taskId, s.gate.requestId, CRead)) && sys'.w == taken
  {
    hide GateTakes, GateCanRun, HoldsLease;
  }

  /** Starting opens the store, and makes the service ready exactly when recovery has succeeded;
      otherwise the adapter is closed and the service closed for good. */
  lemma StartGoesOnTo(sys: System, audit: AuditAnswer)
    requires GateCanRun(sys) && sys.s.gate.Starting?
    ensures var s, sys' := sys.s, GateRuns(sys, audit);
            if s.gate == Starting(TInit) && !audit.AuditFails? then
              sys'.s == s.(gate := Starting(TRecover)) && sys'.w.p.ready && sys'.w.p.adapterClosed == sys.w.p.adapterClosed
            else if s.gate == Starting(TRecover) && TakenFor(sys.w.p, Gate).Ok? then
              sys'.s == s.(ready := true, gate := Free) && sys'.w == GateTakes(sys.w)
            else
              && sys'.s == s.(ready := false, closed := true, gate := Stopping(PCloseStore))
              && sys'.w.p.adapterClosed && sys'.w.p.owned == map[]
  {
    hide GateCanRun;
    InitializeAfterTake(sys.w);
    GateNeeds(sys);
  }

  /** Stopping first refuses and fences, revoking the lease; then waits for the execution, asks the
      audit, closes the adapter, and only then the store. */
  lemma StopGoesOn(sys: System, audit: AuditAnswer)
    ensures var stopped := StopCalled(sys);
            && stopped.s == sys.s.(stopping := true) && stopped.w.p.publicationClosed
            && LeaseDropped(sys.w, stopped.w.(p := stopped.w.p.(publicationClosed := sys.w.p.publicationClosed)), sys.s.lease)
    ensures sys.s.gate.Stopping? && GateCanRun(sys) ==>
              var s, sys' := sys.s, GateRuns(sys, audit);
              match s.gate.stop
              case PAwait => ExecutionIdle(s.execution) && sys'.s == s.(gate := Stopping(PAudit)) && sys'.w.p.storeClosed == sys.w.p.storeClosed
              case PAudit =>
                && sys'.s == s.(ready := false, closed := true, gate := Stopping(PCloseStore),
                                blocked := s.blocked || (s.ready && audit == AuditFails))
                && sys'.w.p.adapterClosed && sys'.w.p.owned == map[] && sys'.w.p.storeClosed == sys.w.p.storeClosed
              case PCloseStore => sys'.s == s.(gate := Free) && sys'.w.p.storeClosed && !sys'.w.p.ready
  {
    InitializeAfterTake(sys.w);
    if sys.s.gate.Stopping? && GateCanRun(sys) {
      StopStagesMean(sys, audit);
    }
  }

  lemma StopStagesMean(sys: System, audit: AuditAnswer)
    requires sys.s.gate.Stopping? && GateCanRun(sys)
    ensures var s, sys' := sys.s, GateRuns(sys, audit);
            match s.gate.stop
            case PAwait => ExecutionIdle(s.execution) && sys'.s == s.(gate := Stopping(PAudit)) && sys'.w.p.storeClosed == sys.w.p.storeClosed
            case PAudit =>
              && sys'.s == s.(ready := false, closed := true, gate := Stopping(PCloseStore),
                              blocked := s.blocked || (s.ready && audit == AuditFails))
              && sys'.w.p.adapterClosed && sys'.w.p.owned == map[] && sys'.w.p.storeClosed == sys.w.p.storeClosed
            case PCloseStore => sys'.s == s.(gate := Free) && sys'.w.p.storeClosed && !sys'.w.p.ready
  {
    hide CloseOwned, GateTakes, GateCanRun, Next, Enabled;
    GateNeeds(sys);
    InitializeAfterTake(sys.w);
    StopWorld(sys, GateRuns(sys, audit).s);
    if sys.s.gate.stop.PAwait? {
      StopAwaits(sys);
    }
  }

  lemma StopAwaits(sys: System)
    requires sys.s.gate == Stopping(PAwait) && GateCanRun(sys)
    ensures ExecutionIdle(sys.s.execution)
  {
  }

  lemma StopWorld(sys: System, s': Service)
    requires sys.s.gate.Stopping? && GateCanRun(sys)
    ensures var p, p' := sys.w.p, GateWorld(sys, s').p;
            match sys.s.gate.stop
            case PAwait => p'.storeClosed == p.storeClosed
            case PAudit => p'.adapterClosed && p'.owned == map[] && p'.storeClosed == p.storeClosed
            case PCloseStore => p'.storeClosed && !p'.ready
  {
    hide BeginStep, CommitStep, RollBackStep, ResumeStep, StartStep, CanBegin, CanResume;
  }

  /** A cancellation reaches the store exactly when the workspace is this process's own and the service
      ready, and afterwards reads the task again before it lets the gate go. */
  lemma CancelAsks(s: Service, outcome: Outcome<Reply>)
    requires s.gate.Cancelling? && !s.gate.cancel.CRequest?
    ensures var s' := CancelRuns(s, outcome);
            match s.gate.cancel
            case CScope =>
              if && outcome.Ok? && outcome.value.WorkspaceReply? && s.ready
                 && (s.workspace == "" || s.workspace == outcome.value.workspace)
              then s' == s.(workspace := outcome.value.workspace, gate := Cancelling(s.gate.taskId, s.gate.requestId, CRequest))
              else s' == s.(gate := Free)
            case CAwait => s' == s.(gate := Cancelling(s.gate.taskId, s.gate.requestId, CRead))
            case CRead => s' == s.(gate := Free)
            case _ => true
  {
  }
}
