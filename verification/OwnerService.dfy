/** The single-owner service over the admission protocol.

    The service adds two tasks to the protocol's world: whichever call holds its gate
    (submit, cancel, start or stop), and the one execution task, which itself calls the
    budget adapter. Both are suspended at their awaits, and any of the other tasks may run
    in between. Faults (cancellation, timeout, errors of unseen collaborators) may strike
    the execution at every one of its awaits. */
module OwnerService {
  import opened Wrappers
  import Utf8
  import opened AdmissionStore
  import opened AdmissionProtocol

  /** An exception as the execution's handler sees it: does it by itself make the outcome
      uncertain (MeteredError, CancelledError, an uncertain PilotError), and which code. */
  datatype Exc = Exc(uncertain: bool, code: ErrorCode)

  /** The four places where `_perform` asks `_uncertainty`. */
  datatype Point = AtStart | AfterMark | AfterRecord | AfterFinish

  datatype Spot =
    | NotStarted
    | DurableCheck(point: Point)               // store.has_uncertainty
    | AuditCheck(point: Point, durable: bool)  // audit.has_pending_calls
    | Reserving                                // budget.reserve_request
    | Marking                                  // budget.mark_running
    | Handling                                 // butler.handle_owner_message
    | Staging                                  // store.stage_result
    | Recording                                // audit.append_beta
    | Finishing                                // budget.finish_request(success=True)
    | Publishing                               // store.commit_turn
    | Inspecting(exc: Exc)                     // handler: audit.has_pending_calls
    | Rereading(exc: Exc, pending: bool)       // handler: store.get
    | Refunding(exc: Exc, found: State)        // handler: budget.finish_request(success=False)
    | Settling(expected: State, uncertain: bool, code: ErrorCode)  // handler: store.transition
    | Over

  /** The execution task of one admitted turn. */
  datatype ExecutionTask =
    | NoExecution
    | Task(sequence: nat, requestId: Id, taskId: Id, at: Spot, cancelling: bool, result: Option<TurnResult>)

  datatype SubmitStage = SScope | SLookup | SDurable | SAudit(durable: bool) | SAdmit
  datatype CancelStage = CScope | CRequest | CAwait | CRead
  datatype StartStage = TInit | TRecover
  datatype StopStage = PAwait | PAudit | PCloseStore

  /** The call that holds the service gate. */
  datatype Holder =
    | Free
    | Submitting(requestId: Id, threadId: Id, message: Utf8.Text, submit: SubmitStage)
    | Cancelling(taskId: Id, requestId: Id, cancel: CancelStage)
    | Starting(start: StartStage)
    | Stopping(stop: StopStage)

  datatype Service = Service(
    owner: Id,
    workspace: Id,
    ready: bool,
    closed: bool,
    stopping: bool,
    blocked: bool,
    gate: Holder,
    execution: ExecutionTask,
    lease: Option<Lease>,
    activeTask: Option<Id>)

  /** What has happened outside anyone's memory, in order. */
  datatype Mark =
    | ResultStaged(sequence: nat)
    | GatewayRecorded(sequence: nat)
    | QuotaFinished(sequence: nat)
    | TurnPublished(sequence: nat)

  datatype System = System(w: World, s: Service, trace: seq<Mark>)

  function NewService(owner: Id): Service {
    Service(owner, "", false, false, false, false, Free, NoExecution, None, None)
  }

  function StartSystem(owner: Id): System {
    System(START, NewService(owner), [])
  }

  /** The durable audit's answer to has_pending_calls. */
  datatype AuditAnswer = Clear | PendingCalls | AuditFails

  predicate ExecutionIdle(e: ExecutionTask) {
    e.NoExecution? || e.at.Over?
  }

  // ---------------------------------------------------------------- which store operation a task awaits

  predicate ExecutionMay(s: Service, op: Op) {
    s.execution.Task? &&
    match s.execution.at
    case DurableCheck(_) => op == HasUncertainty(s.owner)
    case Staging => s.execution.result.Some? && op == Stage(s.execution.sequence, s.execution.result.value)
    case Publishing =>
      s.execution.result.Some?
      && op == CommitTurn(s.execution.sequence, s.execution.result.value.response, s.execution.result.value.report)
    case Rereading(_, _) => op == Get(s.owner, s.execution.taskId)
    case Settling(expected, uncertain, code) =>
      op == Transition(s.execution.sequence, expected,
                       if uncertain then Uncertain else if expected == Admitted then Denied else Failed,
                       if uncertain then PUncertain else PFailed, Some(code))
    case _ => false
  }

  predicate AwaitsStore(at: Spot) {
    at.DurableCheck? || at.Staging? || at.Publishing? || at.Rereading? || at.Settling?
  }

  predicate GateMay(s: Service, op: Op) {
    match s.gate
    case Free => false
    case Submitting(requestId, threadId, message, at) => (
      match at
      case SScope => op.EnsureWorkspace? && op.owner == s.owner
      case SLookup => op == GetRequest(s.owner, requestId)
      case SDurable => op == HasUncertainty(s.owner)
      case SAudit(_) => false
      case SAdmit => op.Admit? && op == Admit(s.owner, requestId, threadId, message, op.ids))
    case Cancelling(taskId, requestId, at) => (
      match at
      case CScope => op.EnsureWorkspace? && op.owner == s.owner
      case CRequest => op == RequestCancel(s.owner, taskId, requestId)
      case CAwait => false
      case CRead => op == Get(s.owner, taskId))
    case Starting(at) => at.TRecover? && (op.Recover? || op.RecoverPartly?)
    case Stopping(_) => false
  }

  /** The calls that take no gate: they read, or create a thread. */
  predicate CallerMay(op: Op) {
    op.EnsureWorkspace? || op.CreateThread? || op.Get? || op.GetRequest? || op.HasUncertainty?
  }

  predicate GateAwaitsStore(gate: Holder) {
    match gate
    case Free => false
    case Submitting(_, _, _, at) => !at.SAudit?
    case Cancelling(_, _, at) => !at.CAwait?
    case Starting(at) => at.TRecover?
    case Stopping(_) => false
  }

  // ---------------------------------------------------------------- which adapter call the execution makes

  predicate AwaitsAdapter(at: Spot) {
    at.Reserving? || at.Marking? || at.Handling? || at.Finishing? || at.Refunding?
  }

  predicate ExecutionCalls(s: Service, call: Call) {
    s.execution.Task? &&
    match s.execution.at
    case Reserving => call == ReserveRequest(s.owner, s.execution.requestId, s.execution.taskId)
    case Marking => s.lease.Some? && call == MarkRunning(s.lease.value)
    case Handling => s.lease.Some? && (call.ModelCall? || call.ToolCall?) && call.lease == s.lease.value
    case Finishing => s.lease.Some? && call == FinishRequest(s.lease.value, true)
    case Refunding(_, _) => s.lease.Some? && call == FinishRequest(s.lease.value, false)
    case _ => false
  }

  // ---------------------------------------------------------------- the execution task

  /** What the execution does when it runs. */
  datatype Step =
    | Goto(at: Spot)
    | Hold(lease: Lease)                // keep the lease, go on to mark_running
    | Answered(result: TurnResult)         // the butler has answered, go on to stage
    | Noted(mark: Mark, at: Spot)      // an acknowledgement from outside, go on
    | Throw(exc: Exc)
    | Quit(block: bool)                 // the task ends; `finally` revokes the lease
    | BlockAndGoto(at: Spot)

  const CANCELLED := Exc(true, Uncertainty)

  function FromPilot(e: PilotError): Exc {
    Exc(e.uncertain, e.code)
  }

  function AfterCheck(point: Point): Spot {
    match point
    case AtStart => Reserving
    case AfterMark => Handling
    case AfterRecord => Finishing
    case AfterFinish => Publishing
  }

  function FromAnswer(answer: Option<Answer>): Exc {
    match answer
    case Some(Raised(e)) => FromPilot(e)
    case _ => CANCELLED
  }

  /** A reply is published only if it has an encoding, which the digest in a report is taken of, and
      comes with a completed report bound to this task and text. */
  predicate Bound(taskId: Id, text: Utf8.Text, report: Option<Report>) {
    Utf8.Scalar(text) && report.Some? && report.value == Report(taskId, text, true)
  }

  /** `_perform`, resumed at one of its awaits without a fault. */
  function PerformStep(s: Service, p: Process, audit: AuditAnswer, acknowledged: bool,
                       reply: Option<(Utf8.Text, Option<Report>)>, now: real): Step
    requires s.execution.Task?
  {
    var e := s.execution;
    match e.at
    case NotStarted => if s.stopping then Throw(Exc(true, Uncertainty)) else Goto(DurableCheck(AtStart))
    case DurableCheck(point) => (
      match TakenFor(p, Execution)
      case Ok(FlagReply(durable)) => Goto(AuditCheck(point, durable))
      case Err(error) => Throw(FromPilot(error))
      case _ => Throw(CANCELLED))
    case AuditCheck(point, durable) =>
      if audit.AuditFails? then Throw(Exc(true, Audit))
      else if durable || audit.PendingCalls? || s.blocked || s.stopping then Throw(Exc(true, Uncertainty))
      else if point == AfterMark && !(s.lease.Some? && Owns(p, s.lease.value, now)) then Throw(Exc(false, Forbidden))
      else Goto(AfterCheck(point))
    case Reserving => (
      match p.answer
      case Some(Leased(lease)) => Hold(lease)
      case _ => Throw(FromAnswer(p.answer)))
    case Marking => (
      match p.answer
      case Some(Moved) => Goto(DurableCheck(AfterMark))
      case _ => Throw(FromAnswer(p.answer)))
    case Handling => (
      match reply
      case None => Throw(Exc(false, Conflict))
      case Some((text, report)) =>
        if Bound(e.taskId, text, report) then Answered(TurnResult(e.taskId, text, report))
        else Throw(Exc(false, Conflict)))
    case Staging => (
      match TakenFor(p, Execution)
      case Ok(_) => Goto(Recording)
      case Err(error) => Throw(FromPilot(error)))
    case Recording =>
      if acknowledged then Noted(GatewayRecorded(e.sequence), DurableCheck(AfterRecord))
      else Throw(Exc(true, Audit))
    case Finishing => (
      match p.answer
      case Some(Finished(true)) => Noted(QuotaFinished(e.sequence), DurableCheck(AfterFinish))
      case _ => Throw(FromAnswer(p.answer)))
    case Publishing => (
      match TakenFor(p, Execution)
      case Ok(_) => Quit(false)
      case Err(error) => Throw(FromPilot(error)))
    case _ => Quit(true)
  }

  /** The handler of `_execute`, resumed at one of its awaits; a fault here only blocks. */
  function HandlerStep(s: Service, p: Process, faulted: bool, audit: AuditAnswer, now: real): Step
    requires s.execution.Task?
  {
    if faulted then Quit(true)
    else
      match s.execution.at
      case Inspecting(exc) =>
        if audit.AuditFails? then BlockAndGoto(Rereading(exc, true))
        else Goto(Rereading(exc, audit.PendingCalls?))
      case Rereading(exc, pending) => (
        match TakenFor(p, Execution)
        case Ok(RecordReply(_, row, _)) =>
          if Terminal(row.state) then Quit(false)
          else
            var uncertain := pending || row.result.Some? || exc.uncertain;
            if !uncertain && s.lease.Some? && Owns(p, s.lease.value, now) then Goto(Refunding(exc, row.state))
            else Goto(Settling(row.state, uncertain, if uncertain then Uncertainty else exc.code))
        case _ => Quit(true))
      case Refunding(exc, found) => (
        match p.answer
        case Some(Finished(_)) => Goto(Settling(found, false, exc.code))
        case Some(Raised(_)) => Goto(Settling(found, true, Uncertainty))
        case _ => Quit(true))
      case Settling(_, _, _) => Quit(TakenFor(p, Execution).Err?)
      case _ => Quit(true)
  }

  function TakenFor(p: Process, client: Client): Outcome<Reply> {
    if client in p.done then p.done[client] else Fail(Store)
  }

  predicate InHandler(at: Spot) {
    at.Inspecting? || at.Rereading? || at.Refunding? || at.Settling?
  }

  /** The execution may run when what it awaits has come, or when a fault strikes it; a store
      operation that has begun is always drained first. */
  predicate ExecutionCanRun(sys: System, faulted: bool) {
    var e, p := sys.s.execution, sys.w.p;
    && e.Task? && !e.at.Over?
    && (e.at.NotStarted? ==> !faulted)
    && (AwaitsStore(e.at) ==> Execution in p.done || (faulted && !(p.tx.Some? && p.tx.value.client == Execution)))
    && (AwaitsAdapter(e.at) ==> p.frame.Idle? && (p.answer.Some? || faulted || e.at.Handling?))
  }

  /** What the code decides at the await where the execution is. */
  function ChosenStep(s: Service, p: Process, fault: Option<Exc>, audit: AuditAnswer, acknowledged: bool,
                      reply: Option<(Utf8.Text, Option<Report>)>, now: real): Step
    requires s.execution.Task?
  {
    if InHandler(s.execution.at) then HandlerStep(s, p, fault.Some?, audit, now)
    else if fault.Some? then Throw(fault.value)
    else PerformStep(s, p, audit, acknowledged, reply, now)
  }

  function ExecutionStep(sys: System, fault: Option<Exc>, audit: AuditAnswer, acknowledged: bool,
                         reply: Option<(Utf8.Text, Option<Report>)>, now: real): Step
    requires sys.s.execution.Task?
  {
    ChosenStep(sys.s, sys.w.p, fault, audit, acknowledged, reply, now)
  }

  /** The world once the execution has taken what it was waiting for. */
  function ExecutionTakes(w: World, at: Spot): World {
    var w1 := if Enabled(w, Take(Execution)) then Next(w, Take(Execution)) else w;
    if AwaitsAdapter(at) && Enabled(w1, TakeAnswer) then Next(w1, TakeAnswer) else w1
  }

  function RevokeHeld(w: World, lease: Option<Lease>): World {
    if lease.Some? then Next(w, Revoke(lease.value)) else w
  }

  /** What the step makes of the service's own fields. */
  function StepService(s: Service, step: Step): Service
    requires s.execution.Task?
  {
    var e := s.execution;
    match step
    case Goto(at) => s.(execution := e.(at := at))
    case Hold(lease) => s.(lease := Some(lease), execution := e.(at := Marking))
    case Answered(result) => s.(execution := e.(at := Staging, result := Some(result)))
    case Noted(_, at) => s.(execution := e.(at := at))
    case Throw(exc) => s.(execution := e.(at := Inspecting(exc)))
    case Quit(block) => s.(blocked := s.blocked || block, execution := e.(at := Over))
    case BlockAndGoto(at) => s.(blocked := true, execution := e.(at := at))
  }

  function ApplyStep(sys: System, step: Step): System
    requires sys.s.execution.Task?
  {
    var w := ExecutionTakes(sys.w, sys.s.execution.at);
    System(if step.Quit? then RevokeHeld(w, sys.s.lease) else w,
           StepService(sys.s, step),
           if step.Noted? then sys.trace + [step.mark] else sys.trace)
  }

  // ---------------------------------------------------------------- the gate

  function GateTakes(w: World): World {
    if Enabled(w, Take(Gate)) then Next(w, Take(Gate)) else w
  }

  function Leave(s: Service): Service {
    s.(gate := Free)
  }

  /** `_close_owned`, first half: refuse everything, close the audit and the adapter. */
  function CloseOwned(w: World): World {
    Next(w, CloseAdapter)
  }

  function SubmitRuns(s: Service, outcome: Outcome<Reply>, audit: AuditAnswer): Service
    requires s.gate.Submitting?
  {
    match s.gate.submit
    case SScope => (
      match outcome
      case Ok(WorkspaceReply(workspace)) =>
        if !s.ready || s.stopping || (s.workspace != "" && s.workspace != workspace) then Leave(s)
        else s.(workspace := workspace, gate := s.gate.(submit := SLookup))
      case _ => Leave(s))
    case SLookup => (
      match outcome
      case Err(e) =>
        if e.code == NotFound && ExecutionIdle(s.execution) then s.(gate := s.gate.(submit := SDurable)) else Leave(s)
      case Ok(_) => Leave(s))
    case SDurable => (
      match outcome
      case Ok(FlagReply(durable)) => s.(gate := s.gate.(submit := SAudit(durable)))
      case _ => Leave(s))
    case SAudit(durable) =>
      if audit.AuditFails? || durable || audit.PendingCalls? || s.blocked || s.stopping then Leave(s)
      else s.(gate := s.gate.(submit := SAdmit))
    case SAdmit => (
      match outcome
      case Ok(RecordReply(sequence, row, false)) =>
        if row.turn.Some? then
          s.(gate := Free, activeTask := Some(row.turn.value.taskId),
             execution := Task(sequence, row.requestId, row.turn.value.taskId, NotStarted, false, None))
        else Leave(s)
      case _ => Leave(s))
  }

  function CancelRuns(s: Service, outcome: Outcome<Reply>): Service
    requires s.gate.Cancelling?
  {
    match s.gate.cancel
    case CScope => (
      match outcome
      case Ok(WorkspaceReply(workspace)) =>
        if !s.ready || (s.workspace != "" && s.workspace != workspace) then Leave(s)
        else s.(workspace := workspace, gate := s.gate.(cancel := CRequest))
      case _ => Leave(s))
    case CRequest =>
      if outcome.Err? then Leave(s)
      else if s.activeTask == Some(s.gate.taskId) && s.execution.Task? then
        s.(gate := s.gate.(cancel := CAwait),
           execution := ToldToCancel(s.execution))
      else s.(gate := s.gate.(cancel := CRead))
    case CAwait => s.(gate := s.gate.(cancel := CRead))
    case CRead => Leave(s)
  }

  /** `_close_owned` has begun: nothing is accepted any more. */
  function Closing(s: Service): Service {
    s.(ready := false, closed := true, gate := Stopping(PCloseStore))
  }

  function StartRuns(s: Service, outcome: Outcome<Reply>, audit: AuditAnswer): Service
    requires s.gate.Starting?
  {
    match s.gate.start
    case TInit => if audit.AuditFails? then Closing(s) else s.(gate := Starting(TRecover))
    case TRecover => if outcome.Err? then Closing(s) else s.(ready := true, gate := Free)
  }

  function StopRuns(s: Service, audit: AuditAnswer): Service
    requires s.gate.Stopping?
  {
    match s.gate.stop
    case PAwait => s.(gate := Stopping(PAudit))
    case PAudit => Closing(s.(blocked := s.blocked || (s.ready && audit.AuditFails?)))
    case PCloseStore => Leave(s)
  }

  predicate GateCanRun(sys: System) {
    && !sys.s.gate.Free?
    && (GateAwaitsStore(sys.s.gate) ==> Gate in sys.w.p.done)
    && (sys.s.gate == Stopping(PAwait) || (sys.s.gate.Cancelling? && sys.s.gate.cancel.CAwait?) ==>
          ExecutionIdle(sys.s.execution))
    && (sys.s.gate == Stopping(PCloseStore) ==> Enabled(sys.w, CloseStore))
    && (sys.s.gate == Starting(TInit) ==> Enabled(sys.w, Initialize))
  }

  /** The fields after the gate's call has run with the reply it waited for. */
  function GateService(s: Service, outcome: Outcome<Reply>, audit: AuditAnswer): Service {
    match s.gate
    case Free => s
    case Submitting(_, _, _, _) => SubmitRuns(s, outcome, audit)
    case Cancelling(_, _, _) => CancelRuns(s, outcome)
    case Starting(_) => StartRuns(s, outcome, audit)
    case Stopping(_) => StopRuns(s, audit)
  }

  predicate CancelRevokes(s: Service, outcome: Outcome<Reply>) {
    && s.gate.Cancelling? && s.gate.cancel.CRequest? && outcome.Ok?
    && s.activeTask == Some(s.gate.taskId) && s.execution.Task?
  }

  /** What the gate's call does to the adapter and the store, given the fields it leaves. */
  function GateWorld(sys: System, s': Service): World
    requires GateCanRun(sys)
  {
    var s, w := sys.s, GateTakes(sys.w);
    if CancelRevokes(s, TakenFor(sys.w.p, Gate)) then RevokeHeld(w, s.lease)
    else if s.gate == Starting(TInit) then
      if s'.gate.Stopping? then CloseOwned(Next(w, Initialize)) else Next(w, Initialize)
    else if s.gate.Starting? then
      if s'.gate.Stopping? then CloseOwned(w) else w
    else if s.gate == Stopping(PAudit) then CloseOwned(w)
    else if s.gate == Stopping(PCloseStore) then Next(w, CloseStore)
    else w
  }

  function GateRuns(sys: System, audit: AuditAnswer): System
    requires GateCanRun(sys)
  {
    var s' := GateService(sys.s, TakenFor(sys.w.p, Gate), audit);
    System(GateWorld(sys, s'), s', sys.trace)
  }

  // ---------------------------------------------------------------- entering the gate

  datatype Entry =
    | Submit(requestId: Id, threadId: Id, message: Utf8.Text)
    | CancelTask(taskId: Id, requestId: Id)
    | StartUp
    | ShutDown

  predicate CanEnter(s: Service, entry: Entry) {
    s.gate.Free? &&
    match entry
    case Submit(_, _, _) => s.ready
    case CancelTask(_, _) => s.ready
    case StartUp => !s.ready && !s.closed && !s.stopping
    case ShutDown => s.stopping && !s.closed
  }

  function ToldToCancel(e: ExecutionTask): ExecutionTask {
    if ExecutionIdle(e) then e else e.(cancelling := true)
  }

  function EnterService(s: Service, entry: Entry): Service {
    match entry
    case Submit(requestId, threadId, message) => s.(gate := Submitting(requestId, threadId, message, SScope))
    case CancelTask(taskId, requestId) => s.(gate := Cancelling(taskId, requestId, CScope))
    case StartUp => s.(gate := Starting(TInit))
    case ShutDown => s.(gate := Stopping(PAwait), execution := ToldToCancel(s.execution))
  }

  function Enter(sys: System, entry: Entry): System
    requires CanEnter(sys.s, entry)
  {
    System(if entry.ShutDown? then RevokeHeld(sys.w, sys.s.lease) else sys.w, EnterService(sys.s, entry), sys.trace)
  }

  /** `stop()` before its first await: refuse new work, revoke, fence publication. */
  function StopCalled(sys: System): System {
    System(Next(RevokeHeld(sys.w, sys.s.lease), Fence), sys.s.(stopping := true), sys.trace)
  }

  // ---------------------------------------------------------------- all steps of the system

  datatype SystemEvent =
    | BeginGate(op: Op, now: real)
    | BeginExecution(op: Op, now: real)
    | BeginCaller(op: Op, now: real)
    | BeginAdapter(op: Op, now: real)
    | TakeCaller
    | CommitTx
    | RollBackTx
    | AdapterResumes(interrupted: bool, backend: Backend, token: nat, now: real)
    | ExecutionCallsAdapter(call: Call, now: real)
    | ExecutionRuns(fault: Option<Exc>, audit: AuditAnswer, acknowledged: bool,
                    reply: Option<(Utf8.Text, Option<Report>)>, now: real)
    | ExecutionNeverStarts
    | GateProceeds(audit: AuditAnswer)
    | Enters(entry: Entry)
    | StopIsCalled
    | ProcessCrashes

  predicate Possible(sys: System, event: SystemEvent) {
    var s, w := sys.s, sys.w;
    match event
    case BeginGate(op, _) => GateMay(s, op) && CanBegin(w.p, Gate, op)
    case BeginExecution(op, _) => ExecutionMay(s, op) && CanBegin(w.p, Execution, op)
    case BeginCaller(op, _) => s.ready && CallerMay(op) && CanBegin(w.p, Caller, op)
    case BeginAdapter(op, _) => CanBegin(w.p, Adapter, op)
    case TakeCaller => Enabled(w, Take(Caller))
    case CommitTx => w.p.tx.Some?
    case RollBackTx => w.p.tx.Some?
    case AdapterResumes(_, _, _, _) => CanResume(w.p)
    case ExecutionCallsAdapter(call, _) =>
      w.p.frame.Idle? && ExecutionCalls(s, call) && (w.p.answer.None? || s.execution.at.Handling?)
    case ExecutionRuns(fault, _, _, _, _) => ExecutionCanRun(sys, fault.Some?)
    case ExecutionNeverStarts => s.execution.Task? && s.execution.at.NotStarted? && s.execution.cancelling
    case GateProceeds(_) => GateCanRun(sys)
    case Enters(entry) => CanEnter(s, entry)
    case StopIsCalled => true
    case ProcessCrashes => true
  }

  /** The marks a COMMIT leaves: a staged result, a published turn. */
  function CommitMarks(w: World): seq<Mark>
    requires w.p.tx.Some?
  {
    var op := w.p.tx.value.op;
    if op.Stage? then [ResultStaged(op.sequence)]
    else if op.CommitTurn? && !w.p.publicationClosed then [TurnPublished(op.sequence)]
    else []
  }

  function Happen(sys: System, event: SystemEvent): System
    requires Possible(sys, event)
  {
    var s, w := sys.s, sys.w;
    match event
    case BeginGate(op, now) => sys.(w := Next(w, Begin(Gate, op, now)))
    case BeginExecution(op, now) => sys.(w := Next(w, Begin(Execution, op, now)))
    case BeginCaller(op, now) => sys.(w := Next(w, Begin(Caller, op, now)))
    case BeginAdapter(op, now) => sys.(w := Next(w, Begin(Adapter, op, now)))
    case TakeCaller => sys.(w := Next(w, Take(Caller)))
    case CommitTx => System(Next(w, Commit), s, sys.trace + CommitMarks(w))
    case RollBackTx => sys.(w := Next(w, RollBack))
    case AdapterResumes(interrupted, backend, token, now) =>
      sys.(w := Next(w, Resume(interrupted, backend, token, now)))
    case ExecutionCallsAdapter(call, now) => sys.(w := Next(w, Start(call, now)))
    case ExecutionRuns(fault, audit, acknowledged, reply, now) =>
      ApplyStep(sys, ExecutionStep(sys, fault, audit, acknowledged, reply, now))
    case ExecutionNeverStarts => sys.(s := s.(execution := s.execution.(at := Over)))
    case GateProceeds(audit) => GateRuns(sys, audit)
    case Enters(entry) => Enter(sys, entry)
    case StopIsCalled => StopCalled(sys)
    case ProcessCrashes => System(Next(w, Crash), NewService(s.owner), sys.trace)
  }

  function RunSystem(sys: System, events: seq<SystemEvent>): System
    decreases |events|
  {
    if events == [] then sys
    else RunSystem(if Possible(sys, events[0]) then Happen(sys, events[0]) else sys, events[1..])
  }
}
