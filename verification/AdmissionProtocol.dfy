/** The owner budget adapter over the store, as a machine of interleaved steps.

    Every `await` of the adapter ends a step, every store transaction is two steps (its
    body, then COMMIT or roll-back), and `revoke`, `close`, `fence_publication`, other
    store callers, a crash and a restart may fall between any two of them. */
module AdmissionProtocol {
  import opened Wrappers
  import opened AdmissionStore

  datatype Lease = Lease(
    owner: Id, requestId: Id, taskId: Id, sequence: nat, quota: nat, token: nat, deadline: real)

  datatype LeaseState = Reserved | InUse

  datatype Owned = Owned(lease: Lease, state: LeaseState)

  /** Who is waiting for a store transaction. */
  datatype Client = Adapter | Gate | Execution | Caller

  /** An open transaction: its body has run, its COMMIT has not been tried. */
  datatype Tx = Tx(client: Client, op: Op, reply: Reply, staged: Db)

  datatype Call =
    | ReserveRequest(owner: Id, requestId: Id, taskId: Id)
    | MarkRunning(lease: Lease)
    | ModelCall(lease: Lease, limit: nat)
    | ToolCall(lease: Lease, limit: nat)
    | FinishRequest(lease: Lease, success: bool)

  /** Where a call is suspended. */
  datatype Stage =
    | Claiming                                                    // store._claim
    | QuotaReserving(sequence: nat, quota: nat, createdAt: real)  // backend.reserve_request
    | Leasing(lease: Lease)                                       // store.get of the new lease
    | Checking                                                    // store.get, first _current
    | QuotaMarking                                                // backend.mark_running
    | Moving                                                      // store.transition
    | Counting                                                    // store.reserve_attempt
    | Metering                                                    // backend.reserve_model_call
    | Confirming                                                  // store.get, last _current
    | QuotaFinishing                                              // backend.finish_request

  datatype Frame = Idle | Busy(call: Call, at: Stage)

  /** How a call ended. */
  datatype Answer =
    | Leased(lease: Lease)
    | Moved
    | Granted(granted: bool)
    | Finished(success: bool)
    | Raised(error: PilotError)
    | Interrupt          // CancelledError, or anything else that is not a PilotError

  /** What the quota backend does at an await: answer yes, answer no, or raise. */
  datatype Backend = Accepts | Declines(code: ErrorCode) | Raises

  /** Everything that a crash loses. */
  datatype Process = Process(
    ready: bool,
    storeClosed: bool,
    memory: Memory,
    publicationClosed: bool,
    tx: Option<Tx>,
    done: map<Client, Outcome<Reply>>,
    adapterClosed: bool,
    owned: map<nat, Owned>,
    frame: Frame,
    answer: Option<Answer>)

  /** Bookkeeping that no code reads: the rows committed by this process, every claim that
      ever passed its guard, and every call the adapter granted. */
  datatype History = History(
    session: set<nat>, claims: seq<nat>, modelGrants: map<nat, nat>, toolGrants: map<nat, nat>)

  datatype World = World(db: Db, p: Process, h: History)

  const NEW_PROCESS :=
    Process(false, false, Memory({}, {}), false, None, map[], false, map[], Idle, None)

  const START := World(EMPTY_DB, NEW_PROCESS, History({}, [], map[], map[]))

  datatype Action =
    | Initialize
    | Begin(client: Client, op: Op, now: real)
    | Commit
    | RollBack
    | Start(call: Call, now: real)
    | Resume(interrupted: bool, backend: Backend, token: nat, now: real)
    | Revoke(lease: Lease)
    | CloseAdapter
    | Fence
    | CloseStore
    | Take(client: Client)
    | TakeAnswer
    | Crash

  // ---------------------------------------------------------------- ownership

  predicate HoldsLease(p: Process, lease: Lease) {
    lease.sequence in p.owned && p.owned[lease.sequence].lease == lease
  }

  /** `owns`: the synchronous, in-memory answer. */
  predicate Owns(p: Process, lease: Lease, now: real) {
    && !p.adapterClosed && p.ready && !p.storeClosed
    && lease.sequence !in p.memory.blocked
    && HoldsLease(p, lease)
    && now < lease.deadline
  }

  predicate OwnsInUse(p: Process, lease: Lease, now: real) {
    Owns(p, lease, now) && p.owned[lease.sequence].state == InUse
  }

  function Revoked(p: Process, lease: Lease): Process {
    if HoldsLease(p, lease) then p.(owned := p.owned - {lease.sequence}) else p
  }

  // ---------------------------------------------------------------- transactions

  function Deliver(p: Process, client: Client, outcome: Outcome<Reply>): Process {
    p.(done := p.done[client := outcome])
  }

  predicate CanBegin(p: Process, client: Client, op: Op) {
    && p.tx.None? && client !in p.done
    && (client == Adapter ==> AwaitedOp(p.frame) == Some(op))
  }

  function BeginStep(w: World, client: Client, op: Op, now: real): World
    requires CanBegin(w.p, client, op)
  {
    if !w.p.ready || w.p.storeClosed then w.(p := Deliver(w.p, client, Fail(Store)))
    else
      var work := Perform(op, now, w.db, w.p.memory);
      var p := w.p.(memory := work.memory);
      match work.outcome
      case Err(e) => w.(p := Deliver(p, client, Err(e)))
      case Ok(reply) =>
        World(w.db, p.(tx := Some(Tx(client, op, reply, work.db))),
              if op.Claim? && reply.ClaimReply? then w.h.(claims := w.h.claims + [reply.claimed]) else w.h)
  }

  function CommitStep(w: World): World
    requires w.p.tx.Some?
  {
    var tx := w.p.tx.value;
    var p := w.p.(tx := None);
    if tx.op.CommitTurn? && p.publicationClosed then
      w.(p := Deliver(p, tx.client, Err(PilotError(Disabled, true))))
    else
      World(tx.staged, Deliver(p, tx.client, Ok(tx.reply)),
            w.h.(session := w.h.session + (tx.staged.rows.Keys - w.db.rows.Keys)))
  }

  function RollBackStep(w: World): World
    requires w.p.tx.Some?
  {
    w.(p := Deliver(w.p.(tx := None), w.p.tx.value.client, Fail(Store)))
  }

  // ---------------------------------------------------------------- the adapter's calls

  function KindOf(call: Call): Kind {
    if call.ToolCall? then Tool else Model
  }

  /** The store operation a suspended call is waiting for, if it is waiting for the store. */
  function AwaitedOp(frame: Frame): Option<Op> {
    match frame
    case Idle => None
    case Busy(call, at) =>
      match at
      case Claiming => if call.ReserveRequest? then Some(Claim(call.owner, call.requestId, call.taskId)) else None
      case Leasing(lease) => Some(Get(lease.owner, lease.taskId))
      case Checking => if call.ReserveRequest? then None else Some(Get(call.lease.owner, call.lease.taskId))
      case Confirming => if call.ReserveRequest? then None else Some(Get(call.lease.owner, call.lease.taskId))
      case Moving =>
        if call.MarkRunning? then Some(Transition(call.lease.sequence, Admitted, Running, PRunning, None)) else None
      case Counting =>
        if call.ModelCall? || call.ToolCall?
        then Some(ReserveAttempt(call.lease.sequence, KindOf(call), call.limit)) else None
      case _ => None
  }

  function Refusal(code: ErrorCode): Answer {
    Raised(PilotError(code, false))
  }

  /** A backend that fails or answers nonsense: the outcome is unknown. */
  const BackendLost := Raised(PilotError(Store, true))

  /** What a call does when it runs: wait at a next stage, return, or return having given up
      its lease; take or lose a new lease; put its lease in use; or grant. */
  datatype Move =
    | Wait(at: Stage)
    | Return(answer: Answer)
    | Forfeit(lost: Lease, answer: Answer)
    | Acquire(gained: Lease)
    | AcquireAndLose(gained: Lease, answer: Answer)
    | Promote(promoted: Lease)
    | Grant

  /** The synchronous start of a call, up to its first await. */
  function StartMove(p: Process, call: Call, now: real): Move {
    match call
    case ReserveRequest(_, _, _) =>
      if p.adapterClosed then Return(Refusal(Disabled)) else Wait(Claiming)
    case MarkRunning(lease) =>
      if !Owns(p, lease, now) then Return(Refusal(Forbidden))
      else if p.owned[lease.sequence].state != Reserved then Return(Refusal(Conflict))
      else Wait(Checking)
    case ModelCall(lease, _) =>
      if !OwnsInUse(p, lease, now) then Return(Granted(false)) else Wait(Checking)
    case ToolCall(lease, _) =>
      if !OwnsInUse(p, lease, now) then Return(Granted(false)) else Wait(Checking)
    case FinishRequest(lease, _) =>
      if !Owns(p, lease, now) then Return(Refusal(Forbidden))
      else if p.owned[lease.sequence].state != InUse then Return(Refusal(Conflict))
      else Wait(Checking)
  }

  /** What `_current` finds when its store.get returns. */
  datatype Current = Confirmed | Lost(error: PilotError) | Contradicted

  function CheckCurrent(p: Process, lease: Lease, expected: State, outcome: Outcome<Reply>, now: real): Current {
    match outcome
    case Err(e) => Lost(e)
    case Ok(reply) =>
      if !Owns(p, lease, now) then Lost(PilotError(Forbidden, false))
      else if !reply.RecordReply? || reply.sequence != lease.sequence
              || reply.row.requestId != lease.requestId || reply.row.owner != lease.owner
              || reply.row.createdAt + TURN_SECONDS != lease.deadline
              || reply.row.state != expected || reply.row.cancelRequested
      then Contradicted
      else Confirmed
  }

  function NewLease(call: Call, at: Stage, token: nat): Lease
    requires call.ReserveRequest? && at.QuotaReserving?
  {
    Lease(call.owner, call.requestId, call.taskId, at.sequence, at.quota, token, at.createdAt + TURN_SECONDS)
  }

  function WithLease(p: Process, lease: Lease, state: LeaseState): Process {
    p.(owned := p.owned[lease.sequence := Owned(lease, state)])
  }

  /** Resuming reserve_request. */
  function ReserveMove(p: Process, call: Call, at: Stage, outcome: Outcome<Reply>,
                       interrupted: bool, backend: Backend, token: nat, now: real): Move
    requires call.ReserveRequest?
  {
    match at
    case Claiming =>
      if interrupted then Return(Interrupt)
      else (
        match outcome
        case Err(e) => Return(Raised(e))
        case Ok(reply) =>
          if reply.ClaimReply? then Wait(QuotaReserving(reply.claimed, reply.quota, reply.claimedRow.createdAt))
          else Return(Interrupt))
    case QuotaReserving(_, _, _) =>
      if interrupted then Return(Interrupt)
      else if backend.Raises? then Return(BackendLost)
      else if backend.Declines? then Return(Refusal(backend.code))
      else
        var lease := NewLease(call, at, token);
        if Owns(WithLease(p, lease, Reserved), lease, now) then Acquire(lease)
        else AcquireAndLose(lease, Refusal(Forbidden))
    case Leasing(lease) =>
      if interrupted then Forfeit(lease, Interrupt)
      else (
        match CheckCurrent(p, lease, Admitted, outcome, now)
        case Lost(e) => Forfeit(lease, Raised(e))
        case Contradicted => Forfeit(lease, Refusal(Conflict))
        case Confirmed => Return(Leased(lease)))
    case _ => Return(Interrupt)
  }

  /** Resuming mark_running. */
  function MarkMove(p: Process, lease: Lease, at: Stage, outcome: Outcome<Reply>,
                    interrupted: bool, backend: Backend, now: real): Move
  {
    if interrupted then Forfeit(lease, Interrupt)
    else
      match at
      case Checking => (
        match CheckCurrent(p, lease, Admitted, outcome, now)
        case Lost(e) => Forfeit(lease, Raised(e))
        case Contradicted => Forfeit(lease, Refusal(Conflict))
        case Confirmed => Wait(QuotaMarking))
      case QuotaMarking =>
        if !backend.Accepts? then Forfeit(lease, BackendLost)
        else if !Owns(p, lease, now) then Forfeit(lease, Refusal(Forbidden))
        else Wait(Moving)
      case Moving => (
        match outcome
        case Err(e) => Forfeit(lease, Raised(e))
        case Ok(_) => if !Owns(p, lease, now) then Forfeit(lease, Refusal(Forbidden)) else Wait(Confirming))
      case Confirming => (
        match CheckCurrent(p, lease, Running, outcome, now)
        case Lost(e) => Forfeit(lease, Raised(e))
        case Contradicted => Forfeit(lease, Refusal(Conflict))
        case Confirmed => Promote(lease))
      case _ => Return(Interrupt)
  }

  /** A metered call that `_active` turned down: forbidden and conflict mean "no". */
  function TurnedDown(lease: Lease, error: PilotError): Move {
    if error.code == Forbidden || error.code == Conflict then Return(Granted(false))
    else Forfeit(lease, Raised(error))
  }

  /** Resuming reserve_model_call or reserve_tool_call. */
  function MeteredMove(p: Process, call: Call, at: Stage, outcome: Outcome<Reply>,
                       interrupted: bool, backend: Backend, now: real): Move
    requires call.ModelCall? || call.ToolCall?
  {
    var lease := call.lease;
    if interrupted then Forfeit(lease, Interrupt)
    else
      match at
      case Checking => (
        match CheckCurrent(p, lease, Running, outcome, now)
        case Lost(e) => TurnedDown(lease, e)
        case Contradicted => Forfeit(lease, Granted(false))
        case Confirmed => Wait(Counting))
      case Counting => (
        match outcome
        case Err(e) => Forfeit(lease, Raised(e))
        case Ok(reply) =>
          if reply != FlagReply(true) then Return(Granted(false))
          else if call.ModelCall? then
            if Owns(p, lease, now) then Wait(Metering) else Return(Granted(false))
          else
            if OwnsInUse(p, lease, now) then Wait(Confirming) else Return(Granted(false)))
      case Metering =>
        if backend.Raises? then Forfeit(lease, BackendLost)
        else if backend.Declines? || !OwnsInUse(p, lease, now) then Return(Granted(false))
        else Wait(Confirming)
      case Confirming => (
        match CheckCurrent(p, lease, Running, outcome, now)
        case Lost(e) => TurnedDown(lease, e)
        case Contradicted => Forfeit(lease, Granted(false))
        case Confirmed => Grant)
      case _ => Return(Interrupt)
  }

  /** Resuming finish_request: the lease is revoked however it ends. */
  function FinishMove(p: Process, call: Call, at: Stage, outcome: Outcome<Reply>,
                      interrupted: bool, backend: Backend, now: real): Move
    requires call.FinishRequest?
  {
    var lease := call.lease;
    if interrupted then Forfeit(lease, Interrupt)
    else
      match at
      case Checking => (
        match CheckCurrent(p, lease, Running, outcome, now)
        case Lost(e) => Forfeit(lease, Raised(e))
        case Contradicted => Forfeit(lease, Refusal(Conflict))
        case Confirmed => Wait(QuotaFinishing))
      case QuotaFinishing => Forfeit(lease, if backend.Accepts? then Finished(call.success) else BackendLost)
      case _ => Return(Interrupt)
  }

  function ResumeMove(p: Process, call: Call, at: Stage, outcome: Outcome<Reply>,
                      interrupted: bool, backend: Backend, token: nat, now: real): Move
  {
    match call
    case ReserveRequest(_, _, _) => ReserveMove(p, call, at, outcome, interrupted, backend, token, now)
    case MarkRunning(lease) => MarkMove(p, lease, at, outcome, interrupted, backend, now)
    case ModelCall(_, _) => MeteredMove(p, call, at, outcome, interrupted, backend, now)
    case ToolCall(_, _) => MeteredMove(p, call, at, outcome, interrupted, backend, now)
    case FinishRequest(_, _) => FinishMove(p, call, at, outcome, interrupted, backend, now)
  }

  function GrantCount(grants: map<nat, nat>, sequence: nat): nat {
    if sequence in grants then grants[sequence] else 0
  }

  function CountGrant(h: History, call: Call): History {
    match call
    case ModelCall(lease, _) =>
      h.(modelGrants := h.modelGrants[lease.sequence := GrantCount(h.modelGrants, lease.sequence) + 1])
    case ToolCall(lease, _) =>
      h.(toolGrants := h.toolGrants[lease.sequence := GrantCount(h.toolGrants, lease.sequence) + 1])
    case _ => h
  }

  function MovedProcess(p: Process, call: Call, move: Move): Process {
    match move
    case Wait(at) => p.(frame := Busy(call, at))
    case Return(answer) => p.(frame := Idle, answer := Some(answer))
    case Forfeit(lease, answer) => Revoked(p, lease).(frame := Idle, answer := Some(answer))
    case Acquire(lease) => WithLease(p, lease, Reserved).(frame := Busy(call, Leasing(lease)))
    case AcquireAndLose(lease, answer) => p.(owned := p.owned - {lease.sequence}, frame := Idle, answer := Some(answer))
    case Promote(lease) => WithLease(p, lease, InUse).(frame := Idle, answer := Some(Moved))
    case Grant => p.(frame := Idle, answer := Some(Granted(true)))
  }

  function Moves(w: World, p: Process, call: Call, move: Move): World {
    World(w.db, MovedProcess(p, call, move), if move.Grant? then CountGrant(w.h, call) else w.h)
  }

  function StartStep(w: World, call: Call, now: real): World
    requires w.p.frame.Idle?
  {
    Moves(w, w.p.(answer := None), call, StartMove(w.p, call, now))
  }

  predicate CanResume(p: Process) {
    && p.frame.Busy?
    && (AwaitedOp(p.frame).Some? ==> Adapter in p.done)
  }

  /** The reply a resumed call finds, and the process once it has taken it. */
  function TakenReply(p: Process): Outcome<Reply> {
    if Adapter in p.done then p.done[Adapter] else Fail(Store)
  }

  function AfterTaking(p: Process): Process {
    if AwaitedOp(p.frame).Some? then p.(done := p.done - {Adapter}) else p
  }

  function ResumeStep(w: World, interrupted: bool, backend: Backend, token: nat, now: real): World
    requires CanResume(w.p)
  {
    var call := w.p.frame.call;
    var p := AfterTaking(w.p);
    Moves(w, p, call, ResumeMove(p, call, w.p.frame.at, TakenReply(w.p), interrupted, backend, token, now))
  }

  // ---------------------------------------------------------------- runs

  predicate Enabled(w: World, a: Action) {
    match a
    case Initialize => !w.p.ready && !w.p.storeClosed
    case Begin(client, op, _) => CanBegin(w.p, client, op)
    case Commit => w.p.tx.Some?
    case RollBack => w.p.tx.Some?
    case Start(_, _) => w.p.frame.Idle?
    case Resume(_, _, _, _) => CanResume(w.p)
    case Revoke(_) => true
    case CloseAdapter => true
    case Fence => true
    case CloseStore => w.p.tx.None?
    case Take(client) => client != Adapter && client in w.p.done
    case TakeAnswer => w.p.frame.Idle?
    case Crash => true
  }

  function Next(w: World, a: Action): World
    requires Enabled(w, a)
  {
    match a
    case Initialize => w.(p := w.p.(ready := true))
    case Begin(client, op, now) => BeginStep(w, client, op, now)
    case Commit => CommitStep(w)
    case RollBack => RollBackStep(w)
    case Start(call, now) => StartStep(w, call, now)
    case Resume(interrupted, backend, token, now) => ResumeStep(w, interrupted, backend, token, now)
    case Revoke(lease) => w.(p := Revoked(w.p, lease))
    case CloseAdapter => w.(p := w.p.(adapterClosed := true, owned := map[]))
    case Fence => w.(p := w.p.(publicationClosed := true))
    case CloseStore => w.(p := w.p.(ready := false, storeClosed := true))
    case Take(client) => w.(p := w.p.(done := w.p.done - {client}))
    case TakeAnswer => w.(p := w.p.(answer := None))
    case Crash => World(w.db, NEW_PROCESS, w.h.(session := {}))
  }

  /** The world after a schedule; actions that are not enabled when their turn comes do nothing. */
  function Run(w: World, schedule: seq<Action>): World
    decreases |schedule|
  {
    if schedule == [] then w
    else Run(if Enabled(w, schedule[0]) then Next(w, schedule[0]) else w, schedule[1..])
  }
}
