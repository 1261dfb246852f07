/** The budget adapter as it runs: an object over the store, its dictionary of leases changed
    in place. A method that awaits is one method per stretch between awaits; each stretch is
    proved to leave the process, and to suspend or answer, as the protocol's step does. */
module BudgetAdapter {
  import opened Wrappers
  import opened AdmissionStore
  import opened AdmissionProtocol
  import opened PilotStore

  /** How a stretch ends: suspended at an await, or back at the caller. */
  datatype Pause = Awaits(at: Stage) | Returns(answer: Answer)

  function PauseOf(move: Move): Pause {
    match move
    case Wait(at) => Awaits(at)
    case Return(answer) => Returns(answer)
    case Forfeit(_, answer) => Returns(answer)
    case Acquire(lease) => Awaits(Leasing(lease))
    case AcquireAndLose(_, answer) => Returns(answer)
    case Promote(_) => Returns(Moved)
    case Grant => Returns(Granted(true))
  }

  function Without(owned: map<nat, Owned>, lease: Lease): map<nat, Owned> {
    if lease.sequence in owned && owned[lease.sequence].lease == lease then owned - {lease.sequence} else owned
  }

  function OwnedAfter(owned: map<nat, Owned>, move: Move): map<nat, Owned> {
    match move
    case Forfeit(lease, _) => Without(owned, lease)
    case Acquire(lease) => owned[lease.sequence := Owned(lease, Reserved)]
    case AcquireAndLose(lease, _) => owned - {lease.sequence}
    case Promote(lease) => owned[lease.sequence := Owned(lease, InUse)]
    case _ => owned
  }

  /** The dictionary, the frame and the answer are all that a step changes of the process. */
  lemma StepIsDictionaryAndPause(p: Process, call: Call, move: Move)
    ensures MovedProcess(p, call, move) ==
            p.(owned := OwnedAfter(p.owned, move),
               frame := if PauseOf(move).Awaits? then Busy(call, PauseOf(move).at) else Idle,
               answer := if PauseOf(move).Awaits? then p.answer else Some(PauseOf(move).answer))
  {
  }

  class OwnerBudgetAdapter {
    const store: OwnerPilotStore
    var owned: map<nat, Owned>
    var closed: bool

    constructor (store: OwnerPilotStore)
      ensures this.store == store && owned == map[] && !closed
    {
      this.store := store;
      owned := map[];
      closed := false;
    }

    /** The objects show the given process. */
    ghost predicate Shows(p: Process)
      reads this, store
    {
      && p.adapterClosed == closed && p.owned == owned
      && p.ready == store.ready && p.storeClosed == store.closed && p.memory == store.Sets()
    }

    /** Every lease is filed under its own sequence. */
    ghost predicate Filed()
      reads this
    {
      forall s | s in owned :: owned[s].lease.sequence == s
    }

    method OwnsLease(lease: Lease, now: real, ghost p: Process) returns (owns: bool)
      requires Shows(p)
      ensures owns == Owns(p, lease, now)
    {
      if closed || !store.ready || store.closed {
        return false;
      }
      if lease.sequence in store.blockedSequences {
        return false;
      }
      return lease.sequence in owned && owned[lease.sequence].lease == lease && now < lease.deadline;
    }

    method OwnsRunning(lease: Lease, now: real, ghost p: Process) returns (owns: bool)
      requires Shows(p)
      ensures owns == OwnsInUse(p, lease, now)
    {
      var held := OwnsLease(lease, now, p);
      return held && owned[lease.sequence].state == InUse;
    }

    /** Searches all entries for the lease and drops the first that holds it. */
    method Revoke(lease: Lease)
      requires Filed()
      modifies this`owned
      ensures owned == Without(old(owned), lease) && Filed()
    {
      var left := owned.Keys;
      while left != {}
        invariant left <= owned.Keys
        invariant forall s | s in owned && owned[s].lease == lease :: s in left
        invariant owned == old(owned)
        decreases |left|
      {
        var s :| s in left;
        if owned[s].lease == lease {
          owned := owned - {s};
          return;
        }
        left := left - {s};
      }
    }

    /** `close`, up to its first await. */
    method Close(ghost p: Process)
      requires Shows(p)
      modifies this`owned, this`closed
      ensures Shows(p.(adapterClosed := true, owned := map[])) && Filed()
    {
      closed := true;
      owned := map[];
    }

    /** `_current` when its store.get returns; a row that contradicts the lease ends it. */
    method Current(lease: Lease, expected: State, outcome: Outcome<Reply>, now: real, ghost p: Process)
      returns (error: Option<PilotError>)
      requires Shows(p) && Filed()
      modifies this`owned
      ensures Filed()
      ensures match CheckCurrent(p, lease, expected, outcome, now)
              case Confirmed => error == None && owned == p.owned
              case Lost(e) => error == Some(e) && owned == p.owned
              case Contradicted => error == Some(PilotError(Conflict, false)) && owned == Without(p.owned, lease)
    {
      match outcome
      case Err(e) => return Some(e);
      case Ok(reply) =>
        var held := OwnsLease(lease, now, p);
        if !held {
          return Some(PilotError(Forbidden, false));
        }
        if !reply.RecordReply? || reply.sequence != lease.sequence
           || reply.row.requestId != lease.requestId || reply.row.owner != lease.owner
           || reply.row.createdAt + TURN_SECONDS != lease.deadline
           || reply.row.state != expected || reply.row.cancelRequested
        {
          Revoke(lease);
          return Some(PilotError(Conflict, false));
        }
        return None;
    }

    /** Each call up to its first await. */
    method Begin(call: Call, now: real, ghost p: Process) returns (pause: Pause)
      requires Shows(p)
      ensures pause == PauseOf(StartMove(p, call, now))
      ensures OwnedAfter(owned, StartMove(p, call, now)) == owned
    {
      match call
      case ReserveRequest(_, _, _) =>
        return if closed then Returns(Refusal(Disabled)) else Awaits(Claiming);
      case MarkRunning(lease) =>
        var held := OwnsLease(lease, now, p);
        if !held {
          return Returns(Refusal(Forbidden));
        }
        return if owned[lease.sequence].state != Reserved then Returns(Refusal(Conflict)) else Awaits(Checking);
      case ModelCall(lease, _) =>
        var running := OwnsRunning(lease, now, p);
        return if running then Awaits(Checking) else Returns(Granted(false));
      case ToolCall(lease, _) =>
        var running := OwnsRunning(lease, now, p);
        return if running then Awaits(Checking) else Returns(Granted(false));
      case FinishRequest(lease, _) =>
        var held := OwnsLease(lease, now, p);
        if !held {
          return Returns(Refusal(Forbidden));
        }
        return if owned[lease.sequence].state != InUse then Returns(Refusal(Conflict)) else Awaits(Checking);
    }

    /** Whether a step's effect and pause are the given move's. */
    ghost predicate Makes(pause: Pause, p: Process, move: Move)
      reads this
    {
      pause == PauseOf(move) && owned == OwnedAfter(p.owned, move) && Filed()
    }

    method ReserveRequestResumes(call: Call, at: Stage, outcome: Outcome<Reply>, interrupted: bool, backend: Backend,
                                 token: nat, now: real, ghost p: Process) returns (pause: Pause)
      requires Shows(p) && Filed() && call.ReserveRequest?
      requires at.Claiming? || at.QuotaReserving? || at.Leasing?
      modifies this`owned
      ensures Makes(pause, p, ReserveMove(p, call, at, outcome, interrupted, backend, token, now))
    {
      hide CheckCurrent, Owns;
      match at
      case Claiming =>
        if interrupted {
          return Returns(Interrupt);
        }
        if outcome.Err? {
          return Returns(Raised(outcome.error));
        }
        var reply := outcome.value;
        return if reply.ClaimReply?
               then Awaits(QuotaReserving(reply.claimed, reply.quota, reply.claimedRow.createdAt))
               else Returns(Interrupt);
      case QuotaReserving(_, _, _) =>
        if interrupted {
          return Returns(Interrupt);
        } else if backend.Raises? {
          return Returns(BackendLost);
        } else if backend.Declines? {
          return Returns(Refusal(backend.code));
        }
        var lease := NewLease(call, at, token);
        owned := owned[lease.sequence := Owned(lease, Reserved)];
        var held := OwnsLease(lease, now, WithLease(p, lease, Reserved));
        if held {
          return Awaits(Leasing(lease));
        }
        owned := owned - {lease.sequence};
        assert owned == p.owned - {lease.sequence};
        return Returns(Refusal(Forbidden));
      case Leasing(lease) =>
        if interrupted {
          Revoke(lease);
          return Returns(Interrupt);
        }
        var error := Current(lease, Admitted, outcome, now, p);
        if error.Some? {
          Revoke(lease);
          return Returns(Raised(error.value));
        }
        return Returns(Leased(lease));
    }

    method MarkRunningResumes(lease: Lease, at: Stage, outcome: Outcome<Reply>, interrupted: bool, backend: Backend,
                              now: real, ghost p: Process) returns (pause: Pause)
      requires Shows(p) && Filed()
      requires at.Checking? || at.QuotaMarking? || at.Moving? || at.Confirming?
      modifies this`owned
      ensures Makes(pause, p, MarkMove(p, lease, at, outcome, interrupted, backend, now))
    {
      hide CheckCurrent, Owns;
      var error: Option<Answer> := if interrupted then Some(Interrupt) else None;
      if !interrupted {
        if at.Checking? || at.Confirming? {
          var expected := if at.Checking? then Admitted else Running;
          var lost := Current(lease, expected, outcome, now, p);
          if lost.Some? {
            error := Some(Raised(lost.value));
          }
        } else if at.QuotaMarking? && !backend.Accepts? {
          error := Some(BackendLost);
        } else if at.Moving? && outcome.Err? {
          error := Some(Raised(outcome.error));
        } else {
          var held := OwnsLease(lease, now, p);
          if !held {
            error := Some(Refusal(Forbidden));
          }
        }
      }
      if error.Some? {
        Revoke(lease);
        return Returns(error.value);
      }
      match at
      case Checking => return Awaits(QuotaMarking);
      case QuotaMarking => return Awaits(Moving);
      case Moving => return Awaits(Confirming);
      case Confirming =>
        owned := owned[lease.sequence := Owned(lease, InUse)];
        return Returns(Moved);
    }

    method MeteredCallResumes(call: Call, at: Stage, outcome: Outcome<Reply>, interrupted: bool, backend: Backend,
                              now: real, ghost p: Process) returns (pause: Pause)
      requires Shows(p) && Filed() && (call.ModelCall? || call.ToolCall?)
      requires at.Checking? || at.Counting? || at.Metering? || at.Confirming?
      modifies this`owned
      ensures Makes(pause, p, MeteredMove(p, call, at, outcome, interrupted, backend, now))
    {
      hide CheckCurrent, Owns;
      var lease := call.lease;
      if interrupted {
        Revoke(lease);
        return Returns(Interrupt);
      }
      if at.Checking? || at.Confirming? {
        var lost := Current(lease, Running, outcome, now, p);
        if lost.Some? {
          if lost.value.code == Forbidden || lost.value.code == Conflict {
            return Returns(Granted(false));
          }
          Revoke(lease);
          return Returns(Raised(lost.value));
        }
        return if at.Checking? then Awaits(Counting) else Returns(Granted(true));
      }
      if at.Metering? {
        if backend.Raises? {
          Revoke(lease);
          return Returns(BackendLost);
        }
        var running := OwnsRunning(lease, now, p);
        return if backend.Declines? || !running then Returns(Granted(false)) else Awaits(Confirming);
      }
      if outcome.Err? {
        Revoke(lease);
        return Returns(Raised(outcome.error));
      }
      if outcome.value != FlagReply(true) {
        return Returns(Granted(false));
      }
      if call.ModelCall? {
        var held := OwnsLease(lease, now, p);
        return if held then Awaits(Metering) else Returns(Granted(false));
      }
      var running := OwnsRunning(lease, now, p);
      return if running then Awaits(Confirming) else Returns(Granted(false));
    }

    /** Whatever happens, `finally` revokes the lease. */
    method FinishRequestResumes(call: Call, at: Stage, outcome: Outcome<Reply>, interrupted: bool, backend: Backend,
                                now: real, ghost p: Process) returns (pause: Pause)
      requires Shows(p) && Filed() && call.FinishRequest? && (at.Checking? || at.QuotaFinishing?)
      modifies this`owned
      ensures Makes(pause, p, FinishMove(p, call, at, outcome, interrupted, backend, now))
    {
      hide CheckCurrent, Owns;
      var lease := call.lease;
      if interrupted {
        pause := Returns(Interrupt);
      } else if at.QuotaFinishing? {
        pause := Returns(if backend.Accepts? then Finished(call.success) else BackendLost);
      } else {
        var lost := Current(lease, Running, outcome, now, p);
        if lost.None? {
          return Awaits(QuotaFinishing);
        }
        pause := Returns(Raised(lost.value));
      }
      Revoke(lease);
    }

    /** Any suspended call, resumed. */
    method Resume(call: Call, at: Stage, outcome: Outcome<Reply>, interrupted: bool, backend: Backend,
                  token: nat, now: real, ghost p: Process) returns (pause: Pause)
      requires Shows(p) && Filed()
      requires match call
               case ReserveRequest(_, _, _) => at.Claiming? || at.QuotaReserving? || at.Leasing?
               case MarkRunning(_) => at.Checking? || at.QuotaMarking? || at.Moving? || at.Confirming?
               case FinishRequest(_, _) => at.Checking? || at.QuotaFinishing?
               case _ => at.Checking? || at.Counting? || at.Metering? || at.Confirming?
      modifies this`owned
      ensures Makes(pause, p, ResumeMove(p, call, at, outcome, interrupted, backend, token, now))
    {
      hide ReserveMove, MarkMove, MeteredMove, FinishMove, Makes;
      match call
      case ReserveRequest(_, _, _) =>
        pause := ReserveRequestResumes(call, at, outcome, interrupted, backend, token, now, p);
      case MarkRunning(lease) =>
        pause := MarkRunningResumes(lease, at, outcome, interrupted, backend, now, p);
      case FinishRequest(_, _) =>
        pause := FinishRequestResumes(call, at, outcome, interrupted, backend, now, p);
      case _ =>
        pause := MeteredCallResumes(call, at, outcome, interrupted, backend, now, p);
    }
  }
}
