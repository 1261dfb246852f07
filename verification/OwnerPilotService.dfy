/** The service as it runs: an object over the store and the adapter, its fields changed in
    place between awaits. Each method is one stretch; it is proved to leave the fields as the
    protocol's step says, and to do to the adapter and the store exactly what that step does. */
module PilotService {
  import opened Wrappers
  import Utf8
  import opened AdmissionStore
  import opened AdmissionProtocol
  import opened OwnerService
  import opened PilotStore
  import opened BudgetAdapter

  class OwnerPilotService {
    const owner: Id
    const store: OwnerPilotStore
    const budget: OwnerBudgetAdapter
    var workspace: Id
    var ready: bool
    var closed: bool
    var stopping: bool
    var blocked: bool
    var gate: Holder
    var execution: ExecutionTask
    var lease: Option<Lease>
    var activeTask: Option<Id>

    /** The adapter and the service share one store. */
    predicate Wired() {
      budget.store == store
    }

    constructor (owner: Id, store: OwnerPilotStore, budget: OwnerBudgetAdapter)
      requires budget.store == store
      ensures Wired()
      ensures View() == NewService(owner)
      ensures this.store == store && this.budget == budget
    {
      this.owner, this.store, this.budget := owner, store, budget;
      workspace, ready, closed, stopping, blocked := "", false, false, false, false;
      gate, execution, lease, activeTask := Free, NoExecution, None, None;
    }

    function View(): Service
      reads this
    {
      Service(owner, workspace, ready, closed, stopping, blocked, gate, execution, lease, activeTask)
    }

    /** The dictionary after the held lease, if any, is revoked. */
    function Unheld(owned: map<nat, Owned>): map<nat, Owned>
      reads this
    {
      if lease.Some? then Without(owned, lease.value) else owned
    }

    method RevokeLease()
      requires budget.Filed()
      modifies budget`owned
      ensures budget.owned == Unheld(old(budget.owned)) && budget.Filed()
    {
      if lease.Some? {
        budget.Revoke(lease.value);
      }
    }

    method CancelExecution()
      modifies this`execution
      ensures execution == ToldToCancel(old(execution))
    {
      if execution.Task? && !execution.at.Over? {
        execution := execution.(cancelling := true);
      }
    }

    /** `stop`, up to its first await. */
    method Stop()
      requires budget.Filed()
      modifies this`stopping, budget`owned, store`publicationClosed
      ensures View() == old(View()).(stopping := true)
      ensures budget.owned == Unheld(old(budget.owned)) && store.publicationClosed
    {
      stopping := true;
      RevokeLease();
      store.FencePublication();
    }

    /** A call takes the gate; stopping also revokes and cancels what is running. */
    method EnterGate(entry: Entry)
      requires CanEnter(View(), entry) && budget.Filed()
      modifies this`gate, this`execution, budget`owned
      ensures View() == EnterService(old(View()), entry)
      ensures budget.owned == if entry.ShutDown? then Unheld(old(budget.owned)) else old(budget.owned)
    {
      match entry
      case Submit(requestId, threadId, message) => gate := Submitting(requestId, threadId, message, SScope);
      case CancelTask(taskId, requestId) => gate := Cancelling(taskId, requestId, CScope);
      case StartUp => gate := Starting(TInit);
      case ShutDown =>
        RevokeLease();
        CancelExecution();
        gate := Stopping(PAwait);
    }

    /** `_scope`: the workspace must be this process's own. */
    method Scope(outcome: Outcome<Reply>, refused: bool) returns (ok: bool)
      modifies this`workspace
      ensures ok <==> outcome.Ok? && outcome.value.WorkspaceReply? && !refused
                      && (old(workspace) == "" || old(workspace) == outcome.value.workspace)
      ensures workspace == if ok then outcome.value.workspace else old(workspace)
    {
      if outcome.Err? || !outcome.value.WorkspaceReply? || refused {
        return false;
      }
      if workspace != "" && workspace != outcome.value.workspace {
        return false;
      }
      workspace := outcome.value.workspace;
      return true;
    }

    method SubmitResumes(outcome: Outcome<Reply>, audit: AuditAnswer)
      requires gate.Submitting?
      modifies this`workspace, this`gate, this`execution, this`activeTask
      ensures View() == SubmitRuns(old(View()), outcome, audit)
    {
      if gate.submit.SScope? {
        SubmitScoped(outcome);
      } else if gate.submit.SAdmit? {
        Launch(outcome);
      } else {
        SubmitAsks(outcome, audit);
      }
    }

    method SubmitScoped(outcome: Outcome<Reply>)
      requires gate.Submitting? && gate.submit.SScope?
      modifies this`workspace, this`gate
      ensures View() == SubmitRuns(old(View()), outcome, Clear)
    {
      var mine := Scope(outcome, !ready || stopping);
      gate := if mine then gate.(submit := SLookup) else Free;
    }

    /** The questions an admission asks first: is the id new, is anything uncertain. */
    method SubmitAsks(outcome: Outcome<Reply>, audit: AuditAnswer)
      requires gate.Submitting? && !gate.submit.SScope? && !gate.submit.SAdmit?
      modifies this`gate
      ensures View() == SubmitRuns(old(View()), outcome, audit)
    {
      var at := gate.submit;
      match at
      case SLookup =>
        var unknown := outcome.Err? && outcome.error.code == NotFound;
        gate := if unknown && ExecutionIdle(execution) then gate.(submit := SDurable) else Free;
      case SDurable =>
        gate := if outcome.Ok? && outcome.value.FlagReply? then gate.(submit := SAudit(outcome.value.flag)) else Free;
      case SAudit(durable) =>
        var uncertain := audit.AuditFails? || durable || audit.PendingCalls? || blocked || stopping;
        gate := if uncertain then Free else gate.(submit := SAdmit);
    }

    /** The admission has returned: a new turn gets its execution task. */
    method Launch(outcome: Outcome<Reply>)
      requires gate.Submitting? && gate.submit.SAdmit?
      modifies this`gate, this`execution, this`activeTask
      ensures View() == SubmitRuns(old(View()), outcome, Clear)
    {
      gate := Free;
      if outcome.Ok? && outcome.value.RecordReply? && !outcome.value.replayed && outcome.value.row.turn.Some? {
        var row := outcome.value.row;
        activeTask := Some(row.turn.value.taskId);
        execution := Task(outcome.value.sequence, row.requestId, row.turn.value.taskId, NotStarted, false, None);
      }
    }

    method CancelResumes(outcome: Outcome<Reply>)
      requires gate.Cancelling? && budget.Filed()
      modifies this`workspace, this`gate, this`execution, budget`owned
      ensures View() == CancelRuns(old(View()), outcome)
      ensures budget.owned ==
              if old(gate).cancel.CRequest? && outcome.Ok? && activeTask == Some(old(gate).taskId) && execution.Task?
              then Unheld(old(budget.owned)) else old(budget.owned)
    {
      var at := gate.cancel;
      match at
      case CScope =>
        var mine := Scope(outcome, !ready);
        gate := if mine then gate.(cancel := CRequest) else Free;
      case CRequest =>
        if outcome.Err? {
          gate := Free;
        } else if activeTask == Some(gate.taskId) && execution.Task? {
          RevokeLease();
          CancelExecution();
          gate := gate.(cancel := CAwait);
        } else {
          gate := gate.(cancel := CRead);
        }
      case CAwait => gate := gate.(cancel := CRead);
      case CRead => gate := Free;
    }

    /** `_close_owned`, up to its first await: refuse, and close the adapter. */
    method CloseOwnedParts(ghost p: Process)
      requires budget.Shows(p)
      modifies this`ready, this`closed, this`gate, budget`owned, budget`closed
      ensures View() == Closing(old(View()))
      ensures budget.closed && budget.owned == map[]
    {
      ready := false;
      closed := true;
      gate := Stopping(PCloseStore);
      budget.Close(p);
    }

    method StartResumes(outcome: Outcome<Reply>, audit: AuditAnswer, ghost p: Process)
      requires Wired() && gate.Starting? && budget.Shows(p)
      modifies this`ready, this`closed, this`gate, budget`owned, budget`closed, store`ready
      ensures View() == StartRuns(old(View()), outcome, audit)
      ensures old(gate).start.TInit? && !store.closed ==> store.ready
      ensures gate.Stopping? ==> budget.closed && budget.owned == map[]
      ensures !gate.Stopping? ==> budget.owned == old(budget.owned) && budget.closed == old(budget.closed)
    {
      var at := gate.start;
      ghost var q := p;
      if at.TInit? {
        var initialized := store.Initialize();
        q := p.(ready := store.ready);
      }
      if if at.TInit? then audit.AuditFails? else outcome.Err? {
        CloseOwnedParts(q);
      } else if at.TInit? {
        gate := Starting(TRecover);
      } else {
        ready := true;
        gate := Free;
      }
    }

    method StopResumes(audit: AuditAnswer, ghost p: Process)
      requires gate.Stopping? && budget.Shows(p)
      modifies this`ready, this`closed, this`blocked, this`gate, budget`owned, budget`closed,
               store`publicationClosed, store`ready, store`closed
      ensures View() == StopRuns(old(View()), audit)
      ensures old(gate).stop.PAudit? ==> budget.closed && budget.owned == map[]
      ensures old(gate).stop.PCloseStore? ==> store.closed && !store.ready && store.publicationClosed
    {
      var at := gate.stop;
      match at
      case PAwait => gate := Stopping(PAudit);
      case PAudit =>
        if ready && audit.AuditFails? {
          blocked := true;
        }
        CloseOwnedParts(p);
      case PCloseStore =>
        store.Close();
        gate := Free;
    }

    /** The end of `_execute`, with its `finally`. */
    method FinishExecution(block: bool)
      requires execution.Task? && budget.Filed()
      modifies this`blocked, this`execution, budget`owned
      ensures View() == StepService(old(View()), Quit(block))
      ensures budget.owned == Unheld(old(budget.owned))
    {
      if block {
        blocked := true;
      }
      execution := execution.(at := Over);
      RevokeLease();
    }

    /** The task goes on to its next await. */
    method MoveTo(at: Spot)
      requires execution.Task?
      modifies this`execution
      ensures View() == StepService(old(View()), Goto(at))
    {
      execution := execution.(at := at);
    }

    /** An exception leaves `_perform`: the handler of `_execute` asks the audit first. */
    method Raise(exc: Exc)
      requires execution.Task?
      modifies this`execution
      ensures View() == StepService(old(View()), Throw(exc))
    {
      execution := execution.(at := Inspecting(exc));
    }

    method OwnsHeld(now: real, ghost p: Process) returns (held: bool)
      requires budget.Shows(p)
      ensures held == (lease.Some? && Owns(p, lease.value, now))
    {
      held := false;
      if lease.Some? {
        held := budget.OwnsLease(lease.value, now, p);
      }
    }

    /** `_perform` at one of its four questions to `_uncertainty`, which asks the store, then the
        audit; after mark_running the grant also asks whether the lease is still owned. */
    method UncertaintyResumes(outcome: Outcome<Reply>, audit: AuditAnswer, now: real, ghost p: Process)
      requires execution.Task? && (execution.at.DurableCheck? || execution.at.AuditCheck?)
      requires budget.Shows(p) && outcome == TakenFor(p, Execution)
      modifies this`execution
      ensures View() == StepService(old(View()), PerformStep(old(View()), p, audit, false, None, now))
    {
      hide Owns;
      var at := execution.at;
      if at.DurableCheck? {
        if outcome.Err? {
          Raise(FromPilot(outcome.error));
        } else if !outcome.value.FlagReply? {
          Raise(CANCELLED);
        } else {
          MoveTo(AuditCheck(at.point, outcome.value.flag));
        }
        return;
      }
      if audit.AuditFails? {
        Raise(Exc(true, Audit));
        return;
      }
      if at.durable || audit.PendingCalls? || blocked || stopping {
        Raise(Exc(true, Uncertainty));
        return;
      }
      match at.point
      case AtStart => MoveTo(Reserving);
      case AfterMark =>
        var held := OwnsHeld(now, p);
        if held {
          MoveTo(Handling);
        } else {
          Raise(Exc(false, Forbidden));
        }
      case AfterRecord => MoveTo(Finishing);
      case AfterFinish => MoveTo(Publishing);
    }

    /** The lease has been reserved, or marked as running, or not. */
    method LeaseResumes(answer: Option<Answer>, ghost p: Process)
      requires execution.Task? && (execution.at.Reserving? || execution.at.Marking?) && answer == p.answer
      modifies this`execution, this`lease
      ensures View() == StepService(old(View()), PerformStep(old(View()), p, Clear, false, None, 0.0))
    {
      if execution.at.Reserving? {
        if answer.Some? && answer.value.Leased? {
          lease := Some(answer.value.lease);
          MoveTo(Marking);
        } else {
          Raise(FromAnswer(answer));
        }
      } else if answer == Some(Moved) {
        MoveTo(DurableCheck(AfterMark));
      } else {
        Raise(FromAnswer(answer));
      }
    }

    /** The butler has answered, with a completed report bound to this task and text or without;
        then the result has been staged, or not. */
    method ReplyResumes(outcome: Outcome<Reply>, reply: Option<(Utf8.Text, Option<Report>)>, ghost p: Process)
      requires execution.Task? && (execution.at.Handling? || execution.at.Staging?) && outcome == TakenFor(p, Execution)
      modifies this`execution
      ensures View() == StepService(old(View()), PerformStep(old(View()), p, Clear, false, reply, 0.0))
    {
      if execution.at.Handling? {
        if reply.None? {
          Raise(Exc(false, Conflict));
          return;
        }
        var (text, report) := reply.value;
        if !Utf8.Scalar(text) || report.None? || report.value.taskId != execution.taskId
           || report.value.output != text || !report.value.completed
        {
          Raise(Exc(false, Conflict));
          return;
        }
        execution := execution.(at := Staging, result := Some(TurnResult(execution.taskId, text, report)));
      } else if outcome.Ok? {
        MoveTo(Recording);
      } else {
        Raise(FromPilot(outcome.error));
      }
    }

    /** The last three stretches: the gateway entry acknowledged, the quota request finished, the
        turn committed. */
    method PublishResumes(outcome: Outcome<Reply>, answer: Option<Answer>, acknowledged: bool, ghost p: Process)
      returns (mark: Option<Mark>)
      requires execution.Task? && (execution.at.Recording? || execution.at.Finishing? || execution.at.Publishing?)
      requires budget.Filed() && outcome == TakenFor(p, Execution) && answer == p.answer
      modifies this`blocked, this`execution, budget`owned
      ensures var step := PerformStep(old(View()), p, Clear, acknowledged, None, 0.0);
              && View() == StepService(old(View()), step)
              && mark == (if step.Noted? then Some(step.mark) else None)
              && budget.owned == if step.Quit? then Unheld(old(budget.owned)) else old(budget.owned)
    {
      hide Without, Owns, Bound, AfterCheck;
      mark := None;
      match execution.at
      case Recording =>
        if acknowledged {
          mark := Some(GatewayRecorded(execution.sequence));
          MoveTo(DurableCheck(AfterRecord));
        } else {
          Raise(Exc(true, Audit));
        }
      case Finishing =>
        if answer == Some(Finished(true)) {
          mark := Some(QuotaFinished(execution.sequence));
          MoveTo(DurableCheck(AfterFinish));
        } else {
          Raise(FromAnswer(answer));
        }
      case Publishing =>
        if outcome.Ok? {
          FinishExecution(false);
        } else {
          Raise(FromPilot(outcome.error));
        }
    }

    /** The handler has read the row again: an open one is given back or settled. */
    method RowReread(outcome: Outcome<Reply>, now: real, ghost p: Process)
      requires execution.Task? && execution.at.Rereading?
      requires budget.Filed() && budget.Shows(p) && outcome == TakenFor(p, Execution)
      modifies this`blocked, this`execution, budget`owned
      ensures var step := HandlerStep(old(View()), p, false, Clear, now);
              && View() == StepService(old(View()), step)
              && budget.owned == if step.Quit? then Unheld(old(budget.owned)) else old(budget.owned)
    {
      hide Owns, Without;
      var exc, pending := execution.at.exc, execution.at.pending;
      if outcome.Err? || !outcome.value.RecordReply? {
        FinishExecution(true);
        return;
      }
      var row := outcome.value.row;
      if Terminal(row.state) {
        FinishExecution(false);
        return;
      }
      var uncertain := pending || row.result.Some? || exc.uncertain;
      var held := OwnsHeld(now, p);
      if !uncertain && held {
        MoveTo(Refunding(exc, row.state));
      } else {
        MoveTo(Settling(row.state, uncertain, if uncertain then Uncertainty else exc.code));
      }
    }

    /** The request has been given back, or not: the row is settled accordingly. */
    method RefundAnswered(answer: Option<Answer>, ghost p: Process)
      requires execution.Task? && execution.at.Refunding? && budget.Filed() && answer == p.answer
      modifies this`blocked, this`execution, budget`owned
      ensures var step := HandlerStep(old(View()), p, false, Clear, 0.0);
              && View() == StepService(old(View()), step)
              && budget.owned == if step.Quit? then Unheld(old(budget.owned)) else old(budget.owned)
    {
      hide Owns, Without;
      var exc, found := execution.at.exc, execution.at.found;
      if answer.Some? && answer.value.Finished? {
        MoveTo(Settling(found, false, exc.code));
      } else if answer.Some? && answer.value.Raised? {
        MoveTo(Settling(found, true, Uncertainty));
      } else {
        FinishExecution(true);
      }
    }

    /** The handler of `_execute`. It inspects the audit and the row, gives an unspent request back
        when nothing is uncertain, and settles the row; anything that goes wrong here blocks. */
    method HandlerResumes(outcome: Outcome<Reply>, answer: Option<Answer>, faulted: bool, audit: AuditAnswer,
                          now: real, ghost p: Process)
      requires execution.Task? && InHandler(execution.at)
      requires budget.Filed() && budget.Shows(p) && outcome == TakenFor(p, Execution) && answer == p.answer
      modifies this`blocked, this`execution, budget`owned
      ensures var step := HandlerStep(old(View()), p, faulted, audit, now);
              && View() == StepService(old(View()), step)
              && budget.owned == if step.Quit? then Unheld(old(budget.owned)) else old(budget.owned)
    {
      hide Owns, Without, Terminal;
      if faulted {
        FinishExecution(true);
        return;
      }
      match execution.at
      case Inspecting(exc) =>
        if audit.AuditFails? {
          blocked := true;
        }
        MoveTo(Rereading(exc, audit.AuditFails? || audit.PendingCalls?));
      case Rereading(_, _) => RowReread(outcome, now, p);
      case Refunding(_, _) => RefundAnswered(answer, p);
      case Settling(_, _, _) => FinishExecution(outcome.Err?);
    }

    /** `_execute` and `_perform`, resumed at any of their awaits, with or without a fault. */
    method ExecutionResumes(outcome: Outcome<Reply>, answer: Option<Answer>, fault: Option<Exc>, audit: AuditAnswer,
                            acknowledged: bool, reply: Option<(Utf8.Text, Option<Report>)>, now: real, ghost p: Process)
      returns (mark: Option<Mark>)
      requires execution.Task? && !execution.at.Over? && budget.Filed() && budget.Shows(p)
      requires outcome == TakenFor(p, Execution) && answer == p.answer
      modifies this`blocked, this`execution, this`lease, budget`owned
      ensures var step := ChosenStep(old(View()), p, fault, audit, acknowledged, reply, now);
              && View() == StepService(old(View()), step)
              && mark == (if step.Noted? then Some(step.mark) else None)
              && budget.owned == if step.Quit? then Unheld(old(budget.owned)) else old(budget.owned)
    {
      hide HandlerStep, Owns, Without, StepService, Bound;
      ghost var s := View();
      mark := None;
      if InHandler(execution.at) {
        HandlerNotesNothing(s, p, fault.Some?, audit, now);
        HandlerResumes(outcome, answer, fault.Some?, audit, now, p);
        return;
      }
      if fault.Some? {
        Raise(fault.value);
        return;
      }
      StretchesAskOnly(s, p, audit, acknowledged, reply, now);
      match execution.at
      case NotStarted =>
        if stopping {
          Raise(Exc(true, Uncertainty));
        } else {
          MoveTo(DurableCheck(AtStart));
        }
      case DurableCheck(_) => UncertaintyResumes(outcome, audit, now, p);
      case AuditCheck(_, _) => UncertaintyResumes(outcome, audit, now, p);
      case Reserving => LeaseResumes(answer, p);
      case Marking => LeaseResumes(answer, p);
      case Handling => ReplyResumes(outcome, reply, p);
      case Staging => ReplyResumes(outcome, reply, p);
      case Recording => mark := PublishResumes(outcome, answer, acknowledged, p);
      case Finishing => mark := PublishResumes(outcome, answer, acknowledged, p);
      case Publishing => mark := PublishResumes(outcome, answer, acknowledged, p);
    }

    static lemma HandlerNotesNothing(s: Service, p: Process, faulted: bool, audit: AuditAnswer, now: real)
      requires s.execution.Task?
      ensures !HandlerStep(s, p, faulted, audit, now).Noted?
    {
      hide Owns;
    }

    /** Each stretch looks at no more than what its method is given. */
    static lemma StretchesAskOnly(s: Service, p: Process, audit: AuditAnswer, acknowledged: bool,
                                  reply: Option<(Utf8.Text, Option<Report>)>, now: real)
      requires s.execution.Task?
      ensures var at, step := s.execution.at, PerformStep(s, p, audit, acknowledged, reply, now);
              && (at.DurableCheck? || at.AuditCheck? ==> step == PerformStep(s, p, audit, false, None, now))
              && (at.Reserving? || at.Marking? ==> step == PerformStep(s, p, Clear, false, None, 0.0))
              && (at.Handling? || at.Staging? ==> step == PerformStep(s, p, Clear, false, reply, 0.0))
              && (at.Recording? || at.Finishing? || at.Publishing? ==>
                    step == PerformStep(s, p, Clear, acknowledged, None, 0.0))
              && (!at.Recording? && !at.Finishing? ==> !step.Noted?)
              && (!at.Publishing? && !at.Over? && !InHandler(at) ==> !step.Quit?)
    {
      hide Owns, Bound;
    }
  }
}
