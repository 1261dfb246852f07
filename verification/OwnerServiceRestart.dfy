/** What a restart means for the turns before it: a service that is ready has no open turn that it
    did not itself admit. */
module OwnerServiceRestart {
  import opened Wrappers
  import opened AdmissionStore
  import opened AdmissionInvariants
  import opened AdmissionProtocol
  import opened AdmissionSafety
  import opened OwnerService
  import opened OwnerServiceSafety
  import opened OwnerServiceTheorems

  /** The execution's turn, and the one just admitted, were committed by this process. */
  ghost predicate AdmittedHere(sys: System) {
    && (sys.s.execution.Task? ==> sys.s.execution.sequence in sys.w.h.session)
    && (forall t {:trigger JustAdmitted(sys, t)} :: JustAdmitted(sys, t) ==> t in sys.w.h.session)
  }

  /** A world step that commits nothing: the session stays, and the gate learns of no admission. */
  predicate NothingAdmitted(w: World, w': World) {
    && w'.h.session == w.h.session
    && (Gate in w'.p.done && w'.p.done[Gate].Ok? ==> Gate in w.p.done && w'.p.done[Gate] == w.p.done[Gate])
  }

  lemma BeginAdmitsNothing(w: World, client: Client, op: Op, now: real)
    requires CanBegin(w.p, client, op)
    ensures NothingAdmitted(w, BeginStep(w, client, op, now))
  {
    hide Perform, CanBegin;
  }

  lemma ResumeAdmitsNothing(w: World, interrupted: bool, backend: Backend, token: nat, now: real)
    requires CanResume(w.p)
    ensures NothingAdmitted(w, ResumeStep(w, interrupted, backend, token, now))
  {
    hide ResumeMove, CanResume, AwaitedOp;
  }

  lemma StartAdmitsNothing(w: World, call: Call, now: real)
    requires w.p.frame.Idle?
    ensures NothingAdmitted(w, StartStep(w, call, now))
  {
    hide StartMove;
  }

  /** The commit of an admission puts its turn into the session. */
  lemma CommitAdmits(sys: System)
    requires SysInv(sys) && AdmittedHere(sys) && sys.w.p.tx.Some?
    ensures AdmittedHere(sys.(w := CommitStep(sys.w)))
  {
    hide Inv, ExecutionInv, GateInv, OpenInv, TraceInv, PerformedFrom, CommitStep;
    var tx, sys' := sys.w.p.tx.value, sys.(w := CommitStep(sys.w));
    CommitSession(sys.w);
    forall t | JustAdmitted(sys', t) ensures t in sys'.w.h.session {
      if tx.client == Gate {
        assert GateMay(sys.s, tx.op) && tx.op.Admit?;
        SysHasWorld(sys);
        AdmissionIsNew(sys.w, tx, t);
      } else {
        assert JustAdmitted(sys, t);
      }
    }
  }

  lemma CommitSession(w: World)
    requires w.p.tx.Some?
    ensures var tx, w' := w.p.tx.value, CommitStep(w);
            && w.h.session <= w'.h.session
            && (forall c | c != tx.client :: c in w'.p.done <==> c in w.p.done)
            && (forall c | c != tx.client && c in w.p.done :: w'.p.done[c] == w.p.done[c])
            && (tx.client in w'.p.done && w'.p.done[tx.client].Ok? ==>
                  && w'.p.done[tx.client] == Ok(tx.reply)
                  && forall t | t in tx.staged.rows && t !in w.db.rows :: t in w'.h.session)
  {
  }

  lemma AdmissionIsNew(w: World, tx: Tx, t: nat)
    requires DbInv(w.db) && PerformedFrom(w.db, tx) && tx.op.Admit? && NewTurn(tx.reply, t)
    ensures t in tx.staged.rows && t !in w.db.rows
  {
    hide DbInv, ValidId, CheckInput, CheckThread, HasRequest, SameRequest;
    NextIsUnused(w.db);
    var now, memory :| Performs(w.db, tx, now, memory);
    assert AdmitWork(w.db, memory, tx.op, now).outcome == Ok(tx.reply);
  }

  lemma AdmittedHereKept(sys: System, sys': System)
    requires AdmittedHere(sys) && NothingAdmitted(sys.w, sys'.w)
    requires sys'.s.execution.Task? ==> sys.s.execution.Task? && sys'.s.execution.sequence == sys.s.execution.sequence
    requires AdmissionPending(sys') ==> AdmissionPending(sys)
    ensures AdmittedHere(sys')
  {
    forall t | JustAdmitted(sys', t) ensures t in sys'.w.h.session {
      assert JustAdmitted(sys, t);
    }
  }

  lemma RevokeAdmitsNothing(w: World, lease: Option<Lease>)
    ensures NothingAdmitted(w, RevokeHeld(w, lease))
  {
  }

  lemma TakesAdmitNothing(w: World, at: Spot)
    ensures NothingAdmitted(w, ExecutionTakes(w, at))
  {
  }

  lemma ApplyKeepsSession(sys: System, step: Step)
    requires AdmittedHere(sys) && sys.s.execution.Task?
    ensures AdmittedHere(ApplyStep(sys, step))
  {
    hide ExecutionTakes, RevokeHeld, AdmittedHere;
    var w := ExecutionTakes(sys.w, sys.s.execution.at);
    TakesAdmitNothing(sys.w, sys.s.execution.at);
    RevokeAdmitsNothing(w, sys.s.lease);
    AdmittedHereKept(sys, ApplyStep(sys, step));
  }

  lemma GateTakesEmpties(w: World)
    ensures NothingAdmitted(w, GateTakes(w)) && Gate !in GateTakes(w).p.done
  {
  }

  predicate SameHistory(w: World, w': World) {
    w'.h == w.h && w'.p.done == w.p.done
  }

  lemma GateWorldAdmitsNothing(sys: System, s': Service)
    requires GateCanRun(sys)
    ensures NothingAdmitted(sys.w, GateWorld(sys, s')) && Gate !in GateWorld(sys, s').p.done
  {
    hide CancelRevokes, GateTakes, Next, GateCanRun, RevokeHeld, Enabled;
    var w := GateTakes(sys.w);
    GateTakesEmpties(sys.w);
    LifecycleKeepsHistory(w);
    RevokingKeepsHistory(w, sys.s.lease);
    GateCanStillRun(sys);
    if sys.s.gate == Starting(TInit) {
      LifecycleKeepsHistory(Next(w, Initialize));
    }
  }

  lemma RevokingKeepsHistory(w: World, lease: Option<Lease>)
    ensures SameHistory(w, RevokeHeld(w, lease))
  {
  }

  /** Opening and closing the store and the adapter leaves replies and history alone. */
  lemma LifecycleKeepsHistory(w: World)
    ensures SameHistory(w, CloseOwned(w))
    ensures Enabled(w, Initialize) ==> SameHistory(w, Next(w, Initialize))
    ensures Enabled(w, CloseStore) ==> SameHistory(w, Next(w, CloseStore))
  {
  }

  lemma GateCanStillRun(sys: System)
    requires GateCanRun(sys)
    ensures sys.s.gate == Starting(TInit) ==> Enabled(GateTakes(sys.w), Initialize)
    ensures sys.s.gate == Stopping(PCloseStore) ==> Enabled(GateTakes(sys.w), CloseStore)
  {
    hide Enabled, GateTakes;
    InitializeAfterTake(sys.w);
  }

  /** The gate's call has run: the only execution it can start is of the turn just admitted. */
  lemma GateKeepsSession(sys: System, audit: AuditAnswer)
    requires AdmittedHere(sys) && GateCanRun(sys)
    ensures AdmittedHere(GateRuns(sys, audit))
  {
    hide GateWorld, GateCanRun, CancelRuns, StartRuns, StopRuns;
    var sys' := GateRuns(sys, audit);
    var outcome := TakenFor(sys.w.p, Gate);
    GateWorldAdmitsNothing(sys, sys'.s);
    match sys.s.gate
    case Submitting(_, _, _, at) =>
      if at.SAdmit? && sys'.s.execution != sys.s.execution {
        assert JustAdmitted(sys, sys'.s.execution.sequence);
      }
    case Cancelling(_, _, _) => CancelKeepsTask(sys.s, outcome);
    case Starting(_) => StartKeepsTask(sys.s, outcome, audit);
    case Stopping(_) => StopKeepsTask(sys.s, audit);
    case Free =>
  }

  predicate SameTurn(e: ExecutionTask, e': ExecutionTask) {
    e'.Task? ==> e.Task? && e'.sequence == e.sequence
  }

  lemma CancelKeepsTask(s: Service, outcome: Outcome<Reply>)
    requires s.gate.Cancelling?
    ensures SameTurn(s.execution, CancelRuns(s, outcome).execution)
  {
  }

  lemma StartKeepsTask(s: Service, outcome: Outcome<Reply>, audit: AuditAnswer)
    requires s.gate.Starting?
    ensures StartRuns(s, outcome, audit).execution == s.execution
  {
  }

  lemma StopKeepsTask(s: Service, audit: AuditAnswer)
    requires s.gate.Stopping?
    ensures StopRuns(s, audit).execution == s.execution
  {
  }

  lemma EventKeepsSession(sys: System, event: SystemEvent)
    requires SysInv(sys) && AdmittedHere(sys) && Possible(sys, event)
    ensures AdmittedHere(Happen(sys, event))
  {
    hide SysInv, AdmittedHere, BeginStep, CommitStep, ResumeStep, StartStep, ApplyStep, ExecutionStep, GateRuns,
         ExecutionCanRun, GateCanRun, ExecutionMay, GateMay, CallerMay, CanBegin, CanResume, ExecutionCalls, RevokeHeld;
    var sys' := Happen(sys, event);
    match event
    case BeginGate(op, now) =>
      BeginAdmitsNothing(sys.w, Gate, op, now);
      AdmittedHereKept(sys, sys');
    case BeginExecution(op, now) =>
      BeginAdmitsNothing(sys.w, Execution, op, now);
      AdmittedHereKept(sys, sys');
    case BeginCaller(op, now) =>
      BeginAdmitsNothing(sys.w, Caller, op, now);
      AdmittedHereKept(sys, sys');
    case BeginAdapter(op, now) =>
      BeginAdmitsNothing(sys.w, Adapter, op, now);
      AdmittedHereKept(sys, sys');
    case CommitTx =>
      CommitAdmits(sys);
      SessionIgnoresTrace(sys.(w := CommitStep(sys.w)), sys');
    case AdapterResumes(interrupted, backend, token, now) =>
      ResumeAdmitsNothing(sys.w, interrupted, backend, token, now);
      AdmittedHereKept(sys, sys');
    case ExecutionCallsAdapter(call, now) =>
      StartAdmitsNothing(sys.w, call, now);
      AdmittedHereKept(sys, sys');
    case ExecutionRuns(fault, audit, acknowledged, reply, now) =>
      ExecutionIsTask(sys, fault.Some?);
      ApplyKeepsSession(sys, ExecutionStep(sys, fault, audit, acknowledged, reply, now));
    case GateProceeds(audit) => GateKeepsSession(sys, audit);
    case Enters(entry) =>
      RevokeAdmitsNothing(sys.w, sys.s.lease);
      AdmittedHereKept(sys, sys');
    case StopIsCalled =>
      RevokeAdmitsNothing(sys.w, sys.s.lease);
      AdmittedHereKept(sys, sys');
    case ProcessCrashes => NobodyAdmitted(sys');
    case _ => AdmittedHereKept(sys, sys');
  }

  lemma SessionIgnoresTrace(a: System, b: System)
    requires AdmittedHere(a) && b.w == a.w && b.s == a.s
    ensures AdmittedHere(b)
  {
    forall t | JustAdmitted(b, t) ensures t in b.w.h.session {
      assert JustAdmitted(a, t);
    }
  }

  lemma NobodyAdmitted(sys: System)
    requires sys.s.execution.NoExecution? && !AdmissionPending(sys)
    ensures AdmittedHere(sys)
  {
  }

  lemma {:induction false} RunKeepsSession(sys: System, events: seq<SystemEvent>)
    requires SysInv(sys) && AdmittedHere(sys)
    ensures AdmittedHere(RunSystem(sys, events))
    decreases |events|
  {
    hide SysInv, AdmittedHere, Happen, Possible;
    if events != [] {
      if Possible(sys, events[0]) {
        HappenKeeps(sys, events[0]);
        EventKeepsSession(sys, events[0]);
        RunKeepsSession(Happen(sys, events[0]), events[1..]);
      } else {
        RunKeepsSession(sys, events[1..]);
      }
    }
  }

  /** In every reachable system that is ready, an open turn is one this very process admitted:
      whatever earlier processes left open has been settled by the restart. */
  lemma RestartSettlesOldTurns(sys: System, owner: Id, t: nat)
    requires ReachableSystem(sys, owner) && sys.s.ready && Interrupted(sys.w.db, t)
    ensures t in sys.w.h.session
  {
    hide Inv, WaitInv, ExecutionInv, GateInv, TraceInv, RunSystem;
    ReachableSystemHolds(sys, owner);
    var events :| sys == RunSystem(StartSystem(owner), events);
    SystemStarts(owner);
    NobodyAdmitted(StartSystem(owner));
    RunKeepsSession(StartSystem(owner), events);
    assert OpenAt(sys, t);
  }
}
