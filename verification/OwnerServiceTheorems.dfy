/** What the owner service promises, over every sequence of events. */
module OwnerServiceTheorems {
  import opened Wrappers
  import opened AdmissionStore
  import opened AdmissionInvariants
  import opened AdmissionProtocol
  import opened AdmissionSafety
  import opened AdmissionTheorems
  import opened OwnerService
  import opened OwnerServiceSafety

  /** A system some sequence of events leads to, starting from an empty database. */
  ghost predicate ReachableSystem(sys: System, owner: Id) {
    exists events :: sys == RunSystem(StartSystem(owner), events)
  }

  lemma ReachableSystemHolds(sys: System, owner: Id)
    requires ReachableSystem(sys, owner)
    ensures SysInv(sys)
  {
    hide SysInv, RunSystem;
    var events :| sys == RunSystem(StartSystem(owner), events);
    SystemStarts(owner);
    RunSystemKeeps(StartSystem(owner), events);
  }

  // ---------------------------------------------------------------- the service runs the protocol

  lemma {:induction false} RunJoins(w: World, a: seq<Action>, b: seq<Action>)
    ensures Run(w, a + b) == Run(Run(w, a), b)
    decreases |a|
  {
    hide Next, Enabled;
    if a == [] {
      assert a + b == b;
    } else {
      assert (a + b)[1..] == a[1..] + b;
      RunJoins(if Enabled(w, a[0]) then Next(w, a[0]) else w, a[1..], b);
    }
  }

  lemma RunOne(w: World, a: Action)
    ensures Run(w, [a]) == if Enabled(w, a) then Next(w, a) else w
  {
    hide Next, Enabled;
    assert [a][1..] == [];
  }

  function RevokeActions(lease: Option<Lease>): seq<Action> {
    if lease.Some? then [Revoke(lease.value)] else []
  }

  lemma RevokeIsRun(w: World, lease: Option<Lease>)
    ensures Run(w, RevokeActions(lease)) == RevokeHeld(w, lease)
  {
    hide Next;
    if lease.Some? {
      RunOne(w, Revoke(lease.value));
    }
  }

  function TakeActions(at: Spot): seq<Action> {
    [Take(Execution)] + if AwaitsAdapter(at) then [TakeAnswer] else []
  }

  lemma TakesIsRun(w: World, at: Spot)
    ensures Run(w, TakeActions(at)) == ExecutionTakes(w, at)
  {
    hide Next, Enabled;
    RunOne(w, Take(Execution));
    if AwaitsAdapter(at) {
      RunJoins(w, [Take(Execution)], [TakeAnswer]);
      RunOne(Run(w, [Take(Execution)]), TakeAnswer);
    }
  }

  lemma ApplyIsRun(sys: System, step: Step) returns (schedule: seq<Action>)
    requires sys.s.execution.Task?
    ensures ApplyStep(sys, step).w == Run(sys.w, schedule)
  {
    hide Run, ExecutionTakes, RevokeHeld;
    var at := sys.s.execution.at;
    TakesIsRun(sys.w, at);
    schedule := TakeActions(at);
    if step.Quit? {
      RevokeIsRun(ExecutionTakes(sys.w, at), sys.s.lease);
      RunJoins(sys.w, schedule, RevokeActions(sys.s.lease));
      schedule := schedule + RevokeActions(sys.s.lease);
    }
  }

  lemma OneMore(w: World, before: seq<Action>, w1: World, a: Action)
    requires w1 == Run(w, before) && Enabled(w1, a)
    ensures Next(w1, a) == Run(w, before + [a])
  {
    hide Run, Next, Enabled;
    RunJoins(w, before, [a]);
    RunOne(w1, a);
  }

  lemma GateIsRun(sys: System, audit: AuditAnswer) returns (schedule: seq<Action>)
    requires GateCanRun(sys)
    ensures GateRuns(sys, audit).w == Run(sys.w, schedule)
  {
    hide Run, Next, RevokeHeld, SubmitRuns, CancelRuns, GateTakes;
    var w := GateTakes(sys.w);
    GateTakesIsRun(sys.w);
    schedule := [Take(Gate)];
    match sys.s.gate
    case Free => schedule := Nothing(sys.w);
    case Submitting(_, _, _, _) =>
    case Cancelling(_, _, at) =>
      if GateRuns(sys, audit).w != w {
        RevokeIsRun(w, sys.s.lease);
        RunJoins(sys.w, schedule, RevokeActions(sys.s.lease));
        schedule := schedule + RevokeActions(sys.s.lease);
      }
    case Starting(at) =>
      InitializeAfterTake(sys.w);
      if at.TInit? {
        OneMore(sys.w, schedule, w, Initialize);
        schedule := schedule + [Initialize];
        w := Next(w, Initialize);
      }
      if GateRuns(sys, audit).w != w {
        OneMore(sys.w, schedule, w, CloseAdapter);
        schedule := schedule + [CloseAdapter];
      }
    case Stopping(at) =>
      InitializeAfterTake(sys.w);
      if at.PAudit? {
        OneMore(sys.w, schedule, w, CloseAdapter);
        schedule := schedule + [CloseAdapter];
      } else if at.PCloseStore? {
        OneMore(sys.w, schedule, w, CloseStore);
        schedule := schedule + [CloseStore];
      }
  }

  lemma Nothing(w: World) returns (schedule: seq<Action>)
    ensures w == Run(w, schedule)
  {
    schedule := [];
  }

  lemma GateTakesIsRun(w: World)
    ensures GateTakes(w) == Run(w, [Take(Gate)])
  {
    hide Next, Enabled;
    RunOne(w, Take(Gate));
  }

  lemma ActionIsRun(w: World, a: Action) returns (schedule: seq<Action>)
    requires Enabled(w, a)
    ensures Next(w, a) == Run(w, schedule)
  {
    hide Next, Enabled;
    RunOne(w, a);
    schedule := [a];
  }

  /** Whatever happens to the service is some schedule of protocol actions. */
  lemma HappenIsRun(sys: System, event: SystemEvent) returns (schedule: seq<Action>)
    requires Possible(sys, event)
    ensures Happen(sys, event).w == Run(sys.w, schedule)
  {
    hide Run, Next, ApplyStep, ExecutionStep, GateRuns, RevokeHeld, CanBegin, ExecutionCanRun, GateCanRun,
         ExecutionMay, GateMay, CallerMay, ExecutionCalls;
    match event
    case BeginGate(op, now) => schedule := ActionIsRun(sys.w, Begin(Gate, op, now));
    case BeginExecution(op, now) => schedule := ActionIsRun(sys.w, Begin(Execution, op, now));
    case BeginCaller(op, now) => schedule := ActionIsRun(sys.w, Begin(Caller, op, now));
    case BeginAdapter(op, now) => schedule := ActionIsRun(sys.w, Begin(Adapter, op, now));
    case TakeCaller => schedule := ActionIsRun(sys.w, Take(Caller));
    case CommitTx => schedule := ActionIsRun(sys.w, Commit);
    case RollBackTx => schedule := ActionIsRun(sys.w, RollBack);
    case AdapterResumes(interrupted, backend, token, now) =>
      schedule := ActionIsRun(sys.w, Resume(interrupted, backend, token, now));
    case ExecutionCallsAdapter(call, now) => schedule := ActionIsRun(sys.w, Start(call, now));
    case ExecutionRuns(fault, audit, acknowledged, reply, now) =>
      ExecutionIsTask(sys, fault.Some?);
      schedule := ApplyIsRun(sys, ExecutionStep(sys, fault, audit, acknowledged, reply, now));
    case ExecutionNeverStarts => schedule := Nothing(sys.w);
    case GateProceeds(audit) => schedule := GateIsRun(sys, audit);
    case Enters(entry) =>
      if entry.ShutDown? {
        RevokeIsRun(sys.w, sys.s.lease);
        schedule := RevokeActions(sys.s.lease);
      } else {
        schedule := Nothing(sys.w);
      }
    case StopIsCalled =>
      RevokeIsRun(sys.w, sys.s.lease);
      OneMore(sys.w, RevokeActions(sys.s.lease), RevokeHeld(sys.w, sys.s.lease), Fence);
      schedule := RevokeActions(sys.s.lease) + [Fence];
    case ProcessCrashes => schedule := ActionIsRun(sys.w, Crash);
  }

  lemma ExecutionIsTask(sys: System, faulted: bool)
    requires ExecutionCanRun(sys, faulted)
    ensures sys.s.execution.Task?
  {
  }

  /** The service refines the protocol: the world it has reached is one the protocol reaches,
      so every theorem about the protocol holds of the service. */
  lemma {:induction false} SystemIsRun(sys: System, events: seq<SystemEvent>) returns (schedule: seq<Action>)
    ensures RunSystem(sys, events).w == Run(sys.w, schedule)
    decreases |events|
  {
    hide Run, Happen, Possible;
    if events == [] {
      schedule := Nothing(sys.w);
    } else if Possible(sys, events[0]) {
      var first := HappenIsRun(sys, events[0]);
      var rest := SystemIsRun(Happen(sys, events[0]), events[1..]);
      RunJoins(sys.w, first, rest);
      schedule := first + rest;
    } else {
      schedule := SystemIsRun(sys, events[1..]);
    }
  }

  lemma ServiceRefinesProtocol(sys: System, owner: Id)
    requires ReachableSystem(sys, owner)
    ensures Reachable(sys.w)
  {
    hide Run, RunSystem;
    var events :| sys == RunSystem(StartSystem(owner), events);
    var schedule := SystemIsRun(StartSystem(owner), events);
  }

  // ---------------------------------------------------------------- one turn at a time

  /** While the service is ready, at most one turn is open; and if no execution is under way then
      the open turn is the one an admission has just committed, whose execution is about to
      start, or the service refuses new ones. */
  lemma OneTurnAtATime(sys: System, owner: Id, s: nat, t: nat)
    requires ReachableSystem(sys, owner) && sys.s.ready
    requires Interrupted(sys.w.db, s) && Interrupted(sys.w.db, t)
    ensures s == t
    ensures ExecutionIdle(sys.s.execution) ==> JustAdmitted(sys, s) || sys.s.blocked || sys.s.stopping
  {
    hide Inv, WaitInv, GateInv, TraceInv, ReachableSystem;
    ReachableSystemHolds(sys, owner);
    assert OpenAt(sys, s) && OpenAt(sys, t);
  }

  // ---------------------------------------------------------------- uncertainty is final

  /** Every turn of the later database was in the earlier one. */
  predicate SameTurns(db: Db, db': Db) {
    forall s | s in db'.rows :: IsTurn(db', s) ==> IsTurn(db, s)
  }

  lemma UncertaintyStays(d: Db, d': Db, owner: Id)
    requires DbLater(d, d') && AnyUncertain(d, owner)
    ensures AnyUncertain(d', owner)
  {
    var s :| s in d.rows && UncertainTurn(d, owner, s);
    assert RowKept(d, d', s) && SubjectKept(d, d', owner) && ThreadKept(d, d', d.rows[s].threadId);
    assert UncertainTurn(d', owner, s);
  }

  lemma NoAdmissionUnderWay(sys: System)
    requires SysInv(sys) && AnyUncertain(sys.w.db, sys.s.owner) && sys.w.p.tx.Some?
    ensures !sys.w.p.tx.value.op.Admit?
  {
    hide Inv, PerformedFrom, ExecutionInv, OpenInv, TraceInv, AnyUncertain, IsTurn;
  }

  lemma UncertainCommit(sys: System)
    requires SysInv(sys) && AnyUncertain(sys.w.db, sys.s.owner) && sys.w.p.tx.Some?
    ensures SameTurns(sys.w.db, CommitStep(sys.w).db)
  {
    hide SysInv, AnyUncertain, DbInv, DbLater, Achieves;
    var tx := sys.w.p.tx.value;
    SysHasWorld(sys);
    CommitFactsHold(sys);
    NoAdmissionUnderWay(sys);
    forall s | IsTurn(tx.staged, s) ensures IsTurn(sys.w.db, s) {
      assert BodyAt(sys.w.db, tx.op, tx.reply, tx.staged, sys.s.owner, s);
    }
  }

  lemma UncertainStep(sys: System, event: SystemEvent)
    requires SysInv(sys) && AnyUncertain(sys.w.db, sys.s.owner) && Possible(sys, event)
    ensures var sys' := Happen(sys, event);
            && AnyUncertain(sys'.w.db, sys.s.owner) && sys'.s.owner == sys.s.owner
            && SameTurns(sys.w.db, sys'.w.db)
  {
    hide SysInv, AnyUncertain, Run, Inv, Happen, Possible, DbLater;
    SysHasWorld(sys);
    var schedule := HappenIsRun(sys, event);
    RunIsLater(sys.w, schedule);
    UncertaintyStays(sys.w.db, Happen(sys, event).w.db, sys.s.owner);
    OwnerStays(sys, event);
    if event.CommitTx? {
      CommitHappens(sys);
      UncertainCommit(sys);
    } else {
      OnlyCommitTxMoves(sys, event);
    }
  }

  lemma CommitHappens(sys: System)
    ensures Possible(sys, CommitTx) ==> sys.w.p.tx.Some? && Happen(sys, CommitTx).w == CommitStep(sys.w)
  {
  }

  lemma OwnerStays(sys: System, event: SystemEvent)
    requires Possible(sys, event)
    ensures Happen(sys, event).s.owner == sys.s.owner
  {
    hide Next, ExecutionStep, ApplyStep, GateRuns, Enter, Possible, GateCanRun, RevokeHeld;
    PossibleFacts(sys, event);
    match event
    case ExecutionRuns(fault, audit, acknowledged, reply, now) =>
      ApplyKeepsOwner(sys, ExecutionStep(sys, fault, audit, acknowledged, reply, now));
    case GateProceeds(audit) => GateKeepsOwner(sys, audit);
    case Enters(entry) => EnterKeepsOwner(sys, entry);
    case _ =>
  }

  lemma ApplyKeepsOwner(sys: System, step: Step)
    requires sys.s.execution.Task?
    ensures ApplyStep(sys, step).s.owner == sys.s.owner
  {
    hide ExecutionTakes, RevokeHeld;
  }

  lemma GateKeepsOwner(sys: System, audit: AuditAnswer)
    requires GateCanRun(sys)
    ensures GateRuns(sys, audit).s.owner == sys.s.owner
  {
    hide GateWorld, GateCanRun, SubmitRuns, CancelRuns, StartRuns, StopRuns;
    var outcome := TakenFor(sys.w.p, Gate);
    match sys.s.gate
    case Submitting(_, _, _, _) => SubmitKeepsOwner(sys.s, outcome, audit);
    case Cancelling(_, _, _) => CancelKeepsOwner(sys.s, outcome);
    case Starting(_) => StartKeepsOwner(sys.s, outcome, audit);
    case Stopping(_) => StopKeepsOwner(sys.s, audit);
    case Free =>
  }

  lemma SubmitKeepsOwner(s: Service, outcome: Outcome<Reply>, audit: AuditAnswer)
    requires s.gate.Submitting?
    ensures SubmitRuns(s, outcome, audit).owner == s.owner
  {
  }

  lemma CancelKeepsOwner(s: Service, outcome: Outcome<Reply>)
    requires s.gate.Cancelling?
    ensures CancelRuns(s, outcome).owner == s.owner
  {
  }

  lemma StartKeepsOwner(s: Service, outcome: Outcome<Reply>, audit: AuditAnswer)
    requires s.gate.Starting?
    ensures StartRuns(s, outcome, audit).owner == s.owner
  {
  }

  lemma StopKeepsOwner(s: Service, audit: AuditAnswer)
    requires s.gate.Stopping?
    ensures StopRuns(s, audit).owner == s.owner
  {
  }

  lemma EnterKeepsOwner(sys: System, entry: Entry)
    requires CanEnter(sys.s, entry)
    ensures Enter(sys, entry).s.owner == sys.s.owner
  {
    hide RevokeHeld;
  }

  /** What each event needs to be defined. */
  lemma PossibleFacts(sys: System, event: SystemEvent)
    requires Possible(sys, event)
    ensures event.ExecutionRuns? ==> sys.s.execution.Task?
    ensures event.ExecutionNeverStarts? ==> sys.s.execution.Task?
    ensures event.GateProceeds? ==> GateCanRun(sys)
    ensures event.Enters? ==> CanEnter(sys.s, event.entry)
  {
    hide Next, CanBegin;
  }

  lemma RevokeMovesNothing(w: World, lease: Option<Lease>)
    ensures RevokeHeld(w, lease).db == w.db
  {
  }

  lemma ExecutionTakesNothing(w: World, at: Spot)
    ensures ExecutionTakes(w, at).db == w.db
  {
  }

  lemma ApplyMovesNothing(sys: System, step: Step)
    requires sys.s.execution.Task?
    ensures ApplyStep(sys, step).w.db == sys.w.db
  {
    hide ExecutionTakes, RevokeHeld;
    ExecutionTakesNothing(sys.w, sys.s.execution.at);
    RevokeMovesNothing(ExecutionTakes(sys.w, sys.s.execution.at), sys.s.lease);
  }

  lemma GateMovesNothing(sys: System, audit: AuditAnswer)
    requires GateCanRun(sys)
    ensures GateRuns(sys, audit).w.db == sys.w.db
  {
    hide SubmitRuns, CancelRuns;
  }

  lemma EnterMovesNothing(sys: System, entry: Entry)
    requires CanEnter(sys.s, entry)
    ensures Enter(sys, entry).w.db == sys.w.db
  {
  }

  lemma OnlyCommitTxMoves(sys: System, event: SystemEvent)
    requires Possible(sys, event) && !event.CommitTx?
    ensures Happen(sys, event).w.db == sys.w.db
  {
    hide Next, Enabled, ApplyStep, ExecutionStep, GateRuns, Enter, Possible, GateCanRun, RevokeHeld;
    PossibleFacts(sys, event);
    PossibleActions(sys, event);
    match event
    case BeginGate(op, now) => OnlyCommitMovesTheDatabase(sys.w, Begin(Gate, op, now));
    case BeginExecution(op, now) => OnlyCommitMovesTheDatabase(sys.w, Begin(Execution, op, now));
    case BeginCaller(op, now) => OnlyCommitMovesTheDatabase(sys.w, Begin(Caller, op, now));
    case BeginAdapter(op, now) => OnlyCommitMovesTheDatabase(sys.w, Begin(Adapter, op, now));
    case TakeCaller => OnlyCommitMovesTheDatabase(sys.w, Take(Caller));
    case RollBackTx => OnlyCommitMovesTheDatabase(sys.w, RollBack);
    case AdapterResumes(interrupted, backend, token, now) =>
      OnlyCommitMovesTheDatabase(sys.w, Resume(interrupted, backend, token, now));
    case ExecutionCallsAdapter(call, now) => OnlyCommitMovesTheDatabase(sys.w, Start(call, now));
    case ExecutionRuns(fault, audit, acknowledged, reply, now) =>
      ApplyMovesNothing(sys, ExecutionStep(sys, fault, audit, acknowledged, reply, now));
    case GateProceeds(audit) => GateMovesNothing(sys, audit);
    case Enters(entry) => EnterMovesNothing(sys, entry);
    case StopIsCalled =>
      RevokeMovesNothing(sys.w, sys.s.lease);
      OnlyCommitMovesTheDatabase(RevokeHeld(sys.w, sys.s.lease), Fence);
    case ProcessCrashes => OnlyCommitMovesTheDatabase(sys.w, Crash);
    case _ =>
  }

  /** The protocol actions behind an event are enabled when the event is possible. */
  lemma PossibleActions(sys: System, event: SystemEvent)
    requires Possible(sys, event)
    ensures match event
            case BeginGate(op, now) => Enabled(sys.w, Begin(Gate, op, now))
            case BeginExecution(op, now) => Enabled(sys.w, Begin(Execution, op, now))
            case BeginCaller(op, now) => Enabled(sys.w, Begin(Caller, op, now))
            case BeginAdapter(op, now) => Enabled(sys.w, Begin(Adapter, op, now))
            case TakeCaller => Enabled(sys.w, Take(Caller))
            case RollBackTx => Enabled(sys.w, RollBack)
            case AdapterResumes(interrupted, backend, token, now) => Enabled(sys.w, Resume(interrupted, backend, token, now))
            case ExecutionCallsAdapter(call, now) => Enabled(sys.w, Start(call, now))
            case _ => Enabled(RevokeHeld(sys.w, sys.s.lease), Fence) && Enabled(sys.w, Crash)
  {
    hide CanBegin, CanResume, GateMay, ExecutionMay, ExecutionCalls, RevokeHeld;
  }

  lemma NoNewTurns(a: Db, b: Db, c: Db)
    ensures SameTurns(a, a)
    ensures SameTurns(a, b) && SameTurns(b, c) ==> SameTurns(a, c)
  {
  }

  lemma {:induction false} UncertainRun(sys: System, events: seq<SystemEvent>)
    requires SysInv(sys) && AnyUncertain(sys.w.db, sys.s.owner)
    ensures SameTurns(sys.w.db, RunSystem(sys, events).w.db)
    decreases |events|
  {
    hide SysInv, AnyUncertain, Happen, Possible, SameTurns;
    if events == [] {
      NoNewTurns(sys.w.db, sys.w.db, sys.w.db);
    } else {
      if Possible(sys, events[0]) {
        HappenKeeps(sys, events[0]);
        UncertainStep(sys, events[0]);
        UncertainRun(Happen(sys, events[0]), events[1..]);
        NoNewTurns(sys.w.db, Happen(sys, events[0]).w.db, RunSystem(sys, events).w.db);
      } else {
        UncertainRun(sys, events[1..]);
      }
    }
  }

  /** Once a turn of the owner is UNCERTAIN, no turn is ever admitted again: not by this
      process, nor by any that is started after a crash. */
  lemma UncertaintyClosesAdmission(sys: System, owner: Id, events: seq<SystemEvent>)
    requires ReachableSystem(sys, owner) && AnyUncertain(sys.w.db, sys.s.owner)
    ensures SameTurns(sys.w.db, RunSystem(sys, events).w.db)
  {
    hide SysInv, AnyUncertain, RunSystem, SameTurns;
    ReachableSystemHolds(sys, owner);
    UncertainRun(sys, events);
  }

  // ---------------------------------------------------------------- the order of publication

  /** The trace shows the first k of: staged, recorded, finished, in that order. */
  ghost predicate Shows(trace: seq<Mark>, s: nat, k: nat, i: nat, j: nat, l: nat) {
    && (k >= 1 ==> i < |trace| && trace[i] == ResultStaged(s))
    && (k >= 2 ==> i < j < |trace| && trace[j] == GatewayRecorded(s))
    && (k >= 3 ==> j < l < |trace| && trace[l] == QuotaFinished(s))
  }

  lemma {:induction false} ProgressMeansOrder(trace: seq<Mark>, s: nat) returns (i: nat, j: nat, l: nat)
    ensures Shows(trace, s, Progress(trace, s), i, j, l)
  {
    if trace == [] {
      i, j, l := 0, 0, 0;
    } else {
      var last := |trace| - 1;
      i, j, l := ProgressMeansOrder(trace[..last], s);
      var before, after := Progress(trace[..last], s), Progress(trace, s);
      if after > before {
        match after
        case 1 => i := last;
        case 2 => j := last;
        case _ => l := last;
      }
    }
  }

  /** In every run a turn is COMPLETED only after, in this order, its result was staged, the
      gateway entry was acknowledged, the quota request was finished successfully, and it
      was published by an unfenced commit. */
  lemma CompletedInOrder(sys: System, owner: Id, s: nat) returns (i: nat, j: nat, l: nat, m: nat)
    requires ReachableSystem(sys, owner) && CompletedAt(sys.w.db, s)
    ensures i < j < l < m < |sys.trace|
    ensures sys.trace[i] == ResultStaged(s) && sys.trace[j] == GatewayRecorded(s)
    ensures sys.trace[l] == QuotaFinished(s) && sys.trace[m] == TurnPublished(s)
  {
    hide Inv, WaitInv, ExecutionInv, GateInv, OpenInv, ReachableSystem, Progress;
    ReachableSystemHolds(sys, owner);
    assert PublishedAt(sys.w.db, sys.trace, s);
    m :| m < |sys.trace| && sys.trace[m] == TurnPublished(s);
    i, j, l := ProgressMeansOrder(sys.trace[..m], s);
  }
}
