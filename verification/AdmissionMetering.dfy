/** What the quota backend has to do with it: no lease, no running turn, no granted model call and
    no finished request without its acceptance; and a metered call that nothing disturbs is
    granted exactly when the backend accepts. */
module AdmissionMetering {
  import opened Wrappers
  import opened AdmissionStore
  import opened AdmissionInvariants
  import opened AdmissionProtocol
  import opened AdmissionSafety
  import opened AdmissionTheorems

  // ---------------------------------------------------------------- the backend's own ledger

  /** The four questions the adapter asks the quota backend. */
  datatype Question = AskReserve | AskMark | AskModelCall | AskFinish

  /** A question about a turn that the backend has answered with yes. */
  datatype Acceptance = Acceptance(question: Question, sequence: nat)

  /** What the backend accepts in a step: it is asked by the call that is suspended there. */
  function AcceptedIn(w: World, a: Action): seq<Acceptance>
    requires Enabled(w, a)
  {
    if !a.Resume? || a.interrupted || !a.backend.Accepts? then []
    else
      match w.p.frame.at
      case QuotaReserving(s, _, _) => [Acceptance(AskReserve, s)]
      case QuotaMarking => if w.p.frame.call.MarkRunning? then [Acceptance(AskMark, w.p.frame.call.lease.sequence)] else []
      case Metering => if w.p.frame.call.ModelCall? then [Acceptance(AskModelCall, w.p.frame.call.lease.sequence)] else []
      case QuotaFinishing => if w.p.frame.call.FinishRequest? then [Acceptance(AskFinish, w.p.frame.call.lease.sequence)] else []
      case _ => []
  }

  /** Everything the backend accepts along a schedule. */
  function Ledger(w: World, schedule: seq<Action>): seq<Acceptance>
    decreases |schedule|
  {
    if schedule == [] then []
    else if Enabled(w, schedule[0]) then AcceptedIn(w, schedule[0]) + Ledger(Next(w, schedule[0]), schedule[1..])
    else Ledger(w, schedule[1..])
  }

  function Count(ledger: seq<Acceptance>, x: Acceptance): nat {
    if ledger == [] then 0 else Count(ledger[..|ledger| - 1], x) + if ledger[|ledger| - 1] == x then 1 else 0
  }

  lemma {:induction false} CountJoin(a: seq<Acceptance>, b: seq<Acceptance>, x: Acceptance)
    ensures Count(a + b, x) == Count(a, x) + Count(b, x)
  {
    if b == [] {
      assert a + b == a;
    } else {
      assert (a + b)[..|a + b| - 1] == a + b[..|b| - 1];
      CountJoin(a, b[..|b| - 1], x);
    }
  }

  // ---------------------------------------------------------------- what it stands behind

  /** A model call that has only its last confirmation ahead of it. */
  predicate LastStep(p: Process, s: nat) {
    p.frame.Busy? && p.frame.call.ModelCall? && p.frame.call.lease.sequence == s && p.frame.at.Confirming?
  }

  predicate CallsBacked(w: World, ledger: seq<Acceptance>, s: nat) {
    Grants(w.h, Model, s) + (if LastStep(w.p, s) then 1 else 0) <= Count(ledger, Acceptance(AskModelCall, s))
  }

  predicate LeaseBacked(w: World, ledger: seq<Acceptance>, s: nat) {
    s in w.p.owned ==>
      && Acceptance(AskReserve, s) in ledger
      && (w.p.owned[s].state == InUse ==> Acceptance(AskMark, s) in ledger)
  }

  predicate FrameBacked(w: World, ledger: seq<Acceptance>) {
    w.p.frame.Busy? ==>
      && (w.p.frame.at.Leasing? ==> Acceptance(AskReserve, w.p.frame.at.lease.sequence) in ledger)
      && (w.p.frame.call.MarkRunning? && (w.p.frame.at.Moving? || w.p.frame.at.Confirming?) ==>
            && Acceptance(AskMark, w.p.frame.call.lease.sequence) in ledger)
  }

  ghost predicate Stands(w: World, ledger: seq<Acceptance>) {
    && (forall s {:trigger CallsBacked(w, ledger, s)} :: CallsBacked(w, ledger, s))
    && (forall s {:trigger LeaseBacked(w, ledger, s)} :: LeaseBacked(w, ledger, s))
    && FrameBacked(w, ledger)
  }

  /** What a resumed call may do, given whether the backend has just accepted. */
  predicate MoveBacked(p: Process, call: Call, at: Stage, move: Move, accepted: bool) {
    match move
    case Wait(at') =>
      && !at'.Leasing?
      && (call.ModelCall? && at'.Confirming? ==> at.Metering? && accepted)
      && (call.MarkRunning? && at'.Moving? ==> at.QuotaMarking? && accepted)
      && (call.MarkRunning? && at'.Confirming? ==> at.Moving?)
    case Acquire(lease) => at.QuotaReserving? && accepted && lease.sequence == at.sequence
    case Promote(lease) => call.MarkRunning? && at.Confirming? && lease == call.lease && HoldsLease(p, lease)
    case Grant => Metered(call) && at.Confirming?
    case Return(answer) => !answer.Finished? && !answer.Moved?
    case Forfeit(_, answer) =>
      && !answer.Moved? && answer != Granted(true)
      && (answer.Finished? ==> call.FinishRequest? && at.QuotaFinishing? && accepted && answer.success == call.success)
    case AcquireAndLose(_, answer) => answer.Raised?
  }

  lemma ResumeMoveBacked(p: Process, call: Call, at: Stage, outcome: Outcome<Reply>,
                         interrupted: bool, backend: Backend, token: nat, now: real)
    requires FrameShape(Busy(call, at))
    ensures MoveBacked(p, call, at, ResumeMove(p, call, at, outcome, interrupted, backend, token, now),
                       !interrupted && backend.Accepts?)
  {
    hide Owns, CheckCurrent, HoldsLease;
    if call.MarkRunning? && CheckCurrent(p, call.lease, Running, outcome, now) == Confirmed {
      ConfirmedOwns(p, call.lease, Running, outcome, now);
    }
  }

  predicate FewerOwned(w: World, w': World) {
    forall s | s in w'.p.owned :: s in w.p.owned && w'.p.owned[s] == w.p.owned[s]
  }

  /** A step that grants nothing, takes no lease, and leaves the suspended call where it was, or
      where nothing has been asked of the backend yet. */
  lemma IdleStands(w: World, w': World, ledger: seq<Acceptance>)
    requires Stands(w, ledger) && FewerOwned(w, w')
    requires w'.h.modelGrants == w.h.modelGrants
    requires w'.p.frame == w.p.frame || w'.p.frame.Idle? || w'.p.frame.at.Claiming? || w'.p.frame.at.Checking?
    ensures Stands(w', ledger)
  {
    forall s ensures CallsBacked(w', ledger, s) {
      assert CallsBacked(w, ledger, s);
    }
    forall s ensures LeaseBacked(w', ledger, s) {
      assert LeaseBacked(w, ledger, s);
    }
  }

  /** Whatever the backend had accepted, it still has when it has accepted more. */
  lemma MoreStands(w: World, ledger: seq<Acceptance>, more: seq<Acceptance>)
    requires Stands(w, ledger)
    ensures Stands(w, ledger + more)
  {
    forall s ensures CallsBacked(w, ledger + more, s) {
      assert CallsBacked(w, ledger, s);
      CountJoin(ledger, more, Acceptance(AskModelCall, s));
    }
    forall s ensures LeaseBacked(w, ledger + more, s) {
      assert LeaseBacked(w, ledger, s);
    }
  }

  lemma StartStands(w: World, call: Call, now: real, ledger: seq<Acceptance>)
    requires Stands(w, ledger) && w.p.frame.Idle?
    ensures Stands(StartStep(w, call, now), ledger)
  {
    hide Owns, Stands;
    IdleStands(w, StartStep(w, call, now), ledger);
  }

  lemma ResumeStands(w: World, a: Action, ledger: seq<Acceptance>)
    requires Inv(w) && Stands(w, ledger) && a.Resume? && Enabled(w, a)
    ensures Stands(Next(w, a), ledger + AcceptedIn(w, a))
  {
    hide StoreInv, ClaimInv, MeterInv, ResumeMove, HoldsLease, Count;
    var call, at, p := w.p.frame.call, w.p.frame.at, AfterTaking(w.p);
    var move := ResumeMove(p, call, at, TakenReply(w.p), a.interrupted, a.backend, a.token, a.now);
    ResumeMoveBacked(p, call, at, TakenReply(w.p), a.interrupted, a.backend, a.token, a.now);
    MoreStands(w, ledger, AcceptedIn(w, a));
    AcceptedCounts(w, a, ledger);
    MoveStands(w, p, call, at, move, a, ledger);
  }

  lemma AcceptedCounts(w: World, a: Action, ledger: seq<Acceptance>)
    requires Enabled(w, a) && a.Resume?
    ensures forall x :: x in AcceptedIn(w, a) ==> x in ledger + AcceptedIn(w, a)
    ensures var call := w.p.frame.call;
            w.p.frame.at.Metering? && call.ModelCall? && !a.interrupted && a.backend.Accepts? ==>
              Count(ledger + AcceptedIn(w, a), Acceptance(AskModelCall, call.lease.sequence))
              == Count(ledger, Acceptance(AskModelCall, call.lease.sequence)) + 1
  {
    if w.p.frame.at.Metering? && w.p.frame.call.ModelCall? {
      var x := Acceptance(AskModelCall, w.p.frame.call.lease.sequence);
      CountJoin(ledger, AcceptedIn(w, a), x);
      assert [x][..0] == [];
    }
  }

  lemma MoveStands(w: World, p: Process, call: Call, at: Stage, move: Move, a: Action, ledger: seq<Acceptance>)
    requires Enabled(w, a) && a.Resume? && w.p.frame == Busy(call, at) && p == AfterTaking(w.p)
    requires Stands(w, ledger) && Stands(w, ledger + AcceptedIn(w, a)) && (forall s :: OwnedAt(w, s))
    requires FrameShape(w.p.frame) && MoveBacked(p, call, at, move, !a.interrupted && a.backend.Accepts?)
    requires call.ModelCall? && at.Metering? && !a.interrupted && a.backend.Accepts? ==>
               Count(ledger + AcceptedIn(w, a), Acceptance(AskModelCall, call.lease.sequence))
               == Count(ledger, Acceptance(AskModelCall, call.lease.sequence)) + 1
    ensures Stands(Moves(w, p, call, move), ledger + AcceptedIn(w, a))
  {
    hide Count, Owns;
    var w', all := Moves(w, p, call, move), ledger + AcceptedIn(w, a);
    forall s ensures CallsBacked(w', all, s) {
      assert CallsBacked(w, all, s) && CallsBacked(w, ledger, s);
    }
    forall s ensures LeaseBacked(w', all, s) {
      assert LeaseBacked(w, all, s) && OwnedAt(w, s);
    }
  }

  lemma StepStands(w: World, a: Action, ledger: seq<Acceptance>)
    requires Inv(w) && Stands(w, ledger) && Enabled(w, a)
    ensures Stands(Next(w, a), ledger + AcceptedIn(w, a))
  {
    hide Inv, Perform, Stands, ResumeStep, StartStep, CanBegin, CanResume;
    if a.Resume? {
      ResumeStands(w, a, ledger);
    } else {
      assert ledger + AcceptedIn(w, a) == ledger;
      if a.Start? {
        StartStands(w, a.call, a.now, ledger);
      } else {
        IdleStands(w, Next(w, a), ledger);
      }
    }
  }

  lemma {:induction false} LedgerStands(w: World, schedule: seq<Action>, ledger: seq<Acceptance>)
    requires Inv(w) && Stands(w, ledger)
    ensures Stands(Run(w, schedule), ledger + Ledger(w, schedule))
    decreases |schedule|
  {
    hide Inv, Stands, Next, Enabled, AcceptedIn;
    if schedule == [] {
      assert ledger + [] == ledger;
    } else if Enabled(w, schedule[0]) {
      NextKeeps(w, schedule[0]);
      StepStands(w, schedule[0], ledger);
      var now := ledger + AcceptedIn(w, schedule[0]);
      LedgerStands(Next(w, schedule[0]), schedule[1..], now);
      assert now + Ledger(Next(w, schedule[0]), schedule[1..]) == ledger + Ledger(w, schedule);
    } else {
      LedgerStands(w, schedule[1..], ledger);
    }
  }

  /** Over every run: the model calls granted for a turn never outnumber those the backend accepted;
      every lease held was accepted by the backend, and every lease in use was accepted again. */
  lemma BackendStandsBehind(schedule: seq<Action>, s: nat)
    ensures var w, ledger := Run(START, schedule), Ledger(START, schedule);
            && Grants(w.h, Model, s) <= Count(ledger, Acceptance(AskModelCall, s))
            && (s in w.p.owned ==> Acceptance(AskReserve, s) in ledger)
            && (s in w.p.owned && w.p.owned[s].state == InUse ==> Acceptance(AskMark, s) in ledger)
  {
    hide Inv, Run, Ledger, Count;
    StartHolds();
    NothingStands();
    LedgerStands(START, schedule, []);
    var w, ledger := Run(START, schedule), Ledger(START, schedule);
    assert [] + ledger == ledger;
    assert CallsBacked(w, ledger, s) && LeaseBacked(w, ledger, s);
  }

  lemma NothingStands()
    ensures Stands(START, [])
  {
  }

  /** A request is answered as finished only in a step in which the backend accepts just that:
      this lease's request, with this success. */
  lemma FinishedNeedsTheBackend(w: World, a: Action, success: bool)
    requires Reachable(w) && Enabled(w, a)
    requires w.p.answer != Some(Finished(success)) && Next(w, a).p.answer == Some(Finished(success))
    ensures a.Resume? && w.p.frame.call.FinishRequest? && w.p.frame.call.success == success
    ensures AcceptedIn(w, a) == [Acceptance(AskFinish, w.p.frame.call.lease.sequence)]
  {
    hide Inv, Next, Enabled, Reachable, ResumeMove;
    ReachableHolds(w);
    if !a.Start? && !a.Resume? {
      OnlyCallsAnswer(w, a);
    } else if a.Start? {
      StartNeverFinishes(w, a);
    } else {
      FrameHasShape(w);
      ResumeAnswers(w, a);
      ResumeMoveBacked(AfterTaking(w.p), w.p.frame.call, w.p.frame.at, TakenReply(w.p),
                       a.interrupted, a.backend, a.token, a.now);
    }
  }

  lemma OnlyCallsAnswer(w: World, a: Action)
    requires Enabled(w, a) && !a.Start? && !a.Resume?
    ensures Next(w, a).p.answer == w.p.answer || Next(w, a).p.answer == None
  {
    hide Perform, CanBegin, BeginStep, HoldsLease;
    if a.Begin? {
      BeginAnswersNothing(w, a);
    }
  }

  lemma BeginAnswersNothing(w: World, a: Action)
    requires Enabled(w, a) && a.Begin?
    ensures BeginStep(w, a.client, a.op, a.now).p.answer == w.p.answer
  {
    hide Perform;
  }

  lemma StartNeverFinishes(w: World, a: Action)
    requires Enabled(w, a) && a.Start?
    ensures Next(w, a).p.answer.None? || !Next(w, a).p.answer.value.Finished?
  {
    hide Owns;
  }

  lemma ResumeAnswers(w: World, a: Action)
    requires Enabled(w, a) && a.Resume?
    ensures w.p.frame.Busy?
    ensures var p := AfterTaking(w.p);
            var move := ResumeMove(p, w.p.frame.call, w.p.frame.at, TakenReply(w.p), a.interrupted, a.backend, a.token, a.now);
            Next(w, a).p.answer == match move
                                   case Return(answer) => Some(answer)
                                   case Forfeit(_, answer) => Some(answer)
                                   case AcquireAndLose(_, answer) => Some(answer)
                                   case Promote(_) => Some(Moved)
                                   case Grant => Some(Granted(true))
                                   case _ => w.p.answer
  {
    hide ResumeMove;
  }

  lemma FrameHasShape(w: World)
    requires Inv(w)
    ensures FrameShape(w.p.frame)
  {
    hide StoreInv, ClaimInv, MeterInv;
  }

  // ---------------------------------------------------------------- a call that nothing disturbs

  function ReadOp(call: Call): Op
    requires Metered(call)
  {
    Get(call.lease.owner, call.lease.taskId)
  }

  function CountOp(call: Call): Op
    requires Metered(call)
  {
    ReserveAttempt(call.lease.sequence, KindOf(call), call.limit)
  }

  /** Read the row, count the attempt, ask the backend, read the row again. */
  function CallSchedule(call: Call, backend: Backend, now: real): seq<Action>
    requires Metered(call)
  {
    [Start(call, now)] + ReadSchedule(call, backend, now)
    + [Begin(Adapter, CountOp(call), now), Commit, Resume(false, backend, 0, now)]
    + (if call.ModelCall? then [Resume(false, backend, 0, now)] else [])
    + ReadSchedule(call, backend, now)
  }

  function ReadSchedule(call: Call, backend: Backend, now: real): seq<Action>
    requires Metered(call)
  {
    [Begin(Adapter, ReadOp(call), now), Commit, Resume(false, backend, 0, now)]
  }

  /** The call's turn is running, the lease is in use, and nobody else is at the adapter's store. */
  predicate Calm(w: World, call: Call, now: real)
    requires Metered(call)
  {
    && w.p.tx.None? && Adapter !in w.p.done && OwnsInUse(w.p, call.lease, now)
    && call.lease.sequence in w.db.rows && w.db.rows[call.lease.sequence].state == Running
  }

  lemma RunStep(w: World, a: Action, rest: seq<Action>)
    requires Enabled(w, a)
    ensures Run(w, [a] + rest) == Run(Next(w, a), rest)
  {
    hide Next, Enabled;
    assert ([a] + rest)[1..] == rest;
  }

  lemma RunThree(w: World, a: Action, b: Action, c: Action, rest: seq<Action>)
    requires Enabled(w, a) && Enabled(Next(w, a), b) && Enabled(Next(Next(w, a), b), c)
    ensures Run(w, [a, b, c] + rest) == Run(Next(Next(Next(w, a), b), c), rest)
  {
    hide Next, Enabled, Run;
    assert [a, b, c] + rest == [a] + ([b] + ([c] + rest));
    RunStep(w, a, [b] + ([c] + rest));
    RunStep(Next(w, a), b, [c] + rest);
    RunStep(Next(Next(w, a), b), c, rest);
  }

  /** A transaction of the adapter's, begun and committed. */
  lemma Transacts(w: World, call: Call, at: Stage, op: Op, now: real)
    requires w.p.tx.None? && Adapter !in w.p.done && w.p.frame == Busy(call, at) && AwaitedOp(w.p.frame) == Some(op)
    requires w.p.ready && !w.p.storeClosed && !op.CommitTurn? && !op.Claim?
    requires Perform(op, now, w.db, w.p.memory).outcome.Ok? && Perform(op, now, w.db, w.p.memory).memory == w.p.memory
    ensures Enabled(w, Begin(Adapter, op, now)) && Enabled(Next(w, Begin(Adapter, op, now)), Commit)
    ensures var w', work := Next(Next(w, Begin(Adapter, op, now)), Commit), Perform(op, now, w.db, w.p.memory);
            && w'.db == work.db && w'.p == w.p.(done := w.p.done[Adapter := work.outcome])
            && w'.h == w.h.(session := w.h.session + (work.db.rows.Keys - w.db.rows.Keys))
  {
    hide Perform, AwaitedOp;
  }

  /** The call reads its row, before counting or last of all, and finds it confirmed. */
  lemma ReadsItsRow(w: World, call: Call, at: Stage, backend: Backend, now: real)
    requires Inv(w) && Metered(call) && Calm(w, call, now) && w.p.frame == Busy(call, at) && (at.Checking? || at.Confirming?)
    ensures && Enabled(w, Begin(Adapter, ReadOp(call), now))
            && var w1 := Next(w, Begin(Adapter, ReadOp(call), now));
            && Enabled(w1, Commit)
            && var w2 := Next(w1, Commit);
            && Enabled(w2, Resume(false, backend, 0, now))
            && Next(w2, Resume(false, backend, 0, now)) ==
               (if at.Checking? then w.(p := w.p.(frame := Busy(call, Counting)))
                else World(w.db, w.p.(frame := Idle, answer := Some(Granted(true))), CountGrant(w.h, call)))
  {
    hide Inv, Perform, AwaitedOp, Owns, CheckCurrent, HoldsLease, Calm;
    var op, s := ReadOp(call), call.lease.sequence;
    CalmFacts(w, call, now);
    AwaitsRead(call, at);
    assert Perform(op, now, w.db, w.p.memory) == Work(Ok(RecordReply(s, w.db.rows[s], false)), w.db, w.p.memory) by {
      GetFinds(w, call, now);
    }
    Transacts(w, call, at, op, now);
    var w2 := Next(Next(w, Begin(Adapter, op, now)), Commit);
    assert w2.h == w.h by {
      assert w.db.rows.Keys - w.db.rows.Keys == {};
      assert w.h.session + {} == w.h.session;
    }
    assert w2.p.done == w.p.done[Adapter := Ok(RecordReply(s, w.db.rows[s], false))];
    assert AfterTaking(w2.p) == w.p by {
      assert w2.p.done - {Adapter} == w.p.done;
    }
    RowConfirms(w, call, now);
  }

  lemma AwaitsRead(call: Call, at: Stage)
    requires Metered(call) && (at.Checking? || at.Confirming?)
    ensures AwaitedOp(Busy(call, at)) == Some(ReadOp(call))
  {
  }

  lemma CalmFacts(w: World, call: Call, now: real)
    requires Inv(w) && Metered(call) && Calm(w, call, now)
    ensures var s, lease := call.lease.sequence, call.lease;
            && w.p.ready && !w.p.storeClosed && w.p.tx.None? && Adapter !in w.p.done
            && Owns(w.p, lease, now) && OwnsInUse(w.p, lease, now)
            && IsTurn(w.db, s) && Active(w.db.rows[s]) && w.db.rows[s].state == Running
            && w.db.rows[s].owner == lease.owner && w.db.rows[s].requestId == lease.requestId
            && HasTaskId(w.db.rows[s], lease.taskId) && w.db.rows[s].createdAt + TURN_SECONDS == lease.deadline
            && now < lease.deadline
  {
    hide StoreInv, ClaimInv, MeterInv, FrameOk, AdapterTxOk;
    OwnedIsActive(w, call.lease, now);
    assert OwnedAt(w, call.lease.sequence);
  }

  lemma GetFinds(w: World, call: Call, now: real)
    requires Inv(w) && Metered(call) && Calm(w, call, now)
    ensures var s := call.lease.sequence;
            Perform(ReadOp(call), now, w.db, w.p.memory) == Work(Ok(RecordReply(s, w.db.rows[s], false)), w.db, w.p.memory)
  {
    hide Inv, DbInv, Calm, Owns, OwnsInUse, ValidId, Backed;
    CalmFacts(w, call, now);
    InvHasDb(w);
    RowOkAt(w.db, call.lease.sequence);
    IndexedByTask(w.db, call.lease.sequence);
  }

  lemma RowConfirms(w: World, call: Call, now: real)
    requires Inv(w) && Metered(call) && Calm(w, call, now)
    ensures var s := call.lease.sequence;
            CheckCurrent(w.p, call.lease, Running, Ok(RecordReply(s, w.db.rows[s], false)), now) == Confirmed
  {
    hide Inv, Calm, Owns, OwnsInUse;
    CalmFacts(w, call, now);
  }

  lemma IndexedByTask(db: Db, s: nat)
    requires DbInv(db) && s in db.rows && db.rows[s].turn.Some?
    ensures db.rows[s].turn.value.taskId in db.byTask && db.byTask[db.rows[s].turn.value.taskId] == s
    ensures 1 <= s <= MAX_SEQUENCE
  {
    hide TranscriptInv;
    assert RowAt(db, s);
  }

  /** What is left after the attempt has been counted. */
  function Counted(w: World, call: Call, now: real): World
    requires Metered(call) && call.lease.sequence in w.db.rows
  {
    var s := call.lease.sequence;
    var row := CountAttempt(w.db.rows[s], KindOf(call), now);
    w.(db := LogEvent(SetRow(w.db, s, row), s, PDispatch, AttemptCode(KindOf(call))),
       p := w.p.(frame := Busy(call, if call.ModelCall? then Metering else Confirming)))
  }

  /** An attempt is left, and the call asks for no more than there may be. */
  predicate AttemptLeft(w: World, call: Call)
    requires Metered(call) && call.lease.sequence in w.db.rows
  {
    1 <= call.limit <= MaxAttempts(KindOf(call)) && Attempts(w.db.rows[call.lease.sequence], KindOf(call)) < call.limit
  }

  lemma CountsIt(w: World, call: Call, now: real)
    requires Inv(w) && Metered(call) && Calm(w, call, now) && AttemptLeft(w, call)
    ensures var s := call.lease.sequence;
            Perform(CountOp(call), now, w.db, w.p.memory) ==
            Work(Ok(FlagReply(true)),
                 LogEvent(SetRow(w.db, s, CountAttempt(w.db.rows[s], KindOf(call), now)), s, PDispatch, AttemptCode(KindOf(call))),
                 w.p.memory)
  {
    hide Inv, DbInv, Calm, Owns, OwnsInUse, ValidId, Backed, TurnOk;
    CalmFacts(w, call, now);
    InvHasDb(w);
    RowOkAt(w.db, call.lease.sequence);
    IndexedByTask(w.db, call.lease.sequence);
  }

  /** The call counts its attempt, and goes on to the backend or to the last confirmation. */
  lemma CountsItsAttempt(w: World, call: Call, backend: Backend, now: real)
    requires Inv(w) && Metered(call) && Calm(w, call, now) && AttemptLeft(w, call) && w.p.frame == Busy(call, Counting)
    ensures && Enabled(w, Begin(Adapter, CountOp(call), now))
            && var w1 := Next(w, Begin(Adapter, CountOp(call), now));
            && Enabled(w1, Commit)
            && var w2 := Next(w1, Commit);
            && Enabled(w2, Resume(false, backend, 0, now))
            && Next(w2, Resume(false, backend, 0, now)) == Counted(w, call, now)
  {
    hide Inv, Perform, AwaitedOp, Owns, OwnsInUse, CheckCurrent, HoldsLease, Calm;
    var op, s := CountOp(call), call.lease.sequence;
    CalmFacts(w, call, now);
    AwaitsCount(call);
    CountsIt(w, call, now);
    Transacts(w, call, Counting, op, now);
    var w2 := Next(Next(w, Begin(Adapter, op, now)), Commit);
    assert w2.h == w.h by {
      assert w2.db.rows.Keys == w.db.rows.Keys;
      assert w.db.rows.Keys - w.db.rows.Keys == {};
      assert w.h.session + {} == w.h.session;
    }
    assert AfterTaking(w2.p) == w.p by {
      assert w2.p.done - {Adapter} == w.p.done;
    }
  }

  lemma AwaitsCount(call: Call)
    requires Metered(call)
    ensures AwaitedOp(Busy(call, Counting)) == Some(CountOp(call))
  {
  }

  lemma StaysCalm(w: World, call: Call, now: real)
    requires Metered(call) && Calm(w, call, now)
    ensures Calm(Counted(w, call, now), call, now)
    ensures Counted(w, call, now).p.frame.Busy?
  {
  }

  /** The backend's answer to a model call. */
  lemma AsksTheBackend(w: World, call: Call, backend: Backend, now: real)
    requires call.ModelCall? && Calm(w, call, now) && w.p.frame == Busy(call, Metering)
    ensures var a := Resume(false, backend, 0, now);
            && Enabled(w, a)
            && Next(w, a) == w.(p := match backend
                                     case Accepts => w.p.(frame := Busy(call, Confirming))
                                     case Declines(_) => w.p.(frame := Idle, answer := Some(Granted(false)))
                                     case Raises => Revoked(w.p, call.lease).(frame := Idle, answer := Some(BackendLost)))
  {
    hide Owns, HoldsLease;
  }

  /** Nothing is left to do for a call that has ended. */
  lemma NothingToRead(w: World, call: Call, backend: Backend, now: real)
    requires Metered(call) && w.p.frame.Idle? && w.p.tx.None?
    ensures Run(w, ReadSchedule(call, backend, now)) == w
  {
    hide Next, Run;
    var begin, resume := Begin(Adapter, ReadOp(call), now), Resume(false, backend, 0, now);
    assert ReadSchedule(call, backend, now) == [begin] + ([Commit] + ([resume] + []));
    RunSkips(w, begin, [Commit] + ([resume] + []));
    RunSkips(w, Commit, [resume] + []);
    RunSkips(w, resume, []);
    RunNothing(w);
  }

  lemma ReadsLast(w: World, call: Call, backend: Backend, now: real)
    requires Inv(w) && Metered(call) && Calm(w, call, now) && w.p.frame == Busy(call, Confirming)
    ensures Run(w, ReadSchedule(call, backend, now)) ==
            World(w.db, w.p.(frame := Idle, answer := Some(Granted(true))), CountGrant(w.h, call))
  {
    hide Inv, Next, Enabled, Run, Calm;
    ReadsItsRow(w, call, Confirming, backend, now);
    var schedule := ReadSchedule(call, backend, now);
    assert schedule == [schedule[0], schedule[1], schedule[2]] + [];
    RunThree(w, schedule[0], schedule[1], schedule[2], []);
    RunNothing(Next(Next(Next(w, schedule[0]), schedule[1]), schedule[2]));
  }

  lemma RunSkips(w: World, a: Action, rest: seq<Action>)
    requires !Enabled(w, a)
    ensures Run(w, [a] + rest) == Run(w, rest)
  {
    hide Next, Enabled;
    assert ([a] + rest)[1..] == rest;
  }

  lemma RunNothing(w: World)
    ensures Run(w, []) == w
  {
  }

  /** How a call that nothing disturbs ends. */
  function Verdict(call: Call, backend: Backend): Answer
    requires Metered(call)
  {
    if call.ToolCall? || backend.Accepts? then Granted(true)
    else if backend.Declines? then Granted(false)
    else BackendLost
  }

  lemma Starts(w: World, call: Call, now: real)
    requires Metered(call) && Calm(w, call, now) && w.p.frame.Idle?
    ensures Enabled(w, Start(call, now))
    ensures Next(w, Start(call, now)) == w.(p := w.p.(frame := Busy(call, Checking), answer := None))
    ensures Calm(Next(w, Start(call, now)), call, now)
  {
  }

  lemma KeepsThree(w: World, a: Action, b: Action, c: Action)
    requires Inv(w) && Enabled(w, a) && Enabled(Next(w, a), b) && Enabled(Next(Next(w, a), b), c)
    ensures Inv(Next(Next(Next(w, a), b), c))
  {
    hide Inv, Next, Enabled;
    NextKeeps(w, a);
    NextKeeps(Next(w, a), b);
    NextKeeps(Next(Next(w, a), b), c);
  }

  /** The first half: the row read and the attempt counted. */
  lemma GetsCounted(w: World, call: Call, backend: Backend, now: real, rest: seq<Action>)
    requires Inv(w) && Metered(call) && Calm(w, call, now) && AttemptLeft(w, call) && w.p.frame.Idle?
    ensures var w' := Counted(w.(p := w.p.(answer := None)), call, now);
            && Inv(w') && Calm(w', call, now)
            && Run(w, [Start(call, now)] + ReadSchedule(call, backend, now)
                      + [Begin(Adapter, CountOp(call), now), Commit, Resume(false, backend, 0, now)] + rest) == Run(w', rest)
  {
    hide Inv, Next, Enabled, Run, Calm;
    var read, count := ReadSchedule(call, backend, now), [Begin(Adapter, CountOp(call), now), Commit, Resume(false, backend, 0, now)];
    assert [Start(call, now)] + read + count + rest == [Start(call, now)] + (read + (count + rest));
    Starts(w, call, now);
    NextKeeps(w, Start(call, now));
    var w1 := Next(w, Start(call, now));
    RunStep(w, Start(call, now), read + (count + rest));
    ReadsItsRow(w1, call, Checking, backend, now);
    KeepsThree(w1, read[0], read[1], read[2]);
    RunThree(w1, read[0], read[1], read[2], count + rest);
    var w2 := w1.(p := w1.p.(frame := Busy(call, Counting)));
    StillCalm(w1, w2, call, now);
    CountsItsAttempt(w2, call, backend, now);
    KeepsThree(w2, count[0], count[1], count[2]);
    RunThree(w2, count[0], count[1], count[2], rest);
    StaysCalm(w2, call, now);
  }

  lemma StillCalm(w: World, w': World, call: Call, now: real)
    requires Metered(call) && Calm(w, call, now)
    requires w'.db == w.db && w'.p == w.p.(frame := w'.p.frame, answer := w'.p.answer)
    ensures Calm(w', call, now)
  {
  }

  /** What is left after the backend's answer and the last confirmation. */
  function Ended(w: World, call: Call, backend: Backend): World
    requires Metered(call)
  {
    if call.ToolCall? || backend.Accepts? then
      World(w.db, w.p.(frame := Idle, answer := Some(Granted(true))), CountGrant(w.h, call))
    else if backend.Declines? then w.(p := w.p.(frame := Idle, answer := Some(Granted(false))))
    else w.(p := Revoked(w.p, call.lease).(frame := Idle, answer := Some(BackendLost)))
  }

  function Asking(call: Call, backend: Backend, now: real): seq<Action> {
    if call.ModelCall? then [Resume(false, backend, 0, now)] else []
  }

  /** The second half: the backend asked, if it is to be asked, and the row read again. */
  lemma GetsItsVerdict(w: World, call: Call, backend: Backend, now: real)
    requires Inv(w) && Metered(call) && Calm(w, call, now)
    requires w.p.frame == Busy(call, if call.ModelCall? then Metering else Confirming)
    ensures Run(w, Asking(call, backend, now) + ReadSchedule(call, backend, now)) == Ended(w, call, backend)
  {
    hide Inv, Next, Enabled, Run, Calm, ReadSchedule, Revoked, CountGrant;
    var read := ReadSchedule(call, backend, now);
    if call.ToolCall? {
      assert [] + read == read;
      ReadsLast(w, call, backend, now);
    } else {
      var ask := Resume(false, backend, 0, now);
      AsksTheBackend(w, call, backend, now);
      NextKeeps(w, ask);
      RunStep(w, ask, read);
      if backend.Accepts? {
        StillCalm(w, Next(w, ask), call, now);
        ReadsLast(Next(w, ask), call, backend, now);
      } else {
        CalmHolds(w, call, now);
        assert Next(w, ask) == Ended(w, call, backend);
        StaysAtRest(w, call, backend);
        NothingToRead(Next(w, ask), call, backend, now);
      }
    }
  }

  lemma StaysAtRest(w: World, call: Call, backend: Backend)
    requires Metered(call) && w.p.tx.None?
    ensures Ended(w, call, backend).p.tx.None? && Ended(w, call, backend).p.frame.Idle?
  {
  }

  lemma UndisturbedRun(w: World, call: Call, backend: Backend, now: real)
    requires Inv(w) && Metered(call) && Calm(w, call, now) && AttemptLeft(w, call) && w.p.frame.Idle?
    ensures call.lease.sequence in w.db.rows
    ensures Run(w, CallSchedule(call, backend, now)) == Ended(Counted(w.(p := w.p.(answer := None)), call, now), call, backend)
  {
    hide Inv, Next, Enabled, Run, Calm, ReadSchedule, Counted, Ended;
    var ask, read := Asking(call, backend, now), ReadSchedule(call, backend, now);
    CalmHolds(w, call, now);
    GetsCounted(w, call, backend, now, ask + read);
    assert CallSchedule(call, backend, now) ==
           [Start(call, now)] + read + [Begin(Adapter, CountOp(call), now), Commit, Resume(false, backend, 0, now)] + (ask + read);
    CountedFrame(w.(p := w.p.(answer := None)), call, now);
    GetsItsVerdict(Counted(w.(p := w.p.(answer := None)), call, now), call, backend, now);
  }

  lemma CountedFrame(w: World, call: Call, now: real)
    requires Metered(call) && call.lease.sequence in w.db.rows
    ensures Counted(w, call, now).p.frame == Busy(call, if call.ModelCall? then Metering else Confirming)
  {
  }

  /** A metered call that nothing disturbs, over a lease in use and a running turn with an attempt
      left, counts one attempt and is granted exactly when the quota backend accepts; no backend is
      asked for a tool. A refusal leaves the lease, a failure of the backend revokes it. */
  lemma UndisturbedCall(w: World, call: Call, backend: Backend, now: real)
    requires Reachable(w) && Metered(call) && Calm(w, call, now) && AttemptLeft(w, call) && w.p.frame.Idle?
    ensures var w', s := Run(w, CallSchedule(call, backend, now)), call.lease.sequence;
            && w'.p.frame == Idle && w'.p.answer == Some(Verdict(call, backend))
            && (w'.p.answer == Some(Granted(true)) <==> call.ToolCall? || backend.Accepts?)
            && w'.db.rows == w.db.rows[s := CountAttempt(w.db.rows[s], KindOf(call), now)]
            && (HoldsLease(w'.p, call.lease) <==> call.ToolCall? || !backend.Raises?)
            && w'.h == (if call.ToolCall? || backend.Accepts? then CountGrant(w.h, call) else w.h)
  {
    hide Inv, Run, Reachable, CallSchedule, Owns, CountGrant, CountAttempt;
    ReachableHolds(w);
    CalmHolds(w, call, now);
    UndisturbedRun(w, call, backend, now);
  }

  lemma CalmHolds(w: World, call: Call, now: real)
    requires Metered(call) && Calm(w, call, now)
    ensures HoldsLease(w.p, call.lease) && w.p.tx.None? && call.lease.sequence in w.db.rows
  {
  }
}
