/** The adapter's calls around a turn when nothing disturbs them: a request is reserved, put to work
    and finished exactly when the quota backend accepts, and each refusal leaves what it should. */
module AdmissionUndisturbed {
  import opened Wrappers
  import opened AdmissionStore
  import opened AdmissionInvariants
  import opened AdmissionProtocol
  import opened AdmissionSafety
  import opened AdmissionTheorems
  import opened AdmissionMeaning
  import opened AdmissionMetering

  /** The adapter and the store are open, and nobody is at the store or in a call. */
  predicate Open(p: Process) {
    p.tx.None? && Adapter !in p.done && p.frame.Idle? && p.ready && !p.storeClosed && !p.adapterClosed
  }

  function Transaction(op: Op, backend: Backend, token: nat, now: real): seq<Action> {
    [Begin(Adapter, op, now), Commit, Resume(false, backend, token, now)]
  }

  // ---------------------------------------------------------------- one transaction, one question

  predicate Awaits(w: World, call: Call, at: Stage, op: Op) {
    && w.p.tx.None? && Adapter !in w.p.done && w.p.ready && !w.p.storeClosed
    && w.p.frame == Busy(call, at) && AwaitedOp(w.p.frame) == Some(op)
  }

  predicate Succeeds(w: World, op: Op, now: real) {
    var work := Perform(op, now, w.db, w.p.memory);
    work.outcome.Ok? && work.db.rows.Keys == w.db.rows.Keys && !op.CommitTurn?
  }

  /** The world after the transaction, before the call goes on. */
  function AfterTransaction(w: World, op: Op, now: real): World {
    var work := Perform(op, now, w.db, w.p.memory);
    World(work.db, w.p.(memory := work.memory),
          if op.Claim? && work.outcome.Ok? && work.outcome.value.ClaimReply?
          then w.h.(claims := w.h.claims + [work.outcome.value.claimed]) else w.h)
  }

  function GoneOn(w: World, call: Call, at: Stage, op: Op, backend: Backend, token: nat, now: real): World {
    var v := AfterTransaction(w, op, now);
    Moves(v, v.p, call,
          ResumeMove(v.p, call, at, Perform(op, now, w.db, w.p.memory).outcome, false, backend, token, now))
  }

  lemma Transacted(w: World, call: Call, at: Stage, op: Op, backend: Backend, token: nat, now: real)
    requires Awaits(w, call, at, op) && Succeeds(w, op, now)
    ensures && Enabled(w, Begin(Adapter, op, now))
            && var w1 := Next(w, Begin(Adapter, op, now));
            && Enabled(w1, Commit)
            && var w2 := Next(w1, Commit);
            && Enabled(w2, Resume(false, backend, token, now))
            && Next(w2, Resume(false, backend, token, now)) == GoneOn(w, call, at, op, backend, token, now)
  {
    hide Perform, AwaitedOp, ResumeMove;
    var work, v := Perform(op, now, w.db, w.p.memory), AfterTransaction(w, op, now);
    var w2 := Next(Next(w, Begin(Adapter, op, now)), Commit);
    assert w2.h == v.h by {
      assert work.db.rows.Keys - w.db.rows.Keys == {};
      assert v.h.session + {} == v.h.session;
    }
    assert w2.p.done == w.p.done[Adapter := work.outcome];
    assert AfterTaking(w2.p) == v.p by {
      assert w2.p.done - {Adapter} == w.p.done;
    }
  }

  lemma RunsTransaction(w: World, call: Call, at: Stage, op: Op, backend: Backend, token: nat, now: real, rest: seq<Action>)
    requires Inv(w) && Awaits(w, call, at, op) && Succeeds(w, op, now)
    ensures Inv(GoneOn(w, call, at, op, backend, token, now))
    ensures Run(w, Transaction(op, backend, token, now) + rest) == Run(GoneOn(w, call, at, op, backend, token, now), rest)
  {
    hide Inv, Run, Next, Enabled, GoneOn, Awaits, Succeeds;
    Transacted(w, call, at, op, backend, token, now);
    var t := Transaction(op, backend, token, now);
    KeepsThree(w, t[0], t[1], t[2]);
    RunThree(w, t[0], t[1], t[2], rest);
  }

  function Told(w: World, call: Call, at: Stage, backend: Backend, token: nat, now: real): World {
    Moves(w, w.p, call, ResumeMove(w.p, call, at, TakenReply(w.p), false, backend, token, now))
  }

  /** The backend's answer, to a call that waits for nothing else. */
  lemma RunsQuestion(w: World, call: Call, at: Stage, backend: Backend, token: nat, now: real, rest: seq<Action>)
    requires Inv(w) && w.p.frame == Busy(call, at) && AwaitedOp(w.p.frame).None?
    ensures Inv(Told(w, call, at, backend, token, now))
    ensures Run(w, [Resume(false, backend, token, now)] + rest) == Run(Told(w, call, at, backend, token, now), rest)
  {
    hide Inv, Run, ResumeMove, AwaitedOp;
    var a := Resume(false, backend, token, now);
    assert Enabled(w, a) && Next(w, a) == Told(w, call, at, backend, token, now);
    NextKeeps(w, a);
    RunStep(w, a, rest);
  }

  predicate OfTheAdapter(a: Action) {
    (a.Begin? && a.client == Adapter) || a.Commit? || a.Resume?
  }

  /** An ended call takes no further step. */
  lemma {:induction false} NothingLeft(w: World, schedule: seq<Action>)
    requires w.p.frame.Idle? && w.p.tx.None? && forall a | a in schedule :: OfTheAdapter(a)
    ensures Run(w, schedule) == w
    decreases |schedule|
  {
    hide Next;
    if schedule != [] {
      assert !Enabled(w, schedule[0]) by {
        assert OfTheAdapter(schedule[0]);
      }
      NothingLeft(w, schedule[1..]);
    }
  }

  /** A lease that is owned is found confirmed, in the state its row is in. */
  lemma Confirms(w: World, lease: Lease, now: real)
    requires Inv(w) && Owns(w.p, lease, now)
    ensures var s := lease.sequence;
            && s in w.db.rows && 1 <= s <= MAX_SEQUENCE && Addressable(w.db, s) && Active(w.db.rows[s])
            && InTime(w.db.rows[s], now)
            && Perform(Get(lease.owner, lease.taskId), now, w.db, w.p.memory)
               == Work(Ok(RecordReply(s, w.db.rows[s], false)), w.db, w.p.memory)
            && forall expected | expected == w.db.rows[s].state ::
                 CheckCurrent(w.p, lease, expected, Ok(RecordReply(s, w.db.rows[s], false)), now) == Confirmed
  {
    hide StoreInv, ClaimInv, MeterInv, FrameOk, AdapterTxOk, DbInv, ValidId;
    OwnedIsActive(w, lease, now);
    assert OwnedAt(w, lease.sequence);
    assert DbInv(w.db) by {
      InvHasDb(w);
    }
    RowOkAt(w.db, lease.sequence);
    IndexedByTask(w.db, lease.sequence);
    ReadsMean(lease.owner, lease.taskId, now, w.db, w.p.memory);
  }

  // ---------------------------------------------------------------- reserve_request

  function ReserveSchedule(call: Call, backend: Backend, token: nat, now: real): seq<Action>
    requires call.ReserveRequest?
  {
    [Start(call, now)]
    + (Transaction(Claim(call.owner, call.requestId, call.taskId), backend, token, now)
       + ([Resume(false, backend, token, now)] + Transaction(Get(call.owner, call.taskId), backend, token, now)))
  }

  function NewestLease(w: World, call: Call, token: nat): Lease
    requires call.ReserveRequest? && (call.owner, call.requestId) in w.db.byRequest
    requires w.db.byRequest[(call.owner, call.requestId)] in w.db.rows && call.owner in w.db.subjects
  {
    var s := w.db.byRequest[(call.owner, call.requestId)];
    Lease(call.owner, call.requestId, call.taskId, s, w.db.subjects[call.owner].quota, token,
          w.db.rows[s].createdAt + 120.0)
  }

  predicate Claimable(w: World, call: Call, now: real)
    requires call.ReserveRequest?
  {
    && CanClaim(w.db, w.p.memory, call.owner, call.requestId, call.taskId, now)
    && w.db.byRequest[(call.owner, call.requestId)] !in w.p.memory.blocked
  }

  /** The claim has been made, and the backend is being asked. */
  function Asking(w: World, call: Call, now: real): World
    requires call.ReserveRequest? && Claimable(w, call, now)
  {
    var s := w.db.byRequest[(call.owner, call.requestId)];
    World(w.db.(rows := w.db.rows[s := w.db.rows[s].(phase := PReserved, updatedAt := now)]),
          w.p.(memory := Memory(w.p.memory.freshTurns - {s}, w.p.memory.blocked), answer := None,
               frame := Busy(call, QuotaReserving(s, w.db.subjects[call.owner].quota, w.db.rows[s].createdAt))),
          w.h.(claims := w.h.claims + [s]))
  }

  lemma ReserveClaims(w: World, call: Call, backend: Backend, token: nat, now: real, rest: seq<Action>)
    requires Inv(w) && call.ReserveRequest? && Open(w.p) && Claimable(w, call, now)
    ensures Inv(Asking(w, call, now))
    ensures Run(w, [Start(call, now)] + (Transaction(Claim(call.owner, call.requestId, call.taskId), backend, token, now) + rest))
            == Run(Asking(w, call, now), rest)
  {
    hide Inv, Run, Perform, DbInv, Transaction, ValidId;
    var op := Claim(call.owner, call.requestId, call.taskId);
    var w1 := w.(p := w.p.(frame := Busy(call, Claiming), answer := None));
    assert Enabled(w, Start(call, now)) && Next(w, Start(call, now)) == w1;
    NextKeeps(w, Start(call, now));
    RunStep(w, Start(call, now), Transaction(op, backend, token, now) + rest);
    assert DbInv(w.db) by {
      InvHasDb(w);
    }
    ClaimMeans(call.owner, call.requestId, call.taskId, now, w.db, w.p.memory);
    assert Succeeds(w1, op, now);
    RunsTransaction(w1, call, Claiming, op, backend, token, now, rest);
    assert GoneOn(w1, call, Claiming, op, backend, token, now) == Asking(w, call, now);
  }

  /** An undisturbed reserve_request, on a turn that can be claimed, spends the claim and holds a new
      lease exactly when the backend accepts; otherwise it raises the backend's refusal, or an
      uncertain store error, and holds nothing new. */
  lemma UndisturbedReserve(w: World, call: Call, backend: Backend, token: nat, now: real)
    requires Reachable(w) && call.ReserveRequest? && Open(w.p) && Claimable(w, call, now)
    ensures call.owner in w.db.subjects
    ensures var w', lease := Run(w, ReserveSchedule(call, backend, token, now)), NewestLease(w, call, token);
            && w'.p.frame == Idle
            && w'.p.answer == Some(match backend
                                   case Accepts => Leased(lease)
                                   case Declines(code) => Raised(PilotError(code, false))
                                   case Raises => Raised(PilotError(Store, true)))
            && w'.p.owned == (if backend.Accepts? then w.p.owned[lease.sequence := Owned(lease, Reserved)] else w.p.owned)
            && w'.db == Asking(w, call, now).db && w'.h == Asking(w, call, now).h
            && w'.p.memory == Memory(w.p.memory.freshTurns - {lease.sequence}, w.p.memory.blocked)
  {
    hide Inv, Run, Perform, DbInv, Transaction, ValidId, Reachable, CheckCurrent;
    ReachableHolds(w);
    var get := Transaction(Get(call.owner, call.taskId), backend, token, now);
    ReserveClaims(w, call, backend, token, now, [Resume(false, backend, token, now)] + get);
    ReserveAsked(w, call, backend, token, now);
  }

  lemma ReserveAsked(w: World, call: Call, backend: Backend, token: nat, now: real)
    requires call.ReserveRequest? && Open(w.p) && Claimable(w, call, now) && Inv(Asking(w, call, now))
    ensures var lease, a := NewestLease(w, call, token), Asking(w, call, now);
            Run(a, [Resume(false, backend, token, now)] + Transaction(Get(call.owner, call.taskId), backend, token, now)) ==
            match backend
            case Accepts => a.(p := a.p.(owned := a.p.owned[lease.sequence := Owned(lease, Reserved)], frame := Idle,
                                         answer := Some(Leased(lease))))
            case Declines(code) => a.(p := a.p.(frame := Idle, answer := Some(Raised(PilotError(code, false)))))
            case Raises => a.(p := a.p.(frame := Idle, answer := Some(Raised(PilotError(Store, true)))))
  {
    hide Inv, Run, Perform, DbInv, ValidId, CheckCurrent;
    var a, lease, get := Asking(w, call, now), NewestLease(w, call, token), Transaction(Get(call.owner, call.taskId), backend, token, now);
    RunsQuestion(a, call, a.p.frame.at, backend, token, now, get);
    var b := Told(a, call, a.p.frame.at, backend, token, now);
    if backend.Accepts? {
      assert b == a.(p := a.p.(owned := a.p.owned[lease.sequence := Owned(lease, Reserved)], frame := Busy(call, Leasing(lease))));
      ReserveReads(b, call, lease, backend, token, now);
    } else {
      NothingLeft(b, get);
    }
  }

  lemma ReserveReads(w: World, call: Call, lease: Lease, backend: Backend, token: nat, now: real)
    requires Inv(w) && call.ReserveRequest? && call.owner == lease.owner && call.taskId == lease.taskId
    requires w.p.frame == Busy(call, Leasing(lease)) && w.p.tx.None? && Adapter !in w.p.done
    requires Owns(w.p, lease, now) && lease.sequence in w.db.rows && w.db.rows[lease.sequence].state == Admitted
    ensures Run(w, Transaction(Get(call.owner, call.taskId), backend, token, now))
            == w.(p := w.p.(frame := Idle, answer := Some(Leased(lease))))
  {
    hide Inv, Run, Perform, CheckCurrent, Transaction, ValidId;
    Confirms(w, lease, now);
    RunsTransaction(w, call, Leasing(lease), Get(call.owner, call.taskId), backend, token, now, []);
    var t := Transaction(Get(call.owner, call.taskId), backend, token, now);
    assert t + [] == t;
    RunNothing(GoneOn(w, call, Leasing(lease), Get(call.owner, call.taskId), backend, token, now));
  }

  // ---------------------------------------------------------------- mark_running and finish_request

  function ReadLease(lease: Lease): Op {
    Get(lease.owner, lease.taskId)
  }

  /** A call on a lease reads its row first; if the row is in the state the call expects, it goes on. */
  lemma ReadsLease(w: World, call: Call, at: Stage, lease: Lease, backend: Backend, now: real, rest: seq<Action>)
    requires Inv(w) && Awaits(w, call, at, ReadLease(lease)) && Owns(w.p, lease, now)
    ensures var s := lease.sequence;
            && s in w.db.rows
            && var w' := Moves(w, w.p, call, ResumeMove(w.p, call, at, Ok(RecordReply(s, w.db.rows[s], false)), false, backend, 0, now));
            && Inv(w') && Run(w, Transaction(ReadLease(lease), backend, 0, now) + rest) == Run(w', rest)
  {
    hide Inv, Run, Perform, CheckCurrent, Transaction, ValidId, ResumeMove, Awaits;
    Confirms(w, lease, now);
    RunsTransaction(w, call, at, ReadLease(lease), backend, 0, now, rest);
  }

  lemma ReadConfirms(w: World, lease: Lease, expected: State, now: real)
    requires Inv(w) && Owns(w.p, lease, now)
    requires lease.sequence in w.db.rows ==> w.db.rows[lease.sequence].state == expected
    ensures lease.sequence in w.db.rows
    ensures CheckCurrent(w.p, lease, expected, Ok(RecordReply(lease.sequence, w.db.rows[lease.sequence], false)), now) == Confirmed
  {
    hide Inv, Owns, CheckCurrent, Perform;
    Confirms(w, lease, now);
  }

  predicate Ready(w: World, lease: Lease, state: State, held: LeaseState, now: real) {
    && Open(w.p) && Owns(w.p, lease, now) && w.p.owned[lease.sequence].state == held
    && (lease.sequence in w.db.rows ==> w.db.rows[lease.sequence].state == state)
  }

  function At(w: World, call: Call, at: Stage): World {
    w.(p := w.p.(frame := Busy(call, at), answer := None))
  }

  /** The first half of either call: its row read and confirmed, the backend about to be asked. */
  lemma GetsToAsk(w: World, call: Call, lease: Lease, state: State, held: LeaseState, backend: Backend, now: real, rest: seq<Action>)
    requires Inv(w) && Ready(w, lease, state, held, now)
    requires if call.MarkRunning? then call.lease == lease && state == Admitted && held == Reserved
             else call.FinishRequest? && call.lease == lease && state == Running && held == InUse
    ensures var ask := At(w, call, if call.MarkRunning? then QuotaMarking else QuotaFinishing);
            && Inv(ask)
            && Run(w, [Start(call, now)] + (Transaction(ReadLease(lease), backend, 0, now) + rest)) == Run(ask, rest)
  {
    hide Inv, Run, Perform, Transaction, CheckCurrent;
    var w1 := At(w, call, Checking);
    assert Enabled(w, Start(call, now)) && Next(w, Start(call, now)) == w1;
    NextKeeps(w, Start(call, now));
    RunStep(w, Start(call, now), Transaction(ReadLease(lease), backend, 0, now) + rest);
    ReadsLease(w1, call, Checking, lease, backend, now, rest);
    ReadConfirms(w1, lease, state, now);
  }

  /** An undisturbed finish_request on a lease in use and a running turn ends as finished exactly when
      the backend accepts, and as an uncertain store error otherwise; the lease is gone either way,
      and nothing in the database changes. */
  lemma UndisturbedFinish(w: World, call: Call, backend: Backend, now: real)
    requires Reachable(w) && call.FinishRequest? && Ready(w, call.lease, Running, InUse, now)
    ensures Run(w, FinishSchedule(call, backend, now)) ==
            w.(p := w.p.(owned := w.p.owned - {call.lease.sequence}, frame := Idle,
                         answer := Some(if backend.Accepts? then Finished(call.success) else Raised(PilotError(Store, true)))))
  {
    hide Inv, Run, Perform, Transaction, CheckCurrent, Reachable;
    ReachableHolds(w);
    var ask := At(w, call, QuotaFinishing);
    GetsToAsk(w, call, call.lease, Running, InUse, backend, now, [Resume(false, backend, 0, now)]);
    RunsQuestion(ask, call, QuotaFinishing, backend, 0, now, []);
    assert [Resume(false, backend, 0, now)] + [] == [Resume(false, backend, 0, now)];
    RunNothing(Told(ask, call, QuotaFinishing, backend, 0, now));
  }

  function FinishSchedule(call: Call, backend: Backend, now: real): seq<Action>
    requires call.FinishRequest?
  {
    [Start(call, now)] + (Transaction(ReadLease(call.lease), backend, 0, now) + [Resume(false, backend, 0, now)])
  }

  function MarkSchedule(call: Call, backend: Backend, now: real): seq<Action>
    requires call.MarkRunning?
  {
    [Start(call, now)]
    + (Transaction(ReadLease(call.lease), backend, 0, now)
       + ([Resume(false, backend, 0, now)]
          + (Transaction(SetRunning(call.lease), backend, 0, now) + Transaction(ReadLease(call.lease), backend, 0, now))))
  }

  function SetRunning(lease: Lease): Op {
    Transition(lease.sequence, Admitted, Running, PRunning, None)
  }

  /** The database once the turn runs. */
  function RunningDb(db: Db, s: nat, now: real): Db
    requires s in db.rows
  {
    db.(rows := db.rows[s := db.rows[s].(state := Running, phase := PRunning, errorCode := None, updatedAt := now)],
        events := db.events + [Event(s, PRunning, StateCode(Running))])
  }

  lemma RunsTheTurn(w: World, call: Call, backend: Backend, now: real, rest: seq<Action>)
    requires Inv(w) && call.MarkRunning? && Awaits(w, call, Moving, SetRunning(call.lease)) && Owns(w.p, call.lease, now)
    requires call.lease.sequence in w.db.rows && w.db.rows[call.lease.sequence].state == Admitted
    ensures var w' := w.(db := RunningDb(w.db, call.lease.sequence, now), p := w.p.(frame := Busy(call, Confirming)));
            && Inv(w')
            && Run(w, Transaction(SetRunning(call.lease), backend, 0, now) + rest) == Run(w', rest)
  {
    hide Inv, Run, Perform, Transaction, CheckCurrent, Awaits, Addressable, ValidId;
    var lease := call.lease;
    Confirms(w, lease, now);
    TransitionMeans(lease.sequence, Admitted, Running, PRunning, None, now, w.db, w.p.memory);
    assert Succeeds(w, SetRunning(lease), now);
    RunsTransaction(w, call, Moving, SetRunning(lease), backend, 0, now, rest);
    AwaitsBusy(w, call, Moving, SetRunning(lease));
    assert GoneOn(w, call, Moving, SetRunning(lease), backend, 0, now) ==
           w.(db := RunningDb(w.db, lease.sequence, now), p := w.p.(frame := Busy(call, Confirming)));
  }

  lemma AwaitsBusy(w: World, call: Call, at: Stage, op: Op)
    requires Awaits(w, call, at, op)
    ensures w.p.frame == Busy(call, at) && w.p.tx.None?
  {
  }

  /** An undisturbed mark_running on a reserved lease and an admitted turn sets the turn running and the
      lease in use exactly when the backend accepts; otherwise the lease is gone and the turn is
      as it was. */
  lemma UndisturbedMark(w: World, call: Call, backend: Backend, now: real)
    requires Reachable(w) && call.MarkRunning? && Ready(w, call.lease, Admitted, Reserved, now)
    ensures call.lease.sequence in w.db.rows
    ensures var s := call.lease.sequence;
            Run(w, MarkSchedule(call, backend, now)) ==
            if backend.Accepts? then
              w.(db := RunningDb(w.db, s, now),
                 p := w.p.(owned := w.p.owned[s := Owned(call.lease, InUse)], frame := Idle, answer := Some(Moved)))
            else
              w.(p := w.p.(owned := w.p.owned - {s}, frame := Idle, answer := Some(Raised(PilotError(Store, true)))))
  {
    hide Inv, Run, Perform, Transaction, CheckCurrent, Reachable;
    ReachableHolds(w);
    var lease, ask := call.lease, At(w, call, QuotaMarking);
    var move, read := Transaction(SetRunning(lease), backend, 0, now), Transaction(ReadLease(lease), backend, 0, now);
    GetsToAsk(w, call, lease, Admitted, Reserved, backend, now, [Resume(false, backend, 0, now)] + (move + read));
    RunsQuestion(ask, call, QuotaMarking, backend, 0, now, move + read);
    ReadConfirms(ask, lease, Admitted, now);
    if backend.Accepts? {
      MarksIt(w, call, backend, now);
    } else {
      AdapterOnly(SetRunning(lease), ReadLease(lease), backend, now);
      NothingLeft(Told(ask, call, QuotaMarking, backend, 0, now), move + read);
    }
  }

  lemma AdapterOnly(a: Op, b: Op, backend: Backend, now: real)
    ensures forall x | x in Transaction(a, backend, 0, now) + Transaction(b, backend, 0, now) :: OfTheAdapter(x)
  {
  }

  lemma MarksIt(w: World, call: Call, backend: Backend, now: real)
    requires call.MarkRunning? && Ready(w, call.lease, Admitted, Reserved, now) && backend.Accepts?
    requires call.lease.sequence in w.db.rows
    requires Inv(Told(At(w, call, QuotaMarking), call, QuotaMarking, backend, 0, now))
    ensures Run(Told(At(w, call, QuotaMarking), call, QuotaMarking, backend, 0, now),
                Transaction(SetRunning(call.lease), backend, 0, now) + Transaction(ReadLease(call.lease), backend, 0, now))
            == w.(db := RunningDb(w.db, call.lease.sequence, now),
                  p := w.p.(owned := w.p.owned[call.lease.sequence := Owned(call.lease, InUse)], frame := Idle, answer := Some(Moved)))
  {
    hide Inv, Run, Perform, Transaction, CheckCurrent;
    var lease, w1, read := call.lease, At(w, call, Moving), Transaction(ReadLease(call.lease), backend, 0, now);
    assert Told(At(w, call, QuotaMarking), call, QuotaMarking, backend, 0, now) == w1;
    RunsTheTurn(w1, call, backend, now, read);
    var w2 := w1.(db := RunningDb(w.db, lease.sequence, now), p := w1.p.(frame := Busy(call, Confirming)));
    ReadsLease(w2, call, Confirming, lease, backend, now, []);
    ReadConfirms(w2, lease, Running, now);
    assert read + [] == read;
    RunNothing(Moves(w2, w2.p, call, Promote(lease)));
  }

  // ---------------------------------------------------------------- how transactions end

  /** A commit makes what was staged durable and answers, unless it publishes after the fence: then
      nothing is durable and the answer is an uncertain error. A roll-back leaves the database and
      answers with a store error. A closed store, or a body that fails, opens nothing. */
  lemma TransactionsEnd(w: World, client: Client, op: Op, now: real)
    ensures w.p.tx.Some? ==>
              var tx, c, r := w.p.tx.value, CommitStep(w), RollBackStep(w);
              && c.p.tx == None && r.p.tx == None && r.db == w.db && r.p.done == w.p.done[tx.client := Err(PilotError(Store, false))]
              && (if tx.op.CommitTurn? && w.p.publicationClosed
                  then c.db == w.db && c.p.done == w.p.done[tx.client := Err(PilotError(Disabled, true))]
                  else c.db == tx.staged && c.p.done == w.p.done[tx.client := Ok(tx.reply)])
    ensures CanBegin(w.p, client, op) ==>
              var work, b := Perform(op, now, w.db, w.p.memory), BeginStep(w, client, op, now);
              && b.db == w.db
              && (if !w.p.ready || w.p.storeClosed
                  then b.p == w.p.(done := w.p.done[client := Err(PilotError(Store, false))])
                  else if work.outcome.Err?
                  then b.p == w.p.(memory := work.memory, done := w.p.done[client := Err(work.outcome.error)])
                  else b.p == w.p.(memory := work.memory, tx := Some(Tx(client, op, work.outcome.value, work.db))))
  {
    hide Perform, CanBegin;
  }
}
