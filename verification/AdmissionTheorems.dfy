/** What the admission protocol promises, over every schedule of steps. */
module AdmissionTheorems {
  import opened Wrappers
  import opened AdmissionStore
  import opened AdmissionInvariants
  import opened AdmissionProtocol
  import opened AdmissionSafety

  /** A world some schedule leads to. */
  ghost predicate Reachable(w: World) {
    exists schedule :: w == Run(START, schedule)
  }

  lemma ReachableHolds(w: World)
    requires Reachable(w)
    ensures Inv(w)
  {
    hide Inv;
    var schedule :| w == Run(START, schedule);
    StartHolds();
    RunKeeps(START, schedule);
  }

  // ---------------------------------------------------------------- ownership

  /** Whenever the adapter says it owns a lease, the durable row is active with that very
      identity and deadline; and so it is in any transaction that is about to commit. */
  lemma OwnedLeaseIsActive(w: World, lease: Lease, now: real)
    requires Reachable(w) && Owns(w.p, lease, now)
    ensures var s := lease.sequence;
            && IsTurn(w.db, s) && Active(w.db.rows[s])
            && w.db.rows[s].owner == lease.owner && w.db.rows[s].requestId == lease.requestId
            && HasTaskId(w.db.rows[s], lease.taskId)
            && now < w.db.rows[s].createdAt + TURN_SECONDS
    ensures w.p.tx.Some? ==>
              var s := lease.sequence;
              IsTurn(w.p.tx.value.staged, s) && Active(w.p.tx.value.staged.rows[s])
  {
    hide DbInv, ClaimInv, MeterInv, Inv;
    ReachableHolds(w);
    OwnedIsActive(w, lease, now);
  }

  lemma OwnedIsActive(w: World, lease: Lease, now: real)
    requires Inv(w) && Owns(w.p, lease, now)
    ensures var s := lease.sequence;
            && s in w.h.session && IsTurn(w.db, s) && Active(w.db.rows[s])
            && w.db.rows[s].owner == lease.owner && w.db.rows[s].requestId == lease.requestId
            && HasTaskId(w.db.rows[s], lease.taskId)
            && now < w.db.rows[s].createdAt + TURN_SECONDS
    ensures w.p.tx.Some? ==>
              var s := lease.sequence;
              IsTurn(w.p.tx.value.staged, s) && Active(w.p.tx.value.staged.rows[s])
  {
    hide DbInv, ClaimInv, MeterInv, DbLater;
    var s := lease.sequence;
    assert OwnedAt(w, s);
    assert Guarded(w.db, w.p.memory, s);
    if w.p.tx.Some? {
      RowStays(w.db, w.p.tx.value.staged, s);
      assert Guarded(w.p.tx.value.staged, w.p.memory, s);
    }
  }

  // ---------------------------------------------------------------- history only moves forward

  lemma NextIsLater(w: World, a: Action)
    requires Inv(w) && Enabled(w, a)
    ensures DbLater(w.db, Next(w, a).db)
  {
    hide DbInv, DbLater, ClaimInv, LeaseInv, MeterInv, Perform, ResumeMove, StartMove;
    DbLaterReflexive(w.db);
  }

  lemma {:induction false} RunIsLater(w: World, schedule: seq<Action>)
    requires Inv(w)
    ensures DbLater(w.db, Run(w, schedule).db)
    decreases |schedule|
  {
    hide Inv, DbLater, Next, Enabled;
    if schedule == [] {
      DbLaterReflexive(w.db);
    } else if Enabled(w, schedule[0]) {
      NextKeeps(w, schedule[0]);
      NextIsLater(w, schedule[0]);
      RunIsLater(Next(w, schedule[0]), schedule[1..]);
      DbLaterTransitive(w.db, Next(w, schedule[0]).db, Run(w, schedule).db);
    } else {
      RunIsLater(w, schedule[1..]);
    }
  }

  /** Over all runs: a terminal row never changes again in any column, and the input a row
      was admitted with and the first result it staged are the ones it keeps. */
  lemma TerminalRowsAreFrozen(w: World, schedule: seq<Action>, s: nat)
    requires Reachable(w) && s in w.db.rows
    ensures var w' := Run(w, schedule);
            && s in w'.db.rows && w'.db.rows[s].input == w.db.rows[s].input
            && (Terminal(w.db.rows[s].state) ==> w'.db.rows[s] == w.db.rows[s])
            && (w.db.rows[s].result.Some? ==> w'.db.rows[s].result == w.db.rows[s].result)
            && (w.db.rows[s].cancelRequested ==> w'.db.rows[s].cancelRequested)
  {
    hide Inv, DbLater;
    ReachableHolds(w);
    RunIsLater(w, schedule);
    RowStays(w.db, Run(w, schedule).db, s);
  }

  /** Every single step moves every row along at most one legal edge of the state graph. */
  lemma StepsAreLegal(w: World, a: Action, s: nat)
    requires Reachable(w) && Enabled(w, a)
    ensures LegalAt(w.db, Next(w, a).db, s)
  {
    hide DbInv, DbLater, ClaimInv, LeaseInv, MeterInv, Perform, ResumeMove, StartMove, Edge;
    ReachableHolds(w);
    if a.Commit? {
      assert LegalAt(w.db, w.p.tx.value.staged, s);
    }
  }

  /** What the state column tells of a turn in any reachable world. */
  lemma StatesMeanWhatTheySay(w: World, s: nat)
    requires Reachable(w) && IsTurn(w.db, s)
    ensures var row := w.db.rows[s];
            && row.modelAttempts <= MAX_MODEL_ATTEMPTS && row.toolAttempts <= MAX_TOOL_ATTEMPTS
            && (row.state == Admitted ==> !row.cancelRequested && row.result.None?)
            && (row.state == Admitted || row.state == Cancelled || row.state == Denied ==>
                  row.modelAttempts == 0 && row.toolAttempts == 0)
            && (row.state == Completed ==>
                  !row.cancelRequested && row.result.Some? && row.updatedAt < row.createdAt + TURN_SECONDS)
  {
    hide DbInv, ClaimInv, LeaseInv, MeterInv, Inv;
    ReachableHolds(w);
    InvHasDb(w);
    RowOkAt(w.db, s);
  }

  lemma InvHasDb(w: World)
    requires Inv(w)
    ensures DbInv(w.db)
  {
    hide DbInv, ClaimInv, LeaseInv, MeterInv;
  }

  // ---------------------------------------------------------------- the transcript

  function InThread(messages: seq<Message>, threadId: Id): seq<Message> {
    if messages == [] then []
    else
      var last := messages[|messages| - 1];
      InThread(messages[..|messages| - 1], threadId) + if last.threadId == threadId then [last] else []
  }

  function TurnsIn(rows: map<nat, Row>, order: seq<nat>, threadId: Id): seq<nat>
    requires AllPublished(rows, order)
  {
    if order == [] then []
    else
      var last := order[|order| - 1];
      TurnsIn(rows, order[..|order| - 1], threadId) + if rows[last].threadId == threadId then [last] else []
  }

  lemma InThreadAppend(a: seq<Message>, m: Message, threadId: Id)
    ensures InThread(a + [m], threadId) == InThread(a, threadId) + if m.threadId == threadId then [m] else []
  {
    assert (a + [m])[..|a|] == a;
  }

  lemma {:induction false} TurnsInPublished(rows: map<nat, Row>, order: seq<nat>, threadId: Id)
    requires AllPublished(rows, order)
    ensures AllPublished(rows, TurnsIn(rows, order, threadId))
    ensures forall s :: s in TurnsIn(rows, order, threadId) <==> s in order && rows[s].threadId == threadId
    ensures Distinct(order) ==> Distinct(TurnsIn(rows, order, threadId))
  {
    if order != [] {
      TurnsInPublished(rows, order[..|order| - 1], threadId);
      assert order == order[..|order| - 1] + [order[|order| - 1]];
    }
  }

  lemma {:induction false} ThreadTranscript(rows: map<nat, Row>, order: seq<nat>, threadId: Id)
    requires AllPublished(rows, order)
    ensures AllPublished(rows, TurnsIn(rows, order, threadId))
    ensures InThread(Transcript(rows, order), threadId) == Transcript(rows, TurnsIn(rows, order, threadId))
  {
    TurnsInPublished(rows, order, threadId);
    if order != [] {
      var init, last := order[..|order| - 1], order[|order| - 1];
      ThreadTranscript(rows, init, threadId);
      PairInThread(Transcript(rows, init), Pair(rows[last]), threadId);
      var mine := TurnsIn(rows, init, threadId);
      TranscriptAppend(rows, mine, last);
      if rows[last].threadId == threadId {
        assert TurnsIn(rows, order, threadId) == mine + [last];
      } else {
        assert TurnsIn(rows, order, threadId) == mine;
        assert InThread(Transcript(rows, order), threadId) == InThread(Transcript(rows, init), threadId);
      }
    }
  }

  lemma PairInThread(before: seq<Message>, pair: seq<Message>, threadId: Id)
    requires |pair| == 2 && pair[0].threadId == pair[1].threadId
    ensures InThread(before + pair, threadId) ==
            InThread(before, threadId) + if pair[0].threadId == threadId then pair else []
  {
    assert before + pair == (before + [pair[0]]) + [pair[1]];
    InThreadAppend(before, pair[0], threadId);
    InThreadAppend(before + [pair[0]], pair[1], threadId);
  }

  lemma TranscriptAppend(rows: map<nat, Row>, order: seq<nat>, s: nat)
    requires AllPublished(rows, order) && Published(rows, s)
    ensures AllPublished(rows, order + [s])
    ensures Transcript(rows, order + [s]) == Transcript(rows, order) + Pair(rows[s])
  {
    assert (order + [s])[..|order|] == order;
  }

  /** In every reachable world the messages of a thread are exactly the (user, assistant)
      pairs of its completed turns, in commit order, each once: the user text of the admitted
      input, the assistant text of the staged result. */
  lemma ThreadHoldsItsCompletedTurns(w: World, threadId: Id)
    requires Reachable(w)
    ensures AllPublished(w.db.rows, CommitOrder(w.db.events))
    ensures var turns := TurnsIn(w.db.rows, CommitOrder(w.db.events), threadId);
            && Distinct(turns)
            && (forall s :: s in turns <==>
                  IsTurn(w.db, s) && w.db.rows[s].state == Completed && w.db.rows[s].threadId == threadId)
            && AllPublished(w.db.rows, turns)
            && InThread(w.db.messages, threadId) == Transcript(w.db.rows, turns)
  {
    hide RowsInv, ClaimInv, LeaseInv, MeterInv, Inv;
    ReachableHolds(w);
    InvHasDb(w);
    var order := CommitOrder(w.db.events);
    ThreadTranscript(w.db.rows, order, threadId);
    TurnsInPublished(w.db.rows, order, threadId);
    forall s | IsTurn(w.db, s) && w.db.rows[s].state == Completed ensures s in order {
      assert Committed(w.db, s);
    }
    forall s | s in order ensures IsTurn(w.db, s) && w.db.rows[s].state == Completed {
      assert Published(w.db.rows, s);
    }
  }

  predicate HasCrash(schedule: seq<Action>) {
    exists i | 0 <= i < |schedule| :: schedule[i].Crash?
  }

  lemma OnlyCommitMovesTheDatabase(w: World, a: Action)
    requires Enabled(w, a) && !a.Commit?
    ensures Next(w, a).db == w.db
    ensures !a.Crash? ==> Next(w, a).p.publicationClosed == (w.p.publicationClosed || a.Fence?)
  {
    hide Perform, ResumeMove, StartMove, MovedProcess;
    match a
    case Start(call, now) => MovedFrame(w.p.(answer := None), call, StartMove(w.p, call, now));
    case Resume(interrupted, backend, token, now) =>
      MovedFrame(AfterTaking(w.p), w.p.frame.call,
                 ResumeMove(AfterTaking(w.p), w.p.frame.call, w.p.frame.at, TakenReply(w.p), interrupted, backend, token, now));
    case _ =>
  }

  lemma FencedCommitPublishesNothing(w: World)
    requires StoreInv(w) && w.p.tx.Some? && w.p.publicationClosed
    ensures CommitStep(w).db.messages == w.db.messages && CommitStep(w).p.publicationClosed
  {
    hide DbInv, DbLater, Guarded, LegalAt;
  }

  lemma {:induction false} FencedRunPublishesNothing(w: World, schedule: seq<Action>)
    requires Inv(w) && w.p.publicationClosed && !HasCrash(schedule)
    ensures Run(w, schedule).db.messages == w.db.messages
    decreases |schedule|
  {
    hide StoreInv, ClaimInv, LeaseInv, MeterInv, Next, Enabled, CommitStep;
    if schedule != [] {
      assert !HasCrash(schedule[1..]) by {
        assert forall i | 0 <= i < |schedule[1..]| :: schedule[1..][i] == schedule[i + 1];
      }
      var a := schedule[0];
      if Enabled(w, a) {
        NextKeeps(w, a);
        if a.Commit? {
          assert w.p.tx.Some? && Next(w, a) == CommitStep(w) by {
            CommitIsEnabled(w);
          }
          FencedCommitPublishesNothing(w);
        } else {
          OnlyCommitMovesTheDatabase(w, a);
        }
        FencedRunPublishesNothing(Next(w, a), schedule[1..]);
      } else {
        FencedRunPublishesNothing(w, schedule[1..]);
      }
    }
  }

  lemma CommitIsEnabled(w: World)
    ensures Enabled(w, Commit) ==> w.p.tx.Some? && Next(w, Commit) == CommitStep(w)
  {
  }

  /** Once `fence_publication` has returned, no step of this process publishes anything,
      not even the COMMIT of a turn whose transaction was already open. */
  lemma NothingIsPublishedAfterTheFence(w: World, schedule: seq<Action>)
    requires Reachable(w) && w.p.publicationClosed && !HasCrash(schedule)
    ensures Run(w, schedule).db.messages == w.db.messages
  {
    hide Inv;
    ReachableHolds(w);
    FencedRunPublishesNothing(w, schedule);
  }

  // ---------------------------------------------------------------- claims

  /** Over the whole history, across failed commits, quota failures, crashes and restarts,
      no turn passes the claim guard twice. */
  lemma ClaimedAtMostOnce(w: World)
    requires Reachable(w)
    ensures Distinct(w.h.claims)
    ensures forall i | 0 <= i < |w.h.claims| :: w.h.claims[i] in w.db.rows
  {
    hide StoreInv, LeaseInv, MeterInv;
    ReachableHolds(w);
  }

  /** A turn this process did not admit itself cannot be claimed: not after a restart,
      whatever state the crash left it in. */
  lemma OldTurnsCannotBeClaimed(w: World, op: Op, now: real)
    requires Reachable(w) && op.Claim?
    requires HasRequest(w.db, op.owner, op.requestId)
    requires RequestSequence(w.db, op.owner, op.requestId) !in w.h.session
    ensures Perform(op, now, w.db, w.p.memory).outcome.Err?
  {
    hide DbInv, ValidId, ClaimInv, LeaseInv, MeterInv, Guarded;
    ReachableHolds(w);
  }

  /** A claim spent on a transaction that rolled back stays spent. */
  lemma SpentClaimsStaySpent(w: World, op: Op, now: real)
    requires Reachable(w) && op.Claim?
    requires HasRequest(w.db, op.owner, op.requestId)
    requires RequestSequence(w.db, op.owner, op.requestId) in w.h.claims
    ensures Perform(op, now, w.db, w.p.memory).outcome.Err?
  {
    hide DbInv, ValidId, StoreInv, LeaseInv, MeterInv;
    ReachableHolds(w);
  }

  /** Recovery leaves no interrupted turn: every turn that was, is now UNCERTAIN, and every
      other row is as it was. */
  lemma RecoverySettlesEverything(db: Db, memory: Memory, now: real, s: nat)
    requires DbInv(db) && s in db.rows
    ensures var w := Perform(Recover, now, db, memory);
            && s in w.db.rows && !Interrupted(w.db, s)
            && (Interrupted(db, s) ==> w.db.rows[s].state == Uncertain && s in w.memory.blocked)
            && (!Interrupted(db, s) ==> w.db.rows[s] == db.rows[s])
  {
    hide DbInv, DbLater;
    RecoverPrefixKeeps(db, memory, db.next, now);
    var w := Perform(Recover, now, db, memory);
    RowOkAt(db, s);
    assert RecoveredAt(db, w.db, db.next, now, s);
    assert BlockFollows(db, w.db, w.memory, s);
    if Interrupted(db, s) {
      RecoverBlocks(db, memory, db.next, now, s);
    }
  }

  lemma {:induction false} RecoverBlocks(db: Db, memory: Memory, upTo: nat, now: real, s: nat)
    requires DbInv(db) && s < upTo && Interrupted(db, s)
    ensures s in RecoverPrefix(db, memory, upTo, now).1.blocked
    decreases upTo
  {
    hide DbInv, Evolves;
    RecoverPrefixKeeps(db, memory, upTo - 1, now);
    if s < upTo - 1 {
      RecoverBlocks(db, memory, upTo - 1, now, s);
    } else {
      assert RecoveredAt(db, RecoverPrefix(db, memory, s, now).0, s, now, s);
    }
  }

  // ---------------------------------------------------------------- metering

  /** For each lease, the calls the adapter granted never outnumber the attempts counted
      durably, which never exceed eight (tools: four). */
  lemma GrantsAreCounted(w: World, kind: Kind, s: nat)
    requires Reachable(w)
    ensures Grants(w.h, kind, s) <= AttemptsAt(w.db, kind, s) <= MaxAttempts(kind)
  {
    hide DbInv, StoreInv, ClaimInv, LeaseInv, Inv;
    ReachableHolds(w);
    InvHasDb(w);
    assert MeterAt(w, kind, s) by {
      InvHasMeter(w);
    }
    if s in w.db.rows {
      RowOkAt(w.db, s);
    }
  }

  lemma InvHasMeter(w: World)
    requires Inv(w)
    ensures MeterInv(w)
  {
    hide StoreInv, ClaimInv, LeaseInv, MeterAt;
  }

  predicate GrantsCall(w: World, a: Action)
    requires Enabled(w, a)
  {
    Next(w, a).h.modelGrants != w.h.modelGrants || Next(w, a).h.toolGrants != w.h.toolGrants
  }

  /** A call is granted only at an instant when its lease is still owned: not revoked, not
      blocked, not past its deadline, adapter and store open, and the durable row running,
      however long the call had been in flight. */
  lemma GrantsNeedTheLease(w: World, a: Action)
    requires Reachable(w) && Enabled(w, a) && GrantsCall(w, a)
    ensures a.Resume? && Metered(w.p.frame.call)
    ensures var lease := w.p.frame.call.lease;
            && Owns(w.p, lease, a.now)
            && IsTurn(w.db, lease.sequence) && Active(w.db.rows[lease.sequence])
            && a.now < w.db.rows[lease.sequence].createdAt + TURN_SECONDS
  {
    hide Inv, Perform, Owns, CheckCurrent, StartMove;
    ReachableHolds(w);
    GrantIsResume(w, a);
    var lease := w.p.frame.call.lease;
    ConfirmedOwns(AfterTaking(w.p), lease, Running, TakenReply(w.p), a.now);
    OwnsIgnoresReplies(w.p, AfterTaking(w.p), lease, a.now);
    OwnedIsActive(w, lease, a.now);
  }

  lemma OwnsIgnoresReplies(p: Process, q: Process, lease: Lease, now: real)
    requires q == p.(done := q.done)
    ensures Owns(p, lease, now) == Owns(q, lease, now)
  {
  }

  lemma StartDoesNotGrant(p: Process, call: Call, now: real)
    ensures !StartMove(p, call, now).Grant?
  {
    hide Owns;
  }

  lemma GrantIsResume(w: World, a: Action)
    requires Inv(w) && Enabled(w, a) && GrantsCall(w, a)
    ensures a.Resume? && Metered(w.p.frame.call) && w.p.frame.at.Confirming?
    ensures CheckCurrent(AfterTaking(w.p), w.p.frame.call.lease, Running, TakenReply(w.p), a.now) == Confirmed
  {
    hide StoreInv, ClaimInv, MeterInv, Perform, Owns, CheckCurrent, StartMove;
    if a.Start? {
      StartDoesNotGrant(w.p, a.call, a.now);
    } else if a.Resume? {
      ResumeMoveOk(AfterTaking(w.p), w.p.frame.call, w.p.frame.at, TakenReply(w.p),
                   a.interrupted, a.backend, a.token, a.now);
    }
  }
}
