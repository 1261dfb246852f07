/** At-least-once delivery over every run: the steps of polling, with a crash possible between
    any two of them, against a server that returns pending updates in ascending order. */
module TelegramDelivery {
  import opened Wrappers
  import opened TelegramPolling

  /** Where the poller is: between batches, working through one, or with an answered update
      whose offset is not yet saved, or saved but not yet taken into memory. */
  datatype Spot =
    | Resting
    | Working(rest: seq<Raw>)
    | Answered(id: nat, rest: seq<Raw>)
    | Stored(id: nat, rest: seq<Raw>)

  /** `arrived` and `finished` are the server's updates and those some handler call has ended
      with a terminal status; `remembered` is the duplicate cache without its pruning. */
  datatype World = World(beta: bool, b: Bot, spot: Spot, arrived: set<nat>, finished: set<nat>, remembered: set<nat>)

  datatype Action =
    | Arrive(id: nat)
    | Fetch(updates: seq<Raw>)
    | FetchFails
    | Compete
    | Take(answer: Answer)
    | Commit(commits: bool)
    | Advance
    | EndBatch
    | Stop
    | Crash

  predicate HasId(raw: Raw) {
    ExtractUpdateId(raw).Some?
  }

  function IdOf(raw: Raw): nat
    requires HasId(raw)
  {
    ExtractUpdateId(raw).value
  }

  predicate Ascending(updates: seq<Raw>) {
    forall i, j | 0 <= i < j < |updates| && HasId(updates[i]) && HasId(updates[j]) :: IdOf(updates[i]) < IdOf(updates[j])
  }

  predicate Contains(updates: seq<Raw>, id: nat) {
    exists i | 0 <= i < |updates| :: HasId(updates[i]) && IdOf(updates[i]) == id
  }

  /** The batch leaves out no pending update below one it holds. */
  predicate Complete(arrived: set<nat>, finished: set<nat>, offset: Option<nat>, updates: seq<Raw>) {
    forall u | u in arrived && u !in finished && !Passed(offset, u) ::
      Contains(updates, u) || (forall j | 0 <= j < |updates| && HasId(updates[j]) :: IdOf(updates[j]) < u)
  }

  /** What the server may answer a request from `offset` on. It resends what no handler call has
      finished; whether it resends finished updates too is up to it. */
  predicate Served(arrived: set<nat>, finished: set<nat>, offset: Option<nat>, updates: seq<Raw>) {
    && Ascending(updates)
    && (forall j | 0 <= j < |updates| && HasId(updates[j]) :: IdOf(updates[j]) in arrived)
    && Complete(arrived, finished, offset, updates)
  }

  predicate Enabled(w: World, a: Action) {
    match a
    case Arrive(id) => id > 0 && forall u | u in w.arrived :: u < id
    case Fetch(updates) => w.spot.Resting? && w.b.running && Served(w.arrived, w.finished, w.b.offset, updates)
    case FetchFails => w.spot.Resting? && w.b.running
    case Compete => w.spot.Resting? && w.b.running
    case Take(_) => w.spot.Working? && w.spot.rest != []
    case Commit(_) => w.spot.Answered?
    case Advance => w.spot.Stored?
    case EndBatch => w.spot == Working([])
    case Stop => true
    case Crash => true
  }

  function TakeStep(w: World, answer: Answer): World
    requires w.spot.Working? && w.spot.rest != []
  {
    var rest := w.spot.rest[1..];
    match ExtractUpdateId(w.spot.rest[0])
    case None => w.(spot := Working(rest))
    case Some(id) =>
      if Skips(w.b.offset, w.b.seen, id) then w.(spot := Working(rest))
      else if Terminal(answer) then w.(spot := Answered(id, rest), finished := w.finished + {id})
      else w.(b := Failed(w.b), spot := Resting)
  }

  function Next(w: World, a: Action): World
    requires Enabled(w, a)
  {
    match a
    case Arrive(id) => w.(arrived := w.arrived + {id})
    case Fetch(updates) => w.(spot := Working(updates))
    case FetchFails => w.(b := Failed(w.b))
    case Compete => w.(b := w.b.(running := false))
    case Take(answer) => TakeStep(w, answer)
    case Commit(commits) => (
      match Saved(w.b, w.spot.id, commits)
      case None => w.(b := Failed(w.b), spot := Resting)
      case Some(saved) => w.(b := saved, spot := Stored(w.spot.id, w.spot.rest)))
    case Advance =>
      w.(b := Advanced(w.b, w.spot.id), spot := Working(w.spot.rest), remembered := w.remembered + {w.spot.id})
    case EndBatch => w.(b := w.b.(failures := 0), spot := Resting)
    case Stop => w.(b := w.b.(running := false, connected := false))
    case Crash => w.(b := Restarted(w.beta, w.b.file), spot := Resting, remembered := {})
  }

  function Run(w: World, schedule: seq<Action>): World
    decreases |schedule|
  {
    if schedule == [] then w
    else Run(if Enabled(w, schedule[0]) then Next(w, schedule[0]) else w, schedule[1..])
  }

  function Begin(beta: bool): World {
    World(beta, Restarted(beta, None), Resting, {}, {}, {})
  }

  // ---------------------------------------------------------------- the invariant

  /** No unfinished update lies below the offset. */
  predicate Safe(w: World, offset: Option<nat>) {
    forall u | u in w.arrived && Passed(offset, u) :: u in w.finished
  }

  /** Every update up to `id` is passed or finished. */
  predicate Clear(w: World, id: nat) {
    && id in w.arrived && id in w.finished
    && forall u | u in w.arrived && u <= id :: Passed(w.b.offset, u) || u in w.finished
  }

  predicate Pending(w: World, rest: seq<Raw>) {
    && Ascending(rest)
    && (forall j | 0 <= j < |rest| && HasId(rest[j]) :: IdOf(rest[j]) in w.arrived)
    && Complete(w.arrived, w.finished, w.b.offset, rest)
  }

  /** The durable offset is not ahead of the one in memory, except between commit and advance. */
  predicate FileBehind(w: World) {
    w.b.connected && w.b.file.Some? && w.b.file.value > 0 ==>
      || (w.b.offset.Some? && w.b.file.value <= w.b.offset.value)
      || (w.spot.Stored? && w.b.file.value == w.spot.id + 1)
  }

  /** An offset is one more than an update that has arrived. */
  predicate Grounded(w: World, offset: Option<nat>) {
    offset.Some? ==> offset.value > 0 && offset.value - 1 in w.arrived
  }

  predicate Inv(w: World) {
    && Safe(w, w.b.offset) && Safe(w, w.b.file)
    && Grounded(w, w.b.offset) && Grounded(w, w.b.file)
    && (forall i | i in w.remembered :: Passed(w.b.offset, i))
    && w.b.seen <= w.remembered
    && FileBehind(w)
    && match w.spot
       case Resting => true
       case Working(rest) => Pending(w, rest)
       case Answered(id, rest) => Clear(w, id) && Pending(w, rest)
       case Stored(id, rest) => Clear(w, id) && Pending(w, rest)
  }

  // ---------------------------------------------------------------- every step keeps it

  lemma TailPending(w: World, rest: seq<Raw>, w': World)
    requires rest != [] && Pending(w, rest)
    requires w'.arrived == w.arrived && w'.b.offset == w.b.offset && w.finished <= w'.finished
    requires HasId(rest[0]) ==> Passed(w.b.offset, IdOf(rest[0])) || IdOf(rest[0]) in w'.finished
    ensures Pending(w', rest[1..])
  {
    var tail := rest[1..];
    assert forall j | 0 <= j < |tail| :: tail[j] == rest[j + 1];
    forall u | u in w'.arrived && u !in w'.finished && !Passed(w'.b.offset, u)
      ensures Contains(tail, u) || (forall j | 0 <= j < |tail| && HasId(tail[j]) :: IdOf(tail[j]) < u)
    {
      if Contains(rest, u) {
        var i :| 0 <= i < |rest| && HasId(rest[i]) && IdOf(rest[i]) == u;
        assert tail[i - 1] == rest[i];
      }
    }
  }

  lemma TakeKeeps(w: World, answer: Answer)
    requires Inv(w) && w.spot.Working? && w.spot.rest != []
    ensures Inv(TakeStep(w, answer))
  {
    hide Pending, ExtractUpdateId, Terminal;
    var w', rest := TakeStep(w, answer), w.spot.rest;
    if !w'.spot.Resting? {
      TailPending(w, rest, w');
      if w'.spot.Answered? {
        assert Clear(w', w'.spot.id) by {
          FirstIsClear(w, rest, w');
        }
      }
    }
  }

  lemma FirstIsClear(w: World, rest: seq<Raw>, w': World)
    requires rest != [] && Pending(w, rest) && HasId(rest[0])
    requires w'.arrived == w.arrived && w'.b.offset == w.b.offset && w'.finished == w.finished + {IdOf(rest[0])}
    ensures Clear(w', IdOf(rest[0]))
  {
    var id := IdOf(rest[0]);
    forall u | u in w'.arrived && u <= id ensures Passed(w'.b.offset, u) || u in w'.finished {
      if !Passed(w'.b.offset, u) && u !in w'.finished {
        if Contains(rest, u) {
          ContentsFollowFirst(rest, u);
        }
      }
    }
  }

  lemma ContentsFollowFirst(rest: seq<Raw>, u: nat)
    requires Ascending(rest) && Contains(rest, u) && HasId(rest[0])
    ensures IdOf(rest[0]) <= u
  {
    var i :| 0 <= i < |rest| && HasId(rest[i]) && IdOf(rest[i]) == u;
  }

  lemma CommitKeeps(w: World, commits: bool)
    requires Inv(w) && w.spot.Answered?
    ensures Inv(Next(w, Commit(commits)))
  {
    var w' := Next(w, Commit(commits));
    if w'.spot.Stored? {
      PendingFrame(w, w', w.spot.rest);
    }
  }

  lemma PendingFrame(w: World, w': World, rest: seq<Raw>)
    requires Pending(w, rest) && w'.arrived == w.arrived && w'.finished == w.finished
    requires forall u | u in w.arrived && Passed(w.b.offset, u) :: Passed(w'.b.offset, u)
    ensures Pending(w', rest)
  {
  }

  lemma PrunedIsSmaller(seen: set<nat>, offset: Option<nat>)
    ensures Pruned(seen, offset) <= seen
  {
  }

  lemma AdvanceKeeps(w: World)
    requires Inv(w) && w.spot.Stored?
    ensures Inv(Next(w, Advance))
  {
    hide Pruned, Pending;
    var w' := Next(w, Advance);
    PrunedIsSmaller(w.b.seen + {w.spot.id}, w'.b.offset);
    PendingFrame(w, w', w.spot.rest);
  }

  lemma ArriveKeeps(w: World, id: nat)
    requires Inv(w) && Enabled(w, Arrive(id))
    ensures Inv(Next(w, Arrive(id)))
  {
    var w' := Next(w, Arrive(id));
    if !w.spot.Resting? {
      PendingArrive(w, w', w.spot.rest, id);
    }
  }

  lemma PendingArrive(w: World, w': World, rest: seq<Raw>, id: nat)
    requires Pending(w, rest) && w' == w.(arrived := w.arrived + {id})
    requires forall u | u in w.arrived :: u < id
    ensures Pending(w', rest)
  {
  }

  lemma FetchKeeps(w: World, updates: seq<Raw>)
    requires Inv(w) && Enabled(w, Fetch(updates))
    ensures Inv(Next(w, Fetch(updates)))
  {
  }

  lemma NextKeeps(w: World, a: Action)
    requires Inv(w) && Enabled(w, a)
    ensures Inv(Next(w, a))
  {
    hide Pending, Served, Saved, Advanced, TakeStep, Complete;
    match a
    case Arrive(id) => ArriveKeeps(w, id);
    case Fetch(updates) => FetchKeeps(w, updates);
    case Take(answer) => TakeKeeps(w, answer);
    case Commit(commits) => CommitKeeps(w, commits);
    case Advance => AdvanceKeeps(w);
    case Stop =>
      if !w.spot.Resting? {
        PendingFrame(w, Next(w, Stop), w.spot.rest);
      }
    case _ =>
  }

  lemma {:induction false} RunKeeps(w: World, schedule: seq<Action>)
    requires Inv(w)
    ensures Inv(Run(w, schedule))
    decreases |schedule|
  {
    hide Inv, Next, Enabled;
    if schedule != [] {
      if Enabled(w, schedule[0]) {
        NextKeeps(w, schedule[0]);
        RunKeeps(Next(w, schedule[0]), schedule[1..]);
      } else {
        RunKeeps(w, schedule[1..]);
      }
    }
  }

  // ---------------------------------------------------------------- what it promises

  /** At-least-once: over every run, through handler failures, failed commits, a competing
      poller, a stop and any number of crashes, neither the offset in memory nor the durable
      one has passed an update that no handler call has finished. */
  lemma AtLeastOnce(beta: bool, schedule: seq<Action>, u: nat)
    requires u in Run(Begin(beta), schedule).arrived
    ensures var w := Run(Begin(beta), schedule);
            Passed(w.b.offset, u) || Passed(w.b.file, u) ==> u in w.finished
  {
    hide Next, Enabled, Pending;
    RunKeeps(Begin(beta), schedule);
  }

  /** The pruned duplicate cache decides nothing the unpruned one would not: both skip exactly
      the updates below the offset. */
  lemma PruningChangesNoDecision(beta: bool, schedule: seq<Action>, id: nat)
    ensures var w := Run(Begin(beta), schedule);
            && Skips(w.b.offset, w.b.seen, id) == Skips(w.b.offset, w.remembered, id)
            && Skips(w.b.offset, w.b.seen, id) == Passed(w.b.offset, id)
  {
    hide Next, Enabled, Pending;
    RunKeeps(Begin(beta), schedule);
  }

  /** When the cache outgrows its size it is emptied: everything in it has been passed. */
  lemma PruningEmpties(seen: set<nat>, offset: Option<nat>)
    requires |seen| > MAX_SEEN_IDS && forall i | i in seen :: Passed(offset, i)
    ensures Pruned(seen, offset) == {}
  {
    var kept := set i | i in seen && !Passed(offset, i);
    assert kept == {};
  }

  /** The durable offset never moves back, not even across a crash. */
  lemma DurableOffsetNeverMovesBack(beta: bool, schedule: seq<Action>, a: Action)
    requires Enabled(Run(Begin(beta), schedule), a)
    ensures var w := Run(Begin(beta), schedule);
            w.b.file.Some? ==> Next(w, a).b.file.Some? && w.b.file.value <= Next(w, a).b.file.value
  {
    hide Pending, Pruned, Served, TakeStep, Run;
    RunKeeps(Begin(beta), schedule);
    var w := Run(Begin(beta), schedule);
    if a.Take? {
      TakeLeavesFile(w, a.answer);
    }
  }

  lemma TakeLeavesFile(w: World, answer: Answer)
    requires w.spot.Working? && w.spot.rest != []
    ensures TakeStep(w, answer).b.file == w.b.file
  {
  }

  /** The order of a batch matters: were a batch served out of order, the smaller update would
      be passed, durably, without ever being handled. */
  lemma DisorderLosesAnUpdate()
    ensures var w := World(true, Restarted(true, None), Working([IntId(2), IntId(1)]), {1, 2}, {}, {});
            var w' := Run(w, [Take(Status("ok")), Commit(true), Advance, Take(Status("ok")), EndBatch]);
            && w'.spot.Resting? && Passed(w'.b.file, 1) && 1 in w'.arrived && 1 !in w'.finished
            && !Ascending([IntId(2), IntId(1)])
  {
    hide Served, Pruned, Run;
    var w := World(true, Restarted(true, None), Working([IntId(2), IntId(1)]), {1, 2}, {}, {});
    var schedule := [Take(Status("ok")), Commit(true), Advance, Take(Status("ok")), EndBatch];
    var w3 := FirstThreeSteps(w);
    assert w3.spot.rest[1..] == [];
    RunFive(w, schedule);
    assert HasId([IntId(2), IntId(1)][0]) && HasId([IntId(2), IntId(1)][1]);
  }

  lemma FirstThreeSteps(w: World) returns (w3: World)
    requires w == World(true, Restarted(true, None), Working([IntId(2), IntId(1)]), {1, 2}, {}, {})
    ensures Enabled(w, Take(Status("ok")))
    ensures var w1 := Next(w, Take(Status("ok"))); Enabled(w1, Commit(true))
    ensures var w2 := Next(Next(w, Take(Status("ok"))), Commit(true)); Enabled(w2, Advance) && w3 == Next(w2, Advance)
    ensures w3.spot == Working([IntId(1)]) && w3.b.offset == Some(3) && w3.b.file == Some(3)
    ensures w3.arrived == {1, 2} && w3.finished == {2} && w3.b.running
  {
    hide Served, Pruned;
    var w1 := Next(w, Take(Status("ok")));
    assert [IntId(2), IntId(1)][1..] == [IntId(1)];
    assert w1.spot == Answered(2, [IntId(1)]);
    var w2 := Next(w1, Commit(true));
    w3 := Next(w2, Advance);
  }

  lemma RunFive(w: World, s: seq<Action>)
    requires |s| == 5
    requires Enabled(w, s[0]) && Enabled(Next(w, s[0]), s[1])
    requires var w2 := Next(Next(w, s[0]), s[1]); Enabled(w2, s[2]) && Enabled(Next(w2, s[2]), s[3])
    requires var w4 := Next(Next(Next(Next(w, s[0]), s[1]), s[2]), s[3]); Enabled(w4, s[4])
    ensures Run(w, s) == Next(Next(Next(Next(Next(w, s[0]), s[1]), s[2]), s[3]), s[4])
  {
    hide Next, Enabled;
    var w1 := Next(w, s[0]);
    var w2 := Next(w1, s[1]);
    var w3 := Next(w2, s[2]);
    var w4 := Next(w3, s[3]);
    assert s[1..][0] == s[1] && s[1..][1..] == s[2..];
    assert s[2..][0] == s[2] && s[2..][1..] == s[3..];
    assert s[3..][0] == s[3] && s[3..][1..] == s[4..];
    assert s[4..][0] == s[4] && s[4..][1..] == [];
    assert Run(w, s) == Run(w1, s[1..]);
    assert Run(w1, s[1..]) == Run(w2, s[2..]);
    assert Run(w2, s[2..]) == Run(w3, s[3..]);
    assert Run(w3, s[3..]) == Run(w4, s[4..]);
  }

  /** Back-off grows with consecutive failures and stays between one and thirty seconds. */
  lemma BackoffIsBounded(f: nat, g: nat)
    requires f <= g
    ensures 1 <= BackoffDelay(f) <= BackoffDelay(g) <= MAX_BACKOFF
  {
    assert PowerOfTwo(0) == 1 && PowerOfTwo(1) == 2 && PowerOfTwo(2) == 4;
    assert PowerOfTwo(3) == 8 && PowerOfTwo(4) == 16 && PowerOfTwo(5) == 32;
  }

  // ---------------------------------------------------------------- the batch loop is a run

  /** The batch loop, uninterrupted, is one run of these steps: same memory, same durable
      offset, and resting at the end. */
  lemma {:induction false} BatchIsRun(w: World, updates: seq<Raw>, answers: seq<Answer>, commits: seq<bool>)
    returns (schedule: seq<Action>)
    requires |answers| == |updates| && |commits| == |updates| && w.spot == Working(updates)
    ensures Run(w, schedule).b == Batch(w.b, updates, answers, commits).0
    ensures Run(w, schedule).spot.Resting? && Run(w, schedule).arrived == w.arrived
    decreases |updates|
  {
    hide Pruned, Skips, Terminal, ExtractUpdateId, Saved, Advanced;
    if updates == [] {
      schedule := [EndBatch];
      RunStep(w, EndBatch, []);
    } else {
      var a := Take(answers[0]);
      var w1 := Next(w, a);
      if w1.spot.Resting? {
        schedule := [a];
        RunStep(w, a, []);
      } else if w1.spot.Working? {
        var rest := BatchIsRun(w1, updates[1..], answers[1..], commits[1..]);
        schedule := [a] + rest;
        RunStep(w, a, rest);
      } else {
        var c := Commit(commits[0]);
        var w2 := Next(w1, c);
        if w2.spot.Resting? {
          schedule := [a, c];
          RunStep(w1, c, []);
          assert [a, c] == [a] + [c];
          RunStep(w, a, [c]);
        } else {
          var w3 := Next(w2, Advance);
          var rest := BatchIsRun(w3, updates[1..], answers[1..], commits[1..]);
          schedule := [a] + ([c] + ([Advance] + rest));
          RunStep(w2, Advance, rest);
          RunStep(w1, c, [Advance] + rest);
          RunStep(w, a, [c] + ([Advance] + rest));
        }
      }
    }
  }

  lemma RunStep(w: World, a: Action, rest: seq<Action>)
    requires Enabled(w, a)
    ensures Run(w, [a] + rest) == Run(Next(w, a), rest) && Run(w, [a]) == Next(w, a)
  {
    hide Next, Enabled;
    assert ([a] + rest)[1..] == rest && [a][1..] == [];
  }
}
