/** The beta audit as a mutual-exclusion protocol: an intent is claimed in one immediate
    transaction, so at most one call is ever pending. */
module AuditClaims {
  import opened Wrappers

  /** An audit row, with the two evidence keys the queries look at. */
  datatype Entry = Entry(id: string, result: string, phase: Option<string>, callId: Option<string>)

  predicate IsIntent(e: Entry) {
    e.result == "pending" && e.phase == Some("intent")
  }

  predicate Settles(outcome: Entry, intent: Entry) {
    outcome.phase == Some("outcome") && outcome.callId.Some? && outcome.callId == intent.callId
  }

  /** An intent no outcome answers. A missing call id equals nothing, not even another one. */
  predicate PendingAt(rows: seq<Entry>, i: nat) {
    && i < |rows| && IsIntent(rows[i])
    && !exists j | 0 <= j < |rows| :: Settles(rows[j], rows[i])
  }

  predicate AnyPending(rows: seq<Entry>) {
    exists i | 0 <= i < |rows| :: PendingAt(rows, i)
  }

  predicate HasId(rows: seq<Entry>, id: string) {
    exists i | 0 <= i < |rows| :: rows[i].id == id
  }

  datatype Answer = Claimed | Refused | Raised

  /** One claim, start to end: refused when something is pending, raised when the row cannot be
      written, otherwise committed. */
  function Claim(rows: seq<Entry>, e: Entry, commits: bool): (seq<Entry>, Answer) {
    if !IsIntent(e) then (rows, Raised)
    else if AnyPending(rows) then (rows, Refused)
    else if HasId(rows, e.id) || !commits then (rows, Raised)
    else (rows + [e], Claimed)
  }

  function Append(rows: seq<Entry>, e: Entry, commits: bool): (seq<Entry>, Answer) {
    if HasId(rows, e.id) || !commits then (rows, Raised) else (rows + [e], Claimed)
  }

  class BetaAuditLog {
    var rows: seq<Entry>

    constructor ()
      ensures rows == []
    {
      rows := [];
    }

    method HasPendingCalls() returns (pending: bool)
      ensures pending == AnyPending(rows)
    {
      pending := false;
      for i := 0 to |rows|
        invariant pending <==> exists k | 0 <= k < i :: PendingAt(rows, k)
      {
        if IsIntent(rows[i]) {
          var answered := false;
          for j := 0 to |rows|
            invariant answered <==> exists k | 0 <= k < j :: Settles(rows[k], rows[i])
          {
            answered := answered || Settles(rows[j], rows[i]);
          }
          assert PendingAt(rows, i) <==> !answered;
          pending := pending || !answered;
        } else {
          assert !PendingAt(rows, i);
        }
      }
    }

    method ClaimIntent(e: Entry, commits: bool) returns (answer: Answer)
      modifies this
      ensures (rows, answer) == Claim(old(rows), e, commits)
    {
      if e.result != "pending" || e.phase != Some("intent") {
        return Raised;
      }
      var pending := HasPendingCalls();
      if pending {
        return Refused;
      }
      answer := InsertClaimedIntent(e, commits);
    }

    method InsertClaimedIntent(e: Entry, commits: bool) returns (answer: Answer)
      modifies this
      ensures (rows, answer) == Append(old(rows), e, commits)
    {
      if (exists i | 0 <= i < |rows| :: rows[i].id == e.id) || !commits {
        return Raised;
      }
      rows := rows + [e];
      return Claimed;
    }

    method AppendBeta(e: Entry, commits: bool) returns (answer: Answer)
      modifies this
      ensures (rows, answer) == Append(old(rows), e, commits)
    {
      answer := InsertClaimedIntent(e, commits);
    }
  }

  // ---------------------------------------------------------------- concurrent claims

  /** Where a claim is: it holds the write lock from BEGIN IMMEDIATE to COMMIT or roll-back. */
  datatype Stage = Waiting | Locked | Checked(pending: bool) | Ended(answer: Answer)

  datatype Caller = Caller(entry: Entry, stage: Stage)

  /** The committed rows, the write lock, and the claims under way; `verdicts` records what was
      pending in the committed rows at the commit or refusal of each ended claim. */
  datatype World = World(rows: seq<Entry>, lock: Option<nat>, callers: map<nat, Caller>, verdicts: map<nat, bool>)

  datatype Action =
    | Start(id: nat, entry: Entry)
    | BeginImmediate(id: nat)
    | Check(id: nat)
    | Finish(id: nat, commits: bool)
    | AppendRow(entry: Entry, commits: bool)

  predicate Enabled(w: World, a: Action) {
    match a
    case Start(id, entry) => id !in w.callers && IsIntent(entry)
    case BeginImmediate(id) => id in w.callers && w.callers[id].stage == Waiting && w.lock.None?
    case Check(id) => id in w.callers && w.callers[id].stage == Locked
    case Finish(id, _) => id in w.callers && w.callers[id].stage.Checked?
    case AppendRow(entry, _) => w.lock.None? && !IsIntent(entry)
  }

  function Next(w: World, a: Action): World
    requires Enabled(w, a)
  {
    match a
    case Start(id, entry) => w.(callers := w.callers[id := Caller(entry, Waiting)])
    case BeginImmediate(id) => w.(lock := Some(id), callers := w.callers[id := w.callers[id].(stage := Locked)])
    case Check(id) => w.(callers := w.callers[id := w.callers[id].(stage := Checked(AnyPending(w.rows)))])
    case Finish(id, commits) =>
      var caller := w.callers[id];
      var (rows, answer) := if caller.stage.pending then (w.rows, Refused) else Append(w.rows, caller.entry, commits);
      World(rows, None, w.callers[id := caller.(stage := Ended(answer))], w.verdicts[id := AnyPending(w.rows)])
    case AppendRow(entry, commits) => w.(rows := Append(w.rows, entry, commits).0)
  }

  function Run(w: World, schedule: seq<Action>): World
    decreases |schedule|
  {
    if schedule == [] then w
    else Run(if Enabled(w, schedule[0]) then Next(w, schedule[0]) else w, schedule[1..])
  }

  const BEGIN := World([], None, map[], map[])

  ghost predicate AtMostOnePending(rows: seq<Entry>) {
    forall i, j | 0 <= i < |rows| && 0 <= j < |rows| && PendingAt(rows, i) && PendingAt(rows, j) :: i == j
  }

  predicate StageOk(w: World, id: nat) {
    id in w.callers ==>
      && IsIntent(w.callers[id].entry)
      && (w.callers[id].stage.Locked? || w.callers[id].stage.Checked? <==> w.lock == Some(id))
      && (w.callers[id].stage.Checked? ==> w.callers[id].stage.pending == AnyPending(w.rows))
      && (w.callers[id].stage.Ended? ==>
            && id in w.verdicts
            && (w.callers[id].stage.answer == Refused <==> w.verdicts[id])
            && (w.callers[id].stage.answer == Claimed ==> w.callers[id].entry in w.rows))
  }

  ghost predicate Inv(w: World) {
    && AtMostOnePending(w.rows)
    && (w.lock.Some? ==> w.lock.value in w.callers)
    && forall id {:trigger StageOk(w, id)} :: StageOk(w, id)
  }

  /** Rows only ever gain pending intents through a claim; any other row can only settle them. */
  lemma AppendPending(rows: seq<Entry>, e: Entry, i: nat)
    ensures PendingAt(rows + [e], i) ==> (i < |rows| && PendingAt(rows, i)) || (i == |rows| && IsIntent(e))
  {
    if i < |rows| && exists j | 0 <= j < |rows| :: Settles(rows[j], rows[i]) {
      var j :| 0 <= j < |rows| && Settles(rows[j], rows[i]);
      assert Settles((rows + [e])[j], (rows + [e])[i]);
    }
  }

  lemma AppendKeeps(rows: seq<Entry>, e: Entry)
    requires AtMostOnePending(rows) && (IsIntent(e) ==> !AnyPending(rows))
    ensures AtMostOnePending(rows + [e])
  {
    hide PendingAt;
    forall i, j | 0 <= i < |rows + [e]| && 0 <= j < |rows + [e]| && PendingAt(rows + [e], i) && PendingAt(rows + [e], j)
      ensures i == j
    {
      AppendPending(rows, e, i);
      AppendPending(rows, e, j);
    }
  }

  lemma NextKeeps(w: World, a: Action)
    requires Inv(w) && Enabled(w, a)
    ensures Inv(Next(w, a))
  {
    hide AnyPending, PendingAt, AtMostOnePending;
    var w' := Next(w, a);
    match a {
      case Finish(id, commits) =>
        assert StageOk(w, id);
        if w'.rows != w.rows {
          AppendKeeps(w.rows, w.callers[id].entry);
        }
      case AppendRow(entry, commits) =>
        if w'.rows != w.rows {
          AppendKeeps(w.rows, entry);
        }
      case _ =>
    }
    forall k ensures StageOk(w', k) {
      assert StageOk(w, k);
      if a.BeginImmediate? || a.Check? || a.Finish? {
        assert StageOk(w, a.id);
      }
    }
  }

  lemma {:induction false} RunKeeps(w: World, schedule: seq<Action>)
    requires Inv(w)
    ensures Inv(Run(w, schedule))
    decreases |schedule|
  {
    hide Inv, Next, Enabled;
    if schedule != [] {
      if Enabled(w, schedule[0]) {
        NextKeeps(w, schedule[0]);
        RunKeeps(Next(w, schedule[0]), schedule[1..]);
      } else {
        RunKeeps(w, schedule[1..]);
      }
    }
  }

  /** With any number of claims interleaved with each other and with rows of any other kind, at
      most one intent is ever pending. */
  lemma OneCallPending(schedule: seq<Action>, i: nat, j: nat)
    requires var w := Run(BEGIN, schedule); PendingAt(w.rows, i) && PendingAt(w.rows, j)
    ensures i == j
  {
    hide Run;
    RunKeeps(BEGIN, schedule);
  }

  /** A claim is refused exactly when something was pending in the rows its transaction saw, and
      a claim that succeeded saw nothing pending and has its row committed. */
  lemma RefusedExactlyWhenPending(schedule: seq<Action>, id: nat)
    requires var w := Run(BEGIN, schedule); id in w.callers && w.callers[id].stage.Ended?
    ensures var w := Run(BEGIN, schedule);
            && id in w.verdicts
            && (w.callers[id].stage.answer == Refused <==> w.verdicts[id])
            && (w.callers[id].stage.answer == Claimed ==> !w.verdicts[id] && w.callers[id].entry in w.rows)
  {
    hide Run, PendingAt;
    RunKeeps(BEGIN, schedule);
    assert StageOk(Run(BEGIN, schedule), id);
  }

  /** A claim that nothing interleaves with is the method: lock, check, write, release. */
  lemma AloneIsClaim(w: World, id: nat, e: Entry, commits: bool)
    requires w.lock.None? && id !in w.callers && IsIntent(e)
    ensures var w' := Run(w, [Start(id, e), BeginImmediate(id), Check(id), Finish(id, commits)]);
            && w'.lock.None? && id in w'.callers
            && (w'.rows, w'.callers[id].stage) ==
               (Claim(w.rows, e, commits).0, Ended(Claim(w.rows, e, commits).1))
  {
    hide AnyPending;
    var w1 := Next(w, Start(id, e));
    var w2 := Next(w1, BeginImmediate(id));
    var w3 := Next(w2, Check(id));
    OneStep(w3, Finish(id, commits), []);
    OneStep(w2, Check(id), [Finish(id, commits)]);
    OneStep(w1, BeginImmediate(id), [Check(id)] + [Finish(id, commits)]);
    OneStep(w, Start(id, e), [BeginImmediate(id)] + ([Check(id)] + [Finish(id, commits)]));
    assert [Start(id, e)] + ([BeginImmediate(id)] + ([Check(id)] + [Finish(id, commits)])) ==
           [Start(id, e), BeginImmediate(id), Check(id), Finish(id, commits)];
  }

  lemma OneStep(w: World, a: Action, rest: seq<Action>)
    requires Enabled(w, a)
    ensures Run(w, [a] + rest) == Run(Next(w, a), rest) && Run(w, [a]) == Next(w, a)
  {
    hide Next, Enabled;
    assert ([a] + rest)[1..] == rest && [a][1..] == [];
  }

  /** An intent is settled for good by the first outcome that carries its call id, and one that
      carries no call id can never be settled: it blocks every later claim. */
  lemma SettlingIsByCallId(rows: seq<Entry>, more: seq<Entry>, i: nat)
    requires PendingAt(rows, i)
    ensures PendingAt(rows + more, i) <==> !exists j | 0 <= j < |more| :: Settles(more[j], rows[i])
    ensures rows[i].callId.None? ==> PendingAt(rows + more, i)
  {
    if exists j | 0 <= j < |more| :: Settles(more[j], rows[i]) {
      var j :| 0 <= j < |more| && Settles(more[j], rows[i]);
      assert (rows + more)[|rows| + j] == more[j];
    } else {
      forall j | 0 <= j < |rows + more| ensures !Settles((rows + more)[j], (rows + more)[i]) {
        if j >= |rows| {
          assert (rows + more)[j] == more[j - |rows|];
        }
      }
    }
  }

  predicate SettledIn(schedule: seq<Action>, intent: Entry) {
    exists k | 0 <= k < |schedule| :: schedule[k].AppendRow? && Settles(schedule[k].entry, intent)
  }

  predicate NoNewIntent(rows: seq<Entry>, rows': seq<Entry>) {
    rows <= rows' && forall j | |rows| <= j < |rows'| :: !IsIntent(rows'[j])
  }

  lemma PendingBlocks(w: World, a: Action, i: nat)
    requires Inv(w) && Enabled(w, a) && PendingAt(w.rows, i)
    requires a.AppendRow? ==> !Settles(a.entry, w.rows[i])
    ensures NoNewIntent(w.rows, Next(w, a).rows) && PendingAt(Next(w, a).rows, i)
  {
    var w' := Next(w, a);
    if a.Finish? {
      assert StageOk(w, a.id);
    }
    if w'.rows != w.rows {
      assert a.AppendRow? && w'.rows == w.rows + [a.entry];
      SettlingIsByCallId(w.rows, [a.entry], i);
    }
  }

  /** While an intent is pending and no outcome with its call id is appended, no claim succeeds, however
      many are tried and whatever else is appended in between. */
  lemma {:induction false} BlockedUntilSettled(w: World, schedule: seq<Action>, i: nat)
    requires Inv(w) && PendingAt(w.rows, i) && i < |w.rows| && !SettledIn(schedule, w.rows[i])
    ensures PendingAt(Run(w, schedule).rows, i) && NoNewIntent(w.rows, Run(w, schedule).rows)
    ensures forall e, commits :: Claim(Run(w, schedule).rows, e, commits).1 != Claimed
    decreases |schedule|
  {
    hide Inv, Next, Enabled, PendingAt, IsIntent, Settles;
    if schedule != [] {
      var rest := schedule[1..];
      assert !SettledIn(rest, w.rows[i]) by {
        assert forall k | 0 <= k < |rest| :: rest[k] == schedule[k + 1];
      }
      if Enabled(w, schedule[0]) {
        NextKeeps(w, schedule[0]);
        PendingBlocks(w, schedule[0], i);
        BlockedUntilSettled(Next(w, schedule[0]), rest, i);
      } else {
        BlockedUntilSettled(w, rest, i);
      }
    } else {
      PendingRefuses(w.rows, i);
    }
  }

  lemma PendingRefuses(rows: seq<Entry>, i: nat)
    requires PendingAt(rows, i)
    ensures forall e, commits :: Claim(rows, e, commits).1 != Claimed
  {
  }

  predicate DistinctIds(rows: seq<Entry>) {
    forall i, j | 0 <= i < j < |rows| :: rows[i].id != rows[j].id
  }

  lemma {:induction false} RunKeepsIds(w: World, schedule: seq<Action>)
    requires DistinctIds(w.rows)
    ensures DistinctIds(Run(w, schedule).rows) && w.rows <= Run(w, schedule).rows
    decreases |schedule|
  {
    hide AnyPending, Enabled;
    if schedule != [] {
      RunKeepsIds(if Enabled(w, schedule[0]) then Next(w, schedule[0]) else w, schedule[1..]);
    }
  }

  /** Over every schedule the audit only grows, and no two rows share an id. */
  lemma RowsAreForGood(schedule: seq<Action>, more: seq<Action>)
    ensures DistinctIds(Run(BEGIN, schedule).rows)
    ensures Run(BEGIN, schedule).rows <= Run(Run(BEGIN, schedule), more).rows
  {
    hide Run;
    RunKeepsIds(BEGIN, schedule);
    RunKeepsIds(Run(BEGIN, schedule), more);
  }
}
