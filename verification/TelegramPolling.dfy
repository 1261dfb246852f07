/** Long polling with a durable offset: at-least-once delivery through handler failures, failed
    commits and crashes. The batch loop is a method of the bot object; the steps between which
    the process may die are a machine of their own, and the loop is one run of it. */
module TelegramPolling {
  import opened Wrappers

  /** The `update_id` entry of what the server sent, as far as the code tells it apart. */
  datatype Raw = NotAnObject | NoId | BoolId(flag: bool) | IntId(n: int) | OtherId

  /** How the handler ended. */
  datatype Answer = Raises | Status(status: string) | NoStatus

  datatype BatchOutcome = AllHandled | Transient | Conflict

  const MAX_SEEN_IDS := 1000
  const MAX_BACKOFF := 30

  function ExtractUpdateId(raw: Raw): Option<nat> {
    match raw
    case IntId(n) => if n <= 0 then None else Some(n)
    case _ => None
  }

  predicate Terminal(answer: Answer) {
    answer.Status? && (answer.status == "ok" || answer.status == "ignored" || answer.status == "rejected")
  }

  function PowerOfTwo(n: nat): nat {
    if n == 0 then 1 else 2 * PowerOfTwo(n - 1)
  }

  function BackoffDelay(failures: nat): nat {
    var delay := PowerOfTwo(if failures < 5 then failures else 5);
    if delay < MAX_BACKOFF then delay else MAX_BACKOFF
  }

  /** What the process keeps in memory, and the one durable cell. */
  datatype Bot = Bot(offset: Option<nat>, seen: set<nat>, failures: nat, running: bool, connected: bool, file: Option<nat>)

  predicate Passed(offset: Option<nat>, id: nat) {
    offset.Some? && id < offset.value
  }

  /** Whether an update is skipped as a duplicate. */
  predicate Skips(offset: Option<nat>, seen: set<nat>, id: nat) {
    id in seen || Passed(offset, id)
  }

  predicate MovesOn(offset: Option<nat>, next: nat) {
    offset.None? || next > offset.value
  }

  /** The duplicate cache cut down to size: only identifiers not yet passed stay, and of those
      the largest. */
  function Pruned(seen: set<nat>, offset: Option<nat>): set<nat> {
    if |seen| <= MAX_SEEN_IDS then seen
    else
      var kept := set i | i in seen && !Passed(offset, i);
      if |kept| <= MAX_SEEN_IDS then kept
      else set i | i in kept && |set j | j in kept && j >= i| <= MAX_SEEN_IDS
  }

  function Failed(b: Bot): Bot {
    b.(failures := b.failures + 1)
  }

  function Advanced(b: Bot, id: nat): Bot {
    var offset := if MovesOn(b.offset, id + 1) then Some(id + 1) else b.offset;
    b.(offset := offset, seen := Pruned(b.seen + {id}, offset))
  }

  /** Committing the offset, when there is something to commit and somewhere to commit it. */
  function Saved(b: Bot, id: nat, commits: bool): Option<Bot> {
    if MovesOn(b.offset, id + 1) && b.connected then
      if commits then Some(b.(file := Some(id + 1))) else None
    else Some(b)
  }

  /** The rest of a batch: `answers` and `commits` say what the handler and the commit do for
      each position. */
  function Batch(b: Bot, updates: seq<Raw>, answers: seq<Answer>, commits: seq<bool>): (Bot, BatchOutcome)
    requires |answers| == |updates| && |commits| == |updates|
    decreases |updates|
  {
    if updates == [] then (b.(failures := 0), AllHandled)
    else
      match ExtractUpdateId(updates[0])
      case None => Batch(b, updates[1..], answers[1..], commits[1..])
      case Some(id) =>
        if Skips(b.offset, b.seen, id) then Batch(b, updates[1..], answers[1..], commits[1..])
        else if !Terminal(answers[0]) then (Failed(b), Transient)
        else
          match Saved(b, id, commits[0])
          case None => (Failed(b), Transient)
          case Some(saved) => Batch(Advanced(saved, id), updates[1..], answers[1..], commits[1..])
  }

  /** The batch from position `i` on. */
  lemma BatchUnfolds(b: Bot, updates: seq<Raw>, answers: seq<Answer>, commits: seq<bool>, i: nat)
    requires |answers| == |updates| && |commits| == |updates| && i <= |updates|
    ensures updates[0..] == updates && answers[0..] == answers && commits[0..] == commits
    ensures i == |updates| ==> Batch(b, updates[i..], answers[i..], commits[i..]) == (b.(failures := 0), AllHandled)
    ensures i < |updates| ==>
              var id := ExtractUpdateId(updates[i]);
              var whole := Batch(b, updates[i..], answers[i..], commits[i..]);
              if id.None? || Skips(b.offset, b.seen, id.value)
              then whole == Batch(b, updates[i + 1..], answers[i + 1..], commits[i + 1..])
              else if !Terminal(answers[i]) || Saved(b, id.value, commits[i]).None? then whole == (Failed(b), Transient)
              else whole == Batch(Advanced(Saved(b, id.value, commits[i]).value, id.value),
                                  updates[i + 1..], answers[i + 1..], commits[i + 1..])
  {
    hide Pruned, Skips;
    if i < |updates| {
      assert updates[i..][1..] == updates[i + 1..] && answers[i..][1..] == answers[i + 1..] && commits[i..][1..] == commits[i + 1..];
    }
  }

  /** What getUpdates does: a batch, a competing poller, or any other failure. */
  datatype Fetched = Updates(updates: seq<Raw>) | Competing | Unreachable

  class TelegramBot {
    const beta: bool
    var offset: Option<nat>
    var seen: set<nat>
    var consecutiveFailures: nat
    var running: bool
    var connected: bool
    var file: Option<nat>

    function View(): Bot
      reads this
    {
      Bot(offset, seen, consecutiveFailures, running, connected, file)
    }

    /** A new process: in beta it resumes the offset found in the poll table. */
    constructor (beta: bool, file: Option<nat>)
      ensures this.beta == beta && View() == Restarted(beta, file)
    {
      this.beta := beta;
      this.file := file;
      offset := if beta && file.Some? && file.value > 0 then file else None;
      seen, consecutiveFailures, running, connected := {}, 0, true, beta;
    }

    method PersistOffset(next: nat, commits: bool) returns (ok: bool)
      modifies this`file
      ensures ok == (!connected || commits)
      ensures file == if connected && commits then Some(next) else old(file)
    {
      if !connected {
        return true;
      }
      if !commits {
        return false;
      }
      file := Some(next);
      return true;
    }

    method PruneSeen()
      modifies this`seen
      ensures seen == Pruned(old(seen), offset)
    {
      if |seen| > MAX_SEEN_IDS {
        var kept := set i | i in seen && !Passed(offset, i);
        if |kept| > MAX_SEEN_IDS {
          kept := set i | i in kept && |set j | j in kept && j >= i| <= MAX_SEEN_IDS;
        }
        seen := kept;
      }
    }

    /** An update the handler has finished: save the offset first, then move on in memory. */
    method Finish(id: nat, commits: bool) returns (ok: bool)
      modifies this`offset, this`seen, this`consecutiveFailures, this`file
      ensures ok == Saved(old(View()), id, commits).Some?
      ensures View() == if ok then Advanced(Saved(old(View()), id, commits).value, id) else Failed(old(View()))
    {
      hide Pruned;
      var next := id + 1;
      if MovesOn(offset, next) {
        ok := PersistOffset(next, commits);
        if !ok {
          consecutiveFailures := consecutiveFailures + 1;
          return false;
        }
        offset := Some(next);
      }
      seen := seen + {id};
      PruneSeen();
      return true;
    }

    /** The loop over one batch. */
    method HandleUpdates(updates: seq<Raw>, answers: seq<Answer>, commits: seq<bool>) returns (outcome: BatchOutcome)
      requires |answers| == |updates| && |commits| == |updates|
      modifies this`offset, this`seen, this`consecutiveFailures, this`file
      ensures (View(), outcome) == Batch(old(View()), updates, answers, commits)
    {
      hide Batch, Skips, Terminal, ExtractUpdateId, Saved, Advanced;
      BatchUnfolds(View(), updates, answers, commits, |updates|);
      var i := 0;
      while i < |updates|
        invariant i <= |updates|
        invariant Batch(View(), updates[i..], answers[i..], commits[i..]) == Batch(old(View()), updates, answers, commits)
      {
        BatchUnfolds(View(), updates, answers, commits, i);
        var id := ExtractUpdateId(updates[i]);
        if id.Some? && !Skips(offset, seen, id.value) {
          if !Terminal(answers[i]) {
            consecutiveFailures := consecutiveFailures + 1;
            return Transient;
          }
          var ok := Finish(id.value, commits[i]);
          if !ok {
            return Transient;
          }
        }
        i := i + 1;
      }
      BatchUnfolds(View(), updates, answers, commits, |updates|);
      consecutiveFailures := 0;
      return AllHandled;
    }

    /** `_poll_batch`. */
    method PollBatch(fetched: Fetched, answers: seq<Answer>, commits: seq<bool>) returns (outcome: BatchOutcome)
      requires fetched.Updates? ==> |answers| == |fetched.updates| && |commits| == |fetched.updates|
      modifies this`offset, this`seen, this`consecutiveFailures, this`running, this`file
      ensures match fetched
              case Updates(updates) => (View(), outcome) == Batch(old(View()), updates, answers, commits)
              case Competing => outcome == Conflict && View() == old(View()).(running := false)
              case Unreachable => outcome == Transient && View() == Failed(old(View()))
    {
      match fetched
      case Competing =>
        running := false;
        return Conflict;
      case Unreachable =>
        consecutiveFailures := consecutiveFailures + 1;
        return Transient;
      case Updates(updates) =>
        outcome := HandleUpdates(updates, answers, commits);
    }
  }

  function Restarted(beta: bool, file: Option<nat>): Bot {
    Bot(if beta && file.Some? && file.value > 0 then file else None, {}, 0, true, beta, file)
  }
}
