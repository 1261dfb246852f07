/** Which answers of the handler move the offset: what each update of a batch comes to. */
module TelegramAnswers {
  import opened Wrappers
  import opened TelegramPolling
  import TelegramDelivery

  /** The three statuses after which an update need not come again. */
  predicate Finishes(answer: Answer) {
    answer == Status("ok") || answer == Status("ignored") || answer == Status("rejected")
  }

  /** A positive integer the bot has neither seen nor passed. */
  predicate Due(b: Bot, raw: Raw) {
    raw.IntId? && raw.n >= 1 && raw.n !in b.seen && (b.offset == None || raw.n >= b.offset.value)
  }

  /** One update. If it is not due, nothing happens. If the handler does not finish it, or its offset
      cannot be stored, offset, file and seen identifiers stay and a failure is counted.
      Otherwise the offset is one past it, in memory and, with a connection, in the file. */
  lemma OneUpdate(b: Bot, raw: Raw, answer: Answer, commits: bool)
    ensures var (b', outcome) := Batch(b, [raw], [answer], [commits]);
            if !Due(b, raw) then b' == b.(failures := 0) && outcome == AllHandled
            else if !Finishes(answer) || (b.connected && !commits) then
              b' == b.(failures := b.failures + 1) && outcome == Transient
            else
              && outcome == AllHandled && b'.failures == 0
              && b'.offset == Some(raw.n + 1) && b'.file == (if b.connected then Some(raw.n + 1) else b.file)
              && b'.seen <= b.seen + {raw.n as nat} && b'.running == b.running && b'.connected == b.connected
  {
    hide Pruned;
    if Due(b, raw) {
      PrunedShrinks(b.seen + {raw.n as nat}, Some(raw.n + 1));
    }
    assert [raw][1..] == [] && [answer][1..] == [] && [commits][1..] == [];
  }

  lemma PrunedShrinks(seen: set<nat>, offset: Option<nat>)
    ensures Pruned(seen, offset) <= seen
  {
  }

  /** Some update of the batch, answered with a finishing status, that the offset is one past. */
  predicate PassedBy(updates: seq<Raw>, answers: seq<Answer>, offset: Option<nat>)
    requires |answers| == |updates|
  {
    offset.Some? && exists i | 0 <= i < |updates| :: updates[i].IntId? && updates[i].n + 1 == offset.value && Finishes(answers[i])
  }

  lemma PassedByLater(updates: seq<Raw>, answers: seq<Answer>, offset: Option<nat>)
    requires |answers| == |updates| && updates != [] && PassedBy(updates[1..], answers[1..], offset)
    ensures PassedBy(updates, answers, offset)
  {
    var i :| 0 <= i < |updates[1..]| && updates[1..][i].IntId? && updates[1..][i].n + 1 == offset.value && Finishes(answers[1..][i]);
    assert updates[i + 1] == updates[1..][i] && answers[i + 1] == answers[1..][i];
  }

  /** Over a whole batch: the offset moves, in memory or in the file, only to one past an update that
      the handler answered with "ok", "ignored" or "rejected"; and a batch that was given up has
      counted one failure, where one that was worked through has cleared them. */
  lemma {:induction false} OnlyFinishedUpdatesMove(b: Bot, updates: seq<Raw>, answers: seq<Answer>, commits: seq<bool>)
    requires |answers| == |updates| && |commits| == |updates|
    ensures var (b', outcome) := Batch(b, updates, answers, commits);
            && (b'.offset == b.offset || PassedBy(updates, answers, b'.offset))
            && (b'.file == b.file || PassedBy(updates, answers, b'.file))
            && (outcome.Transient? ==> b'.failures == b.failures + 1)
            && (outcome.AllHandled? ==> b'.failures == 0)
            && !outcome.Conflict? && b'.running == b.running && b'.connected == b.connected
    decreases |updates|
  {
    hide Pruned;
    if updates != [] {
      var rest, restAnswers, restCommits := updates[1..], answers[1..], commits[1..];
      if !Due(b, updates[0]) {
        OnlyFinishedUpdatesMove(b, rest, restAnswers, restCommits);
        MovesLater(b, updates, answers, Batch(b, rest, restAnswers, restCommits).0);
      } else if Terminal(answers[0]) && Saved(b, updates[0].n, commits[0]).Some? {
        var next := Advanced(Saved(b, updates[0].n, commits[0]).value, updates[0].n);
        OnlyFinishedUpdatesMove(next, rest, restAnswers, restCommits);
        MovesLater(next, updates, answers, Batch(next, rest, restAnswers, restCommits).0);
        assert next.offset == Some(updates[0].n + 1) && (next.file == b.file || next.file == next.offset);
        assert PassedBy(updates, answers, next.offset);
      }
    }
  }

  lemma MovesLater(b: Bot, updates: seq<Raw>, answers: seq<Answer>, b': Bot)
    requires |answers| == |updates| && updates != []
    ensures PassedBy(updates[1..], answers[1..], b'.offset) ==> PassedBy(updates, answers, b'.offset)
    ensures PassedBy(updates[1..], answers[1..], b'.file) ==> PassedBy(updates, answers, b'.file)
  {
    if PassedBy(updates[1..], answers[1..], b'.offset) {
      PassedByLater(updates, answers, b'.offset);
    }
    if PassedBy(updates[1..], answers[1..], b'.file) {
      PassedByLater(updates, answers, b'.file);
    }
  }

  /** Retries wait one second, then twice as long each time, up to half a minute. */
  lemma BackoffDoubles(failures: nat)
    ensures BackoffDelay(failures) ==
            if failures == 0 then 1 else if failures == 1 then 2 else if failures == 2 then 4
            else if failures == 3 then 8 else if failures == 4 then 16 else 30
  {
    assert PowerOfTwo(3) == 8 && PowerOfTwo(4) == 16 && PowerOfTwo(5) == 32;
  }

  /** In a run of the steps an update counts as finished only through such an answer to it. */
  lemma FinishingIsAnAnswer(w: TelegramDelivery.World, a: TelegramDelivery.Action, id: nat)
    requires TelegramDelivery.Enabled(w, a) && id !in w.finished && id in TelegramDelivery.Next(w, a).finished
    ensures a.Take? && Finishes(a.answer) && w.spot.Working? && w.spot.rest != [] && w.spot.rest[0] == IntId(id)
  {
    hide Pruned, TelegramDelivery.Served;
  }
}
