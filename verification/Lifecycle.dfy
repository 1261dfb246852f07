/** Versioned records with a status and an append-only log of its changes: what it means for
    the log to tell the record's history, shared by the agent factory and the prompt library. */
module Lifecycle {
  import opened Wrappers
  import opened Utf8

  type Key = (string, string)

  /** One row of an event table. A record's first change has no earlier status. */
  datatype Change<S> = Change(key: Key, before: Option<S>, after: S, actor: Text, evidence: Text)

  /** The changes of one record, oldest first: `list_events`. */
  function ChangesOf<S>(log: seq<Change<S>>, key: Key): seq<Change<S>> {
    if log == [] then []
    else
      var last := log[|log| - 1];
      ChangesOf(log[..|log| - 1], key) + if last.key == key then [last] else []
  }

  lemma ChangesAppend<S>(log: seq<Change<S>>, c: Change<S>, key: Key)
    ensures ChangesOf(log + [c], key) == ChangesOf(log, key) + if c.key == key then [c] else []
  {
    assert (log + [c])[..|log|] == log;
  }

  /** The changes form one legal path: a first status, then edges, each from where the last one
      led, ending at `status`. */
  predicate LegalPath<S(==)>(changes: seq<Change<S>>, first: S -> bool, edge: (S, S) -> bool, status: S) {
    && changes != []
    && changes[0].before == None && first(changes[0].after)
    && (forall i | 1 <= i < |changes| ::
          changes[i].before == Some(changes[i - 1].after) && edge(changes[i - 1].after, changes[i].after))
    && changes[|changes| - 1].after == status
  }

  lemma PathExtends<S>(changes: seq<Change<S>>, first: S -> bool, edge: (S, S) -> bool, status: S, c: Change<S>)
    requires LegalPath(changes, first, edge, status) && c.before == Some(status) && edge(status, c.after)
    ensures LegalPath(changes + [c], first, edge, c.after)
  {
  }

  /** When every edge climbs, the path climbs, so no status is entered twice. */
  lemma {:induction false} PathClimbs<S>(changes: seq<Change<S>>, first: S -> bool, edge: (S, S) -> bool, status: S,
                                         rank: S -> nat, i: nat, j: nat)
    requires LegalPath(changes, first, edge, status) && i < j < |changes|
    requires forall a, b | edge(a, b) :: rank(a) < rank(b)
    ensures rank(changes[i].after) < rank(changes[j].after)
    decreases j
  {
    if i < j - 1 {
      PathClimbs(changes, first, edge, status, rank, i, j - 1);
    }
  }

  /** Replaying the log: start nowhere, follow each change that starts where the replay stands. */
  function Replay<S(==)>(changes: seq<Change<S>>): Option<S> {
    if changes == [] then None
    else
      var standing := Replay(changes[..|changes| - 1]);
      var last := changes[|changes| - 1];
      if last.before == standing then Some(last.after) else standing
  }

  /** A legal path replays to its status. */
  lemma {:induction false} PathReplays<S>(changes: seq<Change<S>>, first: S -> bool, edge: (S, S) -> bool, status: S)
    requires LegalPath(changes, first, edge, status)
    ensures Replay(changes) == Some(status)
  {
    var init := changes[..|changes| - 1];
    if init != [] {
      PathReplays(init, first, edge, init[|init| - 1].after);
    }
  }
}
