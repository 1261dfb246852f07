/** The prompt library: versioned prompts that move one step at a time, or are seeded as
    published with a built-in provenance, with an event log that tells each prompt's history. */
module PromptLibrary {
  import opened Wrappers
  import opened Lifecycle
  import opened Utf8
  import opened Texts

  datatype Status = Draft | Testing | Approved | Published | Deprecated | Retired

  datatype Prompt = Prompt(body: string, provenance: string, status: Status)

  datatype Library = Library(prompts: map<Key, Prompt>, log: seq<Change<Status>>)

  function Rank(s: Status): nat {
    match s
    case Draft => 0
    case Testing => 1
    case Approved => 2
    case Published => 3
    case Deprecated => 4
    case Retired => 5
  }

  /** One step forward, never sideways and never back. */
  predicate Edge(a: Status, b: Status) {
    match a
    case Draft => b == Testing
    case Testing => b == Approved
    case Approved => b == Published
    case Published => b == Deprecated
    case Deprecated => b == Retired
    case Retired => false
  }

  predicate First(s: Status) {
    s == Draft || s == Published
  }

  predicate NeedsEvidence(s: Status) {
    s == Approved || s == Published
  }

  const BUILTIN := "builtin:"

  predicate BuiltIn(p: Prompt) {
    p.status == Published && BUILTIN <= p.provenance
  }

  // ---------------------------------------------------------------- the operations

  function Registered(l: Library, key: Key, p: Prompt, wellFormed: bool, commits: bool): Library {
    if !wellFormed || p.status != Draft || key in l.prompts || !commits then l
    else Library(l.prompts[key := p], l.log + [Change(key, None, Draft, [], [])])
  }

  function Seeded(l: Library, key: Key, p: Prompt, wellFormed: bool, evidence: Text, commits: bool): Library {
    if !wellFormed || !BuiltIn(p) || Blank(evidence) || key in l.prompts || !commits then l
    else Library(l.prompts[key := p], l.log + [Change(key, None, Published, [], evidence)])
  }

  predicate MayMove(l: Library, key: Key, target: Status, evidence: Text) {
    && key in l.prompts && Edge(l.prompts[key].status, target)
    && (NeedsEvidence(target) ==> !Blank(evidence))
  }

  function Transitioned(l: Library, key: Key, target: Status, evidence: Text, commits: bool): Library {
    if !MayMove(l, key, target, evidence) || !commits then l
    else Library(l.prompts[key := l.prompts[key].(status := target)],
                 l.log + [Change(key, Some(l.prompts[key].status), target, [], evidence)])
  }

  function PublishedOne(l: Library, key: Key, evidence: Text, commits: bool): Library {
    if Blank(evidence) || key !in l.prompts || l.prompts[key].status != Approved then l
    else Transitioned(l, key, Published, evidence, commits)
  }

  datatype Event =
    | Register(key: Key, p: Prompt, wellFormed: bool, commits: bool)
    | Seed(key: Key, p: Prompt, wellFormed: bool, evidence: Text, commits: bool)
    | Transition(key: Key, target: Status, evidence: Text, commits: bool)
    | Publish(key: Key, evidence: Text, commits: bool)

  function After(l: Library, e: Event): Library {
    match e
    case Register(key, p, wellFormed, commits) => Registered(l, key, p, wellFormed, commits)
    case Seed(key, p, wellFormed, evidence, commits) => Seeded(l, key, p, wellFormed, evidence, commits)
    case Transition(key, target, evidence, commits) => Transitioned(l, key, target, evidence, commits)
    case Publish(key, evidence, commits) => PublishedOne(l, key, evidence, commits)
  }

  function Run(l: Library, events: seq<Event>): Library
    decreases |events|
  {
    if events == [] then l else Run(After(l, events[0]), events[1..])
  }

  class PromptRegistry {
    var prompts: map<Key, Prompt>
    var log: seq<Change<Status>>

    function View(): Library
      reads this
    {
      Library(prompts, log)
    }

    constructor ()
      ensures View() == Library(map[], [])
    {
      prompts, log := map[], [];
    }

    /** INSERT of a row and its first event, in one transaction. */
    method Insert(key: Key, p: Prompt, evidence: Text, commits: bool) returns (ok: bool)
      modifies this
      ensures ok == (key !in old(prompts) && commits)
      ensures View() == if ok then Library(old(prompts)[key := p], old(log) + [Change(key, None, p.status, [], evidence)])
                        else old(View())
    {
      ok := key !in prompts && commits;
      if ok {
        prompts := prompts[key := p];
        log := log + [Change(key, None, p.status, [], evidence)];
      }
    }

    method RegisterPrompt(key: Key, p: Prompt, wellFormed: bool, commits: bool) returns (ok: bool)
      modifies this
      ensures View() == Registered(old(View()), key, p, wellFormed, commits)
    {
      if !wellFormed || p.status != Draft {
        return false;
      }
      ok := Insert(key, p, [], commits);
    }

    method SeedBuiltin(key: Key, p: Prompt, wellFormed: bool, evidence: Text, commits: bool) returns (inserted: bool)
      modifies this
      ensures View() == Seeded(old(View()), key, p, wellFormed, evidence, commits)
      ensures inserted <==> View() != old(View())
    {
      if !wellFormed || !BuiltIn(p) || Blank(evidence) {
        return false;
      }
      inserted := Insert(key, p, evidence, commits);
    }

    method TransitionPrompt(key: Key, target: Status, evidence: Text, commits: bool) returns (ok: bool)
      modifies this
      ensures View() == Transitioned(old(View()), key, target, evidence, commits)
      ensures ok <==> View() != old(View())
    {
      if key !in prompts {
        return false;
      }
      var current := prompts[key];
      if !Edge(current.status, target) || (NeedsEvidence(target) && Blank(evidence)) || !commits {
        return false;
      }
      prompts := prompts[key := current.(status := target)];
      log := log + [Change(key, Some(current.status), target, [], evidence)];
      return true;
    }

    method PublishPrompt(key: Key, evidence: Text, commits: bool) returns (ok: bool)
      modifies this
      ensures View() == PublishedOne(old(View()), key, evidence, commits)
    {
      if Blank(evidence) || key !in prompts || prompts[key].status != Approved {
        return false;
      }
      ok := TransitionPrompt(key, Published, evidence, commits);
    }

    method IsPublished(key: Key) returns (published: bool)
      ensures published <==> key in prompts && prompts[key].status == Published
    {
      return key in prompts && prompts[key].status == Published;
    }
  }

  // ---------------------------------------------------------------- the log tells the prompt

  predicate LoggedAt(l: Library, key: Key) {
    && (key in l.prompts ==>
          var changes := ChangesOf(l.log, key);
          && LegalPath(changes, First, Edge, l.prompts[key].status)
          && (changes[0].after == Published ==> BUILTIN <= l.prompts[key].provenance)
          && (forall i | 0 <= i < |changes| && NeedsEvidence(changes[i].after) :: !Blank(changes[i].evidence)))
    && (key !in l.prompts ==> ChangesOf(l.log, key) == [])
  }

  ghost predicate Logged(l: Library) {
    forall key {:trigger LoggedAt(l, key)} :: LoggedAt(l, key)
  }

  /** Writing one prompt and its change. */
  lemma WriteKeeps(l: Library, key: Key, p: Prompt, c: Change<Status>)
    requires Logged(l) && c.key == key && c.after == p.status
    requires NeedsEvidence(c.after) ==> !Blank(c.evidence)
    requires if key in l.prompts
             then c.before == Some(l.prompts[key].status) && Edge(l.prompts[key].status, p.status)
                  && p.provenance == l.prompts[key].provenance
             else c.before == None && First(p.status) && (p.status == Published ==> BUILTIN <= p.provenance)
    ensures Logged(Library(l.prompts[key := p], l.log + [c]))
  {
    hide LoggedAt;
    var l' := Library(l.prompts[key := p], l.log + [c]);
    forall k ensures LoggedAt(l', k) {
      assert LoggedAt(l, k);
      ChangesAppend(l.log, c, k);
      if k == key {
        WriteKeepsAt(l, key, p, c);
      } else {
        assert ChangesOf(l'.log, k) == ChangesOf(l.log, k);
        SameLogAt(l, l', k);
      }
    }
  }

  lemma SameLogAt(l: Library, l': Library, k: Key)
    requires LoggedAt(l, k) && ChangesOf(l'.log, k) == ChangesOf(l.log, k)
    requires (k in l'.prompts <==> k in l.prompts) && (k in l.prompts ==> l'.prompts[k] == l.prompts[k])
    ensures LoggedAt(l', k)
  {
    hide Blank, Edge, LegalPath, ChangesOf;
  }

  lemma WriteKeepsAt(l: Library, key: Key, p: Prompt, c: Change<Status>)
    requires LoggedAt(l, key) && c.key == key && c.after == p.status
    requires NeedsEvidence(c.after) ==> !Blank(c.evidence)
    requires if key in l.prompts
             then c.before == Some(l.prompts[key].status) && Edge(l.prompts[key].status, p.status)
                  && p.provenance == l.prompts[key].provenance
             else c.before == None && First(p.status) && (p.status == Published ==> BUILTIN <= p.provenance)
    ensures LoggedAt(Library(l.prompts[key := p], l.log + [c]), key)
  {
    hide Blank, Edge, ChangesOf;
    var changes := ChangesOf(l.log, key);
    ChangesAppend(l.log, c, key);
    if key in l.prompts {
      PathExtends(changes, First, Edge, l.prompts[key].status, c);
    }
  }

  lemma EventKeepsLog(l: Library, e: Event)
    requires Logged(l)
    ensures Logged(After(l, e))
  {
    hide Blank, Logged;
    var l' := After(l, e);
    if l' != l {
      WriteKeeps(l, e.key, l'.prompts[e.key], l'.log[|l.log|]);
    }
  }

  lemma {:induction false} RunKeepsLog(l: Library, events: seq<Event>)
    requires Logged(l)
    ensures Logged(Run(l, events))
    decreases |events|
  {
    hide Logged, After;
    if events != [] {
      EventKeepsLog(l, events[0]);
      RunKeepsLog(After(l, events[0]), events[1..]);
    }
  }

  /** In every run the log of a prompt is one legal path that replays to its status; approval
      and publication carry evidence; and a prompt that did not start as a draft has a built-in
      provenance. */
  lemma LogTellsThePrompt(events: seq<Event>, key: Key)
    requires key in Run(Library(map[], []), events).prompts
    ensures var l := Run(Library(map[], []), events);
            var changes := ChangesOf(l.log, key);
            && LegalPath(changes, First, Edge, l.prompts[key].status)
            && Replay(changes) == Some(l.prompts[key].status)
            && (changes[0].after != Draft ==> BUILTIN <= l.prompts[key].provenance)
            && (forall i | 0 <= i < |changes| && NeedsEvidence(changes[i].after) :: !Blank(changes[i].evidence))
  {
    hide Run, Blank;
    var l := Run(Library(map[], []), events);
    assert Logged(Library(map[], [])) by { NothingLogged(); }
    RunKeepsLog(Library(map[], []), events);
    assert LoggedAt(l, key);
    PathReplays(ChangesOf(l.log, key), First, Edge, l.prompts[key].status);
  }

  lemma NothingLogged()
    ensures Logged(Library(map[], []))
  {
  }

  /** A prompt that is past published was published, on the record, at some earlier change: by
      the step from approved, or as its built-in beginning. */
  lemma {:induction false} PublishedOnce(changes: seq<Change<Status>>, status: Status) returns (i: nat)
    requires LegalPath(changes, First, Edge, status) && Rank(status) >= Rank(Published)
    ensures i < |changes| && changes[i].after == Published
    ensures forall j | 0 <= j < |changes| && j != i :: changes[j].after != Published
  {
    var init := changes[..|changes| - 1];
    if changes[|changes| - 1].after == Published {
      i := |changes| - 1;
      forall j | 0 <= j < i ensures changes[j].after != Published {
        PathClimbs(changes, First, Edge, status, Rank, j, i);
      }
    } else {
      i := PublishedOnce(init, init[|init| - 1].after);
    }
  }

  /** A prompt's text and provenance never change once written, whatever happens to it. */
  lemma {:induction false} TextIsImmutable(l: Library, events: seq<Event>, key: Key)
    requires key in l.prompts
    ensures key in Run(l, events).prompts
    ensures Run(l, events).prompts[key] == l.prompts[key].(status := Run(l, events).prompts[key].status)
    ensures Rank(l.prompts[key].status) <= Rank(Run(l, events).prompts[key].status)
    decreases |events|
  {
    hide Blank;
    if events != [] {
      TextIsImmutable(After(l, events[0]), events[1..], key);
    }
  }

  // ---------------------------------------------------------------- what moves a prompt

  /** A prompt moves exactly one step forward in the order draft, testing, approved, published,
      deprecated, retired, and to approved and published only with evidence. */
  lemma MoveMeans(l: Library, key: Key, target: Status, evidence: Text, commits: bool)
    ensures var l' := Transitioned(l, key, target, evidence, commits);
            if && key in l.prompts && commits
               && (var from := l.prompts[key].status;
                   || (from == Draft && target == Testing) || (from == Testing && target == Approved && !Blank(evidence))
                   || (from == Approved && target == Published && !Blank(evidence))
                   || (from == Published && target == Deprecated) || (from == Deprecated && target == Retired))
            then
              var p := l.prompts[key];
              l' == Library(l.prompts[key := Prompt(p.body, p.provenance, target)],
                            l.log + [Change(key, Some(p.status), target, [], evidence)])
            else l' == l
  {
    hide Blank;
  }

  /** A prompt begins as a draft, or as a published built-in with evidence; never over another, and
      publishing is the step from approved. */
  lemma BeginningMeans(l: Library, key: Key, p: Prompt, wellFormed: bool, evidence: Text, commits: bool)
    ensures Registered(l, key, p, wellFormed, commits) ==
            if wellFormed && commits && p.status == Draft && key !in l.prompts
            then Library(l.prompts[key := p], l.log + [Change(key, None, Draft, [], [])]) else l
    ensures Seeded(l, key, p, wellFormed, evidence, commits) ==
            if wellFormed && commits && p.status == Published && "builtin:" <= p.provenance && !Blank(evidence) && key !in l.prompts
            then Library(l.prompts[key := p], l.log + [Change(key, None, Published, [], evidence)]) else l
    ensures PublishedOne(l, key, evidence, commits) != l ==>
              && key in l.prompts && l.prompts[key].status == Approved && !Blank(evidence) && commits
              && PublishedOne(l, key, evidence, commits).prompts == l.prompts[key := l.prompts[key].(status := Published)]
    ensures key in l.prompts && l.prompts[key].status == Approved && !Blank(evidence) && commits ==>
              PublishedOne(l, key, evidence, commits) != l
  {
    hide Blank;
  }
}
