/** The governed agent factory: versioned blueprints with an event log, and the runtime pool
    that must never hold an agent whose blueprint is not active. */
module AgentFactory {
  import opened Wrappers
  import opened Lifecycle
  import opened Utf8
  import opened Texts

  datatype Status = Draft | Approved | Active | Revoked

  /** A blueprint row; what it describes matters only through the checks made on it. */
  datatype Blueprint = Blueprint(
    creator: Text, status: Status, approver: Option<Text>, evidence: Text, agentId: Option<string>)

  /** The tables, and the runtime pool: agent ids, each with whether this factory issued it. */
  datatype Factory = Factory(blueprints: map<Key, Blueprint>, log: seq<Change<Status>>, pool: map<string, bool>)

  datatype Authorizer = Allows | Denies | Missing

  /** How the kernel registry ends a revocation: done, unknown id, or any other error. */
  datatype KernelRevoke = Done | UnknownId | Fails

  const MAX_EVIDENCE_LEN := 4096
  const MAX_ID_LEN := 128

  /** `_check_evidence`: a nonblank, bounded reference. */
  predicate Evidence(s: Text) {
    !Blank(s) && |Strip(s)| <= MAX_EVIDENCE_LEN
  }

  predicate Edge(a: Status, b: Status) {
    match b
    case Draft => false
    case Approved => a == Draft
    case Active => a == Approved
    case Revoked => a != Revoked
  }

  predicate First(s: Status) {
    s == Draft
  }

  function Rank(s: Status): nat {
    match s
    case Draft => 0
    case Approved => 1
    case Active => 2
    case Revoked => 3
  }

  // ---------------------------------------------------------------- the operations

  function Created(f: Factory, key: Key, creator: Text, wellFormed: bool, commits: bool): Factory {
    if !wellFormed || Blank(creator) || |Strip(creator)| > MAX_ID_LEN || key in f.blueprints || !commits then f
    else f.(blueprints := f.blueprints[key := Blueprint(Strip(creator), Draft, None, [], None)],
            log := f.log + [Change(key, None, Draft, Strip(creator), [])])
  }

  /** What `approve` requires before it writes. */
  predicate MayApprove(f: Factory, key: Key, approver: Text, evidence: Text, authorizer: Authorizer, refsPublished: bool) {
    && !Blank(approver) && Evidence(evidence)
    && key in f.blueprints && f.blueprints[key].status == Draft
    && Strip(approver) != f.blueprints[key].creator
    && authorizer.Allows? && refsPublished
  }

  function Approve(f: Factory, key: Key, approver: Text, evidence: Text, authorizer: Authorizer,
                   refsPublished: bool, commits: bool): Factory
  {
    if !MayApprove(f, key, approver, evidence, authorizer, refsPublished) || !commits then f
    else f.(blueprints := f.blueprints[key := f.blueprints[key].(status := Approved, approver := Some(Strip(approver)),
                                                                     evidence := Strip(evidence))],
            log := f.log + [Change(key, Some(Draft), Approved, Strip(approver), Strip(evidence))])
  }

  predicate MayActivate(f: Factory, key: Key, valid: bool) {
    key in f.blueprints && f.blueprints[key].status == Approved && f.blueprints[key].agentId.None? && valid
  }

  /** Registration comes first, the row last; any failure on the way takes the agent out again. */
  function Activate(f: Factory, key: Key, newId: string, valid: bool, kernelRegisters: bool, commits: bool): Factory {
    if !MayActivate(f, key, valid) then f
    else if !kernelRegisters || newId in f.pool || !commits then f.(pool := f.pool - {newId})
    else f.(blueprints := f.blueprints[key := f.blueprints[key].(status := Active, agentId := Some(newId))],
            log := f.log + [Change(key, Some(Approved), Active, f.blueprints[key].creator, f.blueprints[key].evidence)],
            pool := f.pool[newId := true])
  }

  predicate MayRevoke(f: Factory, key: Key, evidence: Text) {
    Evidence(evidence) && key in f.blueprints && f.blueprints[key].status != Revoked
  }

  /** The row first, the registries after; a kernel error other than an unknown id skips the pool. */
  function Revoke(f: Factory, key: Key, evidence: Text, kernel: KernelRevoke, commits: bool): Factory {
    if !MayRevoke(f, key, evidence) || !commits then f
    else
      var row := f.blueprints[key];
      f.(blueprints := f.blueprints[key := row.(status := Revoked, evidence := Strip(evidence))],
         log := f.log + [Change(key, Some(row.status), Revoked, row.creator, Strip(evidence))],
         pool := if row.agentId.Some? && !kernel.Fails? then f.pool - {row.agentId.value} else f.pool)
  }

  datatype Event =
    | Create(key: Key, creator: Text, wellFormed: bool, commits: bool)
    | ApproveIt(key: Key, approver: Text, evidence: Text, authorizer: Authorizer, refsPublished: bool, commits: bool)
    | ActivateIt(key: Key, newId: string, valid: bool, kernelRegisters: bool, commits: bool)
    | RevokeIt(key: Key, evidence: Text, kernel: KernelRevoke, commits: bool)
    | OthersRegister(id: string)
    | OthersDeregister(id: string)
    | Restart

  function After(f: Factory, e: Event): Factory {
    match e
    case Create(key, creator, wellFormed, commits) => Created(f, key, creator, wellFormed, commits)
    case ApproveIt(key, approver, evidence, authorizer, refs, commits) =>
      Approve(f, key, approver, evidence, authorizer, refs, commits)
    case ActivateIt(key, newId, valid, kernelRegisters, commits) =>
      Activate(f, key, newId, valid, kernelRegisters, commits)
    case RevokeIt(key, evidence, kernel, commits) => Revoke(f, key, evidence, kernel, commits)
    case OthersRegister(id) => if id in f.pool then f else f.(pool := f.pool[id := false])
    case OthersDeregister(id) => f.(pool := f.pool - {id})
    case Restart => f.(pool := map[])
  }

  function Run(f: Factory, events: seq<Event>): Factory
    decreases |events|
  {
    if events == [] then f else Run(After(f, events[0]), events[1..])
  }

  const NEW_FACTORY := Factory(map[], [], map[])

  // ---------------------------------------------------------------- the objects

  /** The runtime registry, as far as lifecycle goes. */
  class RuntimeRegistry {
    var records: map<string, bool>

    constructor ()
      ensures records == map[]
    {
      records := map[];
    }

    method Register(id: string, issued: bool) returns (ok: bool)
      modifies this
      ensures ok == (id !in old(records))
      ensures records == if ok then old(records)[id := issued] else old(records)
    {
      ok := id !in records;
      if ok {
        records := records[id := issued];
      }
    }

    method Deregister(id: string) returns (removed: bool)
      modifies this
      ensures removed == (id in old(records)) && records == old(records) - {id}
    {
      removed := id in records;
      records := records - {id};
    }
  }

  class AgentFactory {
    var blueprints: map<Key, Blueprint>
    var log: seq<Change<Status>>
    const runtimes: RuntimeRegistry

    function View(): Factory
      reads this, runtimes
    {
      Factory(blueprints, log, runtimes.records)
    }

    constructor (runtimes: RuntimeRegistry)
      ensures this.runtimes == runtimes && blueprints == map[] && log == []
    {
      this.runtimes := runtimes;
      blueprints, log := map[], [];
    }

    /** One transaction: a row and its event together, or neither. */
    method Write(key: Key, row: Blueprint, change: Change<Status>, commits: bool)
      modifies this
      ensures blueprints == if commits then old(blueprints)[key := row] else old(blueprints)
      ensures log == if commits then old(log) + [change] else old(log)
    {
      if commits {
        blueprints := blueprints[key := row];
        log := log + [change];
      }
    }

    method CreateDraft(key: Key, creator: Text, wellFormed: bool, commits: bool) returns (ok: bool)
      modifies this
      ensures View() == Created(old(View()), key, creator, wellFormed, commits)
      ensures ok <==> View() != old(View())
    {
      if !wellFormed || Blank(creator) || |Strip(creator)| > MAX_ID_LEN || key in blueprints {
        return false;
      }
      Write(key, Blueprint(Strip(creator), Draft, None, [], None),
            Change(key, None, Draft, Strip(creator), []), commits);
      return commits;
    }

    method ApproveDraft(key: Key, approver: Text, evidence: Text, authorizer: Authorizer,
                        refsPublished: bool, commits: bool) returns (ok: bool)
      modifies this
      ensures View() == Approve(old(View()), key, approver, evidence, authorizer, refsPublished, commits)
      ensures ok <==> View() != old(View())
    {
      if Blank(approver) || !Evidence(evidence) || key !in blueprints {
        return false;
      }
      var row := blueprints[key];
      if row.status != Draft || Strip(approver) == row.creator {
        return false;
      }
      if !authorizer.Allows? || !refsPublished {
        return false;
      }
      Write(key, row.(status := Approved, approver := Some(Strip(approver)), evidence := Strip(evidence)),
            Change(key, Some(Draft), Approved, Strip(approver), Strip(evidence)), commits);
      return commits;
    }

    method ActivateApproved(key: Key, newId: string, valid: bool, kernelRegisters: bool, commits: bool) returns (ok: bool)
      modifies this, runtimes
      ensures View() == Activate(old(View()), key, newId, valid, kernelRegisters, commits)
      ensures ok ==> key in blueprints && blueprints[key].status == Active && newId in runtimes.records
    {
      if key !in blueprints {
        return false;
      }
      var row := blueprints[key];
      if row.status != Approved || row.agentId.Some? || !valid {
        return false;
      }
      var registered := false;
      if kernelRegisters {
        registered := runtimes.Register(newId, true);
      }
      if registered && commits {
        Write(key, row.(status := Active, agentId := Some(newId)),
              Change(key, Some(Approved), Active, row.creator, row.evidence), commits);
        return true;
      }
      var _ := runtimes.Deregister(newId);
      assert runtimes.records == old(runtimes.records) - {newId};
      return false;
    }

    method RevokeBlueprint(key: Key, evidence: Text, kernel: KernelRevoke, commits: bool) returns (ok: bool)
      modifies this, runtimes
      ensures View() == Revoke(old(View()), key, evidence, kernel, commits)
    {
      if !Evidence(evidence) || key !in blueprints {
        return false;
      }
      var row := blueprints[key];
      if row.status == Revoked {
        return true;
      }
      Write(key, row.(status := Revoked, evidence := Strip(evidence)),
            Change(key, Some(row.status), Revoked, row.creator, Strip(evidence)), commits);
      if !commits {
        return false;
      }
      if row.agentId.Some? {
        if kernel.Fails? {
          return false;
        }
        var _ := runtimes.Deregister(row.agentId.value);
      }
      return true;
    }

    method ListEvents(key: Key) returns (changes: Option<seq<Change<Status>>>)
      ensures changes == if key in blueprints then Some(ChangesOf(log, key)) else None
    {
      if key !in blueprints {
        return None;
      }
      var rows: seq<Change<Status>> := [];
      for i := 0 to |log|
        invariant rows == ChangesOf(log[..i], key)
      {
        assert log[..i + 1] == log[..i] + [log[i]];
        ChangesAppend(log[..i], log[i], key);
        if log[i].key == key {
          rows := rows + [log[i]];
        }
      }
      assert log[..|log|] == log;
      return Some(rows);
    }
  }

  // ---------------------------------------------------------------- the log tells the row

  predicate LoggedAt(f: Factory, key: Key) {
    && (key in f.blueprints ==>
          && LegalPath(ChangesOf(f.log, key), First, Edge, f.blueprints[key].status)
          && GovernedAt(f, key))
    && (key !in f.blueprints ==> ChangesOf(f.log, key) == [])
  }

  /** A blueprint past draft, or revoked after it, was approved by someone else than its
      creator; an agent id is recorded exactly from activation on. */
  predicate GovernedAt(f: Factory, key: Key)
    requires key in f.blueprints
  {
    var row := f.blueprints[key];
    && (row.status == Approved || row.status == Active ==> row.approver.Some?)
    && (row.approver.Some? ==> row.approver.value != row.creator)
    && (row.status == Active ==> row.agentId.Some?)
    && (row.status == Draft || row.status == Approved ==> row.agentId.None?)
    && (row.status == Draft ==> row.approver.None?)
    && (row.approver.None? ==> forall c | c in ChangesOf(f.log, key) :: c.after != Approved)
    && (forall c | c in ChangesOf(f.log, key) && c.after == Active :: row.approver.Some? && row.agentId.Some?)
    && (forall c | c in ChangesOf(f.log, key) && c.after == Approved :: row.approver == Some(c.actor) && c.evidence != [])
  }

  ghost predicate Logged(f: Factory) {
    forall key {:trigger LoggedAt(f, key)} :: LoggedAt(f, key)
  }

  /** Writing one row and its change. */
  lemma WriteKeeps(f: Factory, f': Factory, key: Key, row: Blueprint, c: Change<Status>)
    requires Logged(f) && c.key == key && c.after == row.status
    requires f'.blueprints == f.blueprints[key := row] && f'.log == f.log + [c]
    requires if key in f.blueprints then c.before == Some(f.blueprints[key].status) && Edge(f.blueprints[key].status, row.status)
             else c.before == None && row.status == Draft
    requires GovernedAt(f', key)
    ensures Logged(f')
  {
    forall k ensures LoggedAt(f', k) {
      assert LoggedAt(f, k);
      ChangesAppend(f.log, c, k);
      if k == key && key in f.blueprints {
        PathExtends(ChangesOf(f.log, key), First, Edge, f.blueprints[key].status, c);
      }
    }
  }

  lemma CreateKeepsLog(f: Factory, e: Event)
    requires Logged(f) && e.Create? && After(f, e).log != f.log
    ensures Logged(After(f, e))
  {
    hide Logged, Strip, Blank;
    LoggedHas(f, e.key);
    var c := Change(e.key, None, Draft, Strip(e.creator), []);
    ChangesAppend(f.log, c, e.key);
    WriteKeeps(f, After(f, e), e.key, After(f, e).blueprints[e.key], c);
  }

  lemma MoveKeepsLog(f: Factory, f': Factory, key: Key, row: Blueprint, c: Change<Status>)
    requires Logged(f) && key in f.blueprints && c.key == key && c.after == row.status
    requires f'.blueprints == f.blueprints[key := row] && f'.log == f.log + [c]
    requires c.before == Some(f.blueprints[key].status) && Edge(f.blueprints[key].status, row.status)
    requires row.creator == f.blueprints[key].creator
    requires if row.status == Approved
             then row.approver == Some(c.actor) && c.actor != row.creator && c.evidence != []
                  && row.agentId == f.blueprints[key].agentId
             else row.approver == f.blueprints[key].approver
    requires row.status == Active ==> row.agentId.Some?
    requires row.status == Revoked ==> row.agentId == f.blueprints[key].agentId
    ensures Logged(f')
  {
    hide Logged;
    LoggedHas(f, key);
    ChangesAppend(f.log, c, key);
    WriteKeeps(f, f', key, row, c);
  }

  lemma EventKeepsLog(f: Factory, e: Event)
    requires Logged(f)
    ensures Logged(After(f, e))
  {
    hide Logged, Strip, Blank, Evidence;
    var f' := After(f, e);
    if f'.log == f.log {
      SameLog(f, f');
    } else if e.Create? {
      CreateKeepsLog(f, e);
    } else {
      if e.ApproveIt? {
        EvidenceIsText(e.evidence);
      }
      MoveKeepsLog(f, f', e.key, f'.blueprints[e.key], f'.log[|f.log|]);
    }
  }

  lemma EvidenceIsText(s: Text)
    ensures Evidence(s) ==> Strip(s) != []
  {
  }

  lemma LoggedHas(f: Factory, key: Key)
    requires Logged(f)
    ensures LoggedAt(f, key)
  {
  }

  lemma SameLog(f: Factory, f': Factory)
    requires Logged(f) && f'.log == f.log && f'.blueprints == f.blueprints
    ensures Logged(f')
  {
    forall k ensures LoggedAt(f', k) {
      assert LoggedAt(f, k);
    }
  }

  lemma {:induction false} RunKeepsLog(f: Factory, events: seq<Event>)
    requires Logged(f)
    ensures Logged(Run(f, events))
    decreases |events|
  {
    hide Logged, After;
    if events != [] {
      EventKeepsLog(f, events[0]);
      RunKeepsLog(After(f, events[0]), events[1..]);
    }
  }

  /** In every run the event log of a version is one legal path that replays to its status; no
      status, activation least of all, is entered twice; and only a version approved by someone
      other than its creator, with evidence, is ever activated. */
  lemma LogTellsTheRow(events: seq<Event>, key: Key)
    requires key in Run(NEW_FACTORY, events).blueprints
    ensures var f := Run(NEW_FACTORY, events);
            var changes, row := ChangesOf(f.log, key), f.blueprints[key];
            && LegalPath(changes, First, Edge, row.status) && Replay(changes) == Some(row.status)
            && (forall i, j | 0 <= i < j < |changes| :: changes[i].after != changes[j].after)
            && (forall i | 0 <= i < |changes| && changes[i].after == Approved ::
                  row.approver == Some(changes[i].actor) && changes[i].actor != row.creator && changes[i].evidence != [])
            && (forall i | 0 <= i < |changes| && changes[i].after == Active ::
                  row.approver.Some? && row.approver.value != row.creator)
  {
    hide Run, Logged;
    var f := Run(NEW_FACTORY, events);
    assert Logged(NEW_FACTORY) by { NothingLogged(); }
    RunKeepsLog(NEW_FACTORY, events);
    LoggedHas(f, key);
    var changes := ChangesOf(f.log, key);
    PathReplays(changes, First, Edge, f.blueprints[key].status);
    forall i, j | 0 <= i < j < |changes| ensures changes[i].after != changes[j].after {
      PathClimbs(changes, First, Edge, f.blueprints[key].status, Rank, i, j);
    }
  }

  lemma NothingLogged()
    ensures Logged(NEW_FACTORY)
  {
  }

  // ---------------------------------------------------------------- the pool agrees with the rows

  predicate ActiveAs(f: Factory, key: Key, id: string) {
    key in f.blueprints && f.blueprints[key].status == Active && f.blueprints[key].agentId == Some(id)
  }

  /** Some blueprint is active under this id. */
  ghost predicate IssuedActive(f: Factory, id: string) {
    exists key :: ActiveAs(f, key, id)
  }

  ghost predicate PoolAgrees(f: Factory) {
    forall id | id in f.pool && f.pool[id] :: IssuedActive(f, id)
  }

  /** The one way the pool falls out of step: the row is revoked and committed, the kernel
      registry then fails, and the agent was in the pool with no other active row behind it. */
  ghost predicate Strands(f: Factory, e: Event) {
    && e.RevokeIt? && e.kernel.Fails? && e.commits && MayRevoke(f, e.key, e.evidence)
    && f.blueprints[e.key].agentId.Some?
    && var id := f.blueprints[e.key].agentId.value;
    && id in f.pool && f.pool[id]
    && !exists key :: key != e.key && ActiveAs(f, key, id)
  }

  lemma KeepsActive(f: Factory, f': Factory, id: string, except: Key)
    requires exists key :: key != except && ActiveAs(f, key, id)
    requires forall key | key in f.blueprints && key != except :: key in f'.blueprints && f'.blueprints[key] == f.blueprints[key]
    ensures IssuedActive(f', id)
  {
    var key :| key != except && ActiveAs(f, key, id);
    assert ActiveAs(f', key, id);
  }

  /** Every event keeps the agreement, an activation that fails part-way included, except
      exactly the stranding revocation. */
  lemma PoolAgreesUnlessStranded(f: Factory, e: Event)
    requires PoolAgrees(f) && Logged(f)
    ensures PoolAgrees(After(f, e)) <==> !Strands(f, e)
  {
    hide Logged, Strip, Blank, Evidence;
    var f' := After(f, e);
    if e.RevokeIt? {
      RevokeAgrees(f, e);
    } else {
      forall id | id in f'.pool && f'.pool[id] ensures IssuedActive(f', id) {
        if id in f.pool && f.pool[id] {
          var key :| ActiveAs(f, key, id);
          assert ActiveAs(f', key, id);
        } else {
          assert e.ActivateIt? && ActiveAs(f', e.key, id);
        }
      }
    }
  }

  lemma RevokeAgrees(f: Factory, e: Event)
    requires PoolAgrees(f) && Logged(f) && e.RevokeIt?
    ensures PoolAgrees(After(f, e)) <==> !Strands(f, e)
  {
    hide Logged, Blank;
    var f' := After(f, e);
    if MayRevoke(f, e.key, e.evidence) && e.commits {
      var mine := f.blueprints[e.key].agentId;
      if Strands(f, e) {
        forall key ensures !ActiveAs(f', key, mine.value) {
          if key != e.key {
            assert !ActiveAs(f, key, mine.value);
          }
        }
        assert !IssuedActive(f', mine.value);
      } else {
        forall id | id in f'.pool && f'.pool[id] ensures IssuedActive(f', id) {
          var key :| ActiveAs(f, key, id);
          if key != e.key {
            KeepsActive(f, f', id, e.key);
          } else {
            assert mine == Some(id);
            assert exists k :: k != e.key && ActiveAs(f, k, id);
            KeepsActive(f, f', id, e.key);
          }
        }
      }
    }
  }

  predicate Stranding(e: Event) {
    e.RevokeIt? && e.kernel.Fails?
  }

  lemma {:induction false} RunAgrees(f: Factory, events: seq<Event>)
    requires PoolAgrees(f) && Logged(f)
    requires forall i | 0 <= i < |events| :: !Stranding(events[i])
    ensures PoolAgrees(Run(f, events))
    decreases |events|
  {
    hide PoolAgrees, Logged, After;
    if events != [] {
      PoolAgreesUnlessStranded(f, events[0]);
      EventKeepsLog(f, events[0]);
      RunAgrees(After(f, events[0]), events[1..]);
    }
  }

  /** In every run in which the kernel registry fails no revocation, an agent this factory
      issued is in the runtime pool only while a blueprint is active under its id. */
  lemma PoolHoldsOnlyActiveAgents(events: seq<Event>, id: string)
    requires forall i | 0 <= i < |events| :: !Stranding(events[i])
    requires var f := Run(NEW_FACTORY, events); id in f.pool && f.pool[id]
    ensures IssuedActive(Run(NEW_FACTORY, events), id)
  {
    hide Run, Logged;
    NothingLogged();
    RunAgrees(NEW_FACTORY, events);
  }

  /** A stranded agent stays: revoking again, however it goes, finds the row already revoked
      and does nothing. */
  lemma StrandedStays(f: Factory, e: Event, again: Event)
    requires Strands(f, e) && again.RevokeIt? && again.key == e.key
    ensures After(After(f, e), again) == After(f, e)
    ensures var id := f.blueprints[e.key].agentId.value;
            id in After(f, e).pool && After(f, e).blueprints[e.key].status == Revoked
  {
    hide Blank;
  }

  /** Such a run exists: a draft, its approval by someone else, its activation, and a revocation
      whose kernel step fails. The agent is then in the pool with nothing active behind it. */
  lemma StrandingIsReachable(key: Key, creator: Text, approver: Text, evidence: Text, id: string)
    requires !Blank(creator) && |Strip(creator)| <= MAX_ID_LEN && Evidence(evidence)
    requires !Blank(approver) && Strip(approver) != Strip(creator)
    ensures var f := Run(NEW_FACTORY, StrandingRun(key, creator, approver, evidence, id));
            && id in f.pool && f.pool[id] && !IssuedActive(f, id) && !PoolAgrees(f)
  {
    hide Strip, Blank;
    var events := StrandingRun(key, creator, approver, evidence, id);
    var f1 := After(NEW_FACTORY, events[0]);
    var f2 := After(f1, events[1]);
    var f3 := After(f2, events[2]);
    var f4 := After(f3, events[3]);
    assert events[1..][0] == events[1] && events[1..][1..] == events[2..];
    assert events[2..][0] == events[2] && events[2..][1..] == events[3..];
    assert events[3..][0] == events[3] && events[3..][1..] == [];
    assert Run(f3, events[3..]) == f4;
    assert Run(f2, events[2..]) == f4;
    assert Run(f1, events[1..]) == f4;
    assert Run(NEW_FACTORY, events) == f4;
    assert f4.blueprints.Keys == {key} && f4.blueprints[key].status == Revoked;
    assert f4.pool == map[id := true];
    forall k ensures !ActiveAs(f4, k, id) {
    }
  }

  function StrandingRun(key: Key, creator: Text, approver: Text, evidence: Text, id: string): seq<Event> {
    [Create(key, creator, true, true), ApproveIt(key, approver, evidence, Allows, true, true),
     ActivateIt(key, id, true, true, true), RevokeIt(key, evidence, Fails, true)]
  }

  /** The parameters such a run needs. */
  lemma StrandingHappens()
    ensures exists events, id :: id in Run(NEW_FACTORY, events).pool && !PoolAgrees(Run(NEW_FACTORY, events))
  {
    var a: Text, b: Text := [0x61], [0x62];
    StripOfSolid(a);
    StripOfSolid(b);
    StrandingIsReachable(("agent", "1"), a, b, a, "id");
    assert "id" in Run(NEW_FACTORY, StrandingRun(("agent", "1"), a, b, a, "id")).pool;
  }

  // ---------------------------------------------------------------- who did what, over every run

  lemma {:induction false} RunAppend(f: Factory, events: seq<Event>, e: Event)
    ensures Run(f, events + [e]) == After(Run(f, events), e)
    decreases |events|
  {
    hide After;
    if events == [] {
      assert [] + [e] == [e] && [e][1..] == [];
    } else {
      assert (events + [e])[1..] == events[1..] + [e];
      RunAppend(After(f, events[0]), events[1..], e);
    }
  }

  /** Approval changes a draft, and only a draft: by someone named and not its creator, with evidence of
      at most 4096 characters, with the governance authority's leave, all references published,
      and the transaction committed. It sets status, approver and evidence, logs them, and
      touches nothing else. */
  lemma ApprovalMeans(f: Factory, key: Key, approver: Text, evidence: Text, authorizer: Authorizer, refs: bool, commits: bool)
    ensures var f' := Approve(f, key, approver, evidence, authorizer, refs, commits);
            if && key in f.blueprints && f.blueprints[key].status == Draft
               && Strip(approver) != [] && Strip(approver) != f.blueprints[key].creator
               && Strip(evidence) != [] && |Strip(evidence)| <= 4096
               && authorizer == Allows && refs && commits
            then
              var row := f.blueprints[key];
              f' == Factory(f.blueprints[key := Blueprint(row.creator, Approved, Some(Strip(approver)), Strip(evidence), row.agentId)],
                            f.log + [Change(key, Some(Draft), Approved, Strip(approver), Strip(evidence))], f.pool)
            else f' == f
  {
    hide Strip;
  }

  /** Activation changes an approved version that has no agent and is still valid: it registers a new
      agent id and records it; if anything fails on the way that id is in no registry afterwards. */
  lemma ActivationMeans(f: Factory, key: Key, newId: string, valid: bool, kernelRegisters: bool, commits: bool)
    ensures var f' := Activate(f, key, newId, valid, kernelRegisters, commits);
            if key in f.blueprints && f.blueprints[key].status == Approved && f.blueprints[key].agentId == None && valid then
              var row := f.blueprints[key];
              if kernelRegisters && newId !in f.pool && commits then
                f' == Factory(f.blueprints[key := Blueprint(row.creator, Active, row.approver, row.evidence, Some(newId))],
                              f.log + [Change(key, Some(Approved), Active, row.creator, row.evidence)], f.pool[newId := true])
              else f'.blueprints == f.blueprints && f'.log == f.log && f'.pool == f.pool - {newId}
            else f' == f
  {
  }

  /** Revocation ends any version that is not revoked yet, with evidence; its agent leaves the pool
      unless the kernel registry fails. */
  lemma RevocationMeans(f: Factory, key: Key, evidence: Text, kernel: KernelRevoke, commits: bool)
    ensures var f' := Revoke(f, key, evidence, kernel, commits);
            if key in f.blueprints && f.blueprints[key].status != Revoked && Strip(evidence) != []
               && |Strip(evidence)| <= 4096 && commits
            then
              var row := f.blueprints[key];
              && f'.blueprints == f.blueprints[key := Blueprint(row.creator, Revoked, row.approver, Strip(evidence), row.agentId)]
              && f'.log == f.log + [Change(key, Some(row.status), Revoked, row.creator, Strip(evidence))]
              && (forall id :: id in f'.pool <==> id in f.pool && !(row.agentId == Some(id) && !kernel.Fails?))
              && (forall id | id in f'.pool :: f'.pool[id] == f.pool[id])
            else f' == f
  {
    hide Strip;
  }

  /** The event that approved a version: on a draft, by another than its creator, with leave. */
  predicate IsApproval(f: Factory, e: Event, key: Key, approver: Text) {
    && e.ApproveIt? && e.key == key && e.authorizer == Allows && e.refsPublished && e.commits
    && Strip(e.approver) == approver && approver != [] && Strip(e.evidence) != [] && |Strip(e.evidence)| <= 4096
    && key in f.blueprints && f.blueprints[key].status == Draft && f.blueprints[key].creator != approver
  }

  predicate IsActivation(f: Factory, e: Event, key: Key, id: string) {
    && e.ActivateIt? && e.key == key && e.valid && e.kernelRegisters && e.commits && e.newId == id && id !in f.pool
    && key in f.blueprints && f.blueprints[key].status == Approved
  }

  predicate HasApprover(f: Factory, key: Key) {
    key in f.blueprints && f.blueprints[key].approver.Some?
  }

  predicate HasAgent(f: Factory, key: Key) {
    key in f.blueprints && f.blueprints[key].agentId.Some?
  }

  /** In every run a recorded approver is one whose approval is in the run: made on the draft, with
      evidence, references published and the authority's leave. */
  lemma {:induction false} ApprovedByLeave(events: seq<Event>, key: Key) returns (i: nat)
    requires HasApprover(Run(NEW_FACTORY, events), key)
    ensures i < |events|
    ensures IsApproval(Run(NEW_FACTORY, events[..i]), events[i], key, Run(NEW_FACTORY, events).blueprints[key].approver.value)
    decreases |events|
  {
    hide Strip, Run;
    if events == [] {
      i := 0;
      StartsEmpty();
    } else {
      var init, last := events[..|events| - 1], events[|events| - 1];
      assert events == init + [last];
      RunAppend(NEW_FACTORY, init, last);
      var f, f' := Run(NEW_FACTORY, init), Run(NEW_FACTORY, events);
      if HasApprover(f, key) && f.blueprints[key].approver == f'.blueprints[key].approver {
        i := ApprovedByLeave(init, key);
        assert init[..i] == events[..i];
      } else {
        i := |init|;
        assert events[..i] == init;
        ApprovalIs(f, last, key);
      }
    }
  }

  lemma StartsEmpty()
    ensures Run(NEW_FACTORY, []) == NEW_FACTORY
  {
  }

  lemma ApprovalIs(f: Factory, e: Event, key: Key)
    requires HasApprover(After(f, e), key)
    requires !(HasApprover(f, key) && f.blueprints[key].approver == After(f, e).blueprints[key].approver)
    ensures IsApproval(f, e, key, After(f, e).blueprints[key].approver.value)
  {
    hide Strip;
  }

  /** In every run a recorded agent id was given by an activation in the run: of the approved, valid
      version, under an id that was free. */
  lemma {:induction false} ActivatedWhenApproved(events: seq<Event>, key: Key) returns (i: nat)
    requires HasAgent(Run(NEW_FACTORY, events), key)
    ensures i < |events|
    ensures IsActivation(Run(NEW_FACTORY, events[..i]), events[i], key, Run(NEW_FACTORY, events).blueprints[key].agentId.value)
    decreases |events|
  {
    hide Strip, Run;
    if events == [] {
      i := 0;
      StartsEmpty();
    } else {
      var init, last := events[..|events| - 1], events[|events| - 1];
      assert events == init + [last];
      RunAppend(NEW_FACTORY, init, last);
      var f, f' := Run(NEW_FACTORY, init), Run(NEW_FACTORY, events);
      if HasAgent(f, key) && f.blueprints[key].agentId == f'.blueprints[key].agentId {
        i := ActivatedWhenApproved(init, key);
        assert init[..i] == events[..i];
      } else {
        i := |init|;
        assert events[..i] == init;
      }
    }
  }

  /** Creating adds a draft exactly under a new key, by a named creator of at most 128 characters, well
      formed and committed; with its first event, and nothing else. */
  lemma CreationMeans(f: Factory, key: Key, creator: Text, wellFormed: bool, commits: bool)
    ensures Created(f, key, creator, wellFormed, commits) ==
            if key !in f.blueprints && Strip(creator) != [] && |Strip(creator)| <= 128 && wellFormed && commits then
              Factory(f.blueprints[key := Blueprint(Strip(creator), Draft, None, [], None)],
                      f.log + [Change(key, None, Draft, Strip(creator), [])], f.pool)
            else f
  {
    hide Strip;
  }
}
