/** The policy engine: permissions in the order they were first issued, and the full evaluation
    of a request with every reason for refusing it. */
module PolicyEngine {
  import opened Wrappers
  import opened ScopeGlob

  datatype ActionClass = Observation | SafeAnalysis | ControlledTesting | HighImpact | Production | Destructive

  function Level(a: ActionClass): nat {
    match a
    case Observation => 0
    case SafeAnalysis => 1
    case ControlledTesting => 2
    case HighImpact => 3
    case Production => 4
    case Destructive => 5
  }

  /** The trust rank an action needs: unknown 0, observed 1, verified 2, trusted 3, high 4. */
  function RequiredTrust(a: ActionClass): nat {
    match a
    case Observation => 0
    case SafeAnalysis => 1
    case ControlledTesting => 2
    case HighImpact => 3
    case Production => 3
    case Destructive => 4
  }

  datatype Capability = Capability(name: string, maxLevel: nat)

  datatype Agent = Agent(id: string, revoked: bool, trust: nat, capabilities: seq<Capability>)

  datatype Permission = Permission(
    agentId: string,
    scope: string,
    capabilities: seq<string>,
    createdAt: real,
    timeLimit: Option<real>,
    expiresAt: Option<real>,
    humanApproved: bool)

  datatype Reason =
    | RevokedAgent | TrustTooLow | NoCapability | NoHumanApproval
    | NoPermission | Expired | GrantsNothing | GrantsTooLittle

  datatype Decision = Decision(allowed: bool, reasons: seq<Reason>, matched: Option<Permission>)

  type Key = (string, string)

  datatype Entry = Entry(key: Key, permission: Permission)

  predicate IsExpired(p: Permission, now: real) {
    (p.expiresAt.Some? && now >= p.expiresAt.value) || (p.timeLimit.Some? && now >= p.createdAt + p.timeLimit.value)
  }

  predicate MatchesScope(p: Permission, target: string) {
    p.scope == "*" || Matches(TokensOf(p.scope), target)
  }

  /** The first permission of the agent whose scope matches decides. */
  function FirstMatch(entries: seq<Entry>, agent: string, target: string): Option<Permission> {
    if entries == [] then None
    else if entries[0].key.0 == agent && MatchesScope(entries[0].permission, target) then Some(entries[0].permission)
    else FirstMatch(entries[1..], agent, target)
  }

  predicate Approves(e: Entry, a: ActionClass, agent: string, target: string) {
    && e.key.0 == agent && e.permission.humanApproved && MatchesScope(e.permission, target)
    && (a.Destructive? ==> e.permission.timeLimit.Some?)
  }

  predicate HumanGateMet(entries: seq<Entry>, a: ActionClass, agent: string, target: string) {
    exists i | 0 <= i < |entries| :: Approves(entries[i], a, agent, target)
  }

  predicate HasCapability(caps: seq<Capability>, name: string) {
    exists i | 0 <= i < |caps| :: caps[i].name == name
  }

  /** The level a name maps to; a later capability of the same name replaces an earlier one. */
  function Ceiling(caps: seq<Capability>, name: string): nat
    requires HasCapability(caps, name)
  {
    if caps[|caps| - 1].name == name then caps[|caps| - 1].maxLevel
    else
      assert HasCapability(caps[..|caps| - 1], name) by {
        var i :| 0 <= i < |caps| && caps[i].name == name;
        assert caps[..|caps| - 1][i].name == name;
      }
      Ceiling(caps[..|caps| - 1], name)
  }

  predicate GrantsSomething(p: Permission, agent: Agent) {
    exists i | 0 <= i < |p.capabilities| :: HasCapability(agent.capabilities, p.capabilities[i])
  }

  predicate Reaches(p: Permission, agent: Agent, a: ActionClass) {
    exists i | 0 <= i < |p.capabilities| ::
      HasCapability(agent.capabilities, p.capabilities[i]) && Ceiling(agent.capabilities, p.capabilities[i]) >= Level(a)
  }

  function If(b: bool, r: Reason): seq<Reason> {
    if b then [r] else []
  }

  /** The reasons that do not depend on which permission matches. */
  function Before(entries: seq<Entry>, a: ActionClass, agent: Agent, target: string): seq<Reason> {
    If(agent.revoked, RevokedAgent)
    + If(agent.trust < RequiredTrust(a), TrustTooLow)
    + If(!exists i | 0 <= i < |agent.capabilities| :: agent.capabilities[i].maxLevel >= Level(a), NoCapability)
    + If((a.Production? || a.Destructive?) && !HumanGateMet(entries, a, agent.id, target), NoHumanApproval)
  }

  function OfMatch(p: Permission, a: ActionClass, agent: Agent, now: real): seq<Reason> {
    If(IsExpired(p, now), Expired)
    + if !GrantsSomething(p, agent) then [GrantsNothing] else If(!Reaches(p, agent, a), GrantsTooLittle)
  }

  function Evaluated(entries: seq<Entry>, a: ActionClass, agent: Agent, target: string, now: real): Decision {
    var matched := FirstMatch(entries, agent.id, target);
    var reasons := Before(entries, a, agent, target)
                   + if matched.None? then [NoPermission] else OfMatch(matched.value, a, agent, now);
    Decision(reasons == [], reasons, matched)
  }

  // ---------------------------------------------------------------- the dictionary

  predicate HasKey(entries: seq<Entry>, key: Key) {
    exists i | 0 <= i < |entries| :: entries[i].key == key
  }

  /** Assigning to a key keeps its place, or adds it at the end. */
  function Put(entries: seq<Entry>, key: Key, p: Permission): seq<Entry> {
    if entries == [] then [Entry(key, p)]
    else if entries[0].key == key then [Entry(key, p)] + entries[1..]
    else [entries[0]] + Put(entries[1..], key, p)
  }

  function Remove(entries: seq<Entry>, key: Key): seq<Entry> {
    if entries == [] then []
    else if entries[0].key == key then entries[1..]
    else [entries[0]] + Remove(entries[1..], key)
  }

  /** What the dictionary answers for a key. */
  function Get(entries: seq<Entry>, key: Key): Option<Permission> {
    if entries == [] then None
    else if entries[0].key == key then Some(entries[0].permission)
    else Get(entries[1..], key)
  }

  function KeysOf(entries: seq<Entry>): seq<Key> {
    seq(|entries|, i requires 0 <= i < |entries| => entries[i].key)
  }

  predicate Unique(entries: seq<Entry>) {
    forall i, j | 0 <= i < j < |entries| :: entries[i].key != entries[j].key
  }

  lemma {:induction false} GetAt(entries: seq<Entry>, i: nat)
    requires Unique(entries) && i < |entries|
    ensures Get(entries, entries[i].key) == Some(entries[i].permission)
  {
    if i > 0 {
      GetAt(entries[1..], i - 1);
    }
  }

  lemma {:induction false} GetNothing(entries: seq<Entry>, key: Key)
    requires forall i | 0 <= i < |entries| :: entries[i].key != key
    ensures Get(entries, key) == None && !HasKey(entries, key)
  {
    if entries != [] {
      GetNothing(entries[1..], key);
    }
  }

  lemma {:induction false} GetJoined(a: seq<Entry>, b: seq<Entry>, key: Key)
    ensures Get(a + b, key) == if Get(a, key).Some? then Get(a, key) else Get(b, key)
  {
    if a == [] {
      assert a + b == b;
    } else {
      assert (a + b)[1..] == a[1..] + b;
      GetJoined(a[1..], b, key);
    }
  }

  lemma GetOne(e: Entry, key: Key)
    ensures Get([e], key) == if key == e.key then Some(e.permission) else None
  {
    assert [e][1..] == [];
  }

  /** Finding a key means replacing or removing at its place; not finding it, adding or nothing. */
  lemma {:induction false} PutAt(entries: seq<Entry>, key: Key, p: Permission, i: nat)
    requires i < |entries| && entries[i].key == key && forall k | 0 <= k < i :: entries[k].key != key
    ensures Put(entries, key, p) == entries[i := Entry(key, p)]
    ensures Remove(entries, key) == entries[..i] + entries[i + 1..]
  {
    if i > 0 {
      PutAt(entries[1..], key, p, i - 1);
      assert entries[i := Entry(key, p)] == [entries[0]] + entries[1..][i - 1 := Entry(key, p)];
      assert entries[..i] == [entries[0]] + entries[1..][..i - 1];
      assert entries[1..][i - 1 + 1..] == entries[i + 1..];
    }
  }

  lemma {:induction false} RemoveNothing(entries: seq<Entry>, key: Key)
    requires forall i | 0 <= i < |entries| :: entries[i].key != key
    ensures Remove(entries, key) == entries
  {
    if entries != [] {
      RemoveNothing(entries[1..], key);
    }
  }

  /** Assigning to a key changes the answer for that key alone. */
  lemma PutAnswers(entries: seq<Entry>, i: nat, e: Entry, key: Key)
    requires i < |entries| && entries[i].key == e.key
    requires forall k | 0 <= k < i :: entries[k].key != e.key
    ensures Get(entries[i := e], key) == if key == e.key then Some(e.permission) else Get(entries, key)
  {
    GetNothing(entries[..i], e.key);
    assert entries[i := e] == entries[..i] + ([e] + entries[i + 1..]);
    assert entries == entries[..i] + ([entries[i]] + entries[i + 1..]);
    GetJoined(entries[..i], [e] + entries[i + 1..], key);
    GetJoined(entries[..i], [entries[i]] + entries[i + 1..], key);
  }

  /** Removing a key takes its answer away and leaves the others. */
  lemma RemoveAnswers(entries: seq<Entry>, i: nat, key: Key)
    requires Unique(entries) && i < |entries|
    ensures var left := entries[..i] + entries[i + 1..];
            && Unique(left)
            && Get(left, key) == if key == entries[i].key then None else Get(entries, key)
  {
    var left := entries[..i] + entries[i + 1..];
    assert entries == entries[..i] + ([entries[i]] + entries[i + 1..]);
    GetJoined(entries[..i], entries[i + 1..], key);
    GetJoined(entries[..i], [entries[i]] + entries[i + 1..], key);
    if key == entries[i].key {
      GetNothing(left, key);
    }
  }

  function Others(entries: seq<Entry>, agent: string): seq<Entry> {
    if entries == [] then []
    else Others(entries[..|entries| - 1], agent) + if entries[|entries| - 1].key.0 == agent then [] else [entries[|entries| - 1]]
  }

  lemma {:induction false} OthersUnique(entries: seq<Entry>, agent: string)
    requires Unique(entries)
    ensures Unique(Others(entries, agent)) && forall e | e in Others(entries, agent) :: e in entries
  {
    if entries != [] {
      var init := entries[..|entries| - 1];
      OthersUnique(init, agent);
      assert forall e | e in init :: e in entries && e.key != entries[|entries| - 1].key;
    }
  }

  lemma {:induction false} OthersAnswer(entries: seq<Entry>, agent: string, key: Key)
    requires Unique(entries)
    ensures Get(Others(entries, agent), key) == if key.0 == agent then None else Get(entries, key)
  {
    if entries != [] {
      var init, last := entries[..|entries| - 1], entries[|entries| - 1];
      OthersAnswer(init, agent, key);
      GetJoined(init, [last], key);
      GetJoined(Others(init, agent), [last], key);
      GetOne(last, key);
      assert entries == init + [last];
      assert Get(entries, key) == if Get(init, key).Some? then Get(init, key) else Get([last], key);
      if last.key.0 == agent {
        assert Others(entries, agent) == Others(init, agent) + [];
        assert Others(entries, agent) == Others(init, agent);
      } else {
        assert Others(entries, agent) == Others(init, agent) + [last];
      }
    }
  }

  class PolicyEngine {
    var permissions: seq<Entry>

    /** The permissions are a dictionary: one entry for a key. */
    predicate Valid()
      reads this
    {
      Unique(permissions)
    }

    constructor ()
      ensures permissions == [] && Valid()
    {
      permissions := [];
    }

    /** The place of a key, or the end. */
    method Find(key: Key) returns (i: nat)
      ensures i <= |permissions|
      ensures forall k | 0 <= k < i :: permissions[k].key != key
      ensures i < |permissions| ==> permissions[i].key == key
    {
      i := 0;
      while i < |permissions| && permissions[i].key != key
        invariant i <= |permissions| && forall k | 0 <= k < i :: permissions[k].key != key
      {
        i := i + 1;
      }
    }

    /** From now on the key answers with this permission, and every other key as before; a key
        that was there keeps its place in the order, a new one goes last. */
    method Issue(p: Permission)
      requires Valid()
      modifies this
      ensures Valid()
      ensures forall k :: Get(permissions, k) == if k == (p.agentId, p.scope) then Some(p) else Get(old(permissions), k)
      ensures KeysOf(permissions) ==
              KeysOf(old(permissions)) + if HasKey(old(permissions), (p.agentId, p.scope)) then [] else [(p.agentId, p.scope)]
      ensures permissions == Put(old(permissions), (p.agentId, p.scope), p)
    {
      hide Get, Put;
      ghost var before := permissions;
      var e := Entry((p.agentId, p.scope), p);
      var i := Find(e.key);
      if i < |permissions| {
        permissions := permissions[i := e];
        PutAt(before, e.key, p, i);
        forall k ensures Get(permissions, k) == if k == e.key then Some(p) else Get(before, k) {
          PutAnswers(before, i, e, k);
        }
      } else {
        permissions := permissions + [e];
        GetNothing(before, e.key);
        NewKeyGoesLast(before, e.key, p);
        forall k ensures Get(permissions, k) == if k == e.key then Some(p) else Get(before, k) {
          GetJoined(before, [e], k);
          GetOne(e, k);
        }
      }
    }

    /** From now on the key has no answer, and every other key the one it had. */
    method Revoke(agentId: string, scope: string) returns (removed: bool)
      requires Valid()
      modifies this
      ensures Valid()
      ensures forall k :: Get(permissions, k) == if k == (agentId, scope) then None else Get(old(permissions), k)
      ensures removed == Get(old(permissions), (agentId, scope)).Some?
      ensures permissions == Remove(old(permissions), (agentId, scope))
    {
      hide Get, Remove;
      ghost var before := permissions;
      var key := (agentId, scope);
      var i := Find(key);
      removed := i < |permissions|;
      if removed {
        permissions := permissions[..i] + permissions[i + 1..];
        PutAt(before, key, before[i].permission, i);
        GetAt(before, i);
        forall k ensures Get(permissions, k) == if k == key then None else Get(before, k) {
          RemoveAnswers(before, i, k);
        }
        RemoveAnswers(before, i, key);
      } else {
        GetNothing(before, key);
        RemoveNothing(before, key);
      }
    }

    /** From now on no key of the agent has an answer, and every other key the one it had. */
    method RevokeAll(agentId: string) returns (removed: nat)
      requires Valid()
      modifies this
      ensures Valid()
      ensures forall k :: Get(permissions, k) == if k.0 == agentId then None else Get(old(permissions), k)
      ensures permissions == Others(old(permissions), agentId)
      ensures removed + |permissions| == |old(permissions)|
    {
      var kept: seq<Entry> := [];
      removed := 0;
      for i := 0 to |permissions|
        invariant kept == Others(permissions[..i], agentId) && removed + |kept| == i
        invariant permissions == old(permissions)
      {
        assert permissions[..i + 1][..i] == permissions[..i];
        if permissions[i].key.0 == agentId {
          removed := removed + 1;
        } else {
          kept := kept + [permissions[i]];
        }
      }
      assert permissions[..|permissions|] == permissions;
      OthersUnique(permissions, agentId);
      forall k ensures Get(kept, k) == if k.0 == agentId then None else Get(permissions, k) {
        OthersAnswer(permissions, agentId, k);
      }
      permissions := kept;
    }

    method HumanGate(a: ActionClass, agent: string, target: string) returns (met: bool)
      ensures met == HumanGateMet(permissions, a, agent, target)
    {
      for i := 0 to |permissions|
        invariant forall k | 0 <= k < i :: !Approves(permissions[k], a, agent, target)
      {
        var p := permissions[i].permission;
        if permissions[i].key.0 == agent && p.humanApproved && MatchesScope(p, target) {
          if !(a.Destructive? && p.timeLimit.None?) {
            return true;
          }
        }
      }
      return false;
    }

    method Match(agent: string, target: string) returns (matched: Option<Permission>)
      ensures matched == FirstMatch(permissions, agent, target)
    {
      var i := 0;
      while i < |permissions|
        invariant i <= |permissions| && FirstMatch(permissions[i..], agent, target) == FirstMatch(permissions, agent, target)
      {
        assert permissions[i..][1..] == permissions[i + 1..];
        if permissions[i].key.0 == agent && MatchesScope(permissions[i].permission, target) {
          return Some(permissions[i].permission);
        }
        i := i + 1;
      }
      return None;
    }

    /** The reasons that do not depend on which permission matches. */
    method GeneralReasons(a: ActionClass, agent: Agent, target: string) returns (reasons: seq<Reason>)
      ensures reasons == Before(permissions, a, agent, target)
    {
      hide HumanGateMet;
      reasons := [];
      if agent.revoked {
        reasons := reasons + [RevokedAgent];
      }
      if agent.trust < RequiredTrust(a) {
        reasons := reasons + [TrustTooLow];
      }
      if !exists i | 0 <= i < |agent.capabilities| :: agent.capabilities[i].maxLevel >= Level(a) {
        reasons := reasons + [NoCapability];
      }
      if a.Production? || a.Destructive? {
        var met := HumanGate(a, agent.id, target);
        if !met {
          reasons := reasons + [NoHumanApproval];
        }
      }
    }

    method Evaluate(a: ActionClass, agent: Agent, target: string, now: real) returns (d: Decision)
      ensures d == Evaluated(permissions, a, agent, target, now)
    {
      hide Before, FirstMatch, Reaches, GrantsSomething, IsExpired;
      var reasons := GeneralReasons(a, agent, target);
      var matched := Match(agent.id, target);
      ghost var general := reasons;
      if matched.None? {
        reasons := reasons + [NoPermission];
      } else {
        if IsExpired(matched.value, now) {
          reasons := reasons + [Expired];
        }
        if !GrantsSomething(matched.value, agent) {
          reasons := reasons + [GrantsNothing];
        } else if !Reaches(matched.value, agent, a) {
          reasons := reasons + [GrantsTooLittle];
        }
        assert reasons == general + OfMatch(matched.value, a, agent, now);
      }
      return Decision(reasons == [], reasons, matched);
    }
  }

  // ---------------------------------------------------------------- how decisions change

  lemma {:induction false} NewKeyGoesLast(entries: seq<Entry>, key: Key, p: Permission)
    requires !HasKey(entries, key)
    ensures Put(entries, key, p) == entries + [Entry(key, p)]
  {
    if entries != [] {
      assert !HasKey(entries[1..], key) by {
        assert forall i | 0 <= i < |entries[1..]| :: entries[1..][i] == entries[i + 1];
      }
      NewKeyGoesLast(entries[1..], key, p);
      assert entries == [entries[0]] + entries[1..];
    }
  }

  lemma {:induction false} FirstMatchStays(entries: seq<Entry>, e: Entry, agent: string, target: string)
    requires FirstMatch(entries, agent, target).Some?
    ensures FirstMatch(entries + [e], agent, target) == FirstMatch(entries, agent, target)
  {
    hide MatchesScope;
    assert (entries + [e])[0] == entries[0] && (entries + [e])[1..] == entries[1..] + [e];
    if !(entries[0].key.0 == agent && MatchesScope(entries[0].permission, target)) {
      FirstMatchStays(entries[1..], e, agent, target);
    }
  }

  /** Issuing a permission under a new (agent, scope) key never turns an allowed request into a
      denied one: whoever asks, for whatever action and target, at whatever time. */
  lemma IssuingOnlyWidens(entries: seq<Entry>, p: Permission, a: ActionClass, agent: Agent, target: string, now: real)
    requires !HasKey(entries, (p.agentId, p.scope))
    requires Evaluated(entries, a, agent, target, now).allowed
    ensures Evaluated(Put(entries, (p.agentId, p.scope), p), a, agent, target, now).allowed
    ensures Evaluated(Put(entries, (p.agentId, p.scope), p), a, agent, target, now).matched
            == Evaluated(entries, a, agent, target, now).matched
  {
    hide MatchesScope, IsExpired, GrantsSomething, Reaches;
    var key := (p.agentId, p.scope);
    var after := entries + [Entry(key, p)];
    NewKeyGoesLast(entries, key, p);
    assert FirstMatch(entries, agent.id, target).Some?;
    FirstMatchStays(entries, Entry(key, p), agent.id, target);
    if HumanGateMet(entries, a, agent.id, target) {
      var i :| 0 <= i < |entries| && Approves(entries[i], a, agent.id, target);
      assert after[i] == entries[i];
    }
  }

  lemma {:induction false} FirstMatchWithout(entries: seq<Entry>, key: Key, agent: string, target: string)
    ensures FirstMatch(Remove(entries, key), agent, target) == FirstMatch(entries, agent, target)
            || exists i :: 0 <= i < |entries| && entries[i].key == key && key.0 == agent
                           && FirstMatch(entries, agent, target) == Some(entries[i].permission)
  {
    hide MatchesScope;
    if entries != [] {
      if entries[0].key == key {
        if key.0 == agent && MatchesScope(entries[0].permission, target) {
          assert FirstMatch(entries, agent, target) == Some(entries[0].permission);
        }
      } else {
        FirstMatchWithout(entries[1..], key, agent, target);
        var rest := Remove(entries[1..], key);
        assert Remove(entries, key)[1..] == rest && Remove(entries, key)[0] == entries[0];
        if FirstMatch(rest, agent, target) != FirstMatch(entries[1..], agent, target) {
          var i :| 0 <= i < |entries[1..]| && entries[1..][i].key == key && key.0 == agent
                   && FirstMatch(entries[1..], agent, target) == Some(entries[1..][i].permission);
          assert entries[i + 1] == entries[1..][i];
        }
      }
    }
  }

  lemma {:induction false} RemoveTakes(entries: seq<Entry>, key: Key)
    ensures forall e | e in Remove(entries, key) :: e in entries
  {
    if entries != [] && entries[0].key != key {
      RemoveTakes(entries[1..], key);
    }
  }

  /** When a request is allowed after a revocation, it was denied before exactly if the revoked
      permission was the one that decided, and was expired or fell short of the action. */
  lemma RevokingWidensExactly(entries: seq<Entry>, key: Key, a: ActionClass, agent: Agent, target: string, now: real)
    requires Evaluated(Remove(entries, key), a, agent, target, now).allowed
    ensures !Evaluated(entries, a, agent, target, now).allowed <==> Uncovers(entries, key, a, agent, target, now)
  {
    hide MatchesScope, IsExpired, Reaches, FirstMatch, Evaluated;
    var after := Remove(entries, key);
    RemoveTakes(entries, key);
    FirstMatchWithout(entries, key, agent.id, target);
    AllowedMeans(entries, a, agent, target, now);
    AllowedMeans(after, a, agent, target, now);
    if HumanGateMet(after, a, agent.id, target) {
      var j :| 0 <= j < |after| && Approves(after[j], a, agent.id, target);
      assert after[j] in after;
      var i :| 0 <= i < |entries| && entries[i] == after[j];
    }
  }

  /** The entry under the key is the one that decides, and it does not carry the action. */
  predicate Uncovers(entries: seq<Entry>, key: Key, a: ActionClass, agent: Agent, target: string, now: real) {
    key.0 == agent.id &&
    exists i | 0 <= i < |entries| ::
      && entries[i].key == key && FirstMatch(entries, agent.id, target) == Some(entries[i].permission)
      && (IsExpired(entries[i].permission, now) || !Reaches(entries[i].permission, agent, a))
  }

  /** And it does happen: an expired permission for everything hides a live one behind it. */
  lemma RevokingCanWiden(now: real)
    ensures exists entries: seq<Entry>, key, agent ::
              && Unique(entries)
              && !Evaluated(entries, Observation, agent, "x", now).allowed
              && Evaluated(Remove(entries, key), Observation, agent, "x", now).allowed
  {
    var agent := Agent("a", false, 0, [Capability("look", 0)]);
    var stale := Permission("a", "*", ["look"], now, None, Some(now), false);
    var live := Permission("a", "x", ["look"], now, None, None, false);
    var entries := [Entry(("a", "*"), stale), Entry(("a", "x"), live)];
    assert Unique(entries) by { assert "*"[0] != "x"[0]; }
    var after := Remove(entries, ("a", "*"));
    assert after == [Entry(("a", "x"), live)];
    LiteralMatches();
    assert FirstMatch(entries, "a", "x") == Some(stale);
    assert FirstMatch(after, "a", "x") == Some(live);
    assert agent.capabilities[0].maxLevel >= Level(Observation);
    assert HasCapability(agent.capabilities, live.capabilities[0]) && Ceiling(agent.capabilities, "look") == 0;
    assert GrantsSomething(live, agent) && Reaches(live, agent, Observation);
    assert Evaluated(after, Observation, agent, "x", now).reasons == [];
    assert Expired in Evaluated(entries, Observation, agent, "x", now).reasons;
  }

  lemma LiteralMatches()
    ensures Matches(TokensOf("x"), "x")
  {
    assert "x"[1..] == "";
    var t: seq<Token> := [Literal('x')];
    assert TokensOf("x") == t && t[1..] == [];
    assert Spans(t, "x");
  }

  /** A production or destructive action is allowed only with a permission a human approved for
      this agent and target, bounded in time when destructive, and, whatever the action, with
      sufficient trust, an agent that is not revoked and a live permission that reaches it. */
  lemma AllowedMeans(entries: seq<Entry>, a: ActionClass, agent: Agent, target: string, now: real)
    ensures Evaluated(entries, a, agent, target, now).allowed <==>
              && !agent.revoked && agent.trust >= RequiredTrust(a)
              && (exists i | 0 <= i < |agent.capabilities| :: agent.capabilities[i].maxLevel >= Level(a))
              && (a.Production? || a.Destructive? ==> HumanGateMet(entries, a, agent.id, target))
              && (var p := FirstMatch(entries, agent.id, target);
                  p.Some? && !IsExpired(p.value, now) && Reaches(p.value, agent, a))
  {
    hide MatchesScope, IsExpired, FirstMatch, HumanGateMet;
    var p := FirstMatch(entries, agent.id, target);
    if p.Some? && Reaches(p.value, agent, a) {
      assert GrantsSomething(p.value, agent);
    }
  }

  // ---------------------------------------------------------------- what expiry does

  /** The permissions that have not expired, in their order. */
  function Live(entries: seq<Entry>, now: real): seq<Entry> {
    if entries == [] then []
    else (if IsExpired(entries[0].permission, now) then [] else [entries[0]]) + Live(entries[1..], now)
  }

  lemma {:induction false} LiveMembers(entries: seq<Entry>, now: real, e: Entry)
    ensures e in Live(entries, now) <==> e in entries && !IsExpired(e.permission, now)
  {
    if entries != [] {
      LiveMembers(entries[1..], now, e);
      assert entries == [entries[0]] + entries[1..];
    }
  }

  lemma {:induction false} LiveFirstMatch(entries: seq<Entry>, agent: string, target: string, now: real)
    requires FirstMatch(entries, agent, target).Some? && !IsExpired(FirstMatch(entries, agent, target).value, now)
    ensures FirstMatch(Live(entries, now), agent, target) == FirstMatch(entries, agent, target)
  {
    hide MatchesScope, IsExpired;
    var live := Live(entries, now);
    if !(entries[0].key.0 == agent && MatchesScope(entries[0].permission, target)) {
      LiveFirstMatch(entries[1..], agent, target, now);
      assert !IsExpired(entries[0].permission, now) ==> live[0] == entries[0] && live[1..] == Live(entries[1..], now);
      assert IsExpired(entries[0].permission, now) ==> live == Live(entries[1..], now);
    }
  }

  predicate Risky(a: ActionClass) {
    a.Production? || a.Destructive?
  }

  /** A human has approved, and the approval has not lapsed. */
  predicate LiveApproval(entries: seq<Entry>, a: ActionClass, agent: string, target: string, now: real) {
    exists i | 0 <= i < |entries| :: Approves(entries[i], a, agent, target) && !IsExpired(entries[i].permission, now)
  }

  lemma LiveGate(entries: seq<Entry>, a: ActionClass, agent: string, target: string, now: real)
    ensures HumanGateMet(Live(entries, now), a, agent, target) <==> LiveApproval(entries, a, agent, target, now)
  {
    hide Approves, IsExpired, Live;
    var live := Live(entries, now);
    if HumanGateMet(live, a, agent, target) {
      var j :| 0 <= j < |live| && Approves(live[j], a, agent, target);
      LiveMembers(entries, now, live[j]);
      var i :| 0 <= i < |entries| && entries[i] == live[j];
    }
    if LiveApproval(entries, a, agent, target, now) {
      var i :| 0 <= i < |entries| && Approves(entries[i], a, agent, target) && !IsExpired(entries[i].permission, now);
      LiveMembers(entries, now, entries[i]);
      var j :| 0 <= j < |live| && live[j] == entries[i];
    }
  }

  /** What expired permissions are worth: an allowed request would also be allowed had they never
      been issued, unless it is a production or destructive one whose every approval has lapsed. */
  lemma LapsedCountsOnlyAtTheGate(entries: seq<Entry>, a: ActionClass, agent: Agent, target: string, now: real)
    requires Evaluated(entries, a, agent, target, now).allowed
    ensures Evaluated(Live(entries, now), a, agent, target, now).allowed <==>
            (Risky(a) ==> LiveApproval(entries, a, agent.id, target, now))
  {
    hide MatchesScope, IsExpired, Reaches, FirstMatch, Evaluated, HumanGateMet, LiveApproval, Live;
    AllowedMeans(entries, a, agent, target, now);
    AllowedMeans(Live(entries, now), a, agent, target, now);
    LiveFirstMatch(entries, agent.id, target, now);
    LiveGate(entries, a, agent.id, target, now);
  }

  /** Enough to rule it out: the permission that decides is itself approved by a human (and bounded
      in time, for a destructive action). */
  lemma DecidingApprovalIsLive(entries: seq<Entry>, a: ActionClass, agent: Agent, target: string, now: real)
    requires Evaluated(entries, a, agent, target, now).allowed
    requires var p := Evaluated(entries, a, agent, target, now).matched.value;
             p.humanApproved && (a.Destructive? ==> p.timeLimit.Some?)
    ensures LiveApproval(entries, a, agent.id, target, now)
    ensures Evaluated(Live(entries, now), a, agent, target, now).allowed
  {
    hide MatchesScope, IsExpired, Reaches, FirstMatch;
    AllowedMeans(entries, a, agent, target, now);
    var i := FirstMatchAt(entries, agent.id, target);
    assert Approves(entries[i], a, agent.id, target);
    LapsedCountsOnlyAtTheGate(entries, a, agent, target, now);
  }

  lemma {:induction false} FirstMatchAt(entries: seq<Entry>, agent: string, target: string) returns (i: nat)
    requires FirstMatch(entries, agent, target).Some?
    ensures i < |entries| && entries[i].key.0 == agent && MatchesScope(entries[i].permission, target)
    ensures FirstMatch(entries, agent, target) == Some(entries[i].permission)
  {
    hide MatchesScope;
    if entries[0].key.0 == agent && MatchesScope(entries[0].permission, target) {
      i := 0;
    } else {
      i := FirstMatchAt(entries[1..], agent, target);
      i := i + 1;
    }
  }

  /** The human gate does not look at expiry: an approval that has lapsed still opens it, next to
      a live permission that no human approved. */
  lemma LapsedApprovalStillCounts(now: real)
    ensures exists entries: seq<Entry>, agent ::
              && Unique(entries)
              && Evaluated(entries, Production, agent, "x", now).allowed
              && (forall i | 0 <= i < |entries| :: entries[i].permission.humanApproved ==> IsExpired(entries[i].permission, now))
  {
    var agent := Agent("a", false, 3, [Capability("deploy", 4)]);
    var live := Permission("a", "x", ["deploy"], now, None, None, false);
    var lapsed := Permission("a", "*", ["deploy"], now, None, Some(now), true);
    var entries := [Entry(("a", "x"), live), Entry(("a", "*"), lapsed)];
    assert Unique(entries) by { assert "*"[0] != "x"[0]; }
    LiteralMatches();
    assert FirstMatch(entries, "a", "x") == Some(live);
    assert Approves(entries[1], Production, "a", "x");
    assert agent.capabilities[0].maxLevel >= Level(Production);
    assert HasCapability(agent.capabilities, live.capabilities[0]) && Ceiling(agent.capabilities, "deploy") == 4;
    assert Reaches(live, agent, Production) && GrantsSomething(live, agent);
    AllowedMeans(entries, Production, agent, "x", now);
  }

  // ---------------------------------------------------------------- scopes and newlines

  /** On targets without a newline a scope means its glob. */
  lemma ScopeMeaning(p: Permission, target: string)
    requires NoNewline(target)
    ensures MatchesScope(p, target) <==> Glob(p.scope, target)
  {
    hide Glob, Matches;
    StarIsEverything(target);
    GlobMeaning(p.scope, target);
  }

  /** On all targets only the scope `*` does, which is never translated. */
  lemma OnlyStarIsExact(p: Permission)
    ensures (forall target :: MatchesScope(p, target) <==> Glob(p.scope, target)) <==> p.scope == "*"
  {
    hide Glob, Matches, TokensOf;
    if p.scope == "*" {
      forall target ensures Glob(p.scope, target) {
        StarIsEverything(target);
      }
    } else {
      NoGlobIsExact(p.scope);
    }
  }

  // ---------------------------------------------------------------- what being allowed takes

  /** The trust and the capability level each class of action takes, and which classes take a human. */
  lemma ThresholdsMean(entries: seq<Entry>, a: ActionClass, agent: Agent, target: string, now: real)
    requires Evaluated(entries, a, agent, target, now).allowed
    ensures agent.trust >= match a
                           case Observation => 0
                           case SafeAnalysis => 1
                           case ControlledTesting => 2
                           case HighImpact => 3
                           case Production => 3
                           case Destructive => 4
    ensures exists name :: HasCapability(agent.capabilities, name) &&
              Ceiling(agent.capabilities, name) >= match a
                                                   case Observation => 0
                                                   case SafeAnalysis => 1
                                                   case ControlledTesting => 2
                                                   case HighImpact => 3
                                                   case Production => 4
                                                   case Destructive => 5
    ensures a == Production || a == Destructive ==>
              exists e :: e in entries && e.key.0 == agent.id && e.permission.humanApproved && MatchesScope(e.permission, target)
                          && (a == Destructive ==> e.permission.timeLimit.Some?)
  {
    hide MatchesScope, FirstMatch, Evaluated, IsExpired, HasCapability, Ceiling;
    AllowedMeans(entries, a, agent, target, now);
    var p := FirstMatch(entries, agent.id, target).value;
    var i :| 0 <= i < |p.capabilities| && HasCapability(agent.capabilities, p.capabilities[i])
             && Ceiling(agent.capabilities, p.capabilities[i]) >= Level(a);
    if a == Production || a == Destructive {
      var k :| 0 <= k < |entries| && Approves(entries[k], a, agent.id, target);
      assert entries[k] in entries;
    }
  }

  /** Whoever may do something may do everything of a lower class, on the same target. */
  lemma AllowedIsDownwardClosed(entries: seq<Entry>, a: ActionClass, b: ActionClass, agent: Agent, target: string, now: real)
    requires Evaluated(entries, a, agent, target, now).allowed && Level(b) <= Level(a)
    ensures Evaluated(entries, b, agent, target, now).allowed
  {
    hide MatchesScope, FirstMatch, Evaluated, IsExpired, HasCapability, Ceiling;
    AllowedMeans(entries, a, agent, target, now);
    AllowedMeans(entries, b, agent, target, now);
    if HumanGateMet(entries, a, agent.id, target) {
      var i :| 0 <= i < |entries| && Approves(entries[i], a, agent.id, target);
      assert a == Destructive || !b.Destructive? ==> Approves(entries[i], b, agent.id, target);
    }
    var p := FirstMatch(entries, agent.id, target).value;
    assert Reaches(p, agent, b);
  }

  /** An allowed request stays allowed, while nothing changes, exactly until the deciding permission
      reaches its date or the end of its duration. */
  lemma AllowedUntilExpiry(entries: seq<Entry>, a: ActionClass, agent: Agent, target: string, now: real, later: real)
    requires Evaluated(entries, a, agent, target, now).allowed && now <= later
    ensures FirstMatch(entries, agent.id, target).Some?
    ensures var p := FirstMatch(entries, agent.id, target).value;
            Evaluated(entries, a, agent, target, later).allowed <==>
              && (p.expiresAt.Some? ==> later < p.expiresAt.value)
              && (p.timeLimit.Some? ==> later - p.createdAt < p.timeLimit.value)
  {
    hide MatchesScope, FirstMatch, Evaluated, HasCapability, Ceiling;
    AllowedMeans(entries, a, agent, target, now);
    AllowedMeans(entries, a, agent, target, later);
  }

  /** The permission that decides is the agent's first, in order of issue, whose scope matches. */
  lemma {:induction false} DecidingMeans(entries: seq<Entry>, agent: string, target: string, p: Permission)
    ensures FirstMatch(entries, agent, target) == Some(p) <==>
            exists i | 0 <= i < |entries| :: FirstAt(entries, agent, target, i) && entries[i].permission == p
  {
    hide MatchesScope;
    if FirstMatch(entries, agent, target) == Some(p) {
      var i := FirstMatchAt(entries, agent, target);
      var k := FirstIndex(entries, agent, target, i);
      FirstDecides(entries, agent, target, k);
    }
    if i :| 0 <= i < |entries| && FirstAt(entries, agent, target, i) && entries[i].permission == p {
      FirstDecides(entries, agent, target, i);
    }
  }

  predicate FirstAt(entries: seq<Entry>, agent: string, target: string, i: nat)
    requires i < |entries|
  {
    && entries[i].key.0 == agent && MatchesScope(entries[i].permission, target)
    && forall k | 0 <= k < i :: !(entries[k].key.0 == agent && MatchesScope(entries[k].permission, target))
  }

  lemma {:induction false} FirstDecides(entries: seq<Entry>, agent: string, target: string, i: nat)
    requires i < |entries| && FirstAt(entries, agent, target, i)
    ensures FirstMatch(entries, agent, target) == Some(entries[i].permission)
  {
    hide MatchesScope;
    if i > 0 {
      FirstDecides(entries[1..], agent, target, i - 1);
    }
  }

  lemma {:induction false} FirstIndex(entries: seq<Entry>, agent: string, target: string, i: nat) returns (k: nat)
    requires i < |entries| && entries[i].key.0 == agent && MatchesScope(entries[i].permission, target)
    ensures k <= i && FirstAt(entries, agent, target, k)
  {
    hide MatchesScope;
    if j :| 0 <= j < i && entries[j].key.0 == agent && MatchesScope(entries[j].permission, target) {
      k := FirstIndex(entries, agent, target, j);
    } else {
      k := i;
    }
  }

  /** Of several capabilities of one name the last counts. */
  lemma {:induction false} CeilingMeans(caps: seq<Capability>, name: string) returns (i: nat)
    requires HasCapability(caps, name)
    ensures i < |caps| && caps[i].name == name && Ceiling(caps, name) == caps[i].maxLevel
    ensures forall k | i < k < |caps| :: caps[k].name != name
  {
    var last := |caps| - 1;
    if caps[last].name == name {
      i := last;
    } else {
      assert HasCapability(caps[..last], name) by {
        var k :| 0 <= k < |caps| && caps[k].name == name;
        assert caps[..last][k].name == name;
      }
      i := CeilingMeans(caps[..last], name);
    }
  }

  /** The condition each reason stands for. */
  predicate Holds(r: Reason, entries: seq<Entry>, a: ActionClass, agent: Agent, target: string, now: real) {
    var p := FirstMatch(entries, agent.id, target);
    match r
    case RevokedAgent => agent.revoked
    case TrustTooLow => agent.trust < RequiredTrust(a)
    case NoCapability => forall i | 0 <= i < |agent.capabilities| :: agent.capabilities[i].maxLevel < Level(a)
    case NoHumanApproval => (a == Production || a == Destructive) && !HumanGateMet(entries, a, agent.id, target)
    case NoPermission => p == None
    case Expired => p.Some? && IsExpired(p.value, now)
    case GrantsNothing => p.Some? && !GrantsSomething(p.value, agent)
    case GrantsTooLittle => p.Some? && GrantsSomething(p.value, agent) && !Reaches(p.value, agent, a)
  }

  lemma BeforeMeans(entries: seq<Entry>, a: ActionClass, agent: Agent, target: string, now: real, r: Reason)
    ensures r in Before(entries, a, agent, target) <==>
            && (r == RevokedAgent || r == TrustTooLow || r == NoCapability || r == NoHumanApproval)
            && Holds(r, entries, a, agent, target, now)
  {
    hide FirstMatch, HumanGateMet, RequiredTrust, Level;
  }

  lemma MatchMeans(entries: seq<Entry>, a: ActionClass, agent: Agent, target: string, now: real, r: Reason)
    requires FirstMatch(entries, agent.id, target).Some?
    ensures r in OfMatch(FirstMatch(entries, agent.id, target).value, a, agent, now) <==>
            && (r == Expired || r == GrantsNothing || r == GrantsTooLittle)
            && Holds(r, entries, a, agent, target, now)
  {
    hide FirstMatch, IsExpired, GrantsSomething, Reaches;
  }

  /** Every reason that holds is given, and no other. */
  lemma ReasonsMean(entries: seq<Entry>, a: ActionClass, agent: Agent, target: string, now: real, r: Reason)
    ensures r in Evaluated(entries, a, agent, target, now).reasons <==> Holds(r, entries, a, agent, target, now)
  {
    hide Before, OfMatch, Holds, FirstMatch;
    BeforeMeans(entries, a, agent, target, now, r);
    if FirstMatch(entries, agent.id, target).Some? {
      MatchMeans(entries, a, agent, target, now, r);
    }
    HoldsOnlyOf(entries, a, agent, target, now, r);
  }

  lemma HoldsOnlyOf(entries: seq<Entry>, a: ActionClass, agent: Agent, target: string, now: real, r: Reason)
    ensures r == NoPermission ==> (Holds(r, entries, a, agent, target, now) <==> FirstMatch(entries, agent.id, target) == None)
    ensures Holds(r, entries, a, agent, target, now) && (r == Expired || r == GrantsNothing || r == GrantsTooLittle) ==>
              FirstMatch(entries, agent.id, target).Some?
  {
    hide FirstMatch, IsExpired, GrantsSomething, Reaches;
  }
}
