/** The per-bridge circuit breaker, on every trace of admissions and results, late results and
    results that never come included. */
module CircuitBreaker {
  import opened Wrappers

  datatype State = Closed | Open | HalfOpen

  datatype Config = Config(failureThreshold: nat, recoveryTimeout: real, halfOpenMaxCalls: nat, successThreshold: nat)

  predicate ValidConfig(c: Config) {
    c.failureThreshold >= 1 && c.recoveryTimeout > 0.0 && c.halfOpenMaxCalls >= 1 && c.successThreshold >= 1
  }

  datatype Runtime = Runtime(state: State, failures: nat, successes: nat, openedAt: real, inflight: nat)

  const FRESH := Runtime(Closed, 0, 0, 0.0, 0)

  predicate DwellElapsed(c: Config, r: Runtime, now: real) {
    now - r.openedAt >= c.recoveryTimeout
  }

  /** Reading the state: an elapsed dwell turns open into half-open. */
  function Refreshed(c: Config, r: Runtime, now: real): Runtime {
    if r.state == Open && DwellElapsed(c, r, now) then r.(state := HalfOpen, inflight := 0, successes := 0) else r
  }

  function Allowed(c: Config, r: Runtime, now: real): (Runtime, bool) {
    var f := Refreshed(c, r, now);
    match f.state
    case Closed => (f, true)
    case Open => (f, false)
    case HalfOpen => if f.inflight >= c.halfOpenMaxCalls then (f, false) else (f.(inflight := f.inflight + 1), true)
  }

  function Released(r: Runtime): Runtime {
    r.(inflight := if r.inflight > 0 then r.inflight - 1 else 0)
  }

  function Tripped(r: Runtime, now: real): Runtime {
    r.(state := Open, openedAt := now, successes := 0)
  }

  function Succeeded(c: Config, r: Runtime): Runtime {
    var f := r.(failures := 0);
    if f.state != HalfOpen then f
    else
      var g := Released(f).(successes := f.successes + 1);
      if g.successes >= c.successThreshold then g.(state := Closed, successes := 0) else g
  }

  /** Whether one more failure opens the circuit. */
  predicate Trips(c: Config, r: Runtime) {
    r.state == HalfOpen || r.failures + 1 >= c.failureThreshold
  }

  function FailedOnce(c: Config, r: Runtime, now: real): Runtime {
    var f := r.(failures := r.failures + 1);
    if f.state == HalfOpen then Tripped(Released(f), now)
    else if f.failures >= c.failureThreshold then Tripped(f, now)
    else f
  }

  class CircuitBreaker {
    const config: Config
    var state: State
    var consecutiveFailures: nat
    var consecutiveSuccesses: nat
    var openedAt: real
    var halfOpenInflight: nat

    function View(): Runtime
      reads this
    {
      Runtime(state, consecutiveFailures, consecutiveSuccesses, openedAt, halfOpenInflight)
    }

    constructor (config: Config)
      ensures this.config == config && View() == FRESH
    {
      this.config := config;
      state, consecutiveFailures, consecutiveSuccesses, openedAt, halfOpenInflight := Closed, 0, 0, 0.0, 0;
    }

    method ReadState(now: real) returns (s: State)
      modifies this
      ensures View() == Refreshed(config, old(View()), now) && s == state
    {
      if state == Open && now - openedAt >= config.recoveryTimeout {
        state := HalfOpen;
        halfOpenInflight := 0;
        consecutiveSuccesses := 0;
      }
      return state;
    }

    method Allow(now: real) returns (admitted: bool)
      modifies this
      ensures (View(), admitted) == Allowed(config, old(View()), now)
    {
      if state == Closed {
        return true;
      }
      if state == Open {
        if now - openedAt >= config.recoveryTimeout {
          state := HalfOpen;
          halfOpenInflight := 0;
          consecutiveSuccesses := 0;
        } else {
          return false;
        }
      }
      if halfOpenInflight >= config.halfOpenMaxCalls {
        return false;
      }
      halfOpenInflight := halfOpenInflight + 1;
      return true;
    }

    method Release()
      modifies this`halfOpenInflight
      ensures View() == Released(old(View()))
    {
      halfOpenInflight := if halfOpenInflight - 1 > 0 then halfOpenInflight - 1 else 0;
    }

    method Trip(now: real)
      modifies this`state, this`openedAt, this`consecutiveSuccesses
      ensures View() == Tripped(old(View()), now)
    {
      state := Open;
      openedAt := now;
      consecutiveSuccesses := 0;
    }

    method RecordSuccess()
      modifies this
      ensures View() == Succeeded(config, old(View()))
    {
      consecutiveFailures := 0;
      if state == HalfOpen {
        Release();
        consecutiveSuccesses := consecutiveSuccesses + 1;
        if consecutiveSuccesses >= config.successThreshold {
          state := Closed;
          consecutiveSuccesses := 0;
        }
      }
    }

    method RecordFailure(now: real)
      modifies this
      ensures View() == FailedOnce(config, old(View()), now)
    {
      consecutiveFailures := consecutiveFailures + 1;
      if state == HalfOpen {
        Release();
        Trip(now);
      } else if consecutiveFailures >= config.failureThreshold {
        Trip(now);
      }
    }
  }

  // ---------------------------------------------------------------- calls and time around it

  /** The breaker among its calls. `outstanding` holds the admitted calls without a result and
      the half-open epoch each was admitted in; the rest is bookkeeping no code reads. */
  datatype World = World(
    r: Runtime,
    now: real,
    epoch: nat,
    next: nat,
    outstanding: map<nat, Option<nat>>,
    results: seq<bool>,
    trips: seq<real>,
    admitted: nat,      // in this epoch
    recorded: nat,      // results of any call, in this epoch
    late: nat)          // of those, the ones of calls admitted outside it

  datatype Action =
    | Ask(at: real)                       // allow()
    | Read(at: real)                      // state
    | Finish(call: nat, ok: bool, at: real)
    | Abandon(call: nat)                  // the caller is cancelled: no result is recorded

  const BEGIN := World(FRESH, 0.0, 0, 0, map[], [], [], 0, 0, 0)

  predicate Enabled(w: World, a: Action) {
    match a
    case Ask(at) => at >= w.now
    case Read(at) => at >= w.now
    case Finish(call, _, at) => call in w.outstanding && at >= w.now
    case Abandon(call) => call in w.outstanding
  }

  /** A new half-open epoch begins when the state turns half-open. */
  function Entered(w: World, r: Runtime, at: real): World {
    if r.state == HalfOpen && w.r.state != HalfOpen
    then w.(r := r, now := at, epoch := w.epoch + 1, admitted := 0, recorded := 0, late := 0)
    else w.(r := r, now := at)
  }

  function Tag(w: World): Option<nat> {
    if w.r.state == HalfOpen then Some(w.epoch) else None
  }

  function Next(c: Config, w: World, a: Action): World
    requires Enabled(w, a)
  {
    match a
    case Ask(at) =>
      var (r, admitted) := Allowed(c, w.r, at);
      var v := Entered(w, r, at);
      if !admitted then v
      else v.(next := v.next + 1, outstanding := v.outstanding[v.next := Tag(v)],
              admitted := if r.state == HalfOpen then v.admitted + 1 else v.admitted)
    case Read(at) => Entered(w, Refreshed(c, w.r, at), at)
    case Finish(call, ok, at) =>
      var r := if ok then Succeeded(c, w.r) else FailedOnce(c, w.r, at);
      var mine := w.r.state == HalfOpen && w.outstanding[call] == Some(w.epoch);
      w.(r := r, now := at, outstanding := w.outstanding - {call}, results := w.results + [ok],
         trips := if !ok && Trips(c, w.r) then w.trips + [at] else w.trips,
         recorded := if w.r.state == HalfOpen then w.recorded + 1 else w.recorded,
         late := if w.r.state == HalfOpen && !mine then w.late + 1 else w.late)
    case Abandon(call) => w.(outstanding := w.outstanding - {call})
  }

  function Run(c: Config, w: World, schedule: seq<Action>): World
    decreases |schedule|
  {
    if schedule == [] then w
    else Run(c, if Enabled(w, schedule[0]) then Next(c, w, schedule[0]) else w, schedule[1..])
  }

  // ---------------------------------------------------------------- the invariant

  /** The length of the run of failures the results end with. */
  function TrailingFailures(results: seq<bool>): nat {
    if results == [] || results[|results| - 1] then 0 else TrailingFailures(results[..|results| - 1]) + 1
  }

  lemma TrailingAppend(results: seq<bool>, ok: bool)
    ensures TrailingFailures(results + [ok]) == if ok then 0 else TrailingFailures(results) + 1
  {
    assert (results + [ok])[..|results|] == results;
  }

  /** The probes of this half-open epoch that have no result yet. */
  function Probes(w: World): set<nat> {
    set call | call in w.outstanding && w.outstanding[call] == Some(w.epoch)
  }

  ghost predicate CallsOk(w: World) {
    forall call | call in w.outstanding ::
      call < w.next && (w.outstanding[call].Some? ==> w.outstanding[call].value <= w.epoch)
  }

  predicate Dwelt(c: Config, w: World) {
    && (forall i | 0 <= i < |w.trips| :: w.trips[i] <= w.now)
    && (w.trips != [] ==>
          && w.r.openedAt == w.trips[|w.trips| - 1]
          && (forall i | 0 <= i < |w.trips| :: w.trips[i] <= w.r.openedAt)
          && (w.r.state != Open ==> w.now >= w.r.openedAt + c.recoveryTimeout))
    && (w.r.state == Open ==> w.trips != [])
  }

  ghost predicate EpochOk(c: Config, w: World) {
    && w.late <= w.recorded
    && (w.r.state == HalfOpen ==>
          && w.r.inflight <= c.halfOpenMaxCalls && w.r.successes < c.successThreshold
          && w.recorded == w.r.successes
          && w.admitted <= w.r.inflight + w.recorded
          && |Probes(w)| + w.recorded <= w.admitted + w.late)
  }

  ghost predicate Inv(c: Config, w: World) {
    && CallsOk(w)
    && w.r.failures == TrailingFailures(w.results)
    && (w.r.state == Closed ==> w.r.failures < c.failureThreshold)
    && Dwelt(c, w) && EpochOk(c, w)
  }

  lemma ProbesGain(w: World, w': World, call: nat)
    requires w'.epoch == w.epoch && w'.outstanding == w.outstanding[call := Some(w.epoch)]
    ensures |Probes(w')| <= |Probes(w)| + 1
  {
    assert Probes(w') == Probes(w) + {call};
  }

  lemma ProbesLose(w: World, w': World, call: nat)
    requires w'.epoch == w.epoch && w'.outstanding == w.outstanding - {call} && call in w.outstanding
    ensures |Probes(w')| == |Probes(w)| - if w.outstanding[call] == Some(w.epoch) then 1 else 0
  {
    assert Probes(w') == Probes(w) - {call};
  }

  lemma NoProbesYet(w: World, w': World)
    requires CallsOk(w) && w'.epoch == w.epoch + 1 && w'.outstanding == w.outstanding
    ensures Probes(w') == {}
  {
  }

  lemma EnteredKeeps(c: Config, w: World, at: real)
    requires ValidConfig(c) && Inv(c, w) && at >= w.now
    ensures Inv(c, Entered(w, Refreshed(c, w.r, at), at))
  {
    var w' := Entered(w, Refreshed(c, w.r, at), at);
    if w'.r.state == HalfOpen && w.r.state != HalfOpen {
      NoProbesYet(w, w');
    } else {
      assert Probes(w') == Probes(w);
    }
  }

  lemma AskKeeps(c: Config, w: World, at: real)
    requires ValidConfig(c) && Inv(c, w) && at >= w.now
    ensures Inv(c, Next(c, w, Ask(at)))
  {
    hide TrailingFailures;
    var w' := Next(c, w, Ask(at));
    var v := Entered(w, Refreshed(c, w.r, at), at);
    EnteredKeeps(c, w, at);
    if Allowed(c, w.r, at).1 {
      assert w'.outstanding == v.outstanding[v.next := Tag(v)];
      if v.r.state == HalfOpen {
        ProbesGain(v, w', v.next);
      }
    } else {
      assert w' == v;
    }
  }

  lemma FinishKeeps(c: Config, w: World, call: nat, ok: bool, at: real)
    requires ValidConfig(c) && Inv(c, w) && Enabled(w, Finish(call, ok, at))
    ensures Inv(c, Next(c, w, Finish(call, ok, at)))
  {
    hide TrailingFailures;
    var w' := Next(c, w, Finish(call, ok, at));
    TrailingAppend(w.results, ok);
    ProbesLose(w, w', call);
  }

  lemma NextKeeps(c: Config, w: World, a: Action)
    requires ValidConfig(c) && Inv(c, w) && Enabled(w, a)
    ensures Inv(c, Next(c, w, a))
  {
    match a
    case Ask(at) => AskKeeps(c, w, at);
    case Read(at) => EnteredKeeps(c, w, at);
    case Finish(call, ok, at) => FinishKeeps(c, w, call, ok, at);
    case Abandon(call) => ProbesLose(w, Next(c, w, a), call);
  }

  lemma {:induction false} RunKeeps(c: Config, w: World, schedule: seq<Action>)
    requires ValidConfig(c) && Inv(c, w)
    ensures Inv(c, Run(c, w, schedule))
    decreases |schedule|
  {
    hide Inv, Next, Enabled;
    if schedule != [] {
      if Enabled(w, schedule[0]) {
        NextKeeps(c, w, schedule[0]);
        RunKeeps(c, Next(c, w, schedule[0]), schedule[1..]);
      } else {
        RunKeeps(c, w, schedule[1..]);
      }
    }
  }

  lemma BeginHolds(c: Config)
    requires ValidConfig(c)
    ensures Inv(c, BEGIN)
  {
  }

  // ---------------------------------------------------------------- what it promises

  /** On every trace the failure counter is the trailing run of failures among all recorded
      results, late ones included, and a closed circuit has it below the threshold. */
  lemma CounterIsTheTrailingRun(c: Config, schedule: seq<Action>)
    requires ValidConfig(c)
    ensures var w := Run(c, BEGIN, schedule);
            && w.r.failures == TrailingFailures(w.results)
            && (w.r.state == Closed ==> TrailingFailures(w.results) < c.failureThreshold)
  {
    hide Run, TrailingFailures;
    BeginHolds(c);
    RunKeeps(c, BEGIN, schedule);
  }

  /** No call is admitted before the dwell after any trip has elapsed. */
  lemma NoCallDuringTheDwell(c: Config, schedule: seq<Action>, at: real, i: nat)
    requires ValidConfig(c)
    requires var w := Run(c, BEGIN, schedule);
             Enabled(w, Ask(at)) && Allowed(c, w.r, at).1 && i < |w.trips|
    ensures at >= Run(c, BEGIN, schedule).trips[i] + c.recoveryTimeout
  {
    hide Run, TrailingFailures;
    BeginHolds(c);
    RunKeeps(c, BEGIN, schedule);
  }

  /** Within one half-open epoch, admissions minus recorded results never exceed the limit; the
      probes really outstanding exceed it by no more than the late results of the epoch, so
      with none of those the limit holds of the probes themselves. */
  lemma ProbesAreLimited(c: Config, schedule: seq<Action>)
    requires ValidConfig(c)
    ensures var w := Run(c, BEGIN, schedule);
            w.r.state == HalfOpen ==>
              && w.admitted <= c.halfOpenMaxCalls + w.recorded
              && |Probes(w)| <= c.halfOpenMaxCalls + w.late
  {
    hide Run, TrailingFailures;
    BeginHolds(c);
    RunKeeps(c, BEGIN, schedule);
  }

  predicate Probing(c: Config, w: World) {
    && w.r.state == HalfOpen && w.r.inflight == c.halfOpenMaxCalls && |Probes(w)| == c.halfOpenMaxCalls
    && w.r.successes + 1 < c.successThreshold
  }

  /** The limit on probes gives way exactly when a result is late: with every slot taken by a
      probe of this epoch, after one more success another call is admitted, and the probes then
      outstanding exceed the limit if and only if that success belonged to an earlier call. */
  lemma LateResultsFreeASlot(c: Config, w: World, call: nat, at: real)
    requires ValidConfig(c) && Inv(c, w) && Probing(c, w) && Enabled(w, Finish(call, true, at))
    ensures var w1 := Next(c, w, Finish(call, true, at));
            && Enabled(w1, Ask(at)) && Allowed(c, w1.r, at).1
            && (|Probes(Next(c, w1, Ask(at)))| > c.halfOpenMaxCalls <==> w.outstanding[call] != Some(w.epoch))
  {
    hide TrailingFailures;
    var w1 := Next(c, w, Finish(call, true, at));
    var w2 := Next(c, w1, Ask(at));
    ProbesLose(w, w1, call);
    assert w1.r.state == HalfOpen && w1.epoch == w.epoch;
    assert w2.outstanding == w1.outstanding[w1.next := Some(w1.epoch)];
    assert Probes(w2) == Probes(w1) + {w1.next};
    assert w1.next !in Probes(w1);
  }

  /** Half-open with every slot taken and nobody left to report back. */
  predicate Starved(c: Config, w: World) {
    w.r.state == HalfOpen && w.r.inflight >= c.halfOpenMaxCalls && w.outstanding == map[]
  }

  /** A probe whose caller is cancelled records no result and keeps its slot. When that happens
      to the last calls outstanding with every slot taken, the circuit admits nothing ever
      again, however long anyone waits. */
  lemma {:induction false} StarvedForever(c: Config, w: World, schedule: seq<Action>, at: real)
    requires ValidConfig(c) && Starved(c, w)
    ensures Starved(c, Run(c, w, schedule)) && !Allowed(c, Run(c, w, schedule).r, at).1
    decreases |schedule|
  {
    if schedule != [] {
      StarvedForever(c, if Enabled(w, schedule[0]) then Next(c, w, schedule[0]) else w, schedule[1..], at);
    }
  }

  lemma OneStep(c: Config, w: World, a: Action, rest: seq<Action>)
    requires Enabled(w, a)
    ensures Run(c, w, [a] + rest) == Run(c, Next(c, w, a), rest)
    ensures Run(c, w, [a]) == Next(c, w, a)
  {
    hide Next, Enabled;
    assert ([a] + rest)[1..] == rest && [a][1..] == [];
  }

  /** The one way into starvation: the last outstanding call is abandoned with no slot free. */
  lemma StarvationBegins(c: Config, w: World, a: Action)
    requires ValidConfig(c) && Inv(c, w) && Enabled(w, a) && !Starved(c, w)
    ensures Starved(c, Next(c, w, a)) <==>
            && a.Abandon? && w.outstanding.Keys == {a.call}
            && w.r.state == HalfOpen && w.r.inflight == c.halfOpenMaxCalls
  {
    hide TrailingFailures;
    if a.Abandon? {
      var left := w.outstanding - {a.call};
      assert left.Keys == w.outstanding.Keys - {a.call};
      assert left == map[] <==> w.outstanding.Keys == {a.call} by {
        if left == map[] {
          assert w.outstanding.Keys == left.Keys + {a.call};
        }
        if left.Keys == {} {
          assert left == map[];
        }
      }
    } else if a.Ask? && Allowed(c, w.r, a.at).1 {
      assert Entered(w, Refreshed(c, w.r, a.at), a.at).next in Next(c, w, a).outstanding;
    }
  }

  /** Every taken slot belongs to a probe that is still to report back. */
  predicate SlotsHeld(w: World) {
    w.r.state == HalfOpen ==> w.r.inflight <= |Probes(w)|
  }

  lemma EnteringHoldsSlots(c: Config, w: World, at: real)
    requires SlotsHeld(w)
    ensures SlotsHeld(Entered(w, Refreshed(c, w.r, at), at))
  {
    var v := Entered(w, Refreshed(c, w.r, at), at);
    if v.epoch == w.epoch {
      assert Probes(v) == Probes(w);
    }
  }

  lemma AskingHoldsSlots(c: Config, w: World, at: real)
    requires CallsOk(w) && Enabled(w, Ask(at)) && SlotsHeld(w)
    ensures SlotsHeld(Next(c, w, Ask(at)))
  {
    hide Probes;
    var w' := Next(c, w, Ask(at));
    var v := Entered(w, Refreshed(c, w.r, at), at);
    EnteringHoldsSlots(c, w, at);
    if Allowed(c, w.r, at).1 && v.r.state == HalfOpen {
      OneMoreProbe(v, w');
    }
  }

  lemma OneMoreProbe(v: World, w': World)
    requires v.r.state == HalfOpen && v.next !in v.outstanding && w'.epoch == v.epoch
    requires w'.outstanding == v.outstanding[v.next := Some(v.epoch)]
    ensures |Probes(w')| == |Probes(v)| + 1
  {
    assert v.next !in Probes(v);
    assert Probes(w') == Probes(v) + {v.next};
  }

  lemma SlotsStayHeld(c: Config, w: World, a: Action)
    requires ValidConfig(c) && Inv(c, w) && Enabled(w, a) && SlotsHeld(w) && !a.Abandon?
    ensures SlotsHeld(Next(c, w, a))
  {
    hide TrailingFailures, Dwelt, EpochOk, Probes;
    match a
    case Ask(at) => AskingHoldsSlots(c, w, at);
    case Read(at) => EnteringHoldsSlots(c, w, at);
    case Finish(call, ok, at) => ProbesLose(w, Next(c, w, a), call);
  }

  lemma {:induction false} HeldRun(c: Config, w: World, schedule: seq<Action>)
    requires ValidConfig(c) && Inv(c, w) && SlotsHeld(w)
    requires forall i | 0 <= i < |schedule| :: !schedule[i].Abandon?
    ensures SlotsHeld(Run(c, w, schedule))
    decreases |schedule|
  {
    hide Inv, Next, Enabled, SlotsHeld;
    if schedule != [] {
      assert forall i | 0 <= i < |schedule[1..]| :: schedule[1..][i] == schedule[i + 1];
      if Enabled(w, schedule[0]) {
        NextKeeps(c, w, schedule[0]);
        SlotsStayHeld(c, w, schedule[0]);
        HeldRun(c, Next(c, w, schedule[0]), schedule[1..]);
      } else {
        HeldRun(c, w, schedule[1..]);
      }
    }
  }

  /** On every trace on which each admitted call records a result or is still under way, the
      circuit is not starved: with every slot taken somebody is left to report back. */
  lemma NoStarvationWithoutCancellation(c: Config, schedule: seq<Action>)
    requires ValidConfig(c) && forall i | 0 <= i < |schedule| :: !schedule[i].Abandon?
    ensures !Starved(c, Run(c, BEGIN, schedule))
  {
    hide Run, Inv;
    BeginHolds(c);
    HeldRun(c, BEGIN, schedule);
    var w := Run(c, BEGIN, schedule);
    if w.outstanding == map[] {
      assert Probes(w) == {};
    }
  }

  // ---------------------------------------------------------------- runs that go wrong

  lemma {:induction false} RunJoins(c: Config, w: World, a: seq<Action>, b: seq<Action>)
    ensures Run(c, w, a + b) == Run(c, Run(c, w, a), b)
    decreases |a|
  {
    hide Next, Enabled;
    if a == [] {
      assert a + b == b;
    } else {
      assert (a + b)[1..] == a[1..] + b;
      RunJoins(c, if Enabled(w, a[0]) then Next(c, w, a[0]) else w, a[1..], b);
    }
  }

  /** One call that is admitted while closed, and fails. */
  lemma OneFailure(c: Config, w: World)
    requires ValidConfig(c) && Inv(c, w) && w.r.state == Closed
    ensures var w1 := Next(c, w, Ask(w.now));
            && Enabled(w1, Finish(w.next, false, w.now))
            && var w2 := Next(c, w1, Finish(w.next, false, w.now));
            && Inv(c, w2) && w2.outstanding == w.outstanding && w2.now == w.now && w2.epoch == w.epoch
            && w2.r.failures == w.r.failures + 1
            && w2.r.state == (if w2.r.failures < c.failureThreshold then Closed else Open)
            && (w2.r.state == Open ==> w2.r.openedAt == w.now)
  {
    hide TrailingFailures;
    NextKeeps(c, w, Ask(w.now));
    NextKeeps(c, Next(c, w, Ask(w.now)), Finish(w.next, false, w.now));
    assert w.next !in w.outstanding;
  }

  /** Failing calls trip a closed circuit and leave the other calls as they were. */
  lemma {:induction false} FailuresTrip(c: Config, w: World) returns (schedule: seq<Action>)
    requires ValidConfig(c) && Inv(c, w) && w.r.state == Closed
    ensures var w' := Run(c, w, schedule);
            && Inv(c, w') && w'.r.state == Open && w'.outstanding == w.outstanding
            && w'.now == w.now == w'.r.openedAt && w'.epoch == w.epoch
    decreases c.failureThreshold - w.r.failures
  {
    hide TrailingFailures, Next, Enabled, Run, CallsOk, Dwelt, EpochOk;
    AskIsEnabled(w);
    OneFailure(c, w);
    var w1 := Next(c, w, Ask(w.now));
    var w2 := Next(c, w1, Finish(w.next, false, w.now));
    schedule := [Ask(w.now)] + [Finish(w.next, false, w.now)];
    OneStep(c, w, Ask(w.now), [Finish(w.next, false, w.now)]);
    OneStep(c, w1, Finish(w.next, false, w.now), []);
    if w2.r.state == Closed {
      var rest := FailuresTrip(c, w2);
      RunJoins(c, w, schedule, rest);
      schedule := schedule + rest;
    }
  }

  lemma AskIsEnabled(w: World)
    ensures Enabled(w, Ask(w.now))
  {
  }

  /** After the dwell a reader makes the circuit half-open, with every slot free. */
  lemma DwellOpens(c: Config, w: World)
    requires ValidConfig(c) && Inv(c, w) && w.r.state == Open && w.r.openedAt == w.now
    ensures var w' := Next(c, w, Read(w.now + c.recoveryTimeout));
            && Enabled(w, Read(w.now + c.recoveryTimeout)) && Inv(c, w')
            && w'.r.state == HalfOpen && w'.r.inflight == 0 && w'.r.successes == 0
            && w'.epoch == w.epoch + 1 && w'.outstanding == w.outstanding && Probes(w') == {}
  {
    hide TrailingFailures;
    NextKeeps(c, w, Read(w.now + c.recoveryTimeout));
    NoProbesYet(w, Next(c, w, Read(w.now + c.recoveryTimeout)));
  }

  /** Probes take the free slots of a half-open circuit, and the calls before them stay. */
  lemma {:induction false} SlotsFill(c: Config, w: World) returns (schedule: seq<Action>)
    requires ValidConfig(c) && Inv(c, w) && w.r.state == HalfOpen
    ensures var w' := Run(c, w, schedule);
            && Inv(c, w') && w'.r == w.r.(inflight := c.halfOpenMaxCalls) && w'.epoch == w.epoch && w'.now == w.now
            && |Probes(w')| == |Probes(w)| + c.halfOpenMaxCalls - w.r.inflight
            && (forall k | k in w.outstanding :: k in w'.outstanding && w'.outstanding[k] == w.outstanding[k])
    decreases c.halfOpenMaxCalls - w.r.inflight
  {
    hide TrailingFailures, Run, Dwelt;
    if w.r.inflight == c.halfOpenMaxCalls {
      schedule := [];
      assert Run(c, w, []) == w by { NothingRuns(c, w); }
    } else {
      var w1 := Next(c, w, Ask(w.now));
      NextKeeps(c, w, Ask(w.now));
      assert w.next !in Probes(w);
      assert Probes(w1) == Probes(w) + {w.next};
      var rest := SlotsFill(c, w1);
      OneStep(c, w, Ask(w.now), rest);
      schedule := [Ask(w.now)] + rest;
    }
  }

  lemma NothingRuns(c: Config, w: World)
    ensures Run(c, w, []) == w
  {
  }

  lemma {:induction false} AllAbandoned(c: Config, w: World) returns (schedule: seq<Action>)
    ensures Run(c, w, schedule) == w.(outstanding := map[])
    decreases |w.outstanding|
  {
    hide Run;
    if w.outstanding == map[] {
      schedule := [];
      NothingRuns(c, w);
    } else {
      var call :| call in w.outstanding;
      assert (w.outstanding - {call}).Keys == w.outstanding.Keys - {call};
      var rest := AllAbandoned(c, Next(c, w, Abandon(call)));
      OneStep(c, w, Abandon(call), rest);
      schedule := [Abandon(call)] + rest;
    }
  }

  /** From a closed circuit: failures, the dwell, and probes in every slot. */
  lemma AllSlotsTaken(c: Config, w: World) returns (schedule: seq<Action>)
    requires ValidConfig(c) && Inv(c, w) && w.r.state == Closed
    ensures var w' := Run(c, w, schedule);
            && Inv(c, w') && w'.r.state == HalfOpen && w'.r.inflight == |Probes(w')| == c.halfOpenMaxCalls
            && w'.r.successes == 0 && w'.epoch == w.epoch + 1
            && (forall k | k in w.outstanding :: k in w'.outstanding && w'.outstanding[k] == w.outstanding[k])
  {
    hide Inv, Run, Next, Enabled, Probes;
    var trip := FailuresTrip(c, w);
    var w1 := Run(c, w, trip);
    DwellOpens(c, w1);
    var read := Read(w1.now + c.recoveryTimeout);
    var w2 := Next(c, w1, read);
    var fill := SlotsFill(c, w2);
    OneStep(c, w1, read, fill);
    RunJoins(c, w, trip, [read] + fill);
    schedule := trip + ([read] + fill);
  }

  /** Whatever the configuration, starvation is within reach: failures, the dwell, probes in
      every slot, and the cancellation of them all. */
  lemma StarvationIsReachable(c: Config)
    requires ValidConfig(c)
    ensures exists schedule :: Starved(c, Run(c, BEGIN, schedule))
  {
    hide Inv, Run, Probes;
    BeginHolds(c);
    var taken := AllSlotsTaken(c, BEGIN);
    var lost := AllAbandoned(c, Run(c, BEGIN, taken));
    RunJoins(c, BEGIN, taken, lost);
    assert Starved(c, Run(c, BEGIN, taken + lost));
  }

  /** More probes outstanding, half-open, than the configuration allows. */
  predicate Breached(c: Config, w: World) {
    w.r.state == HalfOpen && |Probes(w)| > c.halfOpenMaxCalls
  }

  /** The limit on outstanding probes holds on every trace exactly when one success closes the
      circuit; otherwise it is exceeded by at most one less than the successes that takes. */
  lemma ProbeLimitHoldsExactly(c: Config)
    requires ValidConfig(c)
    ensures (forall schedule :: !Breached(c, Run(c, BEGIN, schedule))) <==> c.successThreshold == 1
    ensures forall schedule :: var w := Run(c, BEGIN, schedule);
              w.r.state == HalfOpen ==> |Probes(w)| < c.halfOpenMaxCalls + c.successThreshold
  {
    hide Run, Probes;
    forall schedule
      ensures var w := Run(c, BEGIN, schedule);
              w.r.state == HalfOpen ==> |Probes(w)| < c.halfOpenMaxCalls + c.successThreshold
    {
      ProbesBelow(c, schedule);
    }
    if c.successThreshold > 1 {
      var schedule := LimitIsBreached(c);
      assert Breached(c, Run(c, BEGIN, schedule));
    }
  }

  lemma ProbesBelow(c: Config, schedule: seq<Action>)
    requires ValidConfig(c)
    ensures var w := Run(c, BEGIN, schedule);
            w.r.state == HalfOpen ==> |Probes(w)| < c.halfOpenMaxCalls + c.successThreshold
  {
    hide Run, TrailingFailures, Probes;
    BeginHolds(c);
    RunKeeps(c, BEGIN, schedule);
  }

  /** A call that outlives the failures, the dwell and the probes, and then succeeds. */
  lemma LimitIsBreached(c: Config) returns (schedule: seq<Action>)
    requires ValidConfig(c) && c.successThreshold > 1
    ensures Breached(c, Run(c, BEGIN, schedule))
  {
    hide Run, Inv, Probes;
    BeginHolds(c);
    NextKeeps(c, BEGIN, Ask(0.0));
    var w1 := Next(c, BEGIN, Ask(0.0));
    var taken := AllSlotsTaken(c, w1);
    var w2 := Run(c, w1, taken);
    var late, ask := Finish(0, true, w2.now), Ask(w2.now);
    assert 0 in w2.outstanding && w2.outstanding[0] == None;
    LateResultsFreeASlot(c, w2, 0, w2.now);
    var w3 := Next(c, w2, late);
    OneStep(c, w3, ask, []);
    OneStep(c, w2, late, [ask]);
    RunJoins(c, w1, taken, [late] + [ask]);
    OneStep(c, BEGIN, Ask(0.0), taken + ([late] + [ask]));
    schedule := [Ask(0.0)] + (taken + ([late] + [ask]));
    StaysHalfOpen(c, w2, 0, w2.now);
  }

  lemma StaysHalfOpen(c: Config, w: World, call: nat, at: real)
    requires w.r.state == HalfOpen && w.r.successes + 1 < c.successThreshold && Enabled(w, Finish(call, true, at))
    ensures Enabled(Next(c, w, Finish(call, true, at)), Ask(at))
    ensures Next(c, Next(c, w, Finish(call, true, at)), Ask(at)).r.state == HalfOpen
  {
  }

  // ---------------------------------------------------------------- routing a task through it

  /** How the bridge's execution ends; a cancelled caller is not caught by the handler. */
  datatype Executed = Answers(ok: bool) | Throws | Interrupted

  datatype Routed = UnknownBridge | Unavailable | Returned(ok: bool) | Cancelled

  /** One routed call: admission at `now`, the result recorded at `later`. */
  function Route(c: Config, r: Runtime, executed: Executed, now: real, later: real): (Runtime, Routed) {
    var (f, admitted) := Allowed(c, r, now);
    if !admitted then (f, Unavailable)
    else
      match executed
      case Interrupted => (f, Cancelled)
      case Throws => (FailedOnce(c, f, later), Returned(false))
      case Answers(ok) => (if ok then Succeeded(c, f) else FailedOnce(c, f, later), Returned(ok))
  }

  class ExternalCoordinator {
    var breakers: map<string, CircuitBreaker>

    constructor ()
      ensures breakers == map[]
    {
      breakers := map[];
    }

    method RouteTask(bridge: string, executed: Executed, now: real, later: real) returns (routed: Routed)
      modifies if bridge in breakers then {breakers[bridge]} else {}
      ensures bridge !in breakers ==> routed == UnknownBridge
      ensures bridge in breakers ==>
                var b := breakers[bridge];
                (b.View(), routed) == Route(b.config, old(b.View()), executed, now, later)
    {
      if bridge !in breakers {
        return UnknownBridge;
      }
      var breaker := breakers[bridge];
      var admitted := breaker.Allow(now);
      if !admitted {
        return Unavailable;
      }
      match executed
      case Interrupted => return Cancelled;
      case Throws =>
        breaker.RecordFailure(later);
        return Returned(false);
      case Answers(ok) =>
        if ok {
          breaker.RecordSuccess();
        } else {
          breaker.RecordFailure(later);
        }
        return Returned(ok);
    }
  }

  /** A routed call is a run of the breaker: one admission and, once admitted, one result, or
      none when its caller is cancelled; either way it leaves no call of its own outstanding.
      While half-open it gives its slot back unless it was cancelled, and then it keeps it. */
  lemma RouteIsRun(c: Config, w: World, executed: Executed, now: real, later: real) returns (schedule: seq<Action>)
    requires ValidConfig(c) && Inv(c, w) && w.now <= now <= later
    ensures var w', routed := Run(c, w, schedule), Route(c, w.r, executed, now, later);
            && w'.r == routed.0 && w'.outstanding == w.outstanding
            && w'.results == w.results + (if routed.1.Returned? then [routed.1.ok] else [])
            && (w.r.state == HalfOpen && routed.1 != Unavailable ==>
                  w'.r.inflight == w.r.inflight + if routed.1 == Cancelled then 1 else 0)
  {
    hide Inv, TrailingFailures;
    var call := w.next;
    assert call !in w.outstanding by { NextIsNew(c, w); }
    var w1 := Next(c, w, Ask(now));
    var last := if executed.Interrupted? then Abandon(call) else Finish(call, executed == Answers(true), later);
    if Allowed(c, w.r, now).1 {
      schedule := [Ask(now)] + [last];
      OneStep(c, w1, last, []);
      OneStep(c, w, Ask(now), [last]);
      assert w1.outstanding - {call} == w.outstanding;
    } else {
      schedule := [Ask(now)];
      OneStep(c, w, Ask(now), []);
    }
  }

  lemma NextIsNew(c: Config, w: World)
    requires Inv(c, w)
    ensures w.next !in w.outstanding
  {
  }

  // ---------------------------------------------------------------- when the state moves

  /** On every trace: an open circuit turns half-open exactly when the dwell has passed and someone
      looks; a half-open one closes exactly at a success that completes the threshold of successes
      in its epoch, and opens at any failure; a closed one opens exactly at a failure that
      completes the threshold of failures in a row. */
  lemma StateMovesExactly(c: Config, schedule: seq<Action>, a: Action)
    requires ValidConfig(c) && Enabled(Run(c, BEGIN, schedule), a)
    ensures var w := Run(c, BEGIN, schedule);
            var w' := Next(c, w, a);
            match w.r.state
            case Closed =>
              if a.Finish? && !a.ok && TrailingFailures(w.results) + 1 >= c.failureThreshold
              then w'.r.state == Open && w'.r.openedAt == a.at else w'.r.state == Closed
            case Open =>
              if (a.Ask? || a.Read?) && a.at - w.r.openedAt >= c.recoveryTimeout then w'.r.state == HalfOpen else w'.r.state == Open
            case HalfOpen =>
              if a.Finish? && !a.ok then w'.r.state == Open && w'.r.openedAt == a.at
              else if a.Finish? && w.recorded + 1 >= c.successThreshold then w'.r.state == Closed && w'.r.failures == 0
              else w'.r.state == HalfOpen
  {
    hide Run, TrailingFailures, CallsOk, Dwelt;
    BeginHolds(c);
    RunKeeps(c, BEGIN, schedule);
  }

  /** A call is admitted exactly by a closed circuit, or by a half-open one, or one whose dwell has
      passed, with a slot free; and then takes the slot. */
  lemma AdmissionMeans(c: Config, r: Runtime, now: real)
    requires ValidConfig(c)
    ensures var (r', admitted) := Allowed(c, r, now);
            && (admitted <==> r.state == Closed
                              || (r.state == HalfOpen && r.inflight < c.halfOpenMaxCalls)
                              || (r.state == Open && now - r.openedAt >= c.recoveryTimeout))
            && (r.state == HalfOpen && admitted ==> r' == r.(inflight := r.inflight + 1))
            && (r.state == Open && admitted ==> r' == r.(state := HalfOpen, successes := 0, inflight := 1))
            && (!admitted || r.state == Closed ==> r' == r)
  {
  }

  /** A result gives back one half-open slot, whatever it is; a success clears the failures. */
  lemma ResultMeans(c: Config, r: Runtime, now: real)
    ensures Succeeded(c, r).failures == 0 && FailedOnce(c, r, now).failures == r.failures + 1
    ensures r.state == HalfOpen ==>
              && Succeeded(c, r).inflight == (if r.inflight == 0 then 0 else r.inflight - 1)
              && FailedOnce(c, r, now).inflight == (if r.inflight == 0 then 0 else r.inflight - 1)
    ensures r.state != HalfOpen ==> Succeeded(c, r) == r.(failures := 0) && FailedOnce(c, r, now).inflight == r.inflight
  {
  }
}
