/** Two backends: the wait of the vLLM backend for its server's health, and the mock, a backend that can be
    made to fail on cue. */
module Backends {
  import opened Types
  import Clock

  // ------------------------------------------------------------------ waiting for health

  /** Poll until the server's health is as wanted, or give up. `healthy(t)` is what a probe answered at `t`
      says, and the n-th probe takes `cost(n)`. It succeeds only on a probe that said so; it gives up only
      at or after the deadline, having heard otherwise throughout; and once the server is as wanted for
      good, in time, it succeeds within one polling interval and one probe. */
  method AwaitHealth(
    want: bool, start: real, timeout: real, poll: real, healthy: real -> bool, cost: nat -> real,
    ghost worst: real, ghost since: real)
    returns (ok: bool, at: real, probes: seq<real>)
    requires 0.0 < poll && 0.0 <= timeout && forall n: nat :: 0.0 <= cost(n) <= worst
    ensures probes != [] && probes[|probes| - 1] == at && start <= at < start + timeout + poll + worst
    ensures forall i :: 0 <= i < |probes| - 1 ==> healthy(probes[i]) != want && probes[i] < start + timeout
    ensures ok <==> healthy(at) == want
    ensures !ok ==> start + timeout <= at
    ensures since <= start + timeout && (forall t: real :: since <= t ==> healthy(t) == want) ==>
      ok && at <= Max(since, start) + poll + worst
  {
    var deadline := start + timeout;
    var now := start;
    probes := [];
    ghost var left := Clock.SomeFit(deadline - now + poll, poll);
    while true
      invariant start <= now < deadline + poll
      invariant forall i :: 0 <= i < |probes| ==> healthy(probes[i]) != want && probes[i] < deadline
      invariant probes != [] ==> now == probes[|probes| - 1] + poll
      invariant probes == [] ==> now == start
      invariant Clock.Fits(deadline - now + poll, left, poll)
      decreases left
    {
      ghost var span := deadline - now + poll;
      now := now + cost(|probes|);
      probes := probes + [now];
      if healthy(now) == want {
        return true, now, probes;
      }
      if now >= deadline {
        return false, now, probes;
      }
      Clock.OneFewerFits(span, left, deadline - now, poll);
      now := now + poll;
      left := left - 1;
    }
  }

  // ------------------------------------------------------------------ the mock

  /** `failEvery` and `crashAfter` switch a fault off when they are zero. */
  datatype MockParams = MockParams(failEvery: nat, crashAfter: nat, defaultBudget: nat)

  datatype Mock = Mock(loaded: bool, crashed: bool, attempts: nat, started: nat, completed: nat)

  datatype Outcome = Refused | Died | Completed

  function Loads(params: MockParams, m: Mock): bool {
    params.failEvery == 0 || (m.attempts + 1) % params.failEvery != 0
  }

  /** An attempt that fails leaves the process as it was; one that works is a fresh process. */
  function Started(params: MockParams, m: Mock): Mock {
    if Loads(params, m) then Mock(true, false, m.attempts + 1, 0, m.completed) else m.(attempts := m.attempts + 1)
  }

  function Stopped(m: Mock): Mock {
    m.(loaded := false, crashed := false)
  }

  /** Whether the next request is the one that kills the process. */
  predicate IsDoomed(params: MockParams, m: Mock, budget: int) {
    params.crashAfter != 0 && m.started + 1 > params.crashAfter && budget > 2
  }

  function Served(params: MockParams, m: Mock, budget: int): (Mock, Outcome) {
    if m.crashed || !m.loaded then (m, Refused)
    else if IsDoomed(params, m, budget) then (m.(loaded := false, crashed := true, started := m.started + 1), Died)
    else (m.(started := m.started + 1, completed := m.completed + 1), Completed)
  }

  class MockBackend {
    const params: MockParams
    var loaded: bool
    var crashed: bool
    var attempts: nat
    var started: nat
    var completed: nat

    constructor (params: MockParams)
      ensures this.params == params && View() == Mock(false, false, 0, 0, 0)
    {
      this.params := params;
      loaded, crashed, attempts, started, completed := false, false, 0, 0, 0;
    }

    ghost function View(): Mock
      reads this
    {
      Mock(loaded, crashed, attempts, started, completed)
    }

    /** False is the injected failure. */
    method Start() returns (ok: bool)
      modifies this
      ensures View() == Started(params, old(View())) && ok == Loads(params, old(View()))
    {
      attempts := attempts + 1;
      if params.failEvery != 0 && attempts % params.failEvery == 0 {
        return false;
      }
      loaded, crashed, started := true, false, 0;
      ok := true;
    }

    /** Allowed in every state, the crashed one included. */
    method Stop()
      modifies this
      ensures View() == Stopped(old(View()))
    {
      loaded, crashed := false, false;
    }

    /** One request, alone: its tokens are numbered from zero; a process that dies does so after two. */
    method Serve(asked: Option<int>, token: nat -> string) returns (chunks: seq<Chunk>, outcome: Outcome)
      modifies this
      ensures var budget := if asked.Some? && asked.value != 0 then asked.value else params.defaultBudget;
        && (View(), outcome) == Served(params, old(View()), budget)
        && |chunks| == match outcome case Refused => 0 case Died => 2 case Completed => (if budget < 0 then 0 else budget)
      ensures forall k :: 0 <= k < |chunks| ==> chunks[k] == Chunk(token(k), k)
    {
      chunks := [];
      if crashed || !loaded {
        return chunks, Refused;
      }
      started := started + 1;
      var dies := params.crashAfter != 0 && started > params.crashAfter;
      var budget := if asked.Some? && asked.value != 0 then asked.value else params.defaultBudget;
      var length := if budget < 0 then 0 else budget;
      for index := 0 to length
        invariant |chunks| == index && (dies ==> index <= 2)
        invariant forall k :: 0 <= k < index ==> chunks[k] == Chunk(token(k), k)
        invariant View() == old(View()).(started := old(started) + 1)
      {
        if dies && index >= 2 {
          crashed, loaded := true, false;
          return chunks, Died;
        }
        chunks := chunks + [Chunk(token(index), index)];
      }
      completed := completed + 1;
      outcome := Completed;
    }
  }

  // ------------------------------------------------------------------ a life of the mock

  /** The mock after `n` attempts to start it, one after another. */
  function Attempted(params: MockParams, m: Mock, n: nat): Mock {
    if n == 0 then m else Started(params, Attempted(params, m, n - 1))
  }

  predicate IsMultiple(n: nat, step: nat) {
    exists k: nat :: 0 <= k <= n && k * step == n
  }

  /** Of a new mock's attempts exactly every `failEvery`-th fails, if any does. One that works leaves a fresh
      process, whatever was there before; one that fails leaves what was there. */
  lemma {:induction false} FailsOnEveryNth(params: MockParams, n: nat)
    ensures var m := Attempted(params, Mock(false, false, 0, 0, 0), n);
      && m.attempts == n
      && (Loads(params, m) <==> params.failEvery == 0 || !IsMultiple(n + 1, params.failEvery))
      && var next := Attempted(params, Mock(false, false, 0, 0, 0), n + 1);
      && (Loads(params, m) ==> next.loaded && !next.crashed && next.started == 0)
      && (!Loads(params, m) ==> next.loaded == m.loaded && next.crashed == m.crashed && next.started == m.started)
  {
    if n > 0 {
      FailsOnEveryNth(params, n - 1);
    }
    if params.failEvery != 0 {
      MultipleIffNoRest(n + 1, params.failEvery);
    }
  }

  lemma MultipleIffNoRest(n: nat, step: nat)
    requires 0 < step
    ensures n % step == 0 <==> IsMultiple(n, step)
  {
    DividesWhole(n, step);
    if k: nat :| 0 <= k <= n && k * step == n {
      QuotientIsOne(step, n / step, n % step, k);
    } else if n % step == 0 {
      QuotientFits(step, n / step, n);
    }
  }

  lemma DividesWhole(n: nat, step: nat)
    requires 0 < step
    ensures n == (n / step) * step + n % step && 0 <= n / step && 0 <= n % step < step
  {
  }

  lemma QuotientFits(step: nat, q: nat, n: nat)
    requires 0 < step && n == q * step
    ensures q <= n
  {
    assert q * (step - 1) >= 0;
    assert q * step == q * (step - 1) + q;
  }

  /** Only one multiple of `step` is less than `step` below `k` times it or equal to it. */
  lemma QuotientIsOne(step: nat, q: nat, rest: nat, k: nat)
    requires 0 < step && rest < step && q * step + rest == k * step
    ensures rest == 0
  {
    var d := k - q;
    assert d * step == k * step - q * step == rest;
    AtLeastOne(d, step);
  }

  lemma AtLeastOne(d: int, step: nat)
    ensures d > 0 ==> d * step >= step
    ensures d < 0 ==> d * step <= 0
  {
    if d > 0 {
      assert (d - 1) * step >= 0;
      assert d * step == (d - 1) * step + step;
    }
  }

  function Outcomes(params: MockParams, m: Mock, budgets: seq<int>): seq<Outcome>
    decreases |budgets|
  {
    if budgets == [] then []
    else [Served(params, m, budgets[0]).1] + Outcomes(params, Served(params, m, budgets[0]).0, budgets[1..])
  }

  /** One life of a process, request by request: as long as nobody stops it, exactly the first `crashAfter`
      requests of a freshly loaded mock complete, the next one kills it, and it refuses all that follow. */
  lemma {:induction false} DiesOnCue(params: MockParams, m: Mock, budgets: seq<int>, k: nat)
    requires params.crashAfter != 0 && m.loaded && !m.crashed && m.started <= params.crashAfter
    requires forall i :: 0 <= i < |budgets| ==> budgets[i] > 2
    requires k < |budgets|
    ensures |Outcomes(params, m, budgets)| == |budgets|
    ensures Outcomes(params, m, budgets)[k] ==
      if m.started + k < params.crashAfter then Completed else if m.started + k == params.crashAfter then Died else Refused
    decreases |budgets|
  {
    var next := Served(params, m, budgets[0]).0;
    assert forall i :: 0 <= i < |budgets[1..]| ==> budgets[1..][i] == budgets[i + 1];
    if m.started == params.crashAfter {
      DeadRefuses(params, next, budgets[1..], k);
    } else if |budgets| > 1 {
      DiesOnCue(params, next, budgets[1..], if k == 0 then 0 else k - 1);
    }
  }

  lemma {:induction false} DeadRefuses(params: MockParams, m: Mock, budgets: seq<int>, k: nat)
    requires m.crashed
    ensures |Outcomes(params, m, budgets)| == |budgets|
    ensures 0 < k <= |budgets| ==> Outcomes(params, m, budgets)[k - 1] == Refused
    decreases |budgets|
  {
    if budgets != [] {
      DeadRefuses(params, m, budgets[1..], if k == 0 then 0 else k - 1);
    }
  }
}
