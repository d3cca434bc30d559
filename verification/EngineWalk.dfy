/** The shortest way to a generating request, state by state: so many requests for one model, a load that
    takes no time, and the dispatch. What is said to be possible elsewhere is reached from here. */
module EngineWalk {
  import opened Types
  import opened Requests
  import opened QueueSpec
  import opened EngineModel
  import opened EnginePools
  import opened EngineInvariant
  import opened EngineTheorems
  import Policy

  function FirstIds(n: nat): (ids: seq<nat>)
    ensures |ids| == n && forall k :: 0 <= k < n ==> ids[k] == k
  {
    seq(n, k => k)
  }

  function Asks(m: ModelName, n: nat, now: real): (reqs: Table)
    ensures |reqs| == n && forall k :: 0 <= k < n ==> reqs[k] == Fresh(m, now)
  {
    seq(n, k => Fresh(m, now))
  }

  /** `n` requests for one model, and the loop has not looked yet. */
  function Asked(c: AppConfig, m: ModelName, n: nat, now: real): State {
    Init(c, now).(reqs := Asks(m, n, now), queues := Init(c, now).queues[m := FirstIds(n)], wakeup := n > 0)
  }

  function BeingLoaded(c: AppConfig, m: ModelName, n: nat, now: real): State {
    Asked(c, m, n, now).(wakeup := false, phase := Loading(m, now, now), switching := true, gpu := {m})
  }

  function Loaded(c: AppConfig, m: ModelName, n: nat, now: real): State {
    LoadSucceeded(BeingLoaded(c, m, n, now))
  }

  function Runs(m: ModelName, n: nat, now: real): (reqs: Table)
    ensures |reqs| == n && forall k :: 0 <= k < n ==> reqs[k] == Started(Fresh(m, now), now)
  {
    seq(n, k => Started(Fresh(m, now), now))
  }

  /** All of them generate. */
  function Serving(c: AppConfig, m: ModelName, n: nat, now: real): State {
    Loaded(c, m, n, now).(
      phase := Waiting(now), reqs := Runs(m, n, now), queues := Init(c, now).queues,
      inFlight := FirstIds(n), dispatched := FirstIds(n))
  }

  // ------------------------------------------------------------------ asking

  lemma AskedNone(c: AppConfig, m: ModelName, now: real)
    requires m in c.Names()
    ensures Asked(c, m, 0, now) == Init(c, now)
  {
    assert Asks(m, 0, now) == [] && FirstIds(0) == [];
    assert Init(c, now).queues[m := []] == Init(c, now).queues;
  }

  lemma OneMoreAsks(c: AppConfig, m: ModelName, n: nat, now: real)
    requires m in c.Names()
    ensures Submitted(Asked(c, m, n, now), m) == Asked(c, m, n + 1, now)
  {
    assert Asks(m, n, now) + [Fresh(m, now)] == Asks(m, n + 1, now);
    assert FirstIds(n) + [n] == FirstIds(n + 1);
    var queues: Queues := Init(c, now).queues;
    var before: Queues := queues[m := FirstIds(n)];
    assert before[m := FirstIds(n + 1)] == queues[m := FirstIds(n + 1)];
  }

  lemma {:induction false} AskedIsReachable(c: AppConfig, m: ModelName, n: nat, now: real)
    requires c.Valid() && m in c.Names()
    ensures Reachable(c, Asked(c, m, n, now))
  {
    if n == 0 {
      AskedNone(c, m, now);
      ReachableInit(c, now);
    } else {
      AskedIsReachable(c, m, n - 1, now);
      OneMoreAsks(c, m, n - 1, now);
      TakeStep(c, Asked(c, m, n - 1, now), Submit(m));
    }
  }

  lemma TakeStep(c: AppConfig, s: State, a: Action)
    requires c.Valid() && Reachable(c, s) && Enabled(c, s, a)
    ensures WellFormed(c, s) && Reachable(c, Step(c, s, a)) && Safe(c, Step(c, s, a))
  {
    ReachableInv(c, s);
    ReachableStep(c, s, a);
    ReachableInv(c, Step(c, s, a));
  }

  // ------------------------------------------------------------------ a sweep with nothing to do

  lemma {:induction false} AllAreLive(reqs: Table, q: seq<nat>)
    requires Within(q, reqs) && forall i :: 0 <= i < |reqs| ==> !reqs[i].cancelled
    ensures Live(reqs, q) == q
  {
    if q != [] {
      AllAreLive(reqs, q[1..]);
      assert q == [q[0]] + q[1..];
    }
  }

  lemma NothingToSweep(c: AppConfig, s: State)
    requires WellFormed(c, s) && s.inFlight == [] && forall i :: 0 <= i < |s.reqs| ==> !s.reqs[i].cancelled
    ensures Swept(c, s) == IdlenessTracked(s)
  {
    assert PurgedTable(s.reqs, s.queues) == s.reqs;
    forall m | m in s.queues ensures Live(s.reqs, s.queues[m]) == s.queues[m] {
      AllAreLive(s.reqs, s.queues[m]);
    }
    assert PurgedQueues(s.reqs, s.queues) == s.queues;
    assert CancelTasks(s.reqs, [], true) == s.reqs;
  }

  /** The loop is about to decide, with nothing in flight, nobody gone and work for `m` alone. */
  ghost predicate OnlyWorkIs(c: AppConfig, s: State, m: ModelName) {
    && WellFormed(c, s) && m in c.Names()
    && !s.draining && !s.switching && s.unavailableUntil == map[] && s.inFlight == []
    && (forall i :: 0 <= i < |s.reqs| ==> !s.reqs[i].cancelled)
    && (forall n :: n in s.queues ==> (s.queues[n] != [] <==> n == m))
  }

  lemma WorkIsSeen(c: AppConfig, s: State, m: ModelName, i: nat)
    requires OnlyWorkIs(c, s, m) && i < |c.models|
    ensures var t := SnapshotOf(c, s).models[i];
      t.name == c.models[i].name && (t.HasPending() <==> t.name == m) && t.IsAvailable(s.now)
  {
    var name := c.models[i].name;
    assert SnapshotOf(c, s).models[i] == ModelStateOf(s, c.models[i]);
    AllAreLive(s.reqs, s.queues[name]);
  }

  /** With an empty device the decision is to load that model. */
  lemma ColdDecision(c: AppConfig, s: State, m: ModelName)
    requires c.Valid() && OnlyWorkIs(c, s, m) && s.resident.None?
    ensures var d := DecisionOf(c, s); d.kind == Switch && d.target == Some(m)
  {
    var snapshot := SnapshotOf(c, s);
    SnapshotNames(c, s);
    var i :| 0 <= i < |c.models| && c.models[i].name == m;
    WorkIsSeen(c, s, m, i);
    assert snapshot.models[i] in snapshot.models;
    Policy.ColdStartLoads(snapshot, s.now, c.scheduler);
    Policy.SwitchTargetIsServable(snapshot, s.now, c.scheduler);
    PendingIsNamed(c, s, m);
  }

  lemma PendingIsNamed(c: AppConfig, s: State, m: ModelName)
    requires OnlyWorkIs(c, s, m)
    ensures forall t :: t in SnapshotOf(c, s).models && t.HasPending() ==> t.name == m
  {
    forall t | t in SnapshotOf(c, s).models && t.HasPending() ensures t.name == m {
      var i :| 0 <= i < |c.models| && SnapshotOf(c, s).models[i] == t;
      WorkIsSeen(c, s, m, i);
    }
  }

  /** With that model resident the decision lets it dispatch. */
  lemma WarmDecision(c: AppConfig, s: State, m: ModelName)
    requires c.Valid() && OnlyWorkIs(c, s, m) && s.resident == Some(m)
    ensures var d := DecisionOf(c, s); Policy.Dispatches(d) && d.kind != Switch
  {
    var snapshot := SnapshotOf(c, s);
    SnapshotNames(c, s);
    var i :| 0 <= i < |c.models| && c.models[i].name == m;
    WorkIsSeen(c, s, m, i);
    var resident := snapshot.models[i];
    PendingIsNamed(c, s, m);
    AllWithName(snapshot, resident);
    Policy.AloneIsServed(snapshot, s.now, c.scheduler, resident);
  }

  lemma AllWithName(snapshot: Snapshot, state: ModelState)
    requires snapshot.UniqueNames() && state in snapshot.models
    ensures forall t :: t in snapshot.models && t.name == state.name ==> t == state
  {
    forall t | t in snapshot.models && t.name == state.name ensures t == state {
      NamedIsUnique(snapshot.models, t);
      NamedIsUnique(snapshot.models, state);
    }
  }

  // ------------------------------------------------------------------ the first pass

  lemma AskedIsOnlyWork(c: AppConfig, m: ModelName, n: nat, now: real)
    requires m in c.Names() && 0 < n
    ensures OnlyWorkIs(c, Asked(c, m, n, now).(wakeup := false), m)
  {
  }

  lemma FirstPass(c: AppConfig, m: ModelName, n: nat, now: real)
    requires c.Valid() && m in c.Names() && 0 < n
    ensures WellFormed(c, Asked(c, m, n, now)) && Passed(c, Asked(c, m, n, now)) == BeingLoaded(c, m, n, now)
  {
    var s := Asked(c, m, n, now).(wakeup := false);
    AskedIsOnlyWork(c, m, n, now);
    NothingToSweep(c, s);
    assert IdlenessTracked(s) == s;
    ColdDecision(c, s, m);
    ColdObeyed(c, s, m, DecisionOf(c, s));
  }

  lemma ColdObeyed(c: AppConfig, s: State, m: ModelName, d: Decision)
    requires WellFormed(c, s) && s.inFlight == [] && s.resident.None? && s.gpu == {}
    requires d.kind == Switch && d.target == Some(m)
    ensures Obeyed(c, s, d) == s.(phase := Loading(m, s.now, s.now), switching := true, gpu := {m})
  {
    assert {} + {m} == {m};
  }

  // ------------------------------------------------------------------ the dispatch

  /** A batch of everything that is queued. */
  ghost predicate IsAll(reqs: Table, q: seq<nat>, now: real, b: Batch) {
    && b.ids == q && b.rest == [] && |b.reqs| == |reqs|
    && forall i :: 0 <= i < |reqs| ==> b.reqs[i] == if i in q then Started(reqs[i], now) else reqs[i]
  }

  ghost predicate NobodyGone(reqs: Table) {
    forall i :: 0 <= i < |reqs| ==> !reqs[i].cancelled
  }

  lemma {:induction false} TakeAll(reqs: Table, q: seq<nat>, now: real, limit: int)
    requires Within(q, reqs) && Increasing(q) && |q| <= limit && NobodyGone(reqs)
    ensures IsAll(reqs, q, now, TakeWhile(reqs, q, now, limit))
    decreases q
  {
    if q != [] {
      IncreasingSplit(q);
      var started := reqs[q[0] := Started(reqs[q[0]], now)];
      FirstIsTaken(reqs, q, now, limit);
      TakeAll(started, q[1..], now, limit - 1);
      OneMoreIsAll(reqs, q, now, TakeWhile(started, q[1..], now, limit - 1));
    }
  }

  lemma FirstIsTaken(reqs: Table, q: seq<nat>, now: real, limit: int)
    requires Within(q, reqs) && q != [] && 0 < limit && NobodyGone(reqs)
    ensures var started := reqs[q[0] := Started(reqs[q[0]], now)];
      && Within(q[1..], started) && NobodyGone(started)
      && var b := TakeWhile(started, q[1..], now, limit - 1);
      TakeWhile(reqs, q, now, limit) == Batch(b.reqs, b.rest, [q[0]] + b.ids)
  {
    assert NextFor(reqs, q, now) == Popped(reqs[q[0] := Started(reqs[q[0]], now)], q[1..], Some(q[0]));
  }

  lemma OneMoreIsAll(reqs: Table, q: seq<nat>, now: real, b: Batch)
    requires Within(q, reqs) && q != [] && forall x :: x in q[1..] ==> q[0] < x
    requires IsAll(reqs[q[0] := Started(reqs[q[0]], now)], q[1..], now, b)
    ensures IsAll(reqs, q, now, Batch(b.reqs, b.rest, [q[0]] + b.ids))
  {
    assert q == [q[0]] + q[1..];
  }

  lemma LoadedIsOnlyWork(c: AppConfig, m: ModelName, n: nat, now: real)
    requires m in c.Names() && 0 < n
    ensures OnlyWorkIs(c, Loaded(c, m, n, now), m) && Loaded(c, m, n, now).resident == Some(m)
  {
  }

  lemma SecondPass(c: AppConfig, m: ModelName, n: nat, now: real)
    requires c.Valid() && m in c.Names() && 0 < n <= c.scheduler.maxConcurrent
    ensures WellFormed(c, Loaded(c, m, n, now)) && Passed(c, Loaded(c, m, n, now)) == Serving(c, m, n, now)
  {
    var s := Loaded(c, m, n, now);
    LoadedIsOnlyWork(c, m, n, now);
    assert Woken(s) == s;
    NothingToSweep(c, s);
    AllAreLive(s.reqs, s.queues[m]);
    assert IdlenessTracked(s) == s;
    WarmDecision(c, s, m);
    AllDispatched(c, m, n, now);
    WarmObeyed(c, s, DecisionOf(c, s));
  }

  lemma WarmObeyed(c: AppConfig, s: State, d: Decision)
    requires WellFormed(c, s) && Policy.Dispatches(d) && d.kind != Switch
    ensures Obeyed(c, s, d) == Dispatched(c, s).(phase := Waiting(s.now))
  {
  }

  lemma AllDispatched(c: AppConfig, m: ModelName, n: nat, now: real)
    requires c.Valid() && m in c.Names() && 0 < n <= c.scheduler.maxConcurrent
    requires WellFormed(c, Loaded(c, m, n, now))
    ensures Dispatched(c, Loaded(c, m, n, now)).(phase := Waiting(now)) == Serving(c, m, n, now)
  {
    LoadedIs(c, m, n, now);
    DispatchesAll(c, Loaded(c, m, n, now), m, n);
    QueueEmptied(c, m, n, now);
  }

  lemma DispatchesAll(c: AppConfig, s: State, m: ModelName, n: nat)
    requires WellFormed(c, s) && s.resident == Some(m) && s.inFlight == [] && 0 < n <= c.scheduler.maxConcurrent
    requires s.reqs == Asks(m, n, s.now) && s.queues[m] == FirstIds(n)
    ensures Dispatched(c, s) == s.(reqs := Runs(m, n, s.now), queues := s.queues[m := []],
                                   inFlight := s.inFlight + FirstIds(n), dispatched := s.dispatched + FirstIds(n))
  {
    TakeAll(s.reqs, s.queues[m], s.now, c.scheduler.maxConcurrent);
    AllRun(m, n, s.now, TakeWhile(s.reqs, s.queues[m], s.now, c.scheduler.maxConcurrent));
    DispatchIs(c, s, Batch(Runs(m, n, s.now), [], FirstIds(n)));
  }

  lemma LoadedIs(c: AppConfig, m: ModelName, n: nat, now: real)
    requires m in c.Names()
    ensures var s := Loaded(c, m, n, now);
      && s.reqs == Asks(m, n, now) && s.queues[m] == FirstIds(n) && s.resident == Some(m) && s.now == now
      && s.inFlight + FirstIds(n) == FirstIds(n) && s.dispatched + FirstIds(n) == FirstIds(n) && s.inFlight == []
  {
    assert [] + FirstIds(n) == FirstIds(n);
  }

  lemma AllRun(m: ModelName, n: nat, now: real, b: Batch)
    requires IsAll(Asks(m, n, now), FirstIds(n), now, b)
    ensures b == Batch(Runs(m, n, now), [], FirstIds(n))
  {
    forall i | 0 <= i < n ensures b.reqs[i] == Runs(m, n, now)[i] {
      assert FirstIds(n)[i] == i;
    }
    assert b.reqs == Runs(m, n, now);
  }

  lemma QueueEmptied(c: AppConfig, m: ModelName, n: nat, now: real)
    requires m in c.Names()
    ensures Loaded(c, m, n, now).queues[m := []] == Init(c, now).queues
  {
  }

  /** Up to the cap, any number of requests for any model can be generating at once. */
  lemma ServingIsReachable(c: AppConfig, m: ModelName, n: nat, now: real)
    requires c.Valid() && m in c.Names() && 0 < n <= c.scheduler.maxConcurrent
    ensures Reachable(c, Serving(c, m, n, now))
  {
    AskedIsReachable(c, m, n, now);
    FirstPass(c, m, n, now);
    TakePass(c, Asked(c, m, n, now));
    TakeLoad(c, BeingLoaded(c, m, n, now));
    SecondPass(c, m, n, now);
    TakePass(c, Loaded(c, m, n, now));
  }

  lemma TakePass(c: AppConfig, s: State)
    requires c.Valid() && Reachable(c, s) && WellFormed(c, s) && IsDeciding(s)
    ensures Reachable(c, Passed(c, s))
  {
    TakeStep(c, s, Pass);
  }

  lemma TakeLoad(c: AppConfig, s: State)
    requires c.Valid() && Reachable(c, s) && s.phase.Loading?
    ensures Reachable(c, LoadSucceeded(s))
  {
    TakeStep(c, s, FinishLoad);
  }
}
