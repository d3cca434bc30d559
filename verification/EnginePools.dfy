/** Conservation and order: where every submitted request is, in every reachable state. */
module EnginePools {
  import opened Types
  import opened Requests
  import opened QueueSpec
  import opened EngineModel
  import Policy

  // ------------------------------------------------------------------ the invariant

  ghost predicate QueueOk(s: State, m: ModelName)
    requires m in s.queues
  {
    && Ordered(s.reqs, m, s.queues[m])
    && forall id :: id in s.queues[m] ==> s.reqs[id].state == Queued
  }

  ghost predicate Placed(s: State, i: nat)
    requires i < |s.reqs|
  {
    && s.reqs[i].model in s.queues
    && (s.reqs[i].state == Queued ==> i in s.queues[s.reqs[i].model])
    && (s.reqs[i].state == Running ==> i in s.inFlight)
  }

  /** An entry of the in-flight table is a dispatched request of the resident model. */
  ghost predicate Flying(s: State, id: nat) {
    id < |s.reqs| && s.reqs[id].state != Queued && s.resident == Some(s.reqs[id].model)
  }

  ghost predicate Distinct(ids: seq<nat>) {
    forall j, k :: 0 <= j < k < |ids| ==> ids[j] != ids[k]
  }

  ghost predicate Pools(c: AppConfig, s: State) {
    && WellFormed(c, s)
    && (forall m :: m in s.queues ==> QueueOk(s, m))
    && (forall i: nat :: i < |s.reqs| ==> Placed(s, i))
    && (forall id :: id in s.inFlight ==> Flying(s, id))
    && Distinct(s.inFlight)
    && |s.inFlight| <= c.scheduler.maxConcurrent
  }

  // ------------------------------------------------------------------ small steps

  /** A step that leaves every request's model and state alone, and the pools too. */
  lemma SameStates(c: AppConfig, s: State, t: State)
    requires Pools(c, s)
    requires |t.reqs| == |s.reqs|
    requires forall i :: 0 <= i < |s.reqs| ==> t.reqs[i].model == s.reqs[i].model && t.reqs[i].state == s.reqs[i].state
    requires t.queues == s.queues && t.inFlight == s.inFlight && t.resident == s.resident
    ensures Pools(c, t)
  {
    forall m | m in t.queues ensures QueueOk(t, m) {
      assert QueueOk(s, m);
    }
    forall i: nat | i < |t.reqs| ensures Placed(t, i) {
      assert Placed(s, i);
    }
    forall id | id in t.inFlight ensures Flying(t, id) {
      assert Flying(s, id);
    }
  }

  /** A running request moves on within its task. */
  lemma TaskMoves(c: AppConfig, s: State, t: State, id: nat)
    requires Pools(c, s)
    requires id in s.inFlight && IsRunning(s, id)
    requires |t.reqs| == |s.reqs| && t.reqs == s.reqs[id := t.reqs[id]]
    requires t.reqs[id].model == s.reqs[id].model && t.reqs[id].state != Queued
    requires t.queues == s.queues && t.inFlight == s.inFlight && t.resident == s.resident
    ensures Pools(c, t)
  {
    forall m | m in t.queues ensures QueueOk(t, m) {
      assert QueueOk(s, m);
    }
    forall i: nat | i < |t.reqs| ensures Placed(t, i) {
      assert Placed(s, i);
    }
    forall x | x in t.inFlight ensures Flying(t, x) {
      assert Flying(s, x);
    }
  }

  lemma SubmitKeepsPools(c: AppConfig, s: State, model: ModelName)
    requires Pools(c, s)
    ensures Pools(c, Submitted(s, model))
  {
    if model in s.queues {
      var t := Submitted(s, model);
      forall m | m in t.queues ensures QueueOk(t, m) {
        assert QueueOk(s, m);
        AppendKeepsOrdered(s.reqs, t.reqs, m, s.queues[m], |s.reqs|);
      }
      forall i: nat | i < |t.reqs| ensures Placed(t, i) {
        if i < |s.reqs| {
          assert Placed(s, i);
          assert i in s.queues[s.reqs[i].model] ==> i in t.queues[s.reqs[i].model];
        } else {
          assert t.queues[model][|s.queues[model]|] == i;
        }
      }
      forall id | id in t.inFlight ensures Flying(t, id) {
        assert Flying(s, id);
      }
    }
  }

  lemma AppendKeepsOrdered(reqs: Table, after: Table, m: ModelName, q: seq<nat>, id: nat)
    requires Ordered(reqs, m, q)
    requires id == |reqs| && |after| == |reqs| + 1 && after[..id] == reqs
    ensures Ordered(after, m, q)
    ensures after[id].model == m ==> Ordered(after, m, q + [id])
    ensures forall x :: x in q ==> after[x] == reqs[x]
  {
    assert forall x :: x in q ==> after[x] == after[..id][x];
  }

  lemma DoneIsNotRunning(s: State, i: nat)
    requires AllTasksDone(s)
    ensures i in s.inFlight ==> !IsRunning(s, i)
  {
    if i in s.inFlight {
      var k :| 0 <= k < |s.inFlight| && s.inFlight[k] == i;
    }
  }

  /** Requests leave the in-flight table only once they are no longer running. */
  lemma LandedKeepsPools(c: AppConfig, s: State, t: State)
    requires Pools(c, s)
    requires t.reqs == s.reqs && t.queues == s.queues
    requires t.inFlight == [] && AllTasksDone(s)
    requires t.resident.Some? ==> t.resident.value in s.queues
    requires 0 < c.scheduler.maxConcurrent
    ensures Pools(c, t)
  {
    forall m | m in t.queues ensures QueueOk(t, m) {
      assert QueueOk(s, m);
    }
    forall i: nat | i < |t.reqs| ensures Placed(t, i) {
      assert Placed(s, i);
      DoneIsNotRunning(s, i);
    }
  }

  // ------------------------------------------------------------------ the sweep

  lemma {:induction false} StillRunningMembers(reqs: Table, ids: seq<nat>)
    requires Within(ids, reqs)
    ensures forall id :: id in StillRunning(reqs, ids) <==> id in ids && reqs[id].state == Running
    ensures |StillRunning(reqs, ids)| <= |ids|
    ensures Distinct(ids) ==> Distinct(StillRunning(reqs, ids))
  {
    if ids != [] {
      assert ids == [ids[0]] + ids[1..];
      assert forall k :: 0 <= k < |ids[1..]| ==> ids[1..][k] == ids[k + 1];
      StillRunningMembers(reqs, ids[1..]);
    }
  }

  lemma PurgeKeepsPools(c: AppConfig, s: State)
    requires Pools(c, s)
    ensures Pools(c, Purged(s))
    ensures forall m :: m in s.queues ==> Purged(s).queues[m] == Live(s.reqs, s.queues[m])
  {
    var t := Purged(s);
    forall m | m in t.queues ensures QueueOk(t, m) {
      assert QueueOk(s, m);
      PurgeKeepsLive(s.reqs, t.reqs, m, s.queues[m]);
      LiveMembers(s.reqs, s.queues[m]);
    }
    forall i: nat | i < |t.reqs| ensures Placed(t, i) {
      assert Placed(s, i);
      LiveMembers(s.reqs, s.queues[s.reqs[i].model]);
    }
    forall id | id in t.inFlight ensures Flying(t, id) {
      assert Flying(s, id);
    }
  }

  lemma ReapKeepsPools(c: AppConfig, s: State)
    requires Pools(c, s)
    ensures Pools(c, Reaped(s))
  {
    var t := Reaped(s);
    StillRunningMembers(s.reqs, s.inFlight);
    forall m | m in t.queues ensures QueueOk(t, m) {
      assert QueueOk(s, m);
    }
    forall i: nat | i < |t.reqs| ensures Placed(t, i) {
      assert Placed(s, i);
    }
    forall id | id in t.inFlight ensures Flying(t, id) {
      assert Flying(s, id);
    }
  }

  lemma SweepKeepsPools(c: AppConfig, s: State)
    requires Pools(c, s)
    ensures Pools(c, Swept(c, s))
  {
    PurgeKeepsPools(c, s);
    SameStates(c, Purged(s), Disconnected(Purged(s)));
    ReapKeepsPools(c, Disconnected(Purged(s)));
    SameStates(c, Reaped(Disconnected(Purged(s))), Swept(c, s));
  }

  /** What the sweep leaves in the table is still running. */
  lemma SweptAllRun(c: AppConfig, s: State)
    requires WellFormed(c, s)
    ensures WellFormed(c, Swept(c, s)) && Swept(c, s).wakeup == s.wakeup
    ensures forall k :: 0 <= k < |Swept(c, s).inFlight| ==> IsRunning(Swept(c, s), Swept(c, s).inFlight[k])
  {
    var told := Disconnected(Purged(s));
    StillRunningMembers(told.reqs, told.inFlight);
    var t := Swept(c, s);
    forall k | 0 <= k < |t.inFlight| ensures IsRunning(t, t.inFlight[k]) {
      assert t.inFlight[k] in StillRunning(told.reqs, told.inFlight);
    }
  }

  /** The sweep changes requests, queues, the in-flight table and the idleness mark, and nothing else. */
  lemma SweepKeepsLoop(c: AppConfig, s: State)
    requires WellFormed(c, s)
    ensures var t := Swept(c, s);
      && t == s.(reqs := t.reqs, queues := t.queues, inFlight := t.inFlight, idleSince := t.idleSince)
      && |t.reqs| == |s.reqs|
  {
  }

  // ------------------------------------------------------------------ dispatch

  lemma DispatchIs(c: AppConfig, s: State, b: QueueSpec.Batch)
    requires WellFormed(c, s) && s.resident.Some? && |s.inFlight| < c.scheduler.maxConcurrent
    requires b == TakeWhile(s.reqs, s.queues[s.resident.value], s.now, c.scheduler.maxConcurrent - |s.inFlight|)
    ensures Dispatched(c, s) == s.(reqs := b.reqs, queues := s.queues[s.resident.value := b.rest],
                                   inFlight := s.inFlight + b.ids, dispatched := s.dispatched + b.ids)
  {
  }

  lemma DispatchKeepsPools(c: AppConfig, s: State)
    requires Pools(c, s)
    ensures Pools(c, Dispatched(c, s))
  {
    var capacity := c.scheduler.maxConcurrent - |s.inFlight|;
    if s.resident.Some? && 0 < capacity {
      var m := s.resident.value;
      var b := TakeWhile(s.reqs, s.queues[m], s.now, capacity);
      var t := Dispatched(c, s);
      assert QueueOk(s, m);
      TakeWhileKeepsOrder(s.reqs, s.queues[m], s.now, capacity);
      TakeWhileTouches(s.reqs, s.queues[m], s.now, capacity);
      TakeWhileServesPrefix(s.reqs, s.queues[m], s.now, capacity);
      forall n | n in t.queues ensures QueueOk(t, n) {
        BatchKeepsQueueOk(s, t, m, b, n);
      }
      forall i: nat | i < |t.reqs| ensures Placed(t, i) {
        assert Placed(s, i);
        assert Popped1(s.reqs, b.reqs, s.queues[m], b.rest, b.ids, s.now, i);
      }
      forall id | id in t.inFlight ensures Flying(t, id) {
        assert id in b.ids || Flying(s, id);
        BatchFlies(s, t, m, b, id);
      }
      JoinKeepsDistinct(s, m, b.ids);
    }
  }

  lemma BatchFlies(s: State, t: State, m: ModelName, b: Batch, id: nat)
    requires m in s.queues && QueueOk(s, m) && s.resident == Some(m)
    requires t.reqs == b.reqs && t.resident == s.resident && |b.reqs| == |s.reqs|
    requires OnlyPopped(s.reqs, b.reqs, s.queues[m], b.rest, b.ids, s.now) && IsPartOf(b.ids, s.queues[m])
    requires id in b.ids || Flying(s, id)
    ensures Flying(t, id)
  {
    assert id in b.ids ==> id in s.queues[m];
    assert Popped1(s.reqs, b.reqs, s.queues[m], b.rest, b.ids, s.now, id);
  }

  lemma BatchKeepsQueueOk(s: State, t: State, m: ModelName, b: Batch, n: ModelName)
    requires m in s.queues && n in s.queues && QueueOk(s, m) && QueueOk(s, n)
    requires t.reqs == b.reqs && t.queues == s.queues[m := b.rest]
    requires OnlyPopped(s.reqs, b.reqs, s.queues[m], b.rest, b.ids, s.now)
    requires Increasing(b.rest) && IsPartOf(b.rest, s.queues[m]) && IsPartOf(b.ids, s.queues[m]) && Precedes(b.ids, b.rest)
    ensures QueueOk(t, n)
  {
    forall k | 0 <= k < |t.queues[n]| ensures t.queues[n][k] < |t.reqs| {
      assert t.queues[n][k] in t.queues[n];
      assert t.queues[n][k] in s.queues[n];
    }
    forall id | id in t.queues[n] ensures t.reqs[id].model == n && t.reqs[id].state == Queued {
      assert id in s.queues[n];
      assert Popped1(s.reqs, b.reqs, s.queues[m], b.rest, b.ids, s.now, id);
    }
  }

  lemma JoinKeepsDistinct(s: State, m: ModelName, ids: seq<nat>)
    requires m in s.queues && QueueOk(s, m)
    requires IsPartOf(ids, s.queues[m]) && Increasing(ids)
    requires Distinct(s.inFlight) && forall id :: id in s.inFlight ==> Flying(s, id)
    ensures Distinct(s.inFlight + ids)
  {
    forall j, k | 0 <= j < k < |s.inFlight + ids| ensures (s.inFlight + ids)[j] != (s.inFlight + ids)[k] {
      if j < |s.inFlight| <= k {
        assert s.inFlight[j] in s.inFlight && Flying(s, s.inFlight[j]);
        assert ids[k - |s.inFlight|] in ids;
      }
    }
  }

  // ------------------------------------------------------------------ the pass

  lemma TargetIsConfigured(c: AppConfig, s: State)
    requires WellFormed(c, s) && c.Valid()
    ensures var d := DecisionOf(c, s);
      d.kind == Switch ==> d.target.Some? && d.target.value in c.Names()
  {
    SnapshotNames(c, s);
    Policy.SwitchTargetIsServable(SnapshotOf(c, s), s.now, c.scheduler);
    SeenIsConfigured(c, s, DecisionOf(c, s));
  }

  lemma SeenIsConfigured(c: AppConfig, s: State, d: Decision)
    requires WellFormed(c, s)
    requires d.kind == Switch ==> d.target.Some? && exists t :: t in SnapshotOf(c, s).models && t.name == d.target.value
    ensures d.kind == Switch ==> d.target.Some? && d.target.value in c.Names()
  {
    if d.kind == Switch {
      var t :| t in SnapshotOf(c, s).models && t.name == d.target.value;
      var i :| 0 <= i < |c.models| && SnapshotOf(c, s).models[i] == t;
      assert c.models[i].name in c.Names();
    }
  }

  lemma SnapshotNames(c: AppConfig, s: State)
    requires WellFormed(c, s) && c.Valid()
    ensures SnapshotOf(c, s).UniqueNames()
  {
    var models := SnapshotOf(c, s).models;
    forall i, j | 0 <= i < j < |models| ensures models[i].name != models[j].name {
      assert models[i] == ModelStateOf(s, c.models[i]);
    }
  }

  lemma ObeyKeepsPools(c: AppConfig, s: State, d: Decision)
    requires Pools(c, s) && c.Valid()
    ensures Pools(c, Obeyed(c, s, d))
  {
    if d.kind == Switch && d.target.Some? {
      if s.inFlight == [] {
        LandedKeepsPools(c, s, Obeyed(c, s, d));
      } else {
        SameStates(c, s, Obeyed(c, s, d));
      }
    } else if Policy.Dispatches(d) {
      DispatchKeepsPools(c, s);
      SameStates(c, Dispatched(c, s), Obeyed(c, s, d));
    } else {
      SameStates(c, s, Obeyed(c, s, d));
    }
  }

  lemma PassKeepsPools(c: AppConfig, s: State)
    requires Pools(c, s) && c.Valid()
    ensures Pools(c, Passed(c, s))
  {
    var woken := Woken(s);
    SameStates(c, s, woken);
    SweepKeepsPools(c, woken);
    ObeyKeepsPools(c, Swept(c, woken), DecisionOf(c, Swept(c, woken)));
  }

  /** What only time, failures and switches change. */
  ghost predicate SameBooks(s: State, t: State) {
    && t.now == s.now && t.unavailableUntil == s.unavailableUntil
    && t.failed == s.failed && t.crashed == s.crashed && t.faulted == s.faulted
    && t.loads == s.loads && t.timeLoading == s.timeLoading && t.swaps == s.swaps && t.scoredSwaps == s.scoredSwaps
  }

  lemma DispatchKeepsBooks(c: AppConfig, s: State)
    requires WellFormed(c, s)
    ensures SameBooks(s, Dispatched(c, s)) && |Dispatched(c, s).reqs| == |s.reqs|
  {
  }

  lemma ObeyKeepsBooks(c: AppConfig, s: State, d: Decision)
    requires WellFormed(c, s)
    ensures SameBooks(s, Obeyed(c, s, d)) && |Obeyed(c, s, d).reqs| == |s.reqs|
  {
    if !(d.kind == Switch && d.target.Some?) {
      DispatchKeepsBooks(c, s);
    }
  }

  lemma SweptKeepsBooks(c: AppConfig, s: State)
    requires WellFormed(c, s)
    ensures WellFormed(c, Woken(s)) && SameBooks(s, Swept(c, Woken(s)))
  {
  }

  /** A pass only decides and dispatches. */
  lemma PassKeepsBooks(c: AppConfig, s: State)
    requires WellFormed(c, s)
    ensures SameBooks(s, Passed(c, s))
  {
    SweptKeepsBooks(c, s);
    ObeyKeepsBooks(c, Swept(c, Woken(s)), DecisionOf(c, Swept(c, Woken(s))));
  }

  // ------------------------------------------------------------------ shutdown

  lemma RefuseKeepsPools(c: AppConfig, s: State)
    requires Pools(c, s) && AllTasksDone(s) && c.Valid()
    ensures Pools(c, StopDrained(s))
    ensures forall i: nat :: i < |s.reqs| ==> StopDrained(s).reqs[i].state.IsTerminal()
  {
    var t := StopDrained(s);
    forall m | m in t.queues ensures QueueOk(t, m) {}
    forall i: nat | i < |t.reqs| ensures Placed(t, i) && t.reqs[i].state.IsTerminal() {
      assert Placed(s, i);
      assert QueueOk(s, s.reqs[i].model);
      DoneIsNotRunning(s, i);
    }
  }

  // ------------------------------------------------------------------ what no step takes back

  /** A request keeps its model and arrival; a departed client stays departed; a dispatch time is never
      rewritten; what was put on the channel stays there; an outcome is final. */
  ghost predicate Persists(r: Request, later: Request) {
    && later.model == r.model && later.enqueuedAt == r.enqueuedAt
    && (r.cancelled ==> later.cancelled)
    && (r.startedAt.Some? ==> later.startedAt == r.startedAt)
    && r.channel <= later.channel && r.produced <= later.produced
    && (r.state.IsTerminal() ==> later.state == r.state && later.channel == r.channel)
    && (r.state == Running ==> later.state != Queued)
  }

  ghost predicate AllPersist(reqs: Table, later: Table) {
    |reqs| <= |later| && forall i: nat :: i < |reqs| ==> Persists(reqs[i], later[i])
  }

  lemma AllPersistTransitive(a: Table, b: Table, c: Table)
    requires AllPersist(a, b) && AllPersist(b, c)
    ensures AllPersist(a, c)
  {
    forall i: nat | i < |a| ensures Persists(a[i], c[i]) {
      assert Persists(a[i], b[i]) && Persists(b[i], c[i]);
    }
  }

  /** Nothing still queued has a dispatch time. */
  ghost predicate NotStarted(r: Request) {
    r.state == Queued ==> r.startedAt.None?
  }

  ghost predicate QueuedNotStarted(reqs: Table) {
    forall i: nat :: i < |reqs| ==> NotStarted(reqs[i])
  }

  lemma SweepPersists(c: AppConfig, s: State)
    requires Pools(c, s) && QueuedNotStarted(s.reqs)
    ensures AllPersist(s.reqs, Swept(c, s).reqs) && QueuedNotStarted(Swept(c, s).reqs)
  {
    var t := Swept(c, s);
    forall i: nat | i < |s.reqs| ensures Persists(s.reqs[i], t.reqs[i]) && NotStarted(t.reqs[i]) {
      assert Placed(s, i) && QueueOk(s, s.reqs[i].model) && NotStarted(s.reqs[i]);
    }
  }

  lemma DispatchPersists(c: AppConfig, s: State)
    requires Pools(c, s) && QueuedNotStarted(s.reqs)
    ensures AllPersist(s.reqs, Dispatched(c, s).reqs)
  {
    var capacity := c.scheduler.maxConcurrent - |s.inFlight|;
    if s.resident.Some? && 0 < capacity {
      var m := s.resident.value;
      var b := TakeWhile(s.reqs, s.queues[m], s.now, capacity);
      assert QueueOk(s, m);
      TakeWhileTouches(s.reqs, s.queues[m], s.now, capacity);
      TakeWhileKeepsOrder(s.reqs, s.queues[m], s.now, capacity);
      forall i: nat | i < |s.reqs| ensures Persists(s.reqs[i], b.reqs[i]) {
        assert Popped1(s.reqs, b.reqs, s.queues[m], b.rest, b.ids, s.now, i) && NotStarted(s.reqs[i]);
      }
    }
  }

  lemma ObeyPersists(c: AppConfig, s: State, d: Decision)
    requires Pools(c, s) && QueuedNotStarted(s.reqs)
    ensures AllPersist(s.reqs, Obeyed(c, s, d).reqs)
  {
    if !(d.kind == Switch && d.target.Some?) && Policy.Dispatches(d) {
      DispatchPersists(c, s);
    }
  }

  lemma PassPersists(c: AppConfig, s: State)
    requires Pools(c, s) && QueuedNotStarted(s.reqs)
    ensures AllPersist(s.reqs, Passed(c, s).reqs) && |Passed(c, s).reqs| == |s.reqs|
  {
    var swept := Swept(c, Woken(s));
    SweptPersists(c, s);
    ObeyPersists(c, swept, DecisionOf(c, swept));
    ObeyKeepsBooks(c, swept, DecisionOf(c, swept));
    AllPersistTransitive(s.reqs, swept.reqs, Passed(c, s).reqs);
  }

  lemma SweptPersists(c: AppConfig, s: State)
    requires Pools(c, s) && QueuedNotStarted(s.reqs)
    ensures var t := Swept(c, Woken(s));
      Pools(c, t) && AllPersist(s.reqs, t.reqs) && |t.reqs| == |s.reqs| && QueuedNotStarted(t.reqs)
  {
    SameStates(c, s, Woken(s));
    SweepPersists(c, Woken(s));
    SweepKeepsPools(c, Woken(s));
  }

  lemma TaskPersists(s: State, a: Action)
    requires a.IsTask() && IsRunning(s, a.id)
    ensures AllPersist(s.reqs, TaskStep(s, a).reqs)
  {
    TaskTouchesOne(s, a);
  }

  lemma TaskTouchesOne(s: State, a: Action)
    requires a.IsTask() && IsRunning(s, a.id)
    ensures var reqs := TaskStep(s, a).reqs;
      |reqs| == |s.reqs| && reqs == s.reqs[a.id := reqs[a.id]] && Persists(s.reqs[a.id], reqs[a.id])
  {
  }

  lemma RefusePersists(c: AppConfig, s: State)
    requires Pools(c, s)
    ensures AllPersist(s.reqs, StopDrained(s).reqs)
  {
    forall i: nat | i < |s.reqs| ensures Persists(s.reqs[i], StopDrained(s).reqs[i]) {
      assert Placed(s, i) && QueueOk(s, s.reqs[i].model);
    }
  }

  lemma ContainPersists(c: AppConfig, s: State, model: ModelName, pending: set<ModelName>)
    ensures AllPersist(s.reqs, Contained(c, s, model, pending).reqs)
    ensures |Contained(c, s, model, pending).reqs| == |s.reqs|
  {
    ToldPersist(s.reqs, OfModel(s.reqs, s.inFlight, model), false);
  }

  lemma ToldPersist(reqs: Table, ids: seq<nat>, onlyDisconnected: bool)
    ensures AllPersist(reqs, reqs) && AllPersist(reqs, CancelTasks(reqs, ids, onlyDisconnected))
  {
  }

  lemma OtherPersists(c: AppConfig, s: State, a: Action)
    requires WellFormed(c, s) && Enabled(c, s, a)
    requires !a.IsTask() && !a.Pass? && !a.FinishStopDrain? && !a.Contain?
    ensures AllPersist(s.reqs, Step(c, s, a).reqs)
    ensures !a.Submit? ==> |Step(c, s, a).reqs| == |s.reqs|
  {
    var t := Step(c, s, a);
    forall i: nat | i < |s.reqs| ensures i < |t.reqs| && Persists(s.reqs[i], t.reqs[i]) {}
  }

  lemma StepPersists(c: AppConfig, s: State, a: Action)
    requires Pools(c, s) && Enabled(c, s, a) && QueuedNotStarted(s.reqs)
    ensures AllPersist(s.reqs, Step(c, s, a).reqs)
    ensures !a.Submit? ==> |Step(c, s, a).reqs| == |s.reqs|
  {
    if a.IsTask() {
      TaskPersists(s, a);
    } else if a.Pass? {
      PassPersists(c, s);
    } else if a.FinishStopDrain? {
      RefusePersists(c, s);
    } else if a.Contain? {
      ContainPersists(c, s, a.model, s.phase.pending);
    } else {
      OtherPersists(c, s, a);
    }
  }
}
