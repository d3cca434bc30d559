/** First in, first out: in every reachable state the order of dispatch of each model's requests is their
    order of submission, and nothing is dispatched twice. */
module EngineOrder {
  import opened Types
  import opened Requests
  import opened QueueSpec
  import opened EngineModel
  import opened EnginePools
  import opened EngineInvariant
  import Policy

  // ------------------------------------------------------------------ order of dispatch

  /** Position `k` in the order of dispatch: the request has left its queue, everything of its model
      dispatched before it was submitted before it, and everything still queued was submitted after it. */
  ghost predicate InOrder(s: State, k: nat)
    requires k < |s.dispatched|
  {
    var id := s.dispatched[k];
    && id < |s.reqs| && s.reqs[id].state != Queued && s.reqs[id].startedAt.Some?
    && (forall j :: 0 <= j < k && s.dispatched[j] < |s.reqs| && s.reqs[s.dispatched[j]].model == s.reqs[id].model ==>
          s.dispatched[j] < id)
    && (s.reqs[id].model in s.queues ==> forall x :: x in s.queues[s.reqs[id].model] ==> id < x)
  }

  ghost predicate OrderOk(s: State) {
    && (forall k: nat :: k < |s.dispatched| ==> InOrder(s, k))
    && (forall i :: 0 <= i < |s.reqs| ==> (s.reqs[i].startedAt.Some? <==> i in s.dispatched))
    && (forall i :: 0 <= i < |s.reqs| && s.reqs[i].state in {Running, Done, Failed} ==> i in s.dispatched)
  }

  // ------------------------------------------------------------------ order of dispatch, step by step

  /** A step that starts nothing. */
  ghost predicate StartsNothing(r: Request, later: Request) {
    later.startedAt == r.startedAt && (later.state in {Running, Done, Failed} ==> r.state in {Running, Done, Failed})
  }

  /** Queues only lose entries or gain newly submitted ones. */
  ghost predicate QueuesOnlyGrow(s: State, t: State, m: ModelName)
    requires m in t.queues
  {
    forall x :: x in t.queues[m] ==> (m in s.queues && x in s.queues[m]) || x >= |s.reqs|
  }

  lemma DispatchedIsKnown(s: State, i: nat)
    requires OrderOk(s)
    ensures i in s.dispatched ==> i < |s.reqs|
  {
    if i in s.dispatched {
      var k :| 0 <= k < |s.dispatched| && s.dispatched[k] == i;
      assert InOrder(s, k);
    }
  }

  lemma OrderFrame(s: State, t: State)
    requires OrderOk(s) && AllPersist(s.reqs, t.reqs) && t.dispatched == s.dispatched
    requires forall i: nat :: i < |s.reqs| ==> StartsNothing(s.reqs[i], t.reqs[i])
    requires forall i: nat :: |s.reqs| <= i < |t.reqs| ==> t.reqs[i].state == Queued && t.reqs[i].startedAt.None?
    requires forall m :: m in t.queues ==> QueuesOnlyGrow(s, t, m)
    requires t.queues.Keys == s.queues.Keys
    ensures OrderOk(t)
  {
    forall k: nat | k < |t.dispatched| ensures InOrder(t, k) {
      var id := t.dispatched[k];
      assert InOrder(s, k) && Persists(s.reqs[id], t.reqs[id]) && StartsNothing(s.reqs[id], t.reqs[id]);
      forall j | 0 <= j < k && t.dispatched[j] < |t.reqs| && t.reqs[t.dispatched[j]].model == t.reqs[id].model
        ensures t.dispatched[j] < id {
        assert InOrder(s, j) && Persists(s.reqs[s.dispatched[j]], t.reqs[s.dispatched[j]]);
      }
      if t.reqs[id].model in t.queues {
        assert QueuesOnlyGrow(s, t, t.reqs[id].model);
      }
    }
    forall i: nat | i < |t.reqs|
      ensures (t.reqs[i].startedAt.Some? <==> i in t.dispatched)
      ensures t.reqs[i].state in {Running, Done, Failed} ==> i in t.dispatched {
      DispatchedIsKnown(s, i);
      if i < |s.reqs| {
        assert StartsNothing(s.reqs[i], t.reqs[i]);
      }
    }
  }

  lemma SweepKeepsOrder(c: AppConfig, s: State)
    requires Pools(c, s) && RequestsOk(s) && OrderOk(s)
    ensures OrderOk(Swept(c, s))
  {
    var t := Swept(c, s);
    NothingStartedInQueue(s);
    SweepPersists(c, s);
    forall i: nat | i < |s.reqs| ensures StartsNothing(s.reqs[i], t.reqs[i]) {}
    forall m | m in t.queues ensures QueuesOnlyGrow(s, t, m) {
      LiveMembers(s.reqs, s.queues[m]);
    }
    OrderFrame(s, t);
  }

  /** A batch extends the order of dispatch. */
  lemma DispatchKeepsOrder(c: AppConfig, s: State)
    requires Pools(c, s) && RequestsOk(s) && OrderOk(s)
    ensures OrderOk(Dispatched(c, s))
  {
    var capacity := c.scheduler.maxConcurrent - |s.inFlight|;
    if s.resident.Some? && 0 < capacity {
      var m := s.resident.value;
      var b := TakeWhile(s.reqs, s.queues[m], s.now, capacity);
      var t := Dispatched(c, s);
      assert QueueOk(s, m);
      NothingStartedInQueue(s);
      TakeWhileTouches(s.reqs, s.queues[m], s.now, capacity);
      TakeWhileKeepsOrder(s.reqs, s.queues[m], s.now, capacity);
      DispatchPersists(c, s);
      forall k: nat | k < |t.dispatched| ensures InOrder(t, k) {
        if k < |s.dispatched| {
          OldStayInOrder(s, t, m, b, k);
        } else {
          NewAreInOrder(s, t, m, b, k);
        }
      }
      forall i: nat | i < |t.reqs|
        ensures (t.reqs[i].startedAt.Some? <==> i in t.dispatched)
        ensures t.reqs[i].state in {Running, Done, Failed} ==> i in t.dispatched {
        assert Popped1(s.reqs, b.reqs, s.queues[m], b.rest, b.ids, s.now, i);
      }
    }
  }

  ghost predicate IsBatch(s: State, t: State, m: ModelName, b: Batch) {
    && m in s.queues && QueueOk(s, m)
    && t.reqs == b.reqs && t.queues == s.queues[m := b.rest] && t.dispatched == s.dispatched + b.ids
    && OnlyPopped(s.reqs, b.reqs, s.queues[m], b.rest, b.ids, s.now)
    && Increasing(b.ids) && IsPartOf(b.rest, s.queues[m]) && IsPartOf(b.ids, s.queues[m]) && Precedes(b.ids, b.rest)
  }

  lemma OldStayInOrder(s: State, t: State, m: ModelName, b: Batch, k: nat)
    requires IsBatch(s, t, m, b) && OrderOk(s) && k < |s.dispatched|
    ensures InOrder(t, k)
  {
    var id := s.dispatched[k];
    assert InOrder(s, k);
    assert Popped1(s.reqs, b.reqs, s.queues[m], b.rest, b.ids, s.now, id);
    forall j | 0 <= j < k && t.dispatched[j] < |t.reqs| && t.reqs[t.dispatched[j]].model == t.reqs[id].model
      ensures t.dispatched[j] < id {
      assert Popped1(s.reqs, b.reqs, s.queues[m], b.rest, b.ids, s.now, s.dispatched[j]);
    }
  }

  lemma NewAreInOrder(s: State, t: State, m: ModelName, b: Batch, k: nat)
    requires IsBatch(s, t, m, b) && OrderOk(s) && |s.dispatched| <= k < |t.dispatched|
    ensures InOrder(t, k)
  {
    var id := t.dispatched[k];
    assert id == b.ids[k - |s.dispatched|] && id in b.ids && id in s.queues[m];
    assert Popped1(s.reqs, b.reqs, s.queues[m], b.rest, b.ids, s.now, id);
    forall j | 0 <= j < k && t.dispatched[j] < |t.reqs| && t.reqs[t.dispatched[j]].model == t.reqs[id].model
      ensures t.dispatched[j] < id {
      assert Popped1(s.reqs, b.reqs, s.queues[m], b.rest, b.ids, s.now, t.dispatched[j]);
      if j < |s.dispatched| {
        assert InOrder(s, j);
      }
    }
  }

  lemma ObeyKeepsOrder(c: AppConfig, s: State, d: Decision)
    requires Pools(c, s) && RequestsOk(s) && OrderOk(s)
    ensures OrderOk(Obeyed(c, s, d))
  {
    if d.kind == Switch && d.target.Some? {
      SwitchKeepsOrder(c, s, d);
    } else {
      DispatchKeepsOrder(c, s);
      PhaseKeepsOrder(if Policy.Dispatches(d) then Dispatched(c, s) else s, Waiting(s.now));
    }
  }

  lemma PhaseKeepsOrder(s: State, phase: Phase)
    requires OrderOk(s)
    ensures OrderOk(s.(phase := phase))
  {
    var t := s.(phase := phase);
    forall i: nat | i < |s.reqs| ensures Persists(s.reqs[i], t.reqs[i]) && StartsNothing(s.reqs[i], t.reqs[i]) {}
    forall m | m in t.queues ensures QueuesOnlyGrow(s, t, m) {}
    OrderFrame(s, t);
  }

  lemma SwitchKeepsOrder(c: AppConfig, s: State, d: Decision)
    requires WellFormed(c, s) && OrderOk(s) && d.kind == Switch && d.target.Some?
    ensures OrderOk(Obeyed(c, s, d))
  {
    var t := Obeyed(c, s, d);
    forall i: nat | i < |s.reqs| ensures Persists(s.reqs[i], t.reqs[i]) && StartsNothing(s.reqs[i], t.reqs[i]) {}
    forall m | m in t.queues ensures QueuesOnlyGrow(s, t, m) {}
    OrderFrame(s, t);
  }

  lemma PassKeepsOrder(c: AppConfig, s: State)
    requires Pools(c, s) && RequestsOk(s) && OrderOk(s) && IsDeciding(s)
    ensures OrderOk(Passed(c, s))
  {
    var woken := Woken(s);
    SameStates(c, s, woken);
    forall i: nat | i < |s.reqs| ensures Sound(woken, i) { SoundFrame(s, woken, i); }
    forall i: nat | i < |s.reqs| ensures Persists(s.reqs[i], woken.reqs[i]) {}
    forall m | m in woken.queues ensures QueuesOnlyGrow(s, woken, m) {}
    OrderFrame(s, woken);
    SweepKeepsOrder(c, woken);
    SweepKeepsPools(c, woken);
    SweepKeepsRequests(c, woken);
    ObeyKeepsOrder(c, Swept(c, woken), DecisionOf(c, Swept(c, woken)));
  }

  lemma TaskKeepsOrder(c: AppConfig, s: State, a: Action)
    requires Pools(c, s) && RequestsOk(s) && OrderOk(s) && a.IsTask() && Enabled(c, s, a)
    ensures OrderOk(TaskStep(s, a))
  {
    var t := TaskStep(s, a);
    TaskKeepsLoop(s, a);
    TaskPersists(s, a);
    forall i: nat | i < |s.reqs| ensures StartsNothing(s.reqs[i], t.reqs[i]) {}
    forall m | m in t.queues ensures QueuesOnlyGrow(s, t, m) {}
    OrderFrame(s, t);
  }

  lemma OtherStartsNothing(c: AppConfig, s: State, a: Action)
    requires WellFormed(c, s) && Enabled(c, s, a) && !a.IsTask() && !a.Pass?
    ensures var t := Step(c, s, a);
      && t.dispatched == s.dispatched && |s.reqs| <= |t.reqs|
      && forall i: nat :: i < |s.reqs| ==> StartsNothing(s.reqs[i], t.reqs[i])
  {
    var t := Step(c, s, a);
    if a.Contain? {
      ContainStartsNothing(c, s, a.model, s.phase.pending);
    } else {
      if a.IsSwitching() {
        assert t.reqs == s.reqs;
      }
      forall i: nat | i < |s.reqs| ensures i < |t.reqs| && StartsNothing(s.reqs[i], t.reqs[i]) {}
    }
  }

  lemma ContainStartsNothing(c: AppConfig, s: State, model: ModelName, pending: set<ModelName>)
    ensures var t := Contained(c, s, model, pending);
      && t.dispatched == s.dispatched && |s.reqs| == |t.reqs|
      && forall i: nat :: i < |s.reqs| ==> StartsNothing(s.reqs[i], t.reqs[i])
  {
  }

  lemma OtherKeepsQueues(c: AppConfig, s: State, a: Action)
    requires WellFormed(c, s) && Enabled(c, s, a) && !a.IsTask() && !a.Pass?
    ensures var t := Step(c, s, a);
      && t.queues.Keys == s.queues.Keys
      && (forall m :: m in t.queues ==> QueuesOnlyGrow(s, t, m))
      && forall i: nat :: |s.reqs| <= i < |t.reqs| ==> t.reqs[i].state == Queued && t.reqs[i].startedAt.None?
  {
    var t := Step(c, s, a);
    if a.Contain? {
      assert t.queues == s.queues && |t.reqs| == |s.reqs|;
    }
    forall m | m in t.queues ensures QueuesOnlyGrow(s, t, m) {}
  }

  lemma OtherKeepsOrder(c: AppConfig, s: State, a: Action)
    requires Pools(c, s) && RequestsOk(s) && OrderOk(s) && Enabled(c, s, a)
    requires !a.IsTask() && !a.Pass?
    ensures OrderOk(Step(c, s, a))
  {
    NothingStartedInQueue(s);
    StepPersists(c, s, a);
    OtherStartsNothing(c, s, a);
    OtherKeepsQueues(c, s, a);
    OrderFrame(s, Step(c, s, a));
  }

  lemma OrderStep(c: AppConfig, s: State, a: Action)
    requires Pools(c, s) && RequestsOk(s) && OrderOk(s) && Enabled(c, s, a)
    ensures OrderOk(Step(c, s, a))
  {
    if a.IsTask() {
      TaskKeepsOrder(c, s, a);
    } else if a.Pass? {
      PassKeepsOrder(c, s);
    } else {
      OtherKeepsOrder(c, s, a);
    }
  }
}
