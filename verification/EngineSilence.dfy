/** Which requests end without a terminator: exactly those whose task was told to stop; and who tells whom. */
module EngineSilence {
  import opened Types
  import opened Requests
  import opened QueueSpec
  import opened EngineModel
  import opened EnginePools
  import opened EngineInvariant
  import opened EngineTheorems
  import opened EngineWalk

  /** Every exit of a serving task. It puts a terminator on the channel if and only if the task had not
      been told to stop and the client is still there or the stream fails: a failure is reported even to a
      client that has gone. */
  lemma TerminatorIff(c: AppConfig, s: State, a: Action)
    requires c.Valid() && Reachable(c, s) && WellFormed(c, s) && Enabled(c, s, a) && a.IsTask()
    requires Step(c, s, a).reqs[a.id].state.IsTerminal()
    ensures HasTerminator(Step(c, s, a).reqs[a.id]) <==>
      !s.reqs[a.id].cancelRequested && (!s.reqs[a.id].cancelled || a.TaskBackendFails? || a.TaskFaults?)
  {
    ReachableInv(c, s);
    assert Sound(s, a.id);
    TaskEnds(s, a);
  }

  lemma TaskEnds(s: State, a: Action)
    requires a.IsTask() && IsRunning(s, a.id) && ChannelOk(s.reqs[a.id])
    requires a.TaskCancelled? <==> s.reqs[a.id].cancelRequested
    requires TaskStep(s, a).reqs[a.id].state.IsTerminal()
    ensures HasTerminator(TaskStep(s, a).reqs[a.id]) <==>
      !s.reqs[a.id].cancelRequested && (!s.reqs[a.id].cancelled || a.TaskBackendFails? || a.TaskFaults?)
  {
  }

  /** Who is told to stop while the client is still there: everybody generating when the router shuts down,
      everybody generating for a model whose failure is being handled, and nobody else. */
  lemma ToldIff(c: AppConfig, s: State, a: Action, i: nat)
    requires c.Valid() && Reachable(c, s) && WellFormed(c, s) && Enabled(c, s, a)
    requires IsRunning(s, i) && !s.reqs[i].cancelRequested && !s.reqs[i].cancelled
    ensures i < |Step(c, s, a).reqs|
    ensures Step(c, s, a).reqs[i].cancelRequested <==> a.BeginStop? || a == Contain(s.reqs[i].model)
  {
    ReachableInv(c, s);
    assert Placed(s, i) && Flying(s, i);
    if a.IsTask() {
      TaskTellsNobody(s, a, i);
    } else if a.Pass? {
      PassTellsNobody(c, s, i);
    } else if a.Contain? {
      ContainTells(c, s, a.model, s.phase.pending, i);
    } else {
      OtherTells(c, s, a, i);
    }
  }

  lemma OtherTells(c: AppConfig, s: State, a: Action, i: nat)
    requires WellFormed(c, s) && Enabled(c, s, a) && !a.IsTask() && !a.Pass? && !a.Contain?
    requires IsRunning(s, i) && i in s.inFlight && !s.reqs[i].cancelRequested
    ensures i < |Step(c, s, a).reqs| && (Step(c, s, a).reqs[i].cancelRequested <==> a.BeginStop?)
  {
  }

  lemma TaskTellsNobody(s: State, a: Action, i: nat)
    requires a.IsTask() && a.id < |s.reqs| && i < |s.reqs|
    ensures |TaskStep(s, a).reqs| == |s.reqs| && TaskStep(s, a).reqs[i].cancelRequested == s.reqs[i].cancelRequested
  {
  }

  lemma ContainTells(c: AppConfig, s: State, model: ModelName, pending: set<ModelName>, i: nat)
    requires IsRunning(s, i) && i in s.inFlight && s.resident == Some(s.reqs[i].model)
    ensures var t := Contained(c, s, model, pending);
      |t.reqs| == |s.reqs| && (t.reqs[i].cancelRequested <==> s.reqs[i].cancelRequested || model == s.reqs[i].model)
  {
  }

  lemma PassTellsNobody(c: AppConfig, s: State, i: nat)
    requires Pools(c, s) && IsRunning(s, i) && !s.reqs[i].cancelRequested && !s.reqs[i].cancelled
    ensures i < |Passed(c, s).reqs| && !Passed(c, s).reqs[i].cancelRequested
  {
    var swept := Swept(c, Woken(s));
    SameStates(c, s, Woken(s));
    SweepTellsNobody(c, Woken(s), i);
    SweepKeepsPools(c, Woken(s));
    ObeyTellsNobody(c, swept, DecisionOf(c, swept), i);
  }

  lemma SweepTellsNobody(c: AppConfig, s: State, i: nat)
    requires Pools(c, s) && IsRunning(s, i) && !s.reqs[i].cancelRequested && !s.reqs[i].cancelled
    ensures var t := Swept(c, s); IsRunning(t, i) && !t.reqs[i].cancelRequested && !t.reqs[i].cancelled
  {
    assert Placed(s, i) && QueueOk(s, s.reqs[i].model);
  }

  lemma ObeyTellsNobody(c: AppConfig, s: State, d: Decision, i: nat)
    requires Pools(c, s) && IsRunning(s, i) && !s.reqs[i].cancelRequested && !s.reqs[i].cancelled
    ensures i < |Obeyed(c, s, d).reqs| && !Obeyed(c, s, d).reqs[i].cancelRequested
  {
    DispatchTellsNobody(c, s, i);
  }

  lemma DispatchTellsNobody(c: AppConfig, s: State, i: nat)
    requires Pools(c, s) && IsRunning(s, i)
    ensures i < |Dispatched(c, s).reqs| && Dispatched(c, s).reqs[i].cancelRequested == s.reqs[i].cancelRequested
  {
    var capacity := c.scheduler.maxConcurrent - |s.inFlight|;
    if s.resident.Some? && 0 < capacity {
      var q := s.queues[s.resident.value];
      var b := TakeWhile(s.reqs, q, s.now, capacity);
      assert QueueOk(s, s.resident.value);
      TakeWhileTouches(s.reqs, q, s.now, capacity);
      assert Popped1(s.reqs, b.reqs, q, b.rest, b.ids, s.now, i);
    }
  }

  // ------------------------------------------------------------------ silence by shutdown

  /** A dispatched request that its client still wants has ended, and nothing says so on its channel. */
  ghost predicate IsSilenced(s: State, i: nat) {
    && i < |s.reqs| && s.reqs[i].state.IsTerminal() && s.reqs[i].startedAt.Some? && !s.reqs[i].cancelled
    && !HasTerminator(s.reqs[i])
  }

  function ShutDown(c: AppConfig, m: ModelName, now: real): State {
    CancelDelivered(StopBegun(Serving(c, m, 1, now)), 0)
  }

  /** It happens in every configuration, to any model: one request, generating when the router stops. */
  lemma ShutdownSilences(c: AppConfig, m: ModelName, now: real)
    requires c.Valid() && m in c.Names()
    ensures Reachable(c, ShutDown(c, m, now)) && IsSilenced(ShutDown(c, m, now), 0)
  {
    ServingIsReachable(c, m, 1, now);
    TakeStep(c, Serving(c, m, 1, now), BeginStop);
    FirstIsTold(c, m, now);
    TakeStep(c, StopBegun(Serving(c, m, 1, now)), TaskCancelled(0));
  }

  lemma FirstIsTold(c: AppConfig, m: ModelName, now: real)
    ensures var s := StopBegun(Serving(c, m, 1, now));
      0 in s.inFlight && |s.reqs| == 1 && s.reqs[0] == Started(Fresh(m, now), now).(cancelRequested := true)
  {
    assert Serving(c, m, 1, now).inFlight[0] == 0;
  }

  // ------------------------------------------------------------------ silence by containment

  /** Of two requests being generated one fails, something else is submitted so that the loop goes on, and
      the failure is handled. */
  function Failing(c: AppConfig, m: ModelName, now: real): State {
    BackendFailed(Submitted(Serving(c, m, 2, now), m), 1, "")
  }

  function Handled(c: AppConfig, m: ModelName, now: real): State {
    Contained(c, ContainStarted(Failing(c, m, now).(phase := Top)), m, {m})
  }

  lemma FailingIs(c: AppConfig, m: ModelName, now: real)
    requires c.Valid() && m in c.Names()
    ensures var s := Submitted(Serving(c, m, 2, now), m);
      && s.phase.Waiting? && 1 in s.inFlight && IsRunning(s, 1) && !s.reqs[1].cancelRequested
    ensures var t := Failing(c, m, now);
      && t.phase.Waiting? && t.wakeup && t.failed == {m} && t.resident == Some(m) && t.inFlight == FirstIds(2)
      && |t.reqs| == 3 && t.reqs[0] == Started(Fresh(m, now), now)
  {
    var s := Serving(c, m, 2, now);
    assert s.inFlight[1] == 1;
    assert s.failed + {m} == {m};
  }

  lemma HandledIs(c: AppConfig, m: ModelName, now: real)
    requires c.Valid() && m in c.Names()
    ensures var t := Handled(c, m, now);
      && t.phase.CrashDraining? && 0 in t.inFlight && |t.reqs| == 3
      && t.reqs[0] == Started(Fresh(m, now), now).(cancelRequested := true)
  {
    FailingIs(c, m, now);
    var s := ContainStarted(Failing(c, m, now).(phase := Top));
    assert s.inFlight[0] == 0 && s.inFlight != [];
    assert 0 in OfModel(s.reqs, s.inFlight, m);
  }

  lemma HandledIsReachable(c: AppConfig, m: ModelName, now: real)
    requires c.Valid() && m in c.Names() && 2 <= c.scheduler.maxConcurrent
    ensures Reachable(c, Handled(c, m, now))
  {
    var s := Serving(c, m, 2, now);
    ServingIsReachable(c, m, 2, now);
    FailingIs(c, m, now);
    TakeStep(c, s, Submit(m));
    TakeStep(c, Submitted(s, m), TaskBackendFails(1, ""));
    FailingIsContained(c, Failing(c, m, now), m);
  }

  lemma FailingIsContained(c: AppConfig, s: State, m: ModelName)
    requires c.Valid() && Reachable(c, s) && s.phase.Waiting? && s.wakeup && s.failed == {m}
    ensures Reachable(c, Contained(c, ContainStarted(s.(phase := Top)), m, {m}))
  {
    TakeStep(c, s, Wake);
    TakeStep(c, s.(phase := Top), StartContaining);
    TakeStep(c, ContainStarted(s.(phase := Top)), Contain(m));
  }

  /** The request whose own stream was fine ends silenced. */
  lemma ContainmentSilences(c: AppConfig, m: ModelName, now: real)
    requires c.Valid() && m in c.Names() && 2 <= c.scheduler.maxConcurrent
    ensures var s := CancelDelivered(Handled(c, m, now), 0);
      Reachable(c, s) && !s.phase.IsShutdown() && IsSilenced(s, 0)
  {
    HandledIs(c, m, now);
    HandledIsReachable(c, m, now);
    TakeStep(c, Handled(c, m, now), TaskCancelled(0));
  }

  // ------------------------------------------------------------------ and none without company

  /** Handling a failure. */
  predicate IsContaining(s: State) {
    s.phase.Containing? || s.phase.CrashDraining? || s.phase.CrashStopping?
  }

  ghost predicate NobodyRuns(s: State) {
    forall i: nat :: !IsRunning(s, i)
  }

  /** Whoever is told to stop, or set aside, is somebody whose client has gone. */
  ghost predicate Unwanted(r: Request) {
    r.cancelRequested || r.state == Cancelled ==> r.cancelled
  }

  ghost predicate AllUnwanted(reqs: Table) {
    forall i: nat :: i < |reqs| ==> Unwanted(reqs[i])
  }

  /** What a cap of one comes to: a failure leaves nobody generating until it has been handled. */
  ghost predicate Quelled(s: State) {
    && (s.failed != {} || IsContaining(s) ==> NobodyRuns(s))
    && (IsContaining(s) ==> s.failed == {})
  }

  ghost predicate Alone(s: State) {
    Quelled(s) && AllUnwanted(s.reqs)
  }

  lemma NobodyStarts(s: State, t: State)
    requires NobodyRuns(s) && forall i: nat :: i < |t.reqs| ==> IsRunning(s, i) || t.reqs[i].state != Running
    ensures NobodyRuns(t)
  {
    forall i: nat ensures !IsRunning(t, i) {
      assert !IsRunning(s, i);
    }
  }

  lemma OnlyOneRuns(c: AppConfig, s: State, id: nat)
    requires Pools(c, s) && c.scheduler.maxConcurrent == 1 && IsRunning(s, id)
    ensures forall i: nat :: IsRunning(s, i) ==> i == id
  {
    forall i: nat | IsRunning(s, i) ensures i == id {
      assert Placed(s, i) && Placed(s, id);
    }
  }

  lemma TaskKeepsAlone(c: AppConfig, s: State, a: Action)
    requires Safe(c, s) && Alone(s) && a.IsTask() && Enabled(c, s, a) && c.scheduler.maxConcurrent == 1
    ensures Alone(TaskStep(s, a))
  {
    var t := TaskStep(s, a);
    OnlyOneRuns(c, s, a.id);
    TaskKeepsLoop(s, a);
    TaskTouchesOne(s, a);
    TaskKeepsUnwanted(s, a);
    assert IsRunning(s, a.id);
    TaskOutcome(s, a);
    if t.failed != {} {
      forall i: nat ensures !IsRunning(t, i) {
        assert i != a.id ==> !IsRunning(s, i);
      }
    }
  }

  lemma TaskOutcome(s: State, a: Action)
    requires a.IsTask() && a.id < |s.reqs|
    ensures var t := TaskStep(s, a); a.id < |t.reqs| && (t.failed != s.failed ==> t.reqs[a.id].state == Failed)
  {
  }

  lemma TaskKeepsUnwanted(s: State, a: Action)
    requires a.IsTask() && a.id < |s.reqs| && AllUnwanted(s.reqs)
    requires a.TaskCancelled? ==> s.reqs[a.id].cancelRequested
    ensures AllUnwanted(TaskStep(s, a).reqs)
  {
    assert Unwanted(s.reqs[a.id]);
  }

  lemma ContainKeepsAlone(c: AppConfig, s: State, model: ModelName)
    requires Alone(s) && s.phase.Containing?
    ensures Alone(Contained(c, s, model, s.phase.pending))
  {
    var t := Contained(c, s, model, s.phase.pending);
    forall i: nat | i < |s.reqs| ensures i < |t.reqs| && t.reqs[i] == s.reqs[i] {
      assert !IsRunning(s, i);
    }
    assert t.reqs == s.reqs;
    ContainKeepsFailed(c, s, model, s.phase.pending);
    NobodyStarts(s, t);
  }

  lemma ContainKeepsFailed(c: AppConfig, s: State, model: ModelName, pending: set<ModelName>)
    ensures Contained(c, s, model, pending).failed == s.failed
  {
  }

  lemma SweepKeepsUnwanted(c: AppConfig, s: State)
    requires WellFormed(c, s) && AllUnwanted(s.reqs)
    ensures AllUnwanted(Swept(c, s).reqs)
  {
    var t := Swept(c, s);
    forall i: nat | i < |t.reqs| ensures Unwanted(t.reqs[i]) {
      assert Unwanted(s.reqs[i]);
    }
  }

  lemma ObeyKeepsUnwanted(c: AppConfig, s: State, d: Decision)
    requires Pools(c, s) && AllUnwanted(s.reqs)
    ensures AllUnwanted(Obeyed(c, s, d).reqs)
  {
    DispatchKeepsUnwanted(c, s);
  }

  lemma DispatchKeepsUnwanted(c: AppConfig, s: State)
    requires Pools(c, s) && AllUnwanted(s.reqs)
    ensures AllUnwanted(Dispatched(c, s).reqs)
  {
    var capacity := c.scheduler.maxConcurrent - |s.inFlight|;
    if s.resident.Some? && 0 < capacity {
      var q := s.queues[s.resident.value];
      var b := TakeWhile(s.reqs, q, s.now, capacity);
      assert QueueOk(s, s.resident.value);
      TakeWhileTouches(s.reqs, q, s.now, capacity);
      TakeWhileServesPrefix(s.reqs, q, s.now, capacity);
      forall i: nat | i < |b.reqs| ensures Unwanted(b.reqs[i]) {
        assert Popped1(s.reqs, b.reqs, q, b.rest, b.ids, s.now, i) && Unwanted(s.reqs[i]);
      }
    }
  }

  lemma PassKeepsAlone(c: AppConfig, s: State)
    requires Safe(c, s) && Alone(s) && IsDeciding(s)
    ensures Alone(Passed(c, s))
  {
    PassKeepsUnwanted(c, s);
    PassQuells(c, s);
  }

  lemma PassQuells(c: AppConfig, s: State)
    requires WellFormed(c, s) && Quelled(s) && IsDeciding(s)
    ensures Quelled(Passed(c, s))
  {
    SweptKeepsBooks(c, s);
    ObeyQuells(c, Swept(c, Woken(s)), DecisionOf(c, Swept(c, Woken(s))));
  }

  lemma ObeyQuells(c: AppConfig, s: State, d: Decision)
    requires WellFormed(c, s) && s.failed == {}
    ensures Quelled(Obeyed(c, s, d))
  {
    ObeyLeadsTo(c, s, d);
    ObeyKeepsBooks(c, s, d);
  }

  lemma PassKeepsUnwanted(c: AppConfig, s: State)
    requires Pools(c, s) && AllUnwanted(s.reqs)
    ensures AllUnwanted(Passed(c, s).reqs)
  {
    SameStates(c, s, Woken(s));
    SweepKeepsPools(c, Woken(s));
    SweepKeepsUnwanted(c, Woken(s));
    ObeyKeepsUnwanted(c, Swept(c, Woken(s)), DecisionOf(c, Swept(c, Woken(s))));
  }

  lemma OtherKeepsAlone(c: AppConfig, s: State, a: Action)
    requires WellFormed(c, s) && Alone(s) && Enabled(c, s, a) && !s.phase.IsShutdown()
    requires !a.IsTask() && !a.Pass? && !a.Contain? && !a.BeginStop?
    ensures Alone(Step(c, s, a))
  {
    var t := Step(c, s, a);
    OtherTouchesFlags(c, s, a);
    forall i: nat | i < |t.reqs| ensures Unwanted(t.reqs[i]) {
      assert i < |s.reqs| ==> Unwanted(s.reqs[i]);
    }
    if NobodyRuns(s) {
      NobodyStarts(s, t);
    }
  }

  lemma OtherTouchesFlags(c: AppConfig, s: State, a: Action)
    requires WellFormed(c, s) && Enabled(c, s, a) && !s.phase.IsShutdown()
    requires !a.IsTask() && !a.Pass? && !a.Contain? && !a.BeginStop?
    ensures var t := Step(c, s, a);
      && (forall i: nat :: i < |t.reqs| && i >= |s.reqs| ==> t.reqs[i].state == Queued && !t.reqs[i].cancelRequested)
      && (forall i: nat :: i < |t.reqs| && i < |s.reqs| ==>
            t.reqs[i].state == s.reqs[i].state && t.reqs[i].cancelRequested == s.reqs[i].cancelRequested
            && (s.reqs[i].cancelled ==> t.reqs[i].cancelled))
      && (t.failed == s.failed || t.failed == {})
      && (IsContaining(t) ==> (IsContaining(s) && t.failed == s.failed) || (s.failed != {} && t.failed == {}))
  {
  }

  lemma ShutdownLasts(c: AppConfig, s: State, a: Action)
    requires WellFormed(c, s) && Enabled(c, s, a) && s.phase.IsShutdown()
    ensures Step(c, s, a).phase.IsShutdown()
  {
    if a.IsTask() {
      TaskKeepsLoop(s, a);
    }
  }

  lemma StepKeepsAlone(c: AppConfig, s: State, a: Action)
    requires c.Valid() && Safe(c, s) && Enabled(c, s, a) && c.scheduler.maxConcurrent == 1
    requires s.phase.IsShutdown() || Alone(s)
    ensures Step(c, s, a).phase.IsShutdown() || Alone(Step(c, s, a))
  {
    if s.phase.IsShutdown() {
      ShutdownLasts(c, s, a);
    } else if a.IsTask() {
      TaskKeepsAlone(c, s, a);
    } else if a.Pass? {
      PassKeepsAlone(c, s);
    } else if a.Contain? {
      ContainKeepsAlone(c, s, a.model);
    } else if !a.BeginStop? {
      OtherKeepsAlone(c, s, a);
    }
  }

  lemma {:induction false} RunKeepsAlone(c: AppConfig, s: State, run: seq<Action>)
    requires c.Valid() && Safe(c, s) && IsRun(c, s, run) && c.scheduler.maxConcurrent == 1
    requires s.phase.IsShutdown() || Alone(s)
    ensures After(c, s, run).phase.IsShutdown() || Alone(After(c, s, run))
    decreases run
  {
    if run != [] {
      StepKeepsAlone(c, s, run[0]);
      StepIsSafe(c, s, run[0]);
      RunKeepsAlone(c, Step(c, s, run[0]), run[1..]);
    }
  }

  lemma AloneWhenReachable(c: AppConfig, s: State)
    requires c.Valid() && Reachable(c, s) && c.scheduler.maxConcurrent == 1 && !s.phase.IsShutdown()
    ensures Alone(s)
  {
    var start, run :| IsRun(c, Init(c, start), run) && After(c, Init(c, start), run) == s;
    InitIsSafe(c, start);
    RunKeepsAlone(c, Init(c, start), run);
  }

  /** The router silences a request that its client still wants, without shutting down, in some run if and
      only if two requests may be generating at once. */
  lemma SilencingTakesCompany(c: AppConfig)
    requires c.Valid()
    ensures (exists s: State, i: nat :: Reachable(c, s) && !s.phase.IsShutdown() && IsSilenced(s, i))
       <==> 2 <= c.scheduler.maxConcurrent
  {
    if 2 <= c.scheduler.maxConcurrent {
      var m := c.models[0].name;
      assert m in c.Names();
      ContainmentSilences(c, m, 0.0);
    } else {
      forall s: State, i: nat | Reachable(c, s) && !s.phase.IsShutdown() ensures !IsSilenced(s, i) {
        AloneIsNotSilenced(c, s, i);
      }
    }
  }

  lemma AloneIsNotSilenced(c: AppConfig, s: State, i: nat)
    requires c.Valid() && Reachable(c, s) && !s.phase.IsShutdown() && c.scheduler.maxConcurrent == 1
    ensures !IsSilenced(s, i)
  {
    if i < |s.reqs| {
      AloneWhenReachable(c, s);
      assert Unwanted(s.reqs[i]);
      ChannelTellsOutcome(c, s, i);
    }
  }
}
