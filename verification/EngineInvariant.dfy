/** What every step of the engine keeps, and so what holds in every reachable state of every run. */
module EngineInvariant {
  import opened Types
  import opened Requests
  import opened QueueSpec
  import opened EngineModel
  import opened EnginePools
  import Policy

  // ------------------------------------------------------------------ the device

  function Only(m: Option<ModelName>): set<ModelName> {
    if m.Some? then {m.value} else {}
  }

  /** In each phase exactly one backend, or none, occupies the device; while a model is being unloaded,
      loaded or cleaned up nothing is resident and nothing is in flight. */
  ghost predicate DeviceOk(c: AppConfig, s: State) {
    && (s.draining <==> s.phase.Draining?)
    && (s.switching <==> s.phase.Unloading? || s.phase.Loading? || s.phase.LoadCleanup?)
    && match s.phase
       case CrashDraining(m, _) => s.resident == Some(m) && s.gpu == {m}
       case CrashStopping(m, _) => IsVacant(s) && s.gpu == {m}
       case Draining(target, _, _) => target in c.Names() && s.gpu == Only(s.resident)
       case Unloading(previous, target, _, _) => IsVacant(s) && target in c.Names() && s.gpu == {previous}
       case Loading(target, _, _) => IsVacant(s) && target in c.Names() && s.gpu == {target}
       case LoadCleanup(target, _) => IsVacant(s) && target in c.Names() && s.gpu == {target}
       case StopUnloading(m) => s.resident == Some(m) && s.inFlight == [] && s.gpu == {m}
       case Stopped => IsVacant(s) && s.gpu == {}
       case _ => s.gpu == Only(s.resident)
  }

  predicate IsVacant(s: State) {
    s.resident == None && s.inFlight == []
  }

  // ------------------------------------------------------------------ time

  ghost predicate StampsOk(s: State) {
    && (s.resident.Some? <==> s.residentSince.Some?)
    && (s.residentSince.Some? ==> s.residentSince.value <= s.now)
    && (s.resident.Some? && s.idleSince.Some? ==> s.residentSince.value <= s.idleSince.value <= s.now)
    && (s.phase.IsTransition() ==> s.phase.began <= s.now)
    && (s.phase.Waiting? ==> s.phase.since <= s.now)
    && (s.phase.Loading? ==> s.phase.began <= s.phase.started <= s.now)
  }

  /** Requests are indexed in the order of their arrival times. */
  ghost predicate ArrivalsOk(s: State) {
    && (forall i :: 0 <= i < |s.reqs| ==> s.reqs[i].enqueuedAt <= s.now)
    && InArrivalOrder(s.reqs)
  }

  // ------------------------------------------------------------------ backoff

  predicate InBackoff(s: State, m: ModelName, at: real) {
    m in s.unavailableUntil && at < s.unavailableUntil[m]
  }

  /** Outside containment and shutdown the resident has no backoff entry, and a switch under way is to a
      model whose backoff was over when the switch was decided. */
  ghost predicate BackoffOk(s: State) {
    && (s.resident.Some? && !s.phase.CrashDraining? && !s.phase.IsShutdown() ==>
          s.resident.value !in s.unavailableUntil)
    && (s.phase.Draining? || s.phase.Unloading? || s.phase.Loading? ==>
          !InBackoff(s, s.phase.target, s.phase.began))
    && s.failed <= s.crashed
    && (s.phase.Containing? || s.phase.CrashDraining? || s.phase.CrashStopping? ==> s.phase.pending <= s.crashed)
    && (s.phase.CrashDraining? ==> s.phase.model in s.crashed)
  }

  // ------------------------------------------------------------------ channels

  function Last(events: seq<StreamEvent>): StreamEvent
    requires events != []
  {
    events[|events| - 1]
  }

  /** The channel of a request carries what its state says: all the backend's chunks in order, and then at
      most one terminator, of the kind the state names. A task that was told to stop neither completes nor
      fails, and one that was dispatched and ends cancelled was told to, or its client has gone. */
  ghost predicate ChannelOk(r: Request) {
    match r.state
    case Queued => r.channel == [] && r.produced == [] && !r.cancelRequested && r.startedAt.None?
    case Running => r.channel == Pieces(r.produced) && r.startedAt.Some?
    case Done => Ends(r) && Last(r.channel).StreamEnd? && !r.cancelRequested
    case Failed => Ends(r) && Last(r.channel).StreamError? && !r.cancelRequested
    case Cancelled =>
      && (r.startedAt.Some? ==> r.cancelled || r.cancelRequested)
      && (r.startedAt.None? && !r.cancelled ==> r.channel == [SHUTTING_DOWN])
      && (|| r.channel == Pieces(r.produced)
          || (r.produced != [] && r.channel == Pieces(r.produced[..|r.produced| - 1]))
          || (r.produced == [] && r.startedAt.None? && r.channel == [SHUTTING_DOWN]))
  }

  /** Everything that was produced, and one event more. */
  ghost predicate Ends(r: Request) {
    r.channel != [] && r.channel == Pieces(r.produced) + [Last(r.channel)]
  }

  /** Nobody is stopped without a reason: a request ends cancelled only if its client left, its model's
      backend failed or the router is shutting down; it fails only if its backend or its own stream did. */
  ghost predicate Excused(s: State, i: nat)
    requires i < |s.reqs|
  {
    var r := s.reqs[i];
    && (r.cancelRequested || r.state == Cancelled ==> r.cancelled || r.model in s.crashed || s.phase.IsShutdown())
    && (r.state == Failed ==> r.model in s.crashed || i in s.faulted)
  }

  ghost predicate Sound(s: State, i: nat)
    requires i < |s.reqs|
  {
    ChannelOk(s.reqs[i]) && Excused(s, i)
  }

  ghost predicate RequestsOk(s: State) {
    forall i: nat :: i < |s.reqs| ==> Sound(s, i)
  }

  // ------------------------------------------------------------------ the invariant

  ghost predicate Safe(c: AppConfig, s: State) {
    Pools(c, s) && DeviceOk(c, s) && StampsOk(s) && ArrivalsOk(s) && BackoffOk(s) && RequestsOk(s)
  }

  lemma InitIsSafe(c: AppConfig, now: real)
    requires c.Valid()
    ensures Safe(c, Init(c, now))
  {
  }

  // ------------------------------------------------------------------ pools and device, step by step

  lemma PoolsStep(c: AppConfig, s: State, a: Action)
    requires c.Valid() && Pools(c, s) && DeviceOk(c, s) && Enabled(c, s, a)
    ensures Pools(c, Step(c, s, a))
  {
    if a.IsTask() {
      TaskKeepsPools(c, s, a);
    } else if a.Submit? {
      SubmitKeepsPools(c, s, a.model);
    } else if a.Contain? {
      ContainKeepsPools(c, s, a.model);
    } else if a.Pass? {
      PassKeepsPools(c, s);
    } else if a.IsSwitching() {
      SwitchingKeepsPools(c, s, a);
    } else if a.IsEnding() {
      EndingKeepsPools(c, s, a);
    } else {
      SameStates(c, s, Step(c, s, a));
    }
  }

  lemma TaskKeepsPools(c: AppConfig, s: State, a: Action)
    requires Pools(c, s) && a.IsTask() && Enabled(c, s, a)
    ensures Pools(c, TaskStep(s, a))
  {
    TaskMoves(c, s, TaskStep(s, a), a.id);
  }

  lemma SwitchingKeepsPools(c: AppConfig, s: State, a: Action)
    requires c.Valid() && Pools(c, s) && DeviceOk(c, s) && Enabled(c, s, a) && a.IsSwitching()
    ensures Pools(c, Step(c, s, a))
  {
    if a.FinishDrain? || a.FinishLoad? {
      LandedKeepsPools(c, s, Step(c, s, a));
    } else {
      SameStates(c, s, Step(c, s, a));
    }
  }

  lemma EndingKeepsPools(c: AppConfig, s: State, a: Action)
    requires c.Valid() && Pools(c, s) && DeviceOk(c, s) && Enabled(c, s, a) && a.IsEnding()
    ensures Pools(c, Step(c, s, a))
  {
    if a.FinishStopDrain? {
      RefuseKeepsPools(c, s);
    } else if a.FinishCrashDrain? || a.FinishStopUnload? {
      LandedKeepsPools(c, s, Step(c, s, a));
    } else {
      SameStates(c, s, Step(c, s, a));
    }
  }

  lemma DeviceStep(c: AppConfig, s: State, a: Action)
    requires c.Valid() && Pools(c, s) && DeviceOk(c, s) && Enabled(c, s, a)
    ensures DeviceOk(c, Step(c, s, a))
  {
    if a.IsTask() {
      TaskKeepsLoop(s, a);
    } else if a.Contain? {
      ContainKeepsPools(c, s, a.model);
    } else if a.Pass? {
      PassKeepsDevice(c, s);
    } else if a.IsSwitching() {
      SwitchingKeepsDevice(c, s, a);
    } else if a.IsEnding() {
      EndingKeepsDevice(c, s, a);
    } else {
      OtherKeepsDevice(c, s, a);
    }
  }

  lemma SwitchingKeepsDevice(c: AppConfig, s: State, a: Action)
    requires WellFormed(c, s) && DeviceOk(c, s) && Enabled(c, s, a) && a.IsSwitching()
    ensures DeviceOk(c, Step(c, s, a))
  {
  }

  lemma EndingKeepsDevice(c: AppConfig, s: State, a: Action)
    requires WellFormed(c, s) && DeviceOk(c, s) && Enabled(c, s, a) && a.IsEnding()
    ensures DeviceOk(c, Step(c, s, a))
  {
    if a.IsStopping() {
      StoppingKeepsDevice(c, s, a);
    }
  }

  lemma StoppingKeepsDevice(c: AppConfig, s: State, a: Action)
    requires WellFormed(c, s) && DeviceOk(c, s) && Enabled(c, s, a) && a.IsStopping()
    ensures DeviceOk(c, Step(c, s, a))
  {
  }

  lemma OtherKeepsDevice(c: AppConfig, s: State, a: Action)
    requires WellFormed(c, s) && DeviceOk(c, s) && Enabled(c, s, a)
    requires !a.IsTask() && !a.Contain? && !a.Pass? && !a.IsSwitching() && !a.IsEnding()
    ensures DeviceOk(c, Step(c, s, a))
  {
  }

  lemma ContainKeepsPools(c: AppConfig, s: State, model: ModelName)
    requires c.Valid() && Pools(c, s) && DeviceOk(c, s) && s.phase.Containing?
    ensures Pools(c, Contained(c, s, model, s.phase.pending))
    ensures DeviceOk(c, Contained(c, s, model, s.phase.pending))
  {
    var t := Contained(c, s, model, s.phase.pending);
    if s.resident == Some(model) && s.inFlight == [] {
      var told := s.(reqs := CancelTasks(s.reqs, OfModel(s.reqs, s.inFlight, model), false));
      SameStates(c, s, told);
      LandedKeepsPools(c, told, t);
    } else {
      SameStates(c, s, t);
    }
  }

  lemma PassKeepsDevice(c: AppConfig, s: State)
    requires c.Valid() && Pools(c, s) && DeviceOk(c, s) && IsDeciding(s)
    ensures DeviceOk(c, Passed(c, s))
  {
    var woken := Woken(s);
    var swept := Swept(c, woken);
    TargetIsConfigured(c, swept);
    ObeyKeepsDevice(c, swept, DecisionOf(c, swept));
  }

  lemma ObeyKeepsDevice(c: AppConfig, s: State, d: Decision)
    requires WellFormed(c, s) && DeviceOk(c, s) && (s.phase.Top? || s.phase.Containing?)
    requires d.kind == Switch ==> d.target.Some? && d.target.value in c.Names()
    ensures DeviceOk(c, Obeyed(c, s, d))
  {
  }

  // ------------------------------------------------------------------ time, step by step

  lemma TaskKeepsLoop(s: State, a: Action)
    requires a.IsTask() && a.id < |s.reqs|
    ensures var t := TaskStep(s, a);
      t == s.(reqs := t.reqs, failed := t.failed, crashed := t.crashed, faulted := t.faulted)
    ensures var t := TaskStep(s, a);
      |t.reqs| == |s.reqs| && s.crashed <= t.crashed && s.faulted <= t.faulted && t.failed - s.failed <= t.crashed
  {
  }

  lemma SweepKeepsStamps(c: AppConfig, s: State)
    requires WellFormed(c, s) && StampsOk(s)
    ensures StampsOk(Swept(c, s))
  {
  }

  lemma ObeyKeepsStamps(c: AppConfig, s: State, d: Decision)
    requires WellFormed(c, s) && StampsOk(s)
    ensures StampsOk(Obeyed(c, s, d))
  {
  }

  lemma PassKeepsStamps(c: AppConfig, s: State)
    requires WellFormed(c, s) && StampsOk(s)
    ensures StampsOk(Passed(c, s))
  {
    var woken := Woken(s);
    SweepKeepsStamps(c, woken);
    ObeyKeepsStamps(c, Swept(c, woken), DecisionOf(c, Swept(c, woken)));
  }

  lemma StampsStep(c: AppConfig, s: State, a: Action)
    requires WellFormed(c, s) && DeviceOk(c, s) && StampsOk(s) && Enabled(c, s, a)
    ensures StampsOk(Step(c, s, a))
  {
    if a.IsTask() {
      TaskKeepsLoop(s, a);
    } else if a.Pass? {
      PassKeepsStamps(c, s);
    } else if a.Contain? {
      ContainKeepsStamps(c, s, a.model);
    } else if a.IsSwitching() {
      SwitchingKeepsStamps(c, s, a);
    } else if a.IsEnding() {
      EndingKeepsStamps(c, s, a);
    } else {
      OtherKeepsStamps(c, s, a);
    }
  }

  lemma EndingKeepsStamps(c: AppConfig, s: State, a: Action)
    requires WellFormed(c, s) && DeviceOk(c, s) && StampsOk(s) && Enabled(c, s, a) && a.IsEnding()
    ensures StampsOk(Step(c, s, a))
  {
    if a.IsStopping() {
      StoppingKeepsStamps(c, s, a);
    }
  }

  lemma StoppingKeepsStamps(c: AppConfig, s: State, a: Action)
    requires WellFormed(c, s) && DeviceOk(c, s) && StampsOk(s) && Enabled(c, s, a) && a.IsStopping()
    ensures StampsOk(Step(c, s, a))
  {
  }

  lemma SwitchingKeepsStamps(c: AppConfig, s: State, a: Action)
    requires WellFormed(c, s) && DeviceOk(c, s) && StampsOk(s) && Enabled(c, s, a) && a.IsSwitching()
    ensures StampsOk(Step(c, s, a))
  {
  }

  lemma OtherKeepsStamps(c: AppConfig, s: State, a: Action)
    requires WellFormed(c, s) && DeviceOk(c, s) && StampsOk(s) && Enabled(c, s, a)
    requires !a.IsTask() && !a.Pass? && !a.Contain? && !a.IsSwitching() && !a.IsEnding()
    ensures StampsOk(Step(c, s, a))
  {
  }

  lemma ContainKeepsStamps(c: AppConfig, s: State, model: ModelName)
    requires StampsOk(s) && s.phase.Containing?
    ensures StampsOk(Contained(c, s, model, s.phase.pending))
  {
    ContainKeepsLoop(c, s, model, s.phase.pending);
  }

  lemma ContainKeepsLoop(c: AppConfig, s: State, model: ModelName, pending: set<ModelName>)
    ensures var t := Contained(c, s, model, pending);
      && t.now == s.now && t.idleSince == s.idleSince && t.swaps == s.swaps && t.scoredSwaps == s.scoredSwaps
      && (t.phase.Containing? || t.phase.CrashDraining? || t.phase.CrashStopping?)
      && ((t.resident == s.resident && t.residentSince == s.residentSince)
          || (t.resident.None? && t.residentSince.None?))
  {
  }

  lemma NothingStartedInQueue(s: State)
    requires RequestsOk(s)
    ensures QueuedNotStarted(s.reqs)
  {
    forall i: nat | i < |s.reqs| ensures NotStarted(s.reqs[i]) {
      assert Sound(s, i);
    }
  }

  lemma SubmitKeepsArrivals(s: State, model: ModelName)
    requires ArrivalsOk(s)
    ensures ArrivalsOk(Submitted(s, model))
  {
  }

  lemma SameArrivals(s: State, t: State)
    requires ArrivalsOk(s) && AllPersist(s.reqs, t.reqs) && |t.reqs| == |s.reqs| && s.now <= t.now
    ensures ArrivalsOk(t)
  {
    forall i: nat | i < |s.reqs| ensures t.reqs[i].enqueuedAt == s.reqs[i].enqueuedAt {
      assert Persists(s.reqs[i], t.reqs[i]);
    }
  }

  lemma TimeStep(c: AppConfig, s: State, a: Action)
    requires WellFormed(c, s) && Enabled(c, s, a)
    ensures s.now <= Step(c, s, a).now
    ensures !a.Advance? ==> Step(c, s, a).now == s.now
  {
    if a.IsTask() {
      TaskKeepsLoop(s, a);
    } else if a.Pass? {
      PassKeepsBooks(c, s);
    }
  }

  lemma ArrivalsStep(c: AppConfig, s: State, a: Action)
    requires Pools(c, s) && ArrivalsOk(s) && RequestsOk(s) && Enabled(c, s, a)
    ensures ArrivalsOk(Step(c, s, a))
  {
    if a.Submit? {
      SubmitKeepsArrivals(s, a.model);
    } else {
      NothingStartedInQueue(s);
      StepPersists(c, s, a);
      TimeStep(c, s, a);
      SameArrivals(s, Step(c, s, a));
    }
  }

  // ------------------------------------------------------------------ backoff, step by step

  lemma TargetNotInBackoff(c: AppConfig, s: State)
    requires WellFormed(c, s) && c.Valid()
    ensures var d := DecisionOf(c, s);
      d.kind == Switch && d.target.Some? ==> !InBackoff(s, d.target.value, s.now)
  {
    SnapshotNames(c, s);
    Policy.SwitchTargetIsServable(SnapshotOf(c, s), s.now, c.scheduler);
    SeenAvailable(c, s, DecisionOf(c, s));
  }

  lemma SeenAvailable(c: AppConfig, s: State, d: Decision)
    requires WellFormed(c, s)
    requires d.kind == Switch && d.target.Some? ==>
      exists t :: t in SnapshotOf(c, s).models && t.name == d.target.value && t.IsAvailable(s.now)
    ensures d.kind == Switch && d.target.Some? ==> !InBackoff(s, d.target.value, s.now)
  {
    if d.kind == Switch && d.target.Some? {
      var t :| t in SnapshotOf(c, s).models && t.name == d.target.value && t.IsAvailable(s.now);
      var i :| 0 <= i < |c.models| && SnapshotOf(c, s).models[i] == t;
      assert t == ModelStateOf(s, c.models[i]);
    }
  }

  lemma ObeyKeepsBackoff(c: AppConfig, s: State, d: Decision)
    requires WellFormed(c, s) && BackoffOk(s) && (s.phase.Top? || s.phase.Containing?)
    requires d.kind == Switch && d.target.Some? ==> !InBackoff(s, d.target.value, s.now)
    ensures BackoffOk(Obeyed(c, s, d))
  {
  }

  lemma PassKeepsBackoff(c: AppConfig, s: State)
    requires c.Valid() && WellFormed(c, s) && BackoffOk(s) && IsDeciding(s)
    ensures BackoffOk(Passed(c, s))
  {
    var woken := Woken(s);
    var swept := Swept(c, woken);
    TargetNotInBackoff(c, swept);
    ObeyKeepsBackoff(c, swept, DecisionOf(c, swept));
  }

  lemma ContainKeepsBackoff(c: AppConfig, s: State, model: ModelName)
    requires BackoffOk(s) && s.phase.Containing? && model in s.phase.pending
    ensures BackoffOk(Contained(c, s, model, s.phase.pending))
  {
  }

  lemma BackoffStep(c: AppConfig, s: State, a: Action)
    requires c.Valid() && WellFormed(c, s) && DeviceOk(c, s) && BackoffOk(s) && Enabled(c, s, a)
    ensures BackoffOk(Step(c, s, a))
  {
    if a.IsTask() {
      TaskKeepsLoop(s, a);
    } else if a.Pass? {
      PassKeepsBackoff(c, s);
    } else if a.Contain? {
      ContainKeepsBackoff(c, s, a.model);
    } else if a.IsSwitching() {
      SwitchingKeepsBackoff(c, s, a);
    } else {
      OtherKeepsBackoff(c, s, a);
    }
  }

  lemma SwitchingKeepsBackoff(c: AppConfig, s: State, a: Action)
    requires WellFormed(c, s) && DeviceOk(c, s) && BackoffOk(s) && Enabled(c, s, a) && a.IsSwitching()
    ensures BackoffOk(Step(c, s, a))
  {
  }

  lemma OtherKeepsBackoff(c: AppConfig, s: State, a: Action)
    requires WellFormed(c, s) && DeviceOk(c, s) && BackoffOk(s) && Enabled(c, s, a)
    requires !a.IsTask() && !a.Pass? && !a.Contain? && !a.IsSwitching()
    ensures BackoffOk(Step(c, s, a))
  {
  }

  // ------------------------------------------------------------------ channels, step by step

  lemma SoundFrame(s: State, t: State, i: nat)
    requires i < |s.reqs| && i < |t.reqs| && t.reqs[i] == s.reqs[i] && Sound(s, i)
    requires s.crashed <= t.crashed && s.faulted <= t.faulted && (s.phase.IsShutdown() ==> t.phase.IsShutdown())
    ensures Sound(t, i)
  {
  }

  lemma TaskKeepsRequests(c: AppConfig, s: State, a: Action)
    requires RequestsOk(s) && a.IsTask() && Enabled(c, s, a)
    ensures RequestsOk(TaskStep(s, a))
  {
    var t := TaskStep(s, a);
    forall i: nat | i < |t.reqs| ensures Sound(t, i) {
      assert Sound(s, i);
      if i != a.id {
        SoundFrame(s, t, i);
      } else {
        TaskIsSound(s, a);
      }
    }
  }

  lemma TaskIsSound(s: State, a: Action)
    requires a.IsTask() && a.id < |s.reqs| && Sound(s, a.id) && s.reqs[a.id].state == Running
    requires a.TaskCancelled? <==> s.reqs[a.id].cancelRequested
    ensures Sound(TaskStep(s, a), a.id)
  {
    if a.TaskYields? {
      var r := s.reqs[a.id];
      assert Pieces(r.produced + [a.chunk]) == Pieces(r.produced) + [Piece(a.chunk)];
      assert (r.produced + [a.chunk])[..|r.produced|] == r.produced;
    }
  }

  lemma ToldKeepsRequests(s: State, t: State, ids: seq<nat>, onlyDisconnected: bool)
    requires RequestsOk(s)
    requires t.reqs == CancelTasks(s.reqs, ids, onlyDisconnected)
    requires s.crashed == t.crashed && s.faulted == t.faulted && (s.phase.IsShutdown() ==> t.phase.IsShutdown())
    requires onlyDisconnected || t.phase.IsShutdown() ||
      forall i: nat :: i in ids && i < |s.reqs| ==> s.reqs[i].model in s.crashed
    ensures RequestsOk(t)
  {
    forall i: nat | i < |t.reqs| ensures Sound(t, i) {
      assert Sound(s, i);
    }
  }

  lemma SweepKeepsRequests(c: AppConfig, s: State)
    requires Pools(c, s) && RequestsOk(s)
    ensures RequestsOk(Swept(c, s))
  {
    var p := Purged(s);
    forall i: nat | i < |p.reqs| ensures Sound(p, i) {
      assert Sound(s, i) && Placed(s, i) && QueueOk(s, s.reqs[i].model);
    }
    ToldKeepsRequests(p, Swept(c, s), p.inFlight, true);
  }

  lemma DispatchKeepsRequests(c: AppConfig, s: State)
    requires Pools(c, s) && RequestsOk(s)
    ensures RequestsOk(Dispatched(c, s))
  {
    var capacity := c.scheduler.maxConcurrent - |s.inFlight|;
    if s.resident.Some? && 0 < capacity {
      var m := s.resident.value;
      var b := TakeWhile(s.reqs, s.queues[m], s.now, capacity);
      var t := Dispatched(c, s);
      assert QueueOk(s, m);
      TakeWhileTouches(s.reqs, s.queues[m], s.now, capacity);
      TakeWhileKeepsOrder(s.reqs, s.queues[m], s.now, capacity);
      forall i: nat | i < |t.reqs| ensures Sound(t, i) {
        assert Popped1(s.reqs, b.reqs, s.queues[m], b.rest, b.ids, s.now, i) && Sound(s, i);
      }
    }
  }

  lemma ObeyKeepsRequests(c: AppConfig, s: State, d: Decision)
    requires Pools(c, s) && RequestsOk(s) && !s.phase.IsShutdown()
    ensures RequestsOk(Obeyed(c, s, d))
  {
    var t := Obeyed(c, s, d);
    if d.kind == Switch && d.target.Some? {
      if s.inFlight != [] {
        ToldKeepsRequests(s, t, s.inFlight, true);
      } else {
        forall i: nat | i < |t.reqs| ensures Sound(t, i) { SoundFrame(s, t, i); }
      }
    } else {
      var u := if Policy.Dispatches(d) then Dispatched(c, s) else s;
      DispatchKeepsRequests(c, s);
      forall i: nat | i < |t.reqs| ensures Sound(t, i) { SoundFrame(u, t, i); }
    }
  }

  lemma PassKeepsRequests(c: AppConfig, s: State)
    requires Pools(c, s) && RequestsOk(s) && IsDeciding(s)
    ensures RequestsOk(Passed(c, s))
  {
    SweptKeepsRequests(c, s);
    ObeyKeepsRequests(c, Swept(c, Woken(s)), DecisionOf(c, Swept(c, Woken(s))));
  }

  lemma SweptKeepsRequests(c: AppConfig, s: State)
    requires Pools(c, s) && RequestsOk(s)
    ensures Pools(c, Woken(s)) && Pools(c, Swept(c, Woken(s))) && RequestsOk(Swept(c, Woken(s)))
    ensures Swept(c, Woken(s)).phase == s.phase
  {
    WokenKeepsRequests(c, s);
    SweepKeepsRequests(c, Woken(s));
    SweepKeepsPools(c, Woken(s));
    SweepKeepsLoop(c, Woken(s));
  }

  lemma WokenKeepsRequests(c: AppConfig, s: State)
    requires Pools(c, s) && RequestsOk(s)
    ensures Pools(c, Woken(s)) && RequestsOk(Woken(s))
  {
    var woken := Woken(s);
    SameStates(c, s, woken);
    forall i: nat | i < |s.reqs| ensures Sound(woken, i) { SoundFrame(s, woken, i); }
  }

  lemma RefuseKeepsRequests(c: AppConfig, s: State)
    requires Pools(c, s) && RequestsOk(s) && s.phase.Stopping?
    ensures RequestsOk(StopDrained(s))
  {
    var t := StopDrained(s);
    forall i: nat | i < |t.reqs| ensures Sound(t, i) {
      assert Sound(s, i) && Placed(s, i) && QueueOk(s, s.reqs[i].model);
    }
  }

  lemma ContainKeepsRequests(c: AppConfig, s: State, model: ModelName)
    requires RequestsOk(s) && BackoffOk(s) && s.phase.Containing? && model in s.phase.pending
    ensures RequestsOk(Contained(c, s, model, s.phase.pending))
  {
    var t := Contained(c, s, model, s.phase.pending);
    if s.resident == Some(model) {
      ContainTells(c, s, model, s.phase.pending);
      ToldKeepsRequests(s, t, OfModel(s.reqs, s.inFlight, model), false);
    } else {
      forall i: nat | i < |t.reqs| ensures Sound(t, i) { SoundFrame(s, t, i); }
    }
  }

  lemma ContainTells(c: AppConfig, s: State, model: ModelName, pending: set<ModelName>)
    requires s.resident == Some(model)
    ensures var t := Contained(c, s, model, pending);
      && t.reqs == CancelTasks(s.reqs, OfModel(s.reqs, s.inFlight, model), false)
      && t.crashed == s.crashed && t.faulted == s.faulted
  {
  }

  lemma OtherKeepsRequests(c: AppConfig, s: State, a: Action)
    requires WellFormed(c, s) && RequestsOk(s) && Enabled(c, s, a)
    requires !a.IsTask() && !a.Contain? && !a.Pass? && !a.BeginStop? && !a.FinishStopDrain?
    ensures RequestsOk(Step(c, s, a))
  {
    var t := Step(c, s, a);
    forall i: nat | i < |t.reqs| ensures Sound(t, i) {
      assert i < |s.reqs| ==> Sound(s, i);
    }
  }

  lemma RequestsStep(c: AppConfig, s: State, a: Action)
    requires Pools(c, s) && BackoffOk(s) && RequestsOk(s) && Enabled(c, s, a)
    ensures RequestsOk(Step(c, s, a))
  {
    if a.IsTask() {
      TaskKeepsRequests(c, s, a);
    } else {
      match a
      case Contain(model) => ContainKeepsRequests(c, s, model);
      case Pass => PassKeepsRequests(c, s);
      case BeginStop => ToldKeepsRequests(s, Step(c, s, a), s.inFlight, false);
      case FinishStopDrain => RefuseKeepsRequests(c, s);
      case _ => OtherKeepsRequests(c, s, a);
    }
  }

  // ------------------------------------------------------------------ all together

  lemma StepIsSafe(c: AppConfig, s: State, a: Action)
    requires c.Valid() && Safe(c, s) && Enabled(c, s, a)
    ensures Safe(c, Step(c, s, a))
  {
    PoolsStep(c, s, a);
    DeviceStep(c, s, a);
    StampsStep(c, s, a);
    ArrivalsStep(c, s, a);
    BackoffStep(c, s, a);
    RequestsStep(c, s, a);
  }

  /** Every state of every run is safe. */
  lemma {:induction false} RunIsSafe(c: AppConfig, s: State, run: seq<Action>)
    requires c.Valid() && Safe(c, s) && IsRun(c, s, run)
    ensures Safe(c, After(c, s, run))
    decreases run
  {
    if run != [] {
      StepIsSafe(c, s, run[0]);
      RunIsSafe(c, Step(c, s, run[0]), run[1..]);
    }
  }
}
