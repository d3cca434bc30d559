/** How time passes while nobody does anything: the loop ticks, the sweeper sweeps, and that is all. Whatever
    the state, there is such a history to any later moment. */
module JobWaiting {
  import opened Types
  import opened Requests
  import opened QueueSpec
  import opened EngineModel
  import opened JobModel
  import opened JobInvariant
  import opened JobSweep
  import opened JobTheorems
  import opened JobSilence
  import EngineInvariant
  import EnginePools
  import EngineTheorems

  // ------------------------------------------------------------------ unattended histories

  /** The sweeper's next run is due. */
  predicate IsSweepDue(config: JobsConfig, w: World) {
    w.engine.now == w.lastSweep + config.sweepInterval
  }

  /** The loop goes on, or time does. */
  predicate IsQuiet(a: Action) {
    a.Advance? || a.Pass? || a.Wake? || a.StartContaining? || a.Contain? || a.FinishDrain? || a.FinishCrashDrain?
  }

  /** No client and no backend has a part in this step, and the sweeper keeps to its schedule. */
  predicate IsUnattended(config: JobsConfig, w: World, a: Act) {
    if a.Sweep? then IsSweepDue(config, w) else a.EngineDoes? && IsQuiet(a.action)
  }

  ghost predicate Unattended(c: AppConfig, config: JobsConfig, w: World, run: seq<Act>)
    requires c.scheduler.Valid() && IsHistory(c, config, w, run)
    decreases run
  {
    run != [] ==> IsUnattended(config, w, run[0]) && Unattended(c, config, Do(c, config, w, run[0]), run[1..])
  }

  /** Left alone, `w` becomes `v`. */
  ghost predicate Becomes(c: AppConfig, config: JobsConfig, w: World, run: seq<Act>, v: World)
    requires c.scheduler.Valid()
  {
    IsHistory(c, config, w, run) && Unattended(c, config, w, run) && Afterwards(c, config, w, run) == v
  }

  lemma {:induction false} BecomesJoin(
    c: AppConfig, config: JobsConfig, w: World, first: seq<Act>, v: World, rest: seq<Act>, u: World)
    requires c.scheduler.Valid() && Becomes(c, config, w, first, v) && Becomes(c, config, v, rest, u)
    ensures Becomes(c, config, w, first + rest, u)
    decreases first
  {
    if first == [] {
      assert first + rest == rest;
    } else {
      assert (first + rest)[0] == first[0] && (first + rest)[1..] == first[1..] + rest;
      BecomesJoin(c, config, Do(c, config, w, first[0]), first[1..], v, rest, u);
    }
  }

  lemma BecomesByOne(c: AppConfig, config: JobsConfig, w: World, a: Act)
    requires c.scheduler.Valid() && Sound(c, w) && CanAct(c, config, w, a) && IsUnattended(config, w, a)
    ensures Becomes(c, config, w, [a], Do(c, config, w, a))
  {
    assert [a][1..] == [];
    assert IsHistory(c, config, Do(c, config, w, a), []);
  }

  lemma BecomesItself(c: AppConfig, config: JobsConfig, w: World)
    requires c.scheduler.Valid()
    ensures Becomes(c, config, w, [], w)
  {
  }

  /** The loop waits for tasks, and they have all ended. */
  predicate IsDrained(s: State) {
    (s.phase.Draining? || s.phase.CrashDraining?) && AllTasksDone(s)
  }

  /** The loop is suspended where time can pass. */
  predicate IsResting(s: State) {
    !s.phase.Top? && !s.phase.Containing? && !IsDrained(s)
  }

  // ------------------------------------------------------------------ what waiting leaves alone

  /** The job of request `id` is in progress and was last polled at `last`. */
  ghost predicate IsOpen(w: World, id: nat, last: real, key: Option<string>) {
    && id < |w.engine.reqs| && !w.engine.reqs[id].cancelled && !w.engine.reqs[id].state.IsTerminal()
    && exists k :: 0 <= k < |w.store.jobs| && IsOpenAt(w, k, id, last, key)
  }

  predicate IsOpenAt(w: World, k: nat, id: nat, last: real, key: Option<string>)
    requires k < |w.store.jobs|
  {
    var job := w.store.jobs[k];
    job.id == id && job.lastPolledAt == last && job.key == key && job.terminal.None?
  }

  /** It has been cancelled, after its lease was over. */
  ghost predicate IsCutOff(config: JobsConfig, w: World, id: nat, last: real) {
    id < |w.engine.reqs| && w.engine.reqs[id].cancelled && last + config.lease < w.engine.now
  }

  ghost predicate OpenOrCutOff(config: JobsConfig, w: World, id: nat, last: real, key: Option<string>) {
    IsOpen(w, id, last, key) || IsCutOff(config, w, id, last)
  }

  /** What holds of the store before a wait holds after it. */
  ghost predicate KeepsStore(w: World, v: World) {
    && |v.engine.reqs| == |w.engine.reqs| && w.engine.now <= v.engine.now
    && (w.store.jobs == [] ==> v.store.jobs == [])
    && (KeysOk(w.store) ==> KeysOk(v.store))
  }

  ghost predicate KeepsJob(config: JobsConfig, w: World, v: World, id: nat, last: real, key: Option<string>) {
    OpenOrCutOff(config, w, id, last, key) ==> OpenOrCutOff(config, v, id, last, key)
  }

  // ------------------------------------------------------------------ step by step

  /** The engine's own steps that need no backend leave a wanted request wanted and unfinished. */
  lemma EngineKeepsOpen(c: AppConfig, s: State, a: Action, id: nat)
    requires c.Valid() && EngineTheorems.Inv(c, s) && Enabled(c, s, a) && id < |s.reqs|
    requires IsQuiet(a)
    ensures var t := Step(c, s, a);
      && |t.reqs| == |s.reqs| && t.reqs[id].cancelled == s.reqs[id].cancelled
      && (!s.reqs[id].cancelled && !s.reqs[id].state.IsTerminal() ==> !t.reqs[id].state.IsTerminal())
  {
    EngineTheorems.OnlyClientsCancel(c, s, a, id);
    if a.Pass? {
      PassKeepsOpen(c, s, id);
    } else if a.Contain? {
      ContainKeepsState(c, s, a.model, s.phase.pending, id);
    }
  }

  lemma ContainKeepsState(c: AppConfig, s: State, model: ModelName, pending: set<ModelName>, id: nat)
    requires id < |s.reqs|
    ensures var t := Contained(c, s, model, pending); |t.reqs| == |s.reqs| && t.reqs[id].state == s.reqs[id].state
  {
  }

  lemma PassKeepsOpen(c: AppConfig, s: State, id: nat)
    requires c.Valid() && EngineTheorems.Inv(c, s) && IsDeciding(s) && id < |s.reqs|
    ensures |Passed(c, s).reqs| == |s.reqs|
    ensures !s.reqs[id].cancelled && !s.reqs[id].state.IsTerminal() ==> !Passed(c, s).reqs[id].state.IsTerminal()
  {
    EngineInvariant.NothingStartedInQueue(s);
    EnginePools.PassPersists(c, s);
    EnginePools.SameStates(c, s, Woken(s));
    EnginePools.SweepKeepsPools(c, Woken(s));
    SweepKeepsState(c, Woken(s), id);
    ObeyKeepsState(c, Swept(c, Woken(s)), DecisionOf(c, Swept(c, Woken(s))), id);
  }

  lemma SweepKeepsState(c: AppConfig, s: State, id: nat)
    requires WellFormed(c, s) && id < |s.reqs|
    ensures id < |Swept(c, s).reqs|
    ensures !s.reqs[id].cancelled ==> Swept(c, s).reqs[id].state == s.reqs[id].state
  {
  }

  lemma ObeyKeepsState(c: AppConfig, s: State, d: Decision, id: nat)
    requires EnginePools.Pools(c, s) && id < |s.reqs|
    ensures id < |Obeyed(c, s, d).reqs|
    ensures !s.reqs[id].cancelled && !s.reqs[id].state.IsTerminal() ==>
      !Obeyed(c, s, d).reqs[id].state.IsTerminal()
  {
    if !(d.kind == Switch && d.target.Some?) {
      DispatchKeepsState(c, s, id);
    }
  }

  lemma DispatchKeepsState(c: AppConfig, s: State, id: nat)
    requires EnginePools.Pools(c, s) && id < |s.reqs|
    ensures id < |Dispatched(c, s).reqs|
    ensures !s.reqs[id].cancelled && !s.reqs[id].state.IsTerminal() ==>
      !Dispatched(c, s).reqs[id].state.IsTerminal()
  {
    if s.resident.Some? && |s.inFlight| < c.scheduler.maxConcurrent {
      var q, limit := s.queues[s.resident.value], c.scheduler.maxConcurrent - |s.inFlight|;
      var b := TakeWhile(s.reqs, q, s.now, limit);
      assert EnginePools.QueueOk(s, s.resident.value);
      TakeWhileTouches(s.reqs, q, s.now, limit);
      assert Popped1(s.reqs, b.reqs, q, b.rest, b.ids, s.now, id);
      EnginePools.DispatchIs(c, s, b);
    }
  }

  lemma EngineStepKeeps(c: AppConfig, config: JobsConfig, w: World, a: Action)
    requires c.Valid() && config.Valid() && WorldOk(c, config, w) && Enabled(c, w.engine, a)
    requires IsQuiet(a)
    ensures WellFormed(c, w.engine)
    ensures var v := w.(engine := Step(c, w.engine, a));
      && KeepsStore(w, v)
      && forall id, last, key :: KeepsJob(config, w, v, id, last, key)
  {
    EngineStep(c, w.engine, a);
    KeepsCount(c, w.engine, a);
    forall id: nat, last: real, key: Option<string>
      ensures KeepsJob(config, w, w.(engine := Step(c, w.engine, a)), id, last, key) {
      EngineKeepsJob(c, config, w, a, id, last, key);
    }
  }

  lemma EngineKeepsJob(
    c: AppConfig, config: JobsConfig, w: World, a: Action, id: nat, last: real, key: Option<string>)
    requires c.Valid() && WorldOk(c, config, w) && Enabled(c, w.engine, a) && IsQuiet(a)
    ensures KeepsJob(config, w, w.(engine := Step(c, w.engine, a)), id, last, key)
  {
    if OpenOrCutOff(config, w, id, last, key) {
      EngineStep(c, w.engine, a);
      EngineKeepsOpen(c, w.engine, a, id);
      SameJobKept(config, w, w.(engine := Step(c, w.engine, a)), id, last, key);
    }
  }

  lemma KeepsCount(c: AppConfig, s: State, a: Action)
    requires c.Valid() && EngineTheorems.Inv(c, s) && Enabled(c, s, a) && !a.Submit?
    ensures |Step(c, s, a).reqs| == |s.reqs|
  {
    EngineInvariant.NothingStartedInQueue(s);
    EnginePools.StepPersists(c, s, a);
  }

  lemma SameJobKept(config: JobsConfig, w: World, v: World, id: nat, last: real, key: Option<string>)
    requires OpenOrCutOff(config, w, id, last, key) && v.store == w.store && w.engine.now <= v.engine.now
    requires id < |v.engine.reqs| && id < |w.engine.reqs|
    requires v.engine.reqs[id].cancelled == w.engine.reqs[id].cancelled
    requires !w.engine.reqs[id].cancelled && !w.engine.reqs[id].state.IsTerminal() ==>
      !v.engine.reqs[id].state.IsTerminal()
    ensures OpenOrCutOff(config, v, id, last, key)
  {
    if IsOpen(w, id, last, key) {
      var k :| 0 <= k < |w.store.jobs| && IsOpenAt(w, k, id, last, key);
      assert IsOpenAt(v, k, id, last, key);
    }
  }

  // ------------------------------------------------------------------ the sweep

  /** A sweep only sets cancellation flags. */
  lemma SweepKeepsResting(config: JobsConfig, w: World)
    requires DistinctIds(w.store.jobs) && Known(w.store.jobs, w.engine.reqs)
    ensures IsResting(w.engine) ==> IsResting(SweptOnce(config, w).engine)
  {
    SweepIsExact(config, w);
    var s, t := w.engine, SweptOnce(config, w).engine;
    if IsDrained(t) {
      forall k | 0 <= k < |s.inFlight| ensures !IsRunning(s, s.inFlight[k]) {
        assert !IsRunning(t, t.inFlight[k]);
      }
    }
  }

  lemma SweepKeeps(c: AppConfig, config: JobsConfig, w: World)
    requires c.Valid() && config.Valid() && WorldOk(c, config, w) && Sound(c, w) && config.lease != 0.0
    ensures var v := Do(c, config, w, Sweep);
      && KeepsStore(w, v) && v.engine.now == w.engine.now && v.lastSweep == w.engine.now
      && v.engine == w.engine.(reqs := v.engine.reqs)
      && forall id, last, key :: KeepsJob(config, w, v, id, last, key)
    ensures IsResting(w.engine) ==> IsResting(Do(c, config, w, Sweep).engine)
  {
    var v := Do(c, config, w, Sweep);
    SweepIsExact(config, w);
    SweepKeepsResting(config, w);
    if KeysOk(w.store) {
      OtherActKeepsKeys(c, config, w, Sweep);
    }
    forall id: nat, last: real, key: Option<string> ensures KeepsJob(config, w, v, id, last, key) {
      if IsOpen(w, id, last, key) {
        SweepOfOpen(c, config, w, id, last, key);
      }
    }
  }

  /** A sweep cuts an open job off if its lease is over, and otherwise leaves it open. */
  lemma SweepOfOpen(c: AppConfig, config: JobsConfig, w: World, id: nat, last: real, key: Option<string>)
    requires c.Valid() && config.Valid() && WorldOk(c, config, w) && Sound(c, w) && config.lease != 0.0
    requires IsOpen(w, id, last, key)
    ensures var v := Do(c, config, w, Sweep);
      if w.engine.now - last > config.lease then IsCutOff(config, v, id, last) else IsOpen(v, id, last, key)
  {
    var k :| 0 <= k < |w.store.jobs| && IsOpenAt(w, k, id, last, key);
    SweepIsExact(config, w);
    if w.engine.now - last > config.lease {
      assert IsStale(config, w.store.jobs[k], w.engine.reqs[id], w.engine.now);
    } else {
      OnlyItsOwn(c, config, w, k);
      FreshIsKept(config, w, k);
      var v := Do(c, config, w, Sweep);
      var j :| 0 <= j < |v.store.jobs| && v.store.jobs[j] == w.store.jobs[k];
      assert IsOpenAt(v, j, id, last, key);
    }
  }

  /** A job in progress whose lease is not over is kept as it is. */
  lemma FreshIsKept(config: JobsConfig, w: World, k: nat)
    requires DistinctIds(w.store.jobs) && Known(w.store.jobs, w.engine.reqs) && k < |w.store.jobs|
    requires !IsTerminal(w.store.jobs[k], w.engine.reqs[w.store.jobs[k].id])
    requires w.engine.now - w.store.jobs[k].lastPolledAt <= config.lease
    ensures w.store.jobs[k] in SweptOnce(config, w).store.jobs
  {
    SweepIsExact(config, w);
    SurvivorRetained(config, w.store.jobs, w.engine.reqs, w.engine.now, k);
  }

  /** No other job's staleness cancels this one's request. */
  lemma OnlyItsOwn(c: AppConfig, config: JobsConfig, w: World, k: nat)
    requires WorldOk(c, config, w) && Sound(c, w) && k < |w.store.jobs|
    requires !IsStale(config, w.store.jobs[k], w.engine.reqs[w.store.jobs[k].id], w.engine.now)
    ensures var id := w.store.jobs[k].id;
      id < |SweptOnce(config, w).engine.reqs| && SweptOnce(config, w).engine.reqs[id] == w.engine.reqs[id]
  {
    SweepIsExact(config, w);
    forall j | 0 <= j < |w.store.jobs| && w.store.jobs[j].id == w.store.jobs[k].id ensures j == k {
      PlaceIsUnique(w.store.jobs, j);
      PlaceIsUnique(w.store.jobs, k);
    }
  }

  // ------------------------------------------------------------------ until the loop rests

  /** One quiet step of the engine, within a history. */
  ghost predicate Waits(c: AppConfig, config: JobsConfig, w: World, run: seq<Act>, v: World) {
    && c.scheduler.Valid() && Becomes(c, config, w, run, v) && Happens(c, config, v) && KeepsStore(w, v)
    && (forall id, last, key :: KeepsJob(config, w, v, id, last, key))
  }

  lemma WaitsJoin(
    c: AppConfig, config: JobsConfig, w: World, first: seq<Act>, v: World, rest: seq<Act>, u: World)
    requires Waits(c, config, w, first, v) && Waits(c, config, v, rest, u)
    ensures Waits(c, config, w, first + rest, u)
  {
    BecomesJoin(c, config, w, first, v, rest, u);
    forall id: nat, last: real, key: Option<string> ensures KeepsJob(config, w, u, id, last, key) {
      assert KeepsJob(config, w, v, id, last, key) && KeepsJob(config, v, u, id, last, key);
    }
  }

  lemma WaitsNot(c: AppConfig, config: JobsConfig, w: World)
    requires c.scheduler.Valid() && Happens(c, config, w)
    ensures Waits(c, config, w, [], w)
  {
    BecomesItself(c, config, w);
  }

  lemma EngineWaits(c: AppConfig, config: JobsConfig, w: World, a: Action)
    requires c.Valid() && config.Valid() && Happens(c, config, w) && Enabled(c, w.engine, a) && IsQuiet(a)
    requires a.Advance? ==> w.engine.now + a.seconds <= w.lastSweep + config.sweepInterval
    ensures WellFormed(c, w.engine)
    ensures Waits(c, config, w, [EngineDoes(a)], w.(engine := Step(c, w.engine, a)))
  {
    HappensOk(c, config, w);
    HappensNext(c, config, w, EngineDoes(a));
    BecomesByOne(c, config, w, EngineDoes(a));
    EngineStepKeeps(c, config, w, a);
  }

  lemma SweepWaits(c: AppConfig, config: JobsConfig, w: World)
    requires c.Valid() && config.Valid() && Happens(c, config, w) && IsSweepDue(config, w) && config.lease != 0.0
    ensures Sound(c, w)
    ensures var v := Do(c, config, w, Sweep);
      && Waits(c, config, w, [Sweep], v) && v.engine.now == w.engine.now && v.lastSweep == w.engine.now
      && v.engine == w.engine.(reqs := v.engine.reqs)
    ensures IsResting(w.engine) ==> IsResting(Do(c, config, w, Sweep).engine)
  {
    HappensOk(c, config, w);
    HappensNext(c, config, w, Sweep);
    BecomesByOne(c, config, w, Sweep);
    SweepKeeps(c, config, w);
  }

  /** The loop has come to rest, at the same instant. */
  ghost predicate HasSettled(w: World, v: World) {
    && IsResting(v.engine) && v.engine.now == w.engine.now && v.lastSweep == w.lastSweep
    && (v.engine.phase.Waiting? ==> v.engine.phase.since == v.engine.now)
  }

  lemma PassSettles(c: AppConfig, config: JobsConfig, w: World)
    requires c.Valid() && config.Valid() && Happens(c, config, w) && WellFormed(c, w.engine) && IsDeciding(w.engine)
    ensures var v := w.(engine := Passed(c, w.engine));
      Waits(c, config, w, [EngineDoes(Pass)], v) && HasSettled(w, v)
  {
    EngineWaits(c, config, w, Pass);
    EngineTheorems.PassLeadsTo(c, w.engine);
    EnginePools.PassKeepsBooks(c, w.engine);
    PassDrainsSomething(c, w.engine);
  }

  /** A drain begins only while something is generating. */
  lemma PassDrainsSomething(c: AppConfig, s: State)
    requires WellFormed(c, s)
    ensures !IsDrained(Passed(c, s)) && Passed(c, s).wakeup == (!s.phase.Top? && s.wakeup)
  {
    EnginePools.SweptAllRun(c, Woken(s));
    ObeyDrainsSomething(c, Swept(c, Woken(s)), DecisionOf(c, Swept(c, Woken(s))));
  }

  lemma ObeyDrainsSomething(c: AppConfig, s: State, d: Decision)
    requires WellFormed(c, s) && forall k :: 0 <= k < |s.inFlight| ==> IsRunning(s, s.inFlight[k])
    ensures !IsDrained(Obeyed(c, s, d)) && Obeyed(c, s, d).wakeup == s.wakeup
  {
    if d.kind == Switch && d.target.Some? && s.inFlight != [] {
      assert IsRunning(Obeyed(c, s, d), s.inFlight[0]);
    }
  }

  /** A completed drain goes on. */
  lemma DrainSettles(c: AppConfig, config: JobsConfig, w: World) returns (run: seq<Act>, v: World)
    requires c.Valid() && config.Valid() && Happens(c, config, w) && IsDrained(w.engine)
    ensures Waits(c, config, w, run, v) && HasSettled(w, v) && v.engine.wakeup == w.engine.wakeup
  {
    if w.engine.phase.Draining? {
      EngineWaits(c, config, w, FinishDrain);
      run, v := [EngineDoes(FinishDrain)], w.(engine := Drained(w.engine));
    } else {
      EngineWaits(c, config, w, FinishCrashDrain);
      run := [EngineDoes(FinishCrashDrain)];
      v := w.(engine := Evicted(w.engine, w.engine.phase.model, w.engine.phase.pending));
    }
  }

  /** From the handling of failures the loop comes to rest. */
  lemma {:induction false} ContainingSettles(c: AppConfig, config: JobsConfig, w: World)
    returns (run: seq<Act>, v: World)
    requires c.Valid() && config.Valid() && Happens(c, config, w) && w.engine.phase.Containing?
    ensures Waits(c, config, w, run, v) && HasSettled(w, v) && v.engine.wakeup == w.engine.wakeup
    decreases |w.engine.phase.pending|
  {
    HappensOk(c, config, w);
    if w.engine.phase.pending == {} {
      PassSettles(c, config, w);
      PassDrainsSomething(c, w.engine);
      run, v := [EngineDoes(Pass)], w.(engine := Passed(c, w.engine));
    } else {
      var m :| m in w.engine.phase.pending;
      var u := w.(engine := Contained(c, w.engine, m, w.engine.phase.pending));
      EngineWaits(c, config, w, Contain(m));
      ContainMoves(c, w.engine, m, w.engine.phase.pending);
      var rest;
      if u.engine.phase.Containing? {
        rest, v := ContainingSettles(c, config, u);
      } else if IsDrained(u.engine) {
        rest, v := DrainSettles(c, config, u);
      } else {
        WaitsNot(c, config, u);
        rest, v := [], u;
      }
      run := [EngineDoes(Contain(m))] + rest;
      WaitsJoin(c, config, w, [EngineDoes(Contain(m))], u, rest, v);
    }
  }

  lemma ContainMoves(c: AppConfig, s: State, m: ModelName, pending: set<ModelName>)
    requires m in pending
    ensures var t := Contained(c, s, m, pending);
      && t.now == s.now && t.wakeup == s.wakeup
      && (t.phase.Containing? || t.phase.CrashDraining? || t.phase.CrashStopping?)
      && (t.phase.Containing? ==> t.phase.pending == pending - {m} && |t.phase.pending| < |pending|)
  {
  }

  /** From the top of the loop. */
  lemma TopSettles(c: AppConfig, config: JobsConfig, w: World) returns (run: seq<Act>, v: World)
    requires c.Valid() && config.Valid() && Happens(c, config, w) && w.engine.phase.Top?
    ensures Waits(c, config, w, run, v) && HasSettled(w, v) && !v.engine.wakeup
  {
    HappensOk(c, config, w);
    if w.engine.failed == {} {
      PassSettles(c, config, w);
      PassDrainsSomething(c, w.engine);
      run, v := [EngineDoes(Pass)], w.(engine := Passed(c, w.engine));
    } else {
      var u := w.(engine := ContainStarted(w.engine));
      EngineWaits(c, config, w, StartContaining);
      var rest;
      rest, v := ContainingSettles(c, config, u);
      run := [EngineDoes(StartContaining)] + rest;
      WaitsJoin(c, config, w, [EngineDoes(StartContaining)], u, rest, v);
    }
  }

  lemma Settles(c: AppConfig, config: JobsConfig, w: World) returns (run: seq<Act>, v: World)
    requires c.Valid() && config.Valid() && Happens(c, config, w) && !IsResting(w.engine)
    ensures Waits(c, config, w, run, v) && HasSettled(w, v)
  {
    if w.engine.phase.Containing? {
      run, v := ContainingSettles(c, config, w);
    } else if w.engine.phase.Top? {
      run, v := TopSettles(c, config, w);
    } else {
      run, v := DrainSettles(c, config, w);
    }
  }

  // ------------------------------------------------------------------ any length of time

  /** How often `period` fits. */
  function Fits(length: real, period: real): nat
    requires 0.0 < period && 0.0 <= length
  {
    (length / period).Floor
  }

  lemma FitsOnceLess(length: real, period: real)
    requires 0.0 < period <= length
    ensures 0 < Fits(length, period) && Fits(length - period, period) == Fits(length, period) - 1
  {
    var p, q := (length - period) / period, length / period;
    Quotient(length, period);
    Quotient(length - period, period);
    OneLess(q, period);
    SameFactor(p, q - 1.0, period);
    FactorIsPositive(p, period);
  }

  lemma Quotient(length: real, period: real)
    requires 0.0 < period
    ensures length / period * period == length
  {
  }

  lemma OneLess(q: real, period: real)
    ensures (q - 1.0) * period == q * period - period
  {
  }

  lemma SameFactor(p: real, q: real, period: real)
    requires p * period == q * period && 0.0 < period
    ensures p == q
  {
    assert (p - q) * period == 0.0;
  }

  lemma FactorIsPositive(p: real, period: real)
    requires 0.0 <= p * period && 0.0 < period
    ensures 0.0 <= p
  {
  }

  lemma FitsNoMore(length: real, longer: real, period: real)
    requires 0.0 < period && 0.0 <= length <= longer
    ensures Fits(length, period) <= Fits(longer, period)
  {
    var p, q := length / period, longer / period;
    Quotient(length, period);
    Quotient(longer, period);
    SmallerFactor(p, q, period);
  }

  lemma SmallerFactor(p: real, q: real, period: real)
    requires p * period <= q * period && 0.0 < period
    ensures p <= q
  {
    if q < p {
      LargerFactor(q, p, period);
    }
  }

  lemma LargerFactor(p: real, q: real, period: real)
    requires p < q && 0.0 < period
    ensures p * period < q * period
  {
    assert 0.0 < (q - p) * period;
  }

  function TicksLeft(c: AppConfig, s: State, target: real): nat
    requires c.Valid() && s.now <= target
  {
    if s.phase.Waiting? && s.phase.since <= s.now then Fits(target - s.phase.since, c.scheduler.tick) else 0
  }

  function SweepsLeft(config: JobsConfig, w: World, target: real): nat
    requires config.Valid() && w.lastSweep <= w.engine.now <= target
  {
    Fits(target - w.lastSweep, config.sweepInterval)
  }

  /** How many sweeps and ticks lie ahead. */
  function Left(c: AppConfig, config: JobsConfig, w: World, target: real): nat
    requires c.Valid() && config.Valid() && w.lastSweep <= w.engine.now <= target
  {
    SweepsLeft(config, w, target) + TicksLeft(c, w.engine, target) + if IsWoken(w.engine) then 1 else 0
  }

  /** Something was submitted while the loop waited. */
  predicate IsWoken(s: State) {
    s.phase.Waiting? && s.wakeup
  }

  /** A waiting loop goes on: it has been woken, or its tick is over. */
  predicate IsLoopDue(c: AppConfig, s: State) {
    IsWoken(s) || (s.phase.Waiting? && s.phase.since + c.scheduler.tick <= s.now)
  }

  predicate IsSomethingDue(c: AppConfig, config: JobsConfig, w: World, target: real) {
    w.engine.now == target || IsSweepDue(config, w) || IsLoopDue(c, w.engine)
  }

  lemma SweepLeavesFewer(c: AppConfig, config: JobsConfig, w: World, u: World, target: real)
    requires c.Valid() && config.Valid() && w.lastSweep <= w.engine.now <= target && IsSweepDue(config, w)
    requires u.engine.now == w.engine.now == u.lastSweep && u.engine.phase == w.engine.phase
    requires u.engine.wakeup == w.engine.wakeup
    ensures Left(c, config, u, target) < Left(c, config, w, target)
  {
    FitsOnceLess(target - w.lastSweep, config.sweepInterval);
  }

  lemma TickLeavesFewer(c: AppConfig, config: JobsConfig, w: World, u: World, target: real)
    requires c.Valid() && config.Valid() && w.lastSweep <= w.engine.now <= target
    requires IsLoopDue(c, w.engine) && HasSettled(w, u) && !u.engine.wakeup
    requires w.engine.phase.since <= w.engine.now <= w.engine.phase.since + c.scheduler.tick
    ensures Left(c, config, u, target) < Left(c, config, w, target)
  {
    if w.engine.phase.since + c.scheduler.tick == w.engine.now {
      FitsOnceLess(target - w.engine.phase.since, c.scheduler.tick);
    } else {
      FitsNoMore(target - w.engine.now, target - w.engine.phase.since, c.scheduler.tick);
    }
  }

  lemma AdvanceMeetsDue(c: AppConfig, config: JobsConfig, w: World, u: World, target: real)
    requires c.Valid() && config.Valid() && w.lastSweep <= w.engine.now < target
    requires !IsSomethingDue(c, config, w, target) && w.engine.now <= w.lastSweep + config.sweepInterval
    requires w.engine.phase.Waiting? ==> w.engine.phase.since <= w.engine.now
    requires u == w.(engine := w.engine.(now := NextDue(c, config, w, target)))
    ensures w.engine.now < u.engine.now <= target && IsSomethingDue(c, config, u, target)
    ensures Left(c, config, u, target) == Left(c, config, w, target)
  {
  }

  /** The next moment at which something has to be done. */
  function NextDue(c: AppConfig, config: JobsConfig, w: World, target: real): real {
    var due := Min(target, w.lastSweep + config.sweepInterval);
    if w.engine.phase.Waiting? then Min(due, w.engine.phase.since + c.scheduler.tick) else due
  }

  /** A loop that is due goes round once and rests again. */
  lemma TickGoesRound(c: AppConfig, config: JobsConfig, w: World) returns (run: seq<Act>, v: World)
    requires c.Valid() && config.Valid() && Happens(c, config, w) && IsLoopDue(c, w.engine)
    ensures Waits(c, config, w, run, v) && HasSettled(w, v) && !v.engine.wakeup
    ensures w.engine.phase.since <= w.engine.now <= w.engine.phase.since + c.scheduler.tick
  {
    HappensOk(c, config, w);
    EngineWaits(c, config, w, Wake);
    var u := w.(engine := w.engine.(phase := Top));
    var rest;
    rest, v := TopSettles(c, config, u);
    run := [EngineDoes(Wake)] + rest;
    WaitsJoin(c, config, w, [EngineDoes(Wake)], u, rest, v);
  }

  lemma TimeGoesOn(c: AppConfig, config: JobsConfig, w: World, until: real) returns (v: World)
    requires c.Valid() && config.Valid() && Happens(c, config, w) && IsResting(w.engine)
    requires w.engine.now < until <= w.lastSweep + config.sweepInterval
    requires w.engine.phase.Waiting? ==> until <= w.engine.phase.since + c.scheduler.tick
    ensures Waits(c, config, w, [EngineDoes(Advance(until - w.engine.now))], v)
    ensures v == w.(engine := w.engine.(now := until))
  {
    EngineWaits(c, config, w, Advance(until - w.engine.now));
    AdvanceAdds(c, w.engine, Advance(until - w.engine.now));
    v := w.(engine := w.engine.(now := until));
  }

  /** The n-th time the sweeper runs after `from`, on schedule. */
  function SweepTime(config: JobsConfig, from: real, n: nat): real {
    from + n as real * config.sweepInterval
  }

  ghost predicate IsSweepTime(config: JobsConfig, from: real, t: real) {
    exists n: nat :: t == SweepTime(config, from, n)
  }

  /** Where the wait has got to: the target, with no sweep since it came into sight but those on schedule. */
  ghost predicate HasArrived(config: JobsConfig, w: World, v: World, target: real) {
    && v.engine.now == target && IsResting(v.engine)
    && (w.lastSweep < target ==> v.lastSweep < target)
    && IsSweepTime(config, w.lastSweep, v.lastSweep)
  }

  /** Left alone from any state of rest, the world gets to any later moment. */
  lemma {:induction false} Forward(c: AppConfig, config: JobsConfig, w: World, target: real)
    returns (run: seq<Act>, v: World)
    requires c.Valid() && config.Valid() && config.lease != 0.0
    requires Happens(c, config, w) && IsResting(w.engine) && w.lastSweep <= w.engine.now <= target
    ensures Waits(c, config, w, run, v) && HasArrived(config, w, v, target)
    decreases Left(c, config, w, target), if IsSomethingDue(c, config, w, target) then 0 else 1, 1
  {
    HappensOk(c, config, w);
    if w.engine.now == target {
      WaitsNot(c, config, w);
      run, v := [], w;
      assert v.lastSweep == SweepTime(config, w.lastSweep, 0);
    } else if IsSweepDue(config, w) {
      run, v := AfterSweep(c, config, w, target);
    } else if IsLoopDue(c, w.engine) {
      run, v := AfterTick(c, config, w, target);
    } else {
      run, v := AfterAdvance(c, config, w, target);
    }
  }

  lemma {:induction false} AfterSweep(c: AppConfig, config: JobsConfig, w: World, target: real)
    returns (run: seq<Act>, v: World)
    requires c.Valid() && config.Valid() && config.lease != 0.0 && w.engine.now < target && IsSweepDue(config, w)
    requires Happens(c, config, w) && IsResting(w.engine) && w.lastSweep <= w.engine.now
    ensures Waits(c, config, w, run, v) && HasArrived(config, w, v, target)
    decreases Left(c, config, w, target), 0, 0
  {
    SweepWaits(c, config, w);
    var u := Do(c, config, w, Sweep);
    SweepLeavesFewer(c, config, w, u, target);
    var rest;
    rest, v := Forward(c, config, u, target);
    run := [Sweep] + rest;
    WaitsJoin(c, config, w, [Sweep], u, rest, v);
    OneMoreInterval(config, w.lastSweep, u.lastSweep, v.lastSweep);
  }

  lemma OneMoreInterval(config: JobsConfig, from: real, next: real, t: real)
    requires next == from + config.sweepInterval && IsSweepTime(config, next, t)
    ensures IsSweepTime(config, from, t)
  {
    var n: nat :| t == SweepTime(config, next, n);
    assert (n + 1) as real * config.sweepInterval == n as real * config.sweepInterval + config.sweepInterval;
    assert t == SweepTime(config, from, n + 1);
  }

  lemma {:induction false} AfterTick(c: AppConfig, config: JobsConfig, w: World, target: real)
    returns (run: seq<Act>, v: World)
    requires c.Valid() && config.Valid() && config.lease != 0.0 && w.engine.now < target && IsLoopDue(c, w.engine)
    requires Happens(c, config, w) && w.lastSweep <= w.engine.now
    ensures Waits(c, config, w, run, v) && HasArrived(config, w, v, target)
    decreases Left(c, config, w, target), 0, 0
  {
    var first, u := TickGoesRound(c, config, w);
    TickLeavesFewer(c, config, w, u, target);
    var rest;
    rest, v := Forward(c, config, u, target);
    run := first + rest;
    WaitsJoin(c, config, w, first, u, rest, v);
  }

  lemma {:induction false} AfterAdvance(c: AppConfig, config: JobsConfig, w: World, target: real)
    returns (run: seq<Act>, v: World)
    requires c.Valid() && config.Valid() && config.lease != 0.0 && w.engine.now < target
    requires !IsSomethingDue(c, config, w, target)
    requires Happens(c, config, w) && IsResting(w.engine) && w.lastSweep <= w.engine.now
    ensures Waits(c, config, w, run, v) && HasArrived(config, w, v, target)
    decreases Left(c, config, w, target), 1, 0
  {
    HappensOk(c, config, w);
    var until := NextDue(c, config, w, target);
    var u := TimeGoesOn(c, config, w, until);
    AdvanceMeetsDue(c, config, w, u, target);
    var rest;
    rest, v := Forward(c, config, u, target);
    run := [EngineDoes(Advance(until - w.engine.now))] + rest;
    WaitsJoin(c, config, w, [EngineDoes(Advance(until - w.engine.now))], u, rest, v);
  }
}
