/** The promises of the engine, for every reachable state of every run and every interleaving. */
module EngineTheorems {
  import opened Types
  import opened Requests
  import opened QueueSpec
  import opened EngineModel
  import opened EnginePools
  import opened EngineInvariant
  import opened EngineOrder
  import Policy

  ghost predicate Reachable(c: AppConfig, s: State) {
    exists start: real, run: seq<Action> :: IsRun(c, Init(c, start), run) && After(c, Init(c, start), run) == s
  }

  /** Once shutdown has emptied the pools they stay empty. */
  ghost predicate ClosedOk(s: State) {
    s.phase.StopUnloading? || s.phase.Stopped? ==>
      && (forall i: nat :: i < |s.reqs| ==> s.reqs[i].state.IsTerminal())
      && (forall m :: m in s.queues ==> s.queues[m] == [])
  }

  /** A waiting loop has not overslept. */
  ghost predicate TickOk(c: AppConfig, s: State) {
    s.phase.Waiting? ==> s.now <= s.phase.since + c.scheduler.tick
  }

  ghost predicate Inv(c: AppConfig, s: State) {
    Safe(c, s) && OrderOk(s) && ClosedOk(s) && TickOk(c, s)
  }

  /** Where the loop can be after a pass, and after handling one failure. */
  lemma PassLeadsTo(c: AppConfig, s: State)
    requires WellFormed(c, s)
    ensures var t := Passed(c, s);
      && (t.phase.Waiting? || t.phase.Draining? || t.phase.Unloading? || t.phase.Loading?)
      && (t.phase.Loading? ==> t.phase.started == t.now)
      && (t.phase.Waiting? ==> t.phase.since == t.now)
  {
    ObeyLeadsTo(c, Swept(c, Woken(s)),
                DecisionOf(c, Swept(c, Woken(s))));
  }

  lemma ObeyLeadsTo(c: AppConfig, s: State, d: Decision)
    requires WellFormed(c, s)
    ensures var t := Obeyed(c, s, d);
      && (t.phase.Waiting? || t.phase.Draining? || t.phase.Unloading? || t.phase.Loading?)
      && (t.phase.Loading? ==> t.phase.started == t.now)
      && (t.phase.Waiting? ==> t.phase.since == t.now)
  {
  }

  lemma ContainLeadsTo(c: AppConfig, s: State, model: ModelName, pending: set<ModelName>)
    ensures var t := Contained(c, s, model, pending);
      t.phase.Containing? || t.phase.CrashDraining? || t.phase.CrashStopping?
  {
  }

  /** Loads are begun by a pass, by a completed drain or by a completed unload; the pools are closed by the
      shutdown's own drain. */
  lemma PhaseChanges(c: AppConfig, s: State, a: Action)
    requires WellFormed(c, s) && Enabled(c, s, a)
    ensures var t := Step(c, s, a);
      && (t.phase.Loading? && !s.phase.Loading? ==>
            (a.Pass? || a.FinishDrain? || a.FinishUnload?) && t.phase.started == t.now)
      && (t.phase.StopUnloading? || t.phase.Stopped? ==>
            a.FinishStopDrain? || s.phase.StopUnloading? || s.phase.Stopped?)
  {
    if a.IsTask() {
      TaskKeepsLoop(s, a);
    } else if a.Pass? {
      PassLeadsTo(c, s);
    } else if a.Contain? {
      ContainLeadsTo(c, s, a.model, s.phase.pending);
    }
  }

  lemma TickStep(c: AppConfig, s: State, a: Action)
    requires c.Valid() && WellFormed(c, s) && TickOk(c, s) && Enabled(c, s, a)
    ensures TickOk(c, Step(c, s, a))
  {
    if a.IsTask() {
      TaskKeepsLoop(s, a);
    } else if a.Pass? {
      PassLeadsTo(c, s);
    } else if a.Contain? {
      ContainLeadsTo(c, s, a.model, s.phase.pending);
    }
  }

  lemma ClosedStep(c: AppConfig, s: State, a: Action)
    requires c.Valid() && Safe(c, s) && ClosedOk(s) && Enabled(c, s, a)
    ensures ClosedOk(Step(c, s, a))
  {
    PhaseChanges(c, s, a);
    if a.FinishStopDrain? {
      RefuseKeepsPools(c, s);
    } else if s.phase.StopUnloading? || s.phase.Stopped? {
      StaysClosed(c, s, a);
    }
  }

  lemma StaysClosed(c: AppConfig, s: State, a: Action)
    requires c.Valid() && Safe(c, s) && ClosedOk(s) && Enabled(c, s, a)
    requires s.phase.StopUnloading? || s.phase.Stopped?
    ensures ClosedOk(Step(c, s, a))
  {
    assert forall i: nat :: i < |s.reqs| ==> !IsRunning(s, i);
    assert a.ClientCancel? || a.Advance? || a.FinishStopUnload?;
  }

  lemma StepKeepsInv(c: AppConfig, s: State, a: Action)
    requires c.Valid() && Inv(c, s) && Enabled(c, s, a)
    ensures Inv(c, Step(c, s, a))
  {
    StepIsSafe(c, s, a);
    OrderStep(c, s, a);
    ClosedStep(c, s, a);
    TickStep(c, s, a);
  }

  lemma {:induction false} RunKeepsInv(c: AppConfig, s: State, run: seq<Action>)
    requires c.Valid() && Inv(c, s) && IsRun(c, s, run)
    ensures Inv(c, After(c, s, run))
    decreases run
  {
    if run != [] {
      StepKeepsInv(c, s, run[0]);
      RunKeepsInv(c, Step(c, s, run[0]), run[1..]);
    }
  }

  lemma ReachableInv(c: AppConfig, s: State)
    requires c.Valid() && Reachable(c, s)
    ensures Inv(c, s)
  {
    var start, run :| IsRun(c, Init(c, start), run) && After(c, Init(c, start), run) == s;
    InitIsSafe(c, start);
    RunKeepsInv(c, Init(c, start), run);
  }

  /** Runs can be put together, and a step taken from a reachable state leads to a reachable state. */
  lemma {:induction false} RunsJoin(c: AppConfig, s: State, first: seq<Action>, rest: seq<Action>)
    requires IsRun(c, s, first) && IsRun(c, After(c, s, first), rest)
    ensures IsRun(c, s, first + rest) && After(c, s, first + rest) == After(c, After(c, s, first), rest)
    decreases first
  {
    if first == [] {
      assert first + rest == rest;
    } else {
      assert (first + rest)[1..] == first[1..] + rest && (first + rest)[0] == first[0];
      RunsJoin(c, Step(c, s, first[0]), first[1..], rest);
    }
  }

  lemma ReachableInit(c: AppConfig, now: real)
    ensures Reachable(c, Init(c, now))
  {
    assert IsRun(c, Init(c, now), []) && After(c, Init(c, now), []) == Init(c, now);
  }

  lemma ReachableStep(c: AppConfig, s: State, a: Action)
    requires Reachable(c, s) && WellFormed(c, s) && Enabled(c, s, a)
    ensures Reachable(c, Step(c, s, a))
  {
    var start, run :| IsRun(c, Init(c, start), run) && After(c, Init(c, start), run) == s;
    assert [a][1..] == [];
    assert IsRun(c, Step(c, s, a), []);
    assert IsRun(c, s, [a]) && After(c, s, [a]) == Step(c, s, a);
    RunsJoin(c, Init(c, start), run, [a]);
  }

  // ------------------------------------------------------------------ exclusive residency

  /** At most one backend occupies the device, and whatever is generating belongs to the resident model,
      which is the one on the device. */
  lemma ExclusiveResidency(c: AppConfig, s: State)
    requires c.Valid() && Reachable(c, s)
    ensures |s.gpu| <= 1
    ensures s.resident.Some? ==> s.gpu == {s.resident.value}
    ensures forall i: nat :: IsRunning(s, i) ==> i in s.inFlight && s.resident == Some(s.reqs[i].model)
    ensures forall id :: id in s.inFlight ==> id < |s.reqs| && s.resident == Some(s.reqs[id].model)
  {
    ReachableInv(c, s);
    forall i: nat | IsRunning(s, i) ensures i in s.inFlight && s.resident == Some(s.reqs[i].model) {
      assert Placed(s, i);
      assert Flying(s, i);
    }
  }

  /** A backend is started only on an empty device with nothing in flight, and never during its backoff:
      whatever step begins a load, the target is alone and its backoff was over when it was chosen. */
  lemma StartsAlone(c: AppConfig, s: State, a: Action)
    requires c.Valid() && Reachable(c, s) && WellFormed(c, s) && Enabled(c, s, a)
    requires !s.phase.Loading? && Step(c, s, a).phase.Loading?
    ensures var t := Step(c, s, a);
      && t.gpu == {t.phase.target} && t.resident.None?
      && (forall i: nat :: !IsRunning(t, i))
      && !InBackoff(t, t.phase.target, t.phase.began) && t.phase.began <= t.phase.started == t.now
  {
    ReachableInv(c, s);
    StepIsSafe(c, s, a);
    PhaseChanges(c, s, a);
    LoadingIsQuiet(c, Step(c, s, a));
  }

  lemma LoadingIsQuiet(c: AppConfig, s: State)
    requires Safe(c, s) && s.phase.Loading?
    ensures s.gpu == {s.phase.target} && s.resident.None?
    ensures forall i: nat :: !IsRunning(s, i)
    ensures !InBackoff(s, s.phase.target, s.phase.began) && s.phase.began <= s.phase.started
  {
    forall i: nat | i < |s.reqs| ensures !IsRunning(s, i) {
      assert Placed(s, i);
    }
  }

  // ------------------------------------------------------------------ conservation and order

  datatype Pool = InQueue | InFlight | Finished

  ghost predicate IsIn(s: State, i: nat, pool: Pool)
    requires i < |s.reqs|
  {
    match pool
    case InQueue => exists m :: m in s.queues && i in s.queues[m]
    case InFlight => i in s.inFlight && s.reqs[i].state == Running
    case Finished => s.reqs[i].state.IsTerminal()
  }

  /** Every submitted request is in exactly one pool, and at most `maxConcurrent` are generating. */
  lemma Conservation(c: AppConfig, s: State, i: nat)
    requires c.Valid() && Reachable(c, s) && i < |s.reqs|
    ensures exists pool :: IsIn(s, i, pool)
    ensures forall p, q :: IsIn(s, i, p) && IsIn(s, i, q) ==> p == q
    ensures IsIn(s, i, InQueue) ==> s.reqs[i].model in s.queues && i in s.queues[s.reqs[i].model]
    ensures |s.inFlight| <= c.scheduler.maxConcurrent && Distinct(s.inFlight)
  {
    ReachableInv(c, s);
    assert Placed(s, i);
    var pool := if s.reqs[i].state == Queued then InQueue else if s.reqs[i].state == Running then InFlight else Finished;
    assert IsIn(s, i, pool);
    if IsIn(s, i, InQueue) {
      var m :| m in s.queues && i in s.queues[m];
      assert QueueOk(s, m);
    }
  }

  /** Nothing is dispatched twice, and each model's requests are dispatched in order of submission: its
      dispatch order is increasing in submission order, and precedes everything still queued for it. */
  lemma FirstInFirstOut(c: AppConfig, s: State, m: ModelName)
    requires c.Valid() && Reachable(c, s)
    ensures Distinct(s.dispatched)
    ensures Increasing(OfModel(s.reqs, s.dispatched, m))
    ensures m in s.queues ==> Precedes(OfModel(s.reqs, s.dispatched, m), s.queues[m])
    ensures forall i: nat :: i < |s.reqs| ==> (s.reqs[i].startedAt.Some? <==> i in s.dispatched)
  {
    ReachableInv(c, s);
    DispatchedInOrder(s, m);
  }

  lemma DispatchedInOrder(s: State, m: ModelName)
    requires OrderOk(s)
    ensures Distinct(s.dispatched)
    ensures Increasing(OfModel(s.reqs, s.dispatched, m))
    ensures m in s.queues ==> Precedes(OfModel(s.reqs, s.dispatched, m), s.queues[m])
  {
    forall j, k | 0 <= j < k < |s.dispatched|
      ensures s.dispatched[j] != s.dispatched[k] && InOrderPair(s.reqs, s.dispatched, j, k) {
      assert InOrder(s, j) && InOrder(s, k);
    }
    OfModelIncreases(s.reqs, s.dispatched, m);
    if m in s.queues {
      forall x, y | x in OfModel(s.reqs, s.dispatched, m) && y in s.queues[m] ensures x < y {
        var k :| 0 <= k < |s.dispatched| && s.dispatched[k] == x;
        assert InOrder(s, k);
      }
    }
  }

  ghost predicate InOrderPair(reqs: Table, ids: seq<nat>, j: nat, k: nat)
    requires j < |ids| && k < |ids|
  {
    ids[j] < |reqs| && ids[k] < |reqs| && reqs[ids[j]].model == reqs[ids[k]].model ==> ids[j] < ids[k]
  }

  lemma {:induction false} OfModelIncreases(reqs: Table, ids: seq<nat>, m: ModelName)
    requires forall j, k :: 0 <= j < k < |ids| ==> InOrderPair(reqs, ids, j, k)
    ensures Increasing(OfModel(reqs, ids, m))
  {
    if ids != [] {
      var rest := ids[1..];
      forall j, k | 0 <= j < k < |rest| ensures InOrderPair(reqs, rest, j, k) {
        assert InOrderPair(reqs, ids, j + 1, k + 1);
      }
      OfModelIncreases(reqs, rest, m);
      forall x | x in OfModel(reqs, rest, m) && ids[0] < |reqs| && reqs[ids[0]].model == m ensures ids[0] < x {
        var k :| 0 <= k < |rest| && rest[k] == x;
        assert InOrderPair(reqs, ids, 0, k + 1);
      }
      var tail := OfModel(reqs, rest, m);
      assert forall k :: 0 <= k < |tail| ==> tail[k] in tail;
    }
  }

  /** After shutdown both pools are empty, every request has an outcome and the device is free. */
  lemma StopEmptiesPools(c: AppConfig, s: State)
    requires c.Valid() && Reachable(c, s) && s.phase.Stopped?
    ensures s.inFlight == [] && s.gpu == {}
    ensures forall m :: m in s.queues ==> s.queues[m] == []
    ensures forall i: nat :: i < |s.reqs| ==> s.reqs[i].state.IsTerminal()
  {
    ReachableInv(c, s);
  }

  // ------------------------------------------------------------------ channels and responses

  ghost predicate HasTerminator(r: Request) {
    r.channel != [] && Last(r.channel).IsTerminator()
  }

  /** A channel is chunks followed by at most one terminator, and the terminator tells the outcome: done
      if and only if it is a StreamEnd; failed only with a StreamError; cancelled with no terminator, or
      with the 503 of the shutdown for a request that never left its queue. A dispatched request whose
      client stays ends with a terminator if and only if its task was never told to stop, and one that was
      never dispatched, if its client stays, ends with exactly that notice. */
  lemma ChannelTellsOutcome(c: AppConfig, s: State, i: nat)
    requires c.Valid() && Reachable(c, s) && i < |s.reqs|
    ensures var r := s.reqs[i];
      && (forall k :: 0 <= k < |r.channel| - 1 ==> r.channel[k].Piece?)
      && (r.state == Done <==> r.channel != [] && Last(r.channel).StreamEnd?)
      && (r.state == Failed ==> r.channel != [] && Last(r.channel).StreamError?)
      && (r.state == Cancelled ==> r.channel == [] || Last(r.channel).Piece? || r.channel == [SHUTTING_DOWN])
      && (r.state in {Queued, Running} ==> forall k :: 0 <= k < |r.channel| ==> r.channel[k].Piece?)
      && (r.state.IsTerminal() && r.startedAt.Some? && !r.cancelled ==> (HasTerminator(r) <==> !r.cancelRequested))
      && (r.state.IsTerminal() && r.startedAt.None? && !r.cancelled ==>
            r.channel == [StreamError("router shutting down", 503)])
  {
    ReachableInv(c, s);
    assert Sound(s, i);
    var r := s.reqs[i];
    assert |Pieces(r.produced)| == |r.produced|;
  }

  /** No response is cut by a switch. Take any request whose client never cancels, whose own stream met no
      unexpected error and whose model's backend never failed, in any run without shutdown, however many
      swaps it makes: the request is queued, generating or done; its channel holds every chunk its backend
      produced, in order, and once it is done exactly one terminator more; and whenever a drain has been
      completed, that is while a model is being unloaded or loaded, no dispatched request is left undone. */
  lemma NoResponseIsCut(c: AppConfig, s: State, i: nat)
    requires c.Valid() && Reachable(c, s) && i < |s.reqs|
    requires !s.reqs[i].cancelled && s.reqs[i].model !in s.crashed && i !in s.faulted && !s.phase.IsShutdown()
    ensures var r := s.reqs[i];
      && r.state in {Queued, Running, Done} && !r.cancelRequested
      && (r.state != Done ==> r.channel == Pieces(r.produced))
      && (r.state == Done ==> r.channel != [] && Last(r.channel).StreamEnd?
                              && r.channel == Pieces(r.produced) + [Last(r.channel)])
      && (s.phase.Unloading? || s.phase.Loading? || s.phase.LoadCleanup? ==> r.state in {Queued, Done})
  {
    ReachableInv(c, s);
    assert Sound(s, i) && Placed(s, i);
  }

  // ------------------------------------------------------------------ who cancels

  /** Sweeping and dispatching never set a cancellation flag; only a client does. */
  lemma OnlyClientsCancel(c: AppConfig, s: State, a: Action, id: nat)
    requires c.Valid() && Inv(c, s) && Enabled(c, s, a) && a != ClientCancel(id) && id < |s.reqs|
    ensures id < |Step(c, s, a).reqs| && Step(c, s, a).reqs[id].cancelled == s.reqs[id].cancelled
  {
    if a.IsTask() {
      TaskTouchesOne(s, a);
      TaskKeepsFlag(s, a);
    } else if a.Pass? {
      PassKeepsFlag(c, s, id);
    } else if a.Contain? {
      ContainKeepsFlag(c, s, a.model, s.phase.pending, id);
    } else if a.FinishStopDrain? {
      assert Step(c, s, a) == StopDrained(s);
    } else {
      OtherKeepsFlag(c, s, a, id);
    }
  }

  lemma TaskKeepsFlag(s: State, a: Action)
    requires a.IsTask() && a.id < |s.reqs|
    ensures TaskStep(s, a).reqs[a.id].cancelled == s.reqs[a.id].cancelled
  {
  }

  lemma ContainKeepsFlag(c: AppConfig, s: State, model: ModelName, pending: set<ModelName>, id: nat)
    requires id < |s.reqs|
    ensures var t := Contained(c, s, model, pending);
      id < |t.reqs| && t.reqs[id].cancelled == s.reqs[id].cancelled
  {
  }

  lemma OtherKeepsFlag(c: AppConfig, s: State, a: Action, id: nat)
    requires WellFormed(c, s) && Enabled(c, s, a) && a != ClientCancel(id) && id < |s.reqs|
    requires !a.IsTask() && !a.Pass? && !a.Contain? && !a.FinishStopDrain?
    ensures id < |Step(c, s, a).reqs| && Step(c, s, a).reqs[id].cancelled == s.reqs[id].cancelled
  {
    if a.IsSwitching() {
      SwitchKeepsTable(c, s, a);
    }
  }

  lemma SwitchKeepsTable(c: AppConfig, s: State, a: Action)
    requires WellFormed(c, s) && Enabled(c, s, a) && a.IsSwitching()
    ensures Step(c, s, a).reqs == s.reqs
  {
  }

  lemma PassKeepsFlag(c: AppConfig, s: State, id: nat)
    requires c.Valid() && Inv(c, s) && IsDeciding(s) && id < |s.reqs|
    ensures id < |Passed(c, s).reqs| && Passed(c, s).reqs[id].cancelled == s.reqs[id].cancelled
  {
    var woken := Woken(s);
    SameStates(c, s, woken);
    SweepKeepsPools(c, woken);
    SweepKeepsFlag(c, woken, id);
    ObeyKeepsFlag(c, Swept(c, woken), DecisionOf(c, Swept(c, woken)), id);
  }

  lemma SweepKeepsFlag(c: AppConfig, s: State, id: nat)
    requires WellFormed(c, s) && id < |s.reqs|
    ensures id < |Swept(c, s).reqs| && Swept(c, s).reqs[id].cancelled == s.reqs[id].cancelled
  {
  }

  lemma ObeyKeepsFlag(c: AppConfig, s: State, d: Decision, id: nat)
    requires Pools(c, s) && id < |s.reqs|
    ensures id < |Obeyed(c, s, d).reqs| && Obeyed(c, s, d).reqs[id].cancelled == s.reqs[id].cancelled
  {
    if !(d.kind == Switch && d.target.Some?) {
      DispatchKeepsFlag(c, s, id);
    }
  }

  lemma DispatchKeepsFlag(c: AppConfig, s: State, id: nat)
    requires Pools(c, s) && id < |s.reqs|
    ensures id < |Dispatched(c, s).reqs| && Dispatched(c, s).reqs[id].cancelled == s.reqs[id].cancelled
  {
    if s.resident.Some? && |s.inFlight| < c.scheduler.maxConcurrent {
      var m, capacity := s.resident.value, c.scheduler.maxConcurrent - |s.inFlight|;
      var b := TakeWhile(s.reqs, s.queues[m], s.now, capacity);
      assert QueueOk(s, m);
      TakeWhileTouches(s.reqs, s.queues[m], s.now, capacity);
      assert Popped1(s.reqs, b.reqs, s.queues[m], b.rest, b.ids, s.now, id);
    }
  }

  // ------------------------------------------------------------------ crash containment

  /** The failure of one request's backend touches no other request and no queue. */
  lemma FailureTouchesOnlyItsRequest(c: AppConfig, s: State, id: nat, message: string)
    requires WellFormed(c, s) && Enabled(c, s, TaskBackendFails(id, message))
    ensures var t := Step(c, s, TaskBackendFails(id, message));
      && t == s.(reqs := t.reqs, failed := s.failed + {s.reqs[id].model}, crashed := s.crashed + {s.reqs[id].model})
      && |t.reqs| == |s.reqs| && forall i :: 0 <= i < |s.reqs| && i != id ==> t.reqs[i] == s.reqs[i]
  {
  }

  /** Containing a failed model leaves every queue as it is and touches only requests of that model that
      are generating right now: they are told to stop. Other models' availability does not change. */
  lemma ContainmentIsContained(c: AppConfig, s: State, model: ModelName)
    requires c.Valid() && Reachable(c, s) && WellFormed(c, s) && Enabled(c, s, Contain(model))
    ensures var t := Step(c, s, Contain(model));
      && t.queues == s.queues && |t.reqs| == |s.reqs|
      && (forall i :: 0 <= i < |s.reqs| && (s.reqs[i].model != model || s.reqs[i].state != Running) ==>
            t.reqs[i] == s.reqs[i])
      && (forall i :: 0 <= i < |s.reqs| && s.reqs[i].model == model && s.reqs[i].state == Running ==>
            t.reqs[i] == s.reqs[i].(cancelRequested := true))
      && t.unavailableUntil == s.unavailableUntil[model := s.now + c.scheduler.backendRetry]
      && (t.resident != Some(model) || t.phase.CrashDraining?)
  {
    ReachableInv(c, s);
    ContainedExactly(c, s, model, s.phase.pending);
  }

  lemma ContainedExactly(c: AppConfig, s: State, model: ModelName, pending: set<ModelName>)
    requires Pools(c, s) && (s.resident == Some(model) && s.inFlight == [] ==> s.residentSince.Some?)
    ensures var t := Contained(c, s, model, pending);
      && t.queues == s.queues && |t.reqs| == |s.reqs|
      && (forall i :: 0 <= i < |s.reqs| && (s.reqs[i].model != model || s.reqs[i].state != Running) ==>
            t.reqs[i] == s.reqs[i])
      && (forall i :: 0 <= i < |s.reqs| && s.reqs[i].model == model && s.reqs[i].state == Running ==>
            t.reqs[i] == s.reqs[i].(cancelRequested := true))
      && t.unavailableUntil == s.unavailableUntil[model := s.now + c.scheduler.backendRetry]
      && (t.resident != Some(model) || t.phase.CrashDraining?)
  {
    RunningIsResident(c, s, model);
  }

  lemma RunningIsResident(c: AppConfig, s: State, model: ModelName)
    requires Pools(c, s)
    ensures forall i :: 0 <= i < |s.reqs| && s.reqs[i].model == model && s.reqs[i].state == Running ==>
      i in s.inFlight && s.resident == Some(model)
  {
    forall i: nat | i < |s.reqs| && s.reqs[i].model == model && s.reqs[i].state == Running
      ensures i in s.inFlight && s.resident == Some(model) {
      assert Placed(s, i) && Flying(s, i);
    }
  }

  /** Whenever the loop decides, no transition is under way and the resident is not in backoff, so two of
      the policy's answers never come up: holding because of a transition, and switching because the
      resident's backend is unavailable. */
  lemma DecisionsAreMadeAtRest(c: AppConfig, s: State)
    requires c.Valid() && Reachable(c, s) && WellFormed(c, s) && IsDeciding(s)
    ensures var swept := Swept(c, Woken(s));
      var d := DecisionOf(c, swept);
      && !swept.draining && !swept.switching
      && (swept.resident.Some? ==> swept.resident.value !in swept.unavailableUntil)
      && d.reason != InTransition
      && !(d.kind == Switch && d.reason == BackendUnavailable)
  {
    ReachableInv(c, s);
    SweptIsAtRest(c, s);
    RestDecision(c, Swept(c, Woken(s)));
  }

  lemma SweptIsAtRest(c: AppConfig, s: State)
    requires WellFormed(c, s) && DeviceOk(c, s) && BackoffOk(s) && IsDeciding(s)
    ensures var swept := Swept(c, Woken(s));
      && !swept.draining && !swept.switching
      && (swept.resident.Some? ==> swept.resident.value !in swept.unavailableUntil)
  {
    SweepKeepsLoop(c, Woken(s));
  }

  lemma RestDecision(c: AppConfig, s: State)
    requires c.Valid() && WellFormed(c, s) && !s.draining && !s.switching
    requires s.resident.Some? ==> s.resident.value !in s.unavailableUntil
    ensures DecisionOf(c, s).reason != InTransition
    ensures !(DecisionOf(c, s).kind == Switch && DecisionOf(c, s).reason == BackendUnavailable)
  {
    var snapshot := SnapshotOf(c, s);
    var resident := snapshot.ResidentState();
    if resident.Some? {
      var i :| 0 <= i < |c.models| && snapshot.models[i] == resident.value;
      assert resident.value == ModelStateOf(s, c.models[i]);
    }
    Policy.UnavailableSwitchNeedsBackoff(snapshot, s.now, c.scheduler);
  }
}
