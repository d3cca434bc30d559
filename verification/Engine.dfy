/** The engine itself: the object whose fields the control loop, the serving tasks and the callers update.
    Each method is one atomic stretch of the code, between two suspension points, and is proved to be a
    step of the state machine of EngineModel; so every state the object is ever in is reachable there. */
module Engines {
  import opened Types
  import opened Requests
  import opened Queues
  import opened EngineModel
  import EnginePools
  import EngineTheorems
  import JobModel
  import Policy
  import QueueSpec

  /** Telling one more task to stop. */
  lemma TellMore(was: QueueSpec.Table, ids: seq<nat>, only: bool, id: nat)
    requires id < |was|
    ensures var reqs, next := CancelTasks(was, ids, only), CancelTasks(was, ids + [id], only);
      && reqs[id].state == was[id].state && reqs[id].cancelled == was[id].cancelled
      && next == if was[id].state == Running && (only ==> was[id].cancelled)
                 then reqs[id := reqs[id].(cancelRequested := true)] else reqs
  {
    var reqs, next := CancelTasks(was, ids, only), CancelTasks(was, ids + [id], only);
    forall i | 0 <= i < |was| && i != id ensures next[i] == reqs[i] {
      assert i in ids + [id] <==> i in ids;
    }
    assert id in ids + [id];
    var told := if was[id].state == Running && (only ==> was[id].cancelled)
                then reqs[id := reqs[id].(cancelRequested := true)] else reqs;
    assert next[id] == told[id];
    assert next == told;
  }

  function NamesOf(c: AppConfig): (names: seq<ModelName>)
    ensures |names| == |c.models| && forall i :: 0 <= i < |names| ==> names[i] == c.models[i].name
  {
    seq(|c.models|, i requires 0 <= i < |c.models| => c.models[i].name)
  }

  lemma InitIs(c: AppConfig, now: real, ids: seq<nat>, reqs: QueueSpec.Table, lists: QueueSpec.Queues)
    requires ids == [] && reqs == [] && lists == map m | m in c.Names() :: []
    ensures State(now, Top, reqs, lists, None, None, None, map[], ids, {}, false, false, false,
                  0, 0, 0.0, {}, [], {}, {}, 0) == Init(c, now)
    ensures EngineTheorems.Reachable(c, Init(c, now))
  {
    EngineTheorems.ReachableInit(c, now);
  }

  lemma NamesAreKnown(c: AppConfig)
    ensures forall m :: m in NamesOf(c) <==> m in c.Names()
  {
    forall m | m in NamesOf(c) ensures m in c.Names() {
      var i :| 0 <= i < |c.models| && NamesOf(c)[i] == m;
    }
    forall m | m in c.Names() ensures m in NamesOf(c) {
      var i :| 0 <= i < |c.models| && c.models[i].name == m;
      assert NamesOf(c)[i] == m;
    }
  }

  /** What the policy may know about the first models of the configuration. */
  ghost predicate AreStatesOf(c: AppConfig, s: State, states: seq<ModelState>) {
    && WellFormed(c, s) && |states| <= |c.models|
    && forall k :: 0 <= k < |states| ==>
         c.models[k].name in s.queues && states[k] == ModelStateOf(s, c.models[k])
  }

  lemma MoreStates(c: AppConfig, s: State, states: seq<ModelState>, state: ModelState)
    requires AreStatesOf(c, s, states) && |states| < |c.models|
    requires c.models[|states|].name in s.queues && state == ModelStateOf(s, c.models[|states|])
    ensures AreStatesOf(c, s, states + [state])
  {
  }

  lemma StatesAreSnapshot(c: AppConfig, s: State, states: seq<ModelState>)
    requires AreStatesOf(c, s, states) && |states| == |c.models|
    ensures Types.Snapshot(states, s.resident, s.draining, s.switching) == SnapshotOf(c, s)
  {
    assert states == SnapshotOf(c, s).models;
  }

  lemma ModelIsKnown(c: AppConfig, i: nat)
    requires i < |c.models|
    ensures c.models[i].name in c.Names()
  {
  }

  lemma SubmittedIs(s: State, t: State, u: State, model: ModelName)
    requires model in s.queues
    requires t == s.(reqs := s.reqs + [Fresh(model, s.now)])
    requires u == t.(queues := t.queues[model := t.queues[model] + [|s.reqs|]], wakeup := true)
    ensures u == Submitted(s, model)
  {
  }

  /** `t` is where the action takes `s`. */
  ghost predicate IsStep(c: AppConfig, s: State, a: Action, t: State) {
    WellFormed(c, s) && Enabled(c, s, a) && t == Step(c, s, a)
  }

  lemma StepIs(c: AppConfig, s: State, a: Action, t: State)
    requires EngineTheorems.Reachable(c, s) && WellFormed(c, s) && Enabled(c, s, a) && t == Step(c, s, a)
    ensures IsStep(c, s, a, t) && EngineTheorems.Reachable(c, t)
  {
    EngineTheorems.ReachableStep(c, s, a);
  }

  /** `t` is what a pass makes of `s`, on the decision `d`. */
  ghost predicate IsPassed(c: AppConfig, s: State, t: State, d: Decision) {
    && WellFormed(c, s) && IsDeciding(s)
    && t == Step(c, s, Pass)
    && d == DecisionOf(c, Swept(c, Woken(s)))
  }

  ghost predicate IsPassResult(c: AppConfig, s: State, t: State, d: Decision) {
    && WellFormed(c, Woken(s))
    && d == DecisionOf(c, Swept(c, Woken(s)))
    && t == Obeyed(c, Swept(c, Woken(s)), d)
  }

  lemma PassIs(c: AppConfig, s: State, d: Decision, t: State)
    requires EngineTheorems.Reachable(c, s) && WellFormed(c, s) && IsDeciding(s)
    requires IsPassResult(c, s, t, d)
    ensures IsPassed(c, s, t, d) && EngineTheorems.Reachable(c, t)
  {
    EngineTheorems.ReachableStep(c, s, Pass);
  }

  /** A switch begins. */
  ghost function SwitchBegun(s: State, target: ModelName, reason: DecisionReason): State {
    if s.inFlight == [] then Handover(s, target, reason, s.now)
    else Disconnected(s).(phase := Draining(target, reason, s.now), draining := true)
  }

  lemma {:induction false} OfModelSnoc(reqs: QueueSpec.Table, ids: seq<nat>, model: ModelName, last: nat)
    ensures OfModel(reqs, ids + [last], model) ==
      OfModel(reqs, ids, model) + if last < |reqs| && reqs[last].model == model then [last] else []
  {
    if ids != [] {
      assert (ids + [last])[0] == ids[0] && (ids + [last])[1..] == ids[1..] + [last];
      OfModelSnoc(reqs, ids[1..], model, last);
    } else {
      assert (ids + [last])[1..] == [];
    }
  }

  lemma TellOneOf(was: QueueSpec.Table, ids: seq<nat>, k: nat, only: bool)
    requires k < |ids| && ids[k] < |was|
    ensures var reqs, next, id := CancelTasks(was, ids[..k], only), CancelTasks(was, ids[..k + 1], only), ids[k];
      && reqs[id].state == was[id].state && reqs[id].cancelled == was[id].cancelled
      && next == if was[id].state == Running && (only ==> was[id].cancelled)
                 then reqs[id := reqs[id].(cancelRequested := true)] else reqs
  {
    assert ids[..k + 1] == ids[..k] + [ids[k]];
    TellMore(was, ids[..k], only, ids[k]);
  }

  /** The tasks of `model` among the first `k` have been told to stop. */
  ghost function ToldOf(was: QueueSpec.Table, ids: seq<nat>, k: nat, model: ModelName): QueueSpec.Table
    requires k <= |ids|
  {
    CancelTasks(was, OfModel(was, ids[..k], model), false)
  }

  lemma NobodyTold(was: QueueSpec.Table, ids: seq<nat>, model: ModelName)
    ensures ToldOf(was, ids, 0, model) == was
  {
  }

  lemma TellNext(was: QueueSpec.Table, ids: seq<nat>, k: nat, model: ModelName)
    requires k < |ids| && ids[k] < |was|
    ensures var reqs, id := ToldOf(was, ids, k, model), ids[k];
      && reqs[id].state == was[id].state && reqs[id].model == was[id].model
      && ToldOf(was, ids, k + 1, model) ==
           if was[id].model == model && was[id].state == Running then reqs[id := reqs[id].(cancelRequested := true)]
           else reqs
  {
    assert ids[..k + 1] == ids[..k] + [ids[k]];
    OfModelSnoc(was, ids[..k], model, ids[k]);
    TellMore(was, OfModel(was, ids[..k], model), false, ids[k]);
    assert OfModel(was, ids[..k], model) + [] == OfModel(was, ids[..k], model);
  }

  /** Every request is as it was, except that those listed have been turned away. */
  ghost predicate AreTurned(was: QueueSpec.Table, reqs: QueueSpec.Table, ids: seq<nat>) {
    |reqs| == |was| && forall i :: 0 <= i < |was| ==> reqs[i] == Turned(was[i], i in ids)
  }

  lemma TurnNext(was: QueueSpec.Table, reqs: QueueSpec.Table, ids: seq<nat>, k: nat)
    requires k < |ids| && ids[k] < |was| && QueueSpec.Increasing(ids) && AreTurned(was, reqs, ids[..k])
    ensures AreTurned(was, reqs[ids[k] := Turned(reqs[ids[k]], true)], ids[..k + 1])
  {
    assert ids[..k + 1] == ids[..k] + [ids[k]];
    assert ids[k] !in ids[..k];
  }

  /** The queues of the first `n` models have been turned away. */
  ghost predicate TurnedUpTo(s: State, t: State, names: seq<ModelName>, n: nat) {
    && n <= |names| && |t.reqs| == |s.reqs| && t.queues.Keys == s.queues.Keys
    && t == s.(reqs := t.reqs, queues := t.queues)
    && (forall m :: m in s.queues ==> t.queues[m] == if m in names[..n] then [] else s.queues[m])
    && (forall i :: 0 <= i < |s.reqs| ==>
          t.reqs[i] == Turned(s.reqs[i], s.reqs[i].model in names[..n] && InSomeQueue(s, i)))
  }

  lemma TurnOneMore(s: State, t: State, u: State, names: seq<ModelName>, n: nat)
    requires TurnedUpTo(s, t, names, n) && n < |names| && Distinct(names) && names[n] in s.queues
    requires Own(t.reqs, t.queues[names[n]], names[n])
    requires AreTurned(t.reqs, u.reqs, t.queues[names[n]])
    requires u == t.(reqs := u.reqs, queues := t.queues[names[n] := []])
    ensures TurnedUpTo(s, u, names, n + 1)
  {
    NextName(names, n);
    NextIsUntouched(s, t, names, n);
    forall i | 0 <= i < |s.reqs|
      ensures u.reqs[i] == Turned(s.reqs[i], s.reqs[i].model in names[..n + 1] && InSomeQueue(s, i)) {
      assert i in s.queues[names[n]] ==> t.reqs[i].model == names[n];
    }
  }

  lemma NextIsUntouched(s: State, t: State, names: seq<ModelName>, n: nat)
    requires TurnedUpTo(s, t, names, n) && n < |names| && Distinct(names) && names[n] in s.queues
    ensures t.queues[names[n]] == s.queues[names[n]]
  {
    NextName(names, n);
  }

  lemma NextName(names: seq<ModelName>, n: nat)
    requires Distinct(names) && n < |names|
    ensures names[n] !in names[..n] && names[..n + 1] == names[..n] + [names[n]]
  {
  }

  lemma AllTurned(s: State, t: State, names: seq<ModelName>)
    requires TurnedUpTo(s, t, names, |names|) && forall m :: m in s.queues ==> m in names
    ensures t == s.(reqs := Refused(s), queues := map m | m in s.queues :: [])
  {
    assert names[..|names|] == names;
    assert t.queues == map m | m in s.queues :: [];
    assert t.reqs == Refused(s);
  }

  class Engine {
    const config: AppConfig
    const queues: ModelQueues
    var now: real
    var phase: Phase
    var resident: Option<ModelName>
    var residentSince: Option<real>
    var idleSince: Option<real>
    var unavailableUntil: map<ModelName, real>
    var inFlight: seq<QueuedRequest>
    var failed: set<ModelName>
    var draining: bool
    var switching: bool
    var wakeup: bool
    var swaps: nat
    var loads: nat
    var timeLoading: real
    ghost var all: seq<QueuedRequest>
    ghost var gpu: set<ModelName>
    ghost var dispatched: seq<nat>
    ghost var crashed: set<ModelName>
    ghost var faulted: set<nat>
    ghost var scoredSwaps: nat

    constructor (config: AppConfig, now: real)
      requires config.Valid()
      ensures Valid() && View() == Init(config, now) && fresh(queues)
      ensures this.config == config
    {
      this.config, this.now := config, now;
      queues := new ModelQueues(NamesOf(config));
      phase := Top;
      resident, residentSince, idleSince, unavailableUntil := None, None, None, map[];
      inFlight, failed, all := [], {}, [];
      draining, switching, wakeup := false, false, false;
      swaps, loads, timeLoading := 0, 0, 0.0;
      gpu, dispatched, crashed, faulted, scoredSwaps := {}, [], {}, {}, 0;
      new;
      NamesAreKnown(config);
      InitIs(config, now, Ids(inFlight), Values(all), queues.Lists());
    }

    ghost function View(): State
      reads this, queues, all
    {
      State(now, phase, Values(all), queues.Lists(), resident, residentSince, idleSince, unavailableUntil,
            Ids(inFlight), failed, draining, switching, wakeup, swaps, loads, timeLoading,
            gpu, dispatched, crashed, faulted, scoredSwaps)
    }

    ghost predicate Shape()
      reads this, queues
    {
      && config.Valid()
      && queues.Valid(all)
      && queues.queues.Keys == config.Names()
      && Among(inFlight, all)
      && (resident.Some? ==> resident.value in queues.queues)
    }

    lemma ShapeIsWellFormed()
      requires Shape()
      ensures WellFormed(config, View())
    {
    }

    ghost predicate Valid()
      reads this, queues, all
    {
      Shape() && EngineTheorems.Reachable(config, View())
    }

    // ------------------------------------------------------------------ one pass

    /** Exactly the tasks still generating for a departed client are told to stop. */
    method CancelDisconnected()
      requires Shape()
      modifies all
      ensures Shape() && View() == Disconnected(old(View()))
    {
      ghost var was, ids := Values(all), Ids(inFlight);
      assert CancelTasks(was, ids[..0], true) == was;
      for k := 0 to |inFlight|
        invariant Values(all) == CancelTasks(was, ids[..k], true)
      {
        TellOneOf(was, ids, k, true);
        TellIf(inFlight[k], inFlight[k].cancelled && inFlight[k].state == Running);
      }
      assert ids[..|ids|] == ids;
    }

    method ReapFinished()
      requires Shape()
      modifies this`inFlight
      ensures Shape() && View() == Reaped(old(View()))
    {
      inFlight := NotDone();
    }

    method NotDone() returns (running: seq<QueuedRequest>)
      requires Shape()
      ensures Among(running, all) && Ids(running) == StillRunning(Values(all), Ids(inFlight))
    {
      running := [];
      ghost var reqs := Values(all);
      for k := 0 to |inFlight|
        invariant Among(running, all)
        invariant Ids(running) + StillRunning(reqs, Ids(inFlight[k..])) == StillRunning(reqs, Ids(inFlight))
      {
        IdsTail(inFlight[k..]);
        assert inFlight[k..][1..] == inFlight[k + 1..];
        IdsSnoc(running, inFlight[k]);
        if inFlight[k].state == Running {
          running := running + [inFlight[k]];
        }
      }
    }

    /** Keep `idleSince` the time since which the resident has had nothing queued and nothing generating. */
    method TrackIdleness()
      requires Shape()
      modifies this`idleSince
      ensures Shape() && View() == IdlenessTracked(old(View()))
    {
      if resident.None? {
        idleSince := None;
      } else {
        var depth := queues.Depth(resident.value, all);
        MarkIdle(depth > 0 || inFlight != []);
      }
    }

    method MarkIdle(busy: bool)
      requires Shape()
      modifies this`idleSince
      ensures Shape() && View() == old(View()).(
        idleSince := if busy then None else if old(View()).idleSince.None? then Some(now) else old(View()).idleSince)
    {
      if busy {
        idleSince := None;
      } else if idleSince.None? {
        idleSince := Some(now);
      }
    }

    method Sweep()
      requires Shape()
      modifies this`inFlight, this`idleSince, queues, all
      ensures Shape() && View() == Swept(config, old(View()))
    {
      var _ := queues.PurgeCancelled(all);
      CancelDisconnected();
      ReapFinished();
      TrackIdleness();
    }

    method StateOf(model: ModelConfig) returns (state: ModelState)
      requires Shape() && model.name in queues.queues
      ensures QueueSpec.AllWithin(View().queues, View().reqs) && state == ModelStateOf(View(), model)
    {
      var depth := queues.Depth(model.name, all);
      var oldest := queues.OldestEnqueuedAt(model.name, all);
      var isResident := resident == Some(model.name);
      state := ModelState(
        model.name, model.priority, depth, oldest, model.loadSeconds, isResident,
        if isResident then residentSince else None,
        if isResident then |inFlight| else 0,
        if isResident then idleSince else None,
        if model.name in unavailableUntil then Some(unavailableUntil[model.name]) else None);
    }

    /** What the policy gets to see: every configured model, in the configuration's order, at one instant. */
    method Snapshot() returns (snapshot: Types.Snapshot)
      requires Shape()
      ensures WellFormed(config, View()) && snapshot == SnapshotOf(config, View())
    {
      ShapeIsWellFormed();
      var states: seq<ModelState> := [];
      ghost var s := View();
      for i := 0 to |config.models|
        invariant |states| == i
        invariant AreStatesOf(config, s, states)
      {
        ModelIsKnown(config, i);
        var state := StateOf(config.models[i]);
        assert View() == s;
        MoreStates(config, s, states, state);
        states := states + [state];
      }
      assert View() == s;
      snapshot := Types.Snapshot(states, resident, draining, switching);
      StatesAreSnapshot(config, s, states);
    }

    method Decided() returns (decision: Decision)
      requires Shape()
      ensures WellFormed(config, View()) && decision == DecisionOf(config, View())
    {
      var snapshot := Snapshot();
      decision := Policy.Decide(snapshot, now, config.scheduler);
    }

    /** As many of the resident's oldest live requests as there are free places begin to generate. */
    method Dispatch()
      requires Shape()
      modifies this`inFlight, this`dispatched, queues, all
      ensures Shape() && WellFormed(config, old(View())) && View() == Dispatched(config, old(View()))
    {
      ShapeIsWellFormed();
      ghost var s := View();
      var capacity := config.scheduler.maxConcurrent - |inFlight|;
      if resident.None? || capacity <= 0 {
        return;
      }
      ghost var b := QueueSpec.TakeWhile(s.reqs, s.queues[resident.value], now, capacity);
      EnginePools.DispatchIs(config, s, b);
      var taken := Take(resident.value, capacity, b);
      Launch(taken);
    }

    /** A serving task for each request taken. */
    method Launch(taken: seq<QueuedRequest>)
      requires Shape() && Among(taken, all)
      modifies this`inFlight, this`dispatched
      ensures Shape() && View() == old(View()).(
        inFlight := old(View()).inFlight + Ids(taken), dispatched := old(View()).dispatched + Ids(taken))
    {
      Join(inFlight, taken, all);
      inFlight, dispatched := inFlight + taken, dispatched + Ids(taken);
    }

    method Take(model: ModelName, limit: int, ghost b: QueueSpec.Batch) returns (taken: seq<QueuedRequest>)
      requires Shape() && model in queues.queues
      requires WellFormed(config, View()) && b == QueueSpec.TakeWhile(View().reqs, View().queues[model], now, limit)
      modifies queues, all
      ensures Shape() && Among(taken, all) && Ids(taken) == b.ids
      ensures View() == old(View()).(reqs := b.reqs, queues := old(View()).queues[model := b.rest])
    {
      taken := queues.TakeWhile(model, now, limit, all);
    }

    /** Nothing is in flight any more: unload the incumbent, or load the target at once. */
    method BeginHandover(target: ModelName, reason: DecisionReason, began: real)
      requires Shape()
      modifies this`phase, this`resident, this`residentSince, this`switching, this`gpu
      ensures Shape() && View() == Handover(old(View()), target, reason, began)
    {
      switching := true;
      ghost var s := View();
      assert s == old(View()).(switching := true);
      if resident.Some? {
        Vacate(Unloading(resident.value, target, reason, began));
      } else {
        StartLoading(target, began);
      }
    }

    /** Nobody is resident any more. */
    method Vacate(at: Phase)
      requires Shape()
      modifies this`phase, this`resident, this`residentSince
      ensures Shape() && View() == old(View()).(phase := at, resident := None, residentSince := None)
    {
      resident, residentSince := None, None;
      ghost var s := View();
      phase := at;
      assert View() == s.(phase := at);
    }

    method StartLoading(target: ModelName, began: real)
      requires Shape()
      modifies this`phase, this`gpu
      ensures Shape() && View() == old(View()).(phase := Loading(target, began, now), gpu := old(View()).gpu + {target})
    {
      phase := Loading(target, began, now);
      gpu := gpu + {target};
    }

    /** Start the switch: drain what is generating, or hand over at once. */
    method BeginSwitch(target: ModelName, reason: DecisionReason)
      requires Shape()
      modifies this`phase, this`resident, this`residentSince, this`switching, this`gpu, this`draining, all
      ensures Shape() && View() == SwitchBegun(old(View()), target, reason)
    {
      if inFlight == [] {
        BeginHandover(target, reason, now);
      } else {
        draining, phase := true, Draining(target, reason, now);
        ghost var s := View();
        assert s == old(View()).(draining := true, phase := Draining(target, reason, now));
        CancelDisconnected();
      }
    }

    /** Carry out a decision up to the next suspension point. */
    method Obey(d: Decision)
      requires Shape()
      modifies this`phase, this`resident, this`residentSince, this`switching, this`gpu, this`draining,
        this`inFlight, this`dispatched, queues, all
      ensures Shape() && WellFormed(config, old(View())) && View() == Obeyed(config, old(View()), d)
    {
      if d.kind == Switch && d.target.Some? {
        BeginSwitch(d.target.value, d.reason);
      } else {
        if d.kind == Serve || d.kind == Hold {
          Dispatch();
        }
        Suspend(Waiting(now));
      }
    }

    method Suspend(at: Phase)
      requires Shape()
      modifies this`phase
      ensures Shape() && View() == old(View()).(phase := at)
    {
      phase := at;
    }

    /** Lower the wakeup flag, if the pass begins at the top of the loop, and sweep. */
    method Tidy()
      requires Shape()
      modifies this`wakeup, this`inFlight, this`idleSince, queues, all
      ensures Shape() && WellFormed(config, Woken(old(View()))) && View() == Swept(config, Woken(old(View())))
    {
      ShapeIsWellFormed();
      ghost var s := View();
      if phase.Top? {
        wakeup := false;
      }
      assert View() == Woken(s);
      Sweep();
    }

    /** One pass of the loop: sweep, decide, act. */
    method Pass() returns (decision: Decision)
      requires Valid() && IsDeciding(View())
      modifies this`phase, this`resident, this`residentSince, this`switching, this`gpu, this`draining,
        this`inFlight, this`dispatched, this`wakeup, this`idleSince, queues, all
      ensures Valid() && IsPassed(config, old(View()), View(), decision)
    {
      ShapeIsWellFormed();
      ghost var s := View();
      decision := DecideAndAct();
      ghost var t := View();
      PassIs(config, s, decision, t);
    }

    method DecideAndAct() returns (decision: Decision)
      requires Shape()
      modifies this`phase, this`resident, this`residentSince, this`switching, this`gpu, this`draining,
        this`inFlight, this`dispatched, this`wakeup, this`idleSince, queues, all
      ensures Shape() && IsPassResult(config, old(View()), View(), decision)
    {
      Tidy();
      ghost var swept := View();
      decision := Decided();
      assert View() == swept;
      Obey(decision);
    }

    // ------------------------------------------------------------------ callers and time

    /** What a client is told about its wait, or None if its request is not in its queue. `mean` is the model's running
        average of request durations. */
    method EstimateWait(queued: QueuedRequest, mean: real) returns (estimate: Option<Policy.WaitEstimate>)
      requires Shape() && queued.id < |all| && all[queued.id] == queued
      ensures WellFormed(config, View())
      ensures estimate == JobModel.EstimateOf(config, View(), queued.id, mean)
    {
      ShapeIsWellFormed();
      var position := queues.PositionOf(queued, all);
      if position.None? {
        return None;
      }
      var snapshot := Snapshot();
      estimate := Policy.EstimateWait(snapshot, queued.model, position.value, now, config.scheduler, mean);
    }

    /** A new last entry of the model's queue, or null and no change if there is no such model. */
    method Submit(model: ModelName) returns (queued: QueuedRequest?)
      requires Valid() && !phase.IsShutdown()
      modifies this`all, this`wakeup, queues
      ensures Valid() && IsStep(config, old(View()), Action.Submit(model), View())
      ensures queued == null <==> model !in old(View()).queues
      ensures queued != null ==> fresh(queued) && all == old(all) + [queued] && queued.model == model
      ensures queued == null ==> all == old(all)
    {
      ShapeIsWellFormed();
      if model !in queues.queues {
        StepIs(config, View(), Action.Submit(model), View());
        return null;
      }
      queued := new QueuedRequest(|all|, model, now);
      Enqueue(queued);
      ghost var t := View();
      StepIs(config, old(View()), Action.Submit(model), t);
    }

    method Enqueue(queued: QueuedRequest)
      requires Shape() && queued.id == |all| && queued.model in queues.queues
      requires queued.Value() == Fresh(queued.model, now) && queued !in all
      modifies this`all, this`wakeup, queues
      ensures Shape() && all == old(all) + [queued]
      ensures View() == Submitted(old(View()), queued.model)
    {
      ghost var s := View();
      Admit(queued);
      ghost var t := View();
      Append(queued);
      ghost var u := View();
      SubmittedIs(s, t, u, queued.model);
    }

    ghost method Admit(queued: QueuedRequest)
      requires Shape() && queued.id == |all| && queued.Value() == Fresh(queued.model, now) && queued !in all
      modifies this`all
      ensures Shape() && all == old(all) + [queued]
      ensures View() == old(View()).(reqs := old(View()).reqs + [Fresh(queued.model, now)])
    {
      all := all + [queued];
    }

    method Append(queued: QueuedRequest)
      requires Shape() && queued.id < |all| && all[queued.id] == queued && queued.model in queues.queues
      modifies this`wakeup, queues
      ensures Shape() && View() == old(View()).(
        queues := old(View()).queues[queued.model := old(View()).queues[queued.model] + [queued.id]], wakeup := true)
    {
      wakeup := true;
      ghost var s := View();
      assert s == old(View()).(wakeup := true);
      var known := queues.Enqueue(queued, all);
    }

    /** The client goes away. */
    method ClientGone(request: QueuedRequest)
      requires Valid() && request.id < |all| && all[request.id] == request
      modifies request`cancelled
      ensures Valid() && IsStep(config, old(View()), ClientCancel(request.id), View())
    {
      ShapeIsWellFormed();
      request.Cancel(all);
      ghost var t := View();
      StepIs(config, old(View()), ClientCancel(request.id), t);
    }

    /** Time passes while the loop is suspended; a waiting loop sleeps no longer than its tick. */
    method Elapse(seconds: real)
      requires Valid() && Enabled(config, View(), Advance(seconds))
      modifies this`now
      ensures Valid() && IsStep(config, old(View()), Advance(seconds), View())
    {
      ShapeIsWellFormed();
      now := now + seconds;
      ghost var t := View();
      StepIs(config, old(View()), Advance(seconds), t);
    }

    // ------------------------------------------------------------------ a serving task

    /** The request is being generated, and its task has not been told to stop. */
    ghost predicate IsServing(request: QueuedRequest)
      reads this, queues, all, request
    {
      && Valid() && request in inFlight && request.id < |all| && all[request.id] == request
      && request.state == Running && !request.cancelRequested
    }

    lemma ServingIsEnabled(request: QueuedRequest)
      requires IsServing(request)
      ensures WellFormed(config, View()) && request.id in Ids(inFlight) && IsRunning(View(), request.id)
      ensures !View().reqs[request.id].cancelRequested
    {
      ShapeIsWellFormed();
      var k :| 0 <= k < |inFlight| && inFlight[k] == request;
      assert Ids(inFlight)[k] == request.id;
    }

    method OnChunk(request: QueuedRequest, chunk: Chunk)
      requires IsServing(request)
      modifies request
      ensures Valid() && IsStep(config, old(View()), TaskYields(request.id, chunk), View())
    {
      ServingIsEnabled(request);
      request.Receive(chunk, now, all);
      ghost var t := View();
      StepIs(config, old(View()), TaskYields(request.id, chunk), t);
    }

    /** The backend ends its own stream, reporting the finish reason and the token counts. */
    method OnStreamEnd(request: QueuedRequest, finishReason: string, usage: Option<Usage>)
      requires IsServing(request)
      modifies request
      ensures Valid() && IsStep(config, old(View()), TaskFinishes(request.id, finishReason, usage), View())
    {
      ServingIsEnabled(request);
      request.Complete(StreamEnd(finishReason, usage), now, all);
      ghost var t := View();
      StepIs(config, old(View()), TaskFinishes(request.id, finishReason, usage), t);
    }

    /** The backend's chunks run out; the terminator is synthesised. */
    method OnExhausted(request: QueuedRequest)
      requires IsServing(request)
      modifies request
      ensures Valid() && IsStep(config, old(View()), TaskExhausts(request.id), View())
    {
      ServingIsEnabled(request);
      request.Complete(StreamEnd("stop", None), now, all);
      ghost var t := View();
      StepIs(config, old(View()), TaskExhausts(request.id), t);
    }

    /** The request fails with a 503 and its model is on the loop's list of failures; nothing else moves. */
    method OnBackendError(request: QueuedRequest, message: string)
      requires IsServing(request)
      modifies this`failed, this`crashed, request
      ensures Valid() && IsStep(config, old(View()), TaskBackendFails(request.id, message), View())
    {
      ServingIsEnabled(request);
      ghost var s := View();
      Report(request.model);
      request.End(Failed, [StreamError(message, 503)], now, all);
      ghost var t := View();
      StepIs(config, s, TaskBackendFails(request.id, message), t);
    }

    method Report(model: ModelName)
      requires Shape()
      modifies this`failed, this`crashed
      ensures Shape()
      ensures var s := old(View()); View() == s.(failed := s.failed + {model}, crashed := s.crashed + {model})
    {
      failed, crashed := failed + {model}, crashed + {model};
    }

    method OnFault(request: QueuedRequest, message: string)
      requires IsServing(request)
      modifies this`faulted, request
      ensures Valid() && IsStep(config, old(View()), TaskFaults(request.id, message), View())
    {
      ServingIsEnabled(request);
      ghost var s := View();
      faulted := faulted + {request.id};
      assert View() == s.(faulted := s.faulted + {request.id});
      request.End(Failed, [StreamError("internal error: " + message, 500)], now, all);
      ghost var t := View();
      StepIs(config, s, TaskFaults(request.id, message), t);
    }

    /** A task that was told to stop does nothing but stop: no terminator. */
    method OnCancelled(request: QueuedRequest)
      requires Valid() && request.id in Ids(inFlight) && request.id < |all| && all[request.id] == request
      requires request.state == Running && request.cancelRequested
      modifies request
      ensures Valid() && IsStep(config, old(View()), TaskCancelled(request.id), View())
    {
      ShapeIsWellFormed();
      request.End(Cancelled, [], now, all);
      ghost var t := View();
      StepIs(config, old(View()), TaskCancelled(request.id), t);
    }

    // ------------------------------------------------------------------ containing crashes

    /** The top of an iteration that finds failures: take them over. */
    method BeginContaining()
      requires Valid() && phase.Top? && failed != {}
      modifies this`wakeup, this`failed, this`phase
      ensures Valid() && IsStep(config, old(View()), StartContaining, View())
    {
      ShapeIsWellFormed();
      wakeup := false;
      phase := Phase.Containing(failed);
      failed := {};
      ghost var t := View();
      StepIs(config, old(View()), StartContaining, t);
    }

    method MarkUnavailable(model: ModelName)
      requires Shape()
      modifies this`unavailableUntil
      ensures Shape() && View() == EngineModel.MarkUnavailable(config, old(View()), model)
    {
      unavailableUntil := unavailableUntil[model := now + config.scheduler.backendRetry];
    }

    /** Abandon what is generating on the dead backend. */
    method CancelTasksOf(model: ModelName)
      requires Shape()
      modifies all
      ensures Shape()
      ensures View() == old(View()).(
        reqs := CancelTasks(old(View()).reqs, OfModel(old(View()).reqs, old(View()).inFlight, model), false))
    {
      ghost var ids := Ids(inFlight);
      TellTasksOf(model);
      assert ids[..|ids|] == ids;
    }

    method TellTasksOf(model: ModelName)
      requires Shape()
      modifies all
      ensures Values(all) == ToldOf(old(Values(all)), Ids(inFlight), |inFlight|, model)
    {
      ghost var was, ids := Values(all), Ids(inFlight);
      NobodyTold(was, ids, model);
      for k := 0 to |inFlight|
        invariant Values(all) == ToldOf(was, ids, k, model)
      {
        TellNext(was, ids, k, model);
        TellIf(inFlight[k], inFlight[k].model == model && inFlight[k].state == Running);
      }
    }

    method TellIf(request: QueuedRequest, wanted: bool)
      requires Indexed(all) && request.id < |all| && all[request.id] == request
      modifies request
      ensures Values(all) == if wanted then old(Values(all))[request.id := old(request.Value()).(cancelRequested := true)]
                             else old(Values(all))
    {
      if wanted {
        request.Tell(all);
      }
    }

    /** Handle one failed model, up to the drain of its tasks or the stop of its backend. */
    method Contain(model: ModelName)
      requires Valid() && phase.Containing? && model in phase.pending
      modifies this`unavailableUntil, this`phase, this`resident, this`residentSince, this`inFlight, all
      ensures Valid() && IsStep(config, old(View()), Action.Contain(model), View())
    {
      ShapeIsWellFormed();
      ghost var s := View();
      var rest := phase.pending - {model};
      MarkUnavailable(model);
      if resident != Some(model) {
        Suspend(Phase.Containing(rest));
      } else {
        CancelTasksOf(model);
        if inFlight == [] {
          Evict(model, rest);
        } else {
          Suspend(CrashDraining(model, rest));
        }
      }
      ghost var t := View();
      StepIs(config, s, Action.Contain(model), t);
    }

    method Evict(model: ModelName, rest: set<ModelName>)
      requires Shape()
      modifies this`phase, this`resident, this`residentSince, this`inFlight
      ensures Shape() && View() == Evicted(old(View()), model, rest)
    {
      inFlight := [];
      ghost var s := View();
      assert s == old(View()).(inFlight := []);
      Vacate(CrashStopping(model, rest));
    }

    /** The abandoned tasks have all ended. */
    method OnCrashDrained()
      requires Valid() && phase.CrashDraining? && AllTasksDone(View())
      modifies this`phase, this`resident, this`residentSince, this`inFlight
      ensures Valid() && IsStep(config, old(View()), FinishCrashDrain, View())
    {
      ShapeIsWellFormed();
      Evict(phase.model, phase.pending);
      ghost var t := View();
      StepIs(config, old(View()), FinishCrashDrain, t);
    }

    /** The dead backend's stop returns. */
    method OnCrashStopped()
      requires Valid() && phase.CrashStopping?
      modifies this`phase, this`gpu
      ensures Valid() && IsStep(config, old(View()), FinishCrashStop, View())
    {
      ShapeIsWellFormed();
      gpu := gpu - {phase.model};
      phase := Phase.Containing(phase.pending);
      ghost var t := View();
      StepIs(config, old(View()), FinishCrashStop, t);
    }

    // ------------------------------------------------------------------ switching

    /** Every task in flight has ended: clear the table and hand the device over. */
    method OnDrained()
      requires Valid() && phase.Draining? && AllTasksDone(View())
      modifies this`phase, this`resident, this`residentSince, this`switching, this`gpu, this`draining, this`inFlight
      ensures Valid() && IsStep(config, old(View()), FinishDrain, View())
    {
      ShapeIsWellFormed();
      inFlight, draining := [], false;
      ghost var s := View();
      assert s == old(View()).(inFlight := [], draining := false);
      BeginHandover(phase.target, phase.reason, phase.began);
      ghost var t := View();
      StepIs(config, old(View()), FinishDrain, t);
    }

    /** The incumbent's stop returns: count the swap and start the target. */
    method OnUnloaded()
      requires Valid() && phase.Unloading?
      modifies this`phase, this`gpu, this`swaps, this`scoredSwaps
      ensures Valid() && IsStep(config, old(View()), FinishUnload, View())
    {
      ShapeIsWellFormed();
      ghost var s := View();
      CountSwapAndLoad();
      ghost var t := View();
      StepIs(config, s, FinishUnload, t);
    }

    method CountSwapAndLoad()
      requires Shape() && phase.Unloading?
      modifies this`phase, this`gpu, this`swaps, this`scoredSwaps
      ensures Shape() && View() == Unloaded(old(View()))
    {
      gpu := gpu - {phase.previous};
      CountSwap(phase.reason);
      StartLoading(phase.target, phase.began);
    }

    method CountSwap(reason: DecisionReason)
      requires Shape()
      modifies this`swaps, this`scoredSwaps
      ensures Shape() && View() == old(View()).(
        swaps := old(View()).swaps + 1,
        scoredSwaps := if reason == Starvation then old(View()).scoredSwaps else old(View()).scoredSwaps + 1)
    {
      swaps := swaps + 1;
      scoredSwaps := if reason == Starvation then scoredSwaps else scoredSwaps + 1;
    }

    /** The target's start returns. */
    method OnLoaded()
      requires Valid() && phase.Loading?
      modifies this`phase, this`resident, this`residentSince, this`idleSince, this`unavailableUntil,
        this`switching, this`loads, this`timeLoading
      ensures Valid() && IsStep(config, old(View()), FinishLoad, View())
    {
      ShapeIsWellFormed();
      ghost var s := View();
      LoadingIsKnown();
      Install();
      ghost var t := View();
      StepIs(config, s, FinishLoad, t);
    }

    method Install()
      requires Shape() && phase.Loading? && phase.target in queues.queues
      modifies this`phase, this`resident, this`residentSince, this`idleSince, this`unavailableUntil,
        this`switching, this`loads, this`timeLoading
      ensures Shape() && View() == LoadSucceeded(old(View()))
    {
      CountLoad(now - phase.started);
      EndSwitch();
      MakeResident(phase.target);
    }

    method EndSwitch()
      requires Shape()
      modifies this`idleSince, this`switching
      ensures Shape() && View() == old(View()).(idleSince := None, switching := false)
    {
      idleSince, switching := None, false;
    }

    method CountLoad(elapsed: real)
      requires Shape()
      modifies this`loads, this`timeLoading
      ensures Shape() && View() == old(View()).(
        loads := old(View()).loads + 1, timeLoading := old(View()).timeLoading + elapsed)
    {
      loads, timeLoading := loads + 1, timeLoading + elapsed;
    }

    method MakeResident(target: ModelName)
      requires Shape() && target in queues.queues
      modifies this`phase, this`resident, this`residentSince, this`unavailableUntil
      ensures Shape() && View() == old(View()).(
        phase := Top, resident := Some(target), residentSince := Some(now),
        unavailableUntil := old(View()).unavailableUntil - {target})
    {
      unavailableUntil := unavailableUntil - {target};
      ghost var s := View();
      assert s == old(View()).(unavailableUntil := old(View()).unavailableUntil - {target});
      HandTo(target);
    }

    method HandTo(target: ModelName)
      requires Shape() && target in queues.queues
      modifies this`phase, this`resident, this`residentSince
      ensures Shape() && View() == old(View()).(phase := Top, resident := Some(target), residentSince := Some(now))
    {
      resident, residentSince := Some(target), Some(now);
      phase := Top;
    }

    lemma LoadingIsKnown()
      requires Valid() && phase.Loading?
      ensures phase.target in queues.queues
    {
      EngineTheorems.ReachableInv(config, View());
    }

    /** The target's start raises: its backend has to be stopped. */
    method OnLoadFailed()
      requires Valid() && phase.Loading?
      modifies this`phase, this`timeLoading
      ensures Valid() && IsStep(config, old(View()), FailLoad, View())
    {
      ShapeIsWellFormed();
      timeLoading := timeLoading + (now - phase.started);
      phase := LoadCleanup(phase.target, phase.began);
      ghost var t := View();
      StepIs(config, old(View()), FailLoad, t);
    }

    method OnCleanedUp()
      requires Valid() && phase.LoadCleanup?
      modifies this`phase, this`gpu, this`switching, this`unavailableUntil
      ensures Valid() && IsStep(config, old(View()), FinishCleanup, View())
    {
      ShapeIsWellFormed();
      ghost var s := View();
      MarkUnavailable(phase.target);
      gpu := gpu - {phase.target};
      switching, phase := false, Top;
      ghost var t := View();
      StepIs(config, s, FinishCleanup, t);
    }

    /** The loop goes on: its tick is over or something was submitted. */
    method OnWake()
      requires Valid() && Enabled(config, View(), Wake)
      modifies this`phase
      ensures Valid() && IsStep(config, old(View()), Wake, View())
    {
      ShapeIsWellFormed();
      phase := Top;
      ghost var t := View();
      StepIs(config, old(View()), Wake, t);
    }

    // ------------------------------------------------------------------ shutdown

    /** The loop is cancelled where it waits, then every task in flight is. */
    method BeginShutdown()
      requires Valid() && Enabled(config, View(), BeginStop)
      modifies this`phase, this`draining, all
      ensures Valid() && IsStep(config, old(View()), BeginStop, View())
    {
      ShapeIsWellFormed();
      phase, draining := Stopping, false;
      ghost var s := View();
      assert s == old(View()).(phase := Stopping, draining := false);
      CancelAll();
      ghost var t := View();
      StepIs(config, old(View()), BeginStop, t);
    }

    method CancelAll()
      requires Shape()
      modifies all
      ensures Shape() && View() == old(View()).(reqs := CancelTasks(old(View()).reqs, old(View()).inFlight, false))
    {
      ghost var was, ids := Values(all), Ids(inFlight);
      assert CancelTasks(was, ids[..0], false) == was;
      for k := 0 to |inFlight|
        invariant Values(all) == CancelTasks(was, ids[..k], false)
      {
        TellOneOf(was, ids, k, false);
        TellIf(inFlight[k], inFlight[k].state == Running);
      }
      assert ids[..|ids|] == ids;
    }

    /** Turn away everything queued for one model. */
    method TurnAway(name: ModelName)
      requires Shape() && name in queues.queues && QueueSpec.Increasing(queues.Lists()[name])
      modifies queues, all
      ensures Shape()
      ensures queues.Lists() == old(queues.Lists())[name := []]
      ensures AreTurned(old(Values(all)), Values(all), old(queues.Lists())[name])
      ensures View() == old(View()).(reqs := Values(all), queues := queues.Lists())
    {
      ghost var was := Values(all);
      var pending := queues.Drain(name, all);
      ghost var ids := Ids(pending);
      for k := 0 to |pending|
        modifies all
        invariant AreTurned(was, Values(all), ids[..k])
      {
        TurnNext(was, Values(all), ids, k);
        pending[k].Refuse(SHUTTING_DOWN, all);
      }
      assert ids[..|ids|] == ids;
    }

    method TurnAllAway()
      requires Shape() && forall m :: m in queues.queues ==> QueueSpec.Increasing(queues.Lists()[m])
      modifies queues, all
      ensures Shape()
      ensures var s := old(View()); View() == s.(reqs := Refused(s), queues := map m | m in s.queues :: [])
    {
      ghost var s := View();
      for n := 0 to |queues.names|
        invariant Shape() && TurnedUpTo(s, View(), queues.names, n)
      {
        TurnNextAway(s, n);
      }
      AllTurned(s, View(), queues.names);
    }

    method TurnNextAway(ghost s: State, n: nat)
      requires Shape() && n < |queues.names| && TurnedUpTo(s, View(), queues.names, n)
      requires forall m :: m in s.queues ==> QueueSpec.Increasing(s.queues[m])
      modifies queues, all
      ensures Shape() && TurnedUpTo(s, View(), queues.names, n + 1)
    {
      ghost var t := View();
      queues.OwnsItsOwn(queues.names[n], all);
      NextIsUntouched(s, t, queues.names, n);
      TurnAway(queues.names[n]);
      TurnOneMore(s, t, View(), queues.names, n);
    }

    lemma QueuesAreOrdered()
      requires Valid()
      ensures forall m :: m in queues.queues ==> QueueSpec.Increasing(queues.Lists()[m])
    {
      EngineTheorems.ReachableInv(config, View());
      forall m | m in queues.queues ensures QueueSpec.Increasing(queues.Lists()[m]) {
        assert EnginePools.QueueOk(View(), m);
      }
    }

    /** The in-flight table is cleared, and every queue is emptied. */
    method OnStopDrained()
      requires Valid() && phase.Stopping? && AllTasksDone(View())
      modifies this`phase, this`inFlight, queues, all
      ensures Valid() && IsStep(config, old(View()), FinishStopDrain, View())
    {
      ShapeIsWellFormed();
      QueuesAreOrdered();
      ghost var s := View();
      TurnAllAway();
      CloseDown();
      ghost var t := View();
      StepIs(config, s, FinishStopDrain, t);
    }

    method CloseDown()
      requires Shape()
      modifies this`phase, this`inFlight
      ensures Shape() && View() == old(View()).(
        inFlight := [], phase := if old(View()).resident.Some? then StopUnloading(old(View()).resident.value) else Stopped)
    {
      inFlight := [];
      phase := if resident.Some? then StopUnloading(resident.value) else Stopped;
    }

    method OnStopUnloaded()
      requires Valid() && phase.StopUnloading?
      modifies this`phase, this`gpu, this`resident, this`residentSince
      ensures Valid() && IsStep(config, old(View()), FinishStopUnload, View())
    {
      ShapeIsWellFormed();
      gpu := gpu - {phase.model};
      resident, residentSince := None, None;
      phase := Stopped;
      ghost var t := View();
      StepIs(config, old(View()), FinishStopUnload, t);
    }
  }
}
