/** The scheduler as a state machine. One step is what happens between two consecutive suspension points
    of the control loop, of a request's serving task, or of the environment; a run is any interleaving. */
module EngineModel {
  import opened Types
  import opened Requests
  import opened QueueSpec
  import Policy

  /** Where the control loop is suspended. `began` is when the switch was decided. */
  datatype Phase =
    | Top
    | Containing(pending: set<ModelName>)
    | CrashDraining(model: ModelName, pending: set<ModelName>)
    | CrashStopping(model: ModelName, pending: set<ModelName>)
    | Draining(target: ModelName, reason: DecisionReason, began: real)
    | Unloading(previous: ModelName, target: ModelName, reason: DecisionReason, began: real)
    | Loading(target: ModelName, began: real, started: real)
    | LoadCleanup(target: ModelName, began: real)
    | Waiting(since: real)
    | Stopping
    | StopUnloading(model: ModelName)
    | Stopped
  {
    predicate IsTransition() { Draining? || Unloading? || Loading? || LoadCleanup? }

    predicate IsShutdown() { Stopping? || StopUnloading? || Stopped? }
  }

  /** `gpu` is the set of backends occupying the device, from the call that starts one to the return of
      the call that stops it. The last fields are history: the order of dispatch, which models' backends
      ever failed while serving, which requests met an unexpected error, how many swaps were not forced. */
  datatype State = State(
    now: real,
    phase: Phase,
    reqs: Table,
    queues: Queues,
    resident: Option<ModelName>,
    residentSince: Option<real>,
    idleSince: Option<real>,
    unavailableUntil: map<ModelName, real>,
    inFlight: seq<nat>,
    failed: set<ModelName>,
    draining: bool,
    switching: bool,
    wakeup: bool,
    swaps: nat,
    loads: nat,
    timeLoading: real,
    gpu: set<ModelName>,
    dispatched: seq<nat>,
    crashed: set<ModelName>,
    faulted: set<nat>,
    scoredSwaps: nat)

  function Init(c: AppConfig, now: real): State {
    State(now, Top, [], map m | m in c.Names() :: [], None, None, None, map[], [], {}, false, false, false,
          0, 0, 0.0, {}, [], {}, {}, 0)
  }

  predicate WellFormed(c: AppConfig, s: State) {
    && s.queues.Keys == c.Names()
    && AllWithin(s.queues, s.reqs)
    && Within(s.inFlight, s.reqs)
    && (s.resident.Some? ==> s.resident.value in s.queues)
  }

  predicate IsRunning(s: State, id: nat) {
    id < |s.reqs| && s.reqs[id].state == Running
  }

  predicate AllTasksDone(s: State) {
    forall k :: 0 <= k < |s.inFlight| ==> !IsRunning(s, s.inFlight[k])
  }

  // ------------------------------------------------------------------ environment

  function Submitted(s: State, model: ModelName): State {
    if model !in s.queues then s
    else s.(reqs := s.reqs + [Fresh(model, s.now)], queues := s.queues[model := s.queues[model] + [|s.reqs|]],
            wakeup := true)
  }

  function ClientCancelled(s: State, id: nat): State
    requires id < |s.reqs|
  {
    s.(reqs := s.reqs[id := s.reqs[id].(cancelled := true)])
  }

  // ------------------------------------------------------------------ a serving task

  /** The backend yields a chunk. */
  function Yielded(s: State, id: nat, chunk: Chunk): State
    requires id < |s.reqs|
  {
    s.(reqs := s.reqs[id := Received(s.reqs[id], chunk, s.now)])
  }

  /** The stream ends, with the backend's own terminator or with a synthesised one. */
  function Finished(s: State, id: nat, end: StreamEvent): State
    requires id < |s.reqs|
  {
    s.(reqs := s.reqs[id := Completed(s.reqs[id], end, s.now)])
  }

  function BackendFailed(s: State, id: nat, message: string): State
    requires id < |s.reqs|
  {
    var r := s.reqs[id];
    s.(reqs := s.reqs[id := Ended(r, Failed, [StreamError(message, 503)], s.now)],
       failed := s.failed + {r.model}, crashed := s.crashed + {r.model})
  }

  function Faulted(s: State, id: nat, message: string): State
    requires id < |s.reqs|
  {
    s.(reqs := s.reqs[id := Ended(s.reqs[id], Failed, [StreamError("internal error: " + message, 500)], s.now)],
       faulted := s.faulted + {id})
  }

  function CancelDelivered(s: State, id: nat): State
    requires id < |s.reqs|
  {
    s.(reqs := s.reqs[id := Ended(s.reqs[id], Cancelled, [], s.now)])
  }

  // ------------------------------------------------------------------ loop: containment

  function Told(r: Request, tell: bool): Request {
    if tell then r.(cancelRequested := true) else r
  }

  /** Ask the running tasks among `ids` that satisfy the condition to stop. */
  function CancelTasks(reqs: Table, ids: seq<nat>, onlyDisconnected: bool): (r: Table)
    ensures |r| == |reqs|
    ensures forall i :: 0 <= i < |reqs| ==>
      r[i] == Told(reqs[i], i in ids && reqs[i].state == Running && (onlyDisconnected ==> reqs[i].cancelled))
  {
    seq(|reqs|, i requires 0 <= i < |reqs| =>
      Told(reqs[i], i in ids && reqs[i].state == Running && (onlyDisconnected ==> reqs[i].cancelled)))
  }

  function MarkUnavailable(c: AppConfig, s: State, model: ModelName): State {
    s.(unavailableUntil := s.unavailableUntil[model := s.now + c.scheduler.backendRetry])
  }

  function ContainStarted(s: State): State {
    s.(phase := Containing(s.failed), failed := {}, wakeup := false)
  }

  /** Handle one failed model. Only the resident's failure has tasks to abandon and a process to stop. */
  function Contained(c: AppConfig, s: State, model: ModelName, pending: set<ModelName>): State {
    var marked := MarkUnavailable(c, s, model);
    if s.resident != Some(model) then marked.(phase := Containing(pending - {model}))
    else
      var told := marked.(reqs := CancelTasks(s.reqs, OfModel(s.reqs, s.inFlight, model), false));
      if s.inFlight == [] then Evicted(told, model, pending - {model})
      else told.(phase := CrashDraining(model, pending - {model}))
  }

  function OfModel(reqs: Table, ids: seq<nat>, model: ModelName): (r: seq<nat>)
    ensures forall id :: id in r <==> id in ids && id < |reqs| && reqs[id].model == model
  {
    if ids == [] then []
    else if ids[0] < |reqs| && reqs[ids[0]].model == model then [ids[0]] + OfModel(reqs, ids[1..], model)
    else OfModel(reqs, ids[1..], model)
  }

  function Evicted(s: State, model: ModelName, pending: set<ModelName>): State {
    s.(phase := CrashStopping(model, pending), resident := None, residentSince := None, inFlight := [])
  }

  // ------------------------------------------------------------------ loop: one pass

  function StillRunning(reqs: Table, ids: seq<nat>): (r: seq<nat>)
    requires Within(ids, reqs)
    ensures Within(r, reqs)
  {
    if ids == [] then []
    else if reqs[ids[0]].state == Running then [ids[0]] + StillRunning(reqs, ids[1..])
    else StillRunning(reqs, ids[1..])
  }

  function Purged(s: State): State
    requires AllWithin(s.queues, s.reqs)
  {
    s.(reqs := PurgedTable(s.reqs, s.queues), queues := PurgedQueues(s.reqs, s.queues))
  }

  function Disconnected(s: State): State {
    s.(reqs := CancelTasks(s.reqs, s.inFlight, true))
  }

  function Reaped(s: State): State
    requires Within(s.inFlight, s.reqs)
  {
    s.(inFlight := StillRunning(s.reqs, s.inFlight))
  }

  function IdlenessTracked(s: State): State
    requires AllWithin(s.queues, s.reqs) && (s.resident.Some? ==> s.resident.value in s.queues)
  {
    s.(idleSince :=
      if s.resident.None? then None
      else if Depth(s.reqs, s.queues[s.resident.value]) > 0 || s.inFlight != [] then None
      else if s.idleSince.None? then Some(s.now)
      else s.idleSince)
  }

  function Swept(c: AppConfig, s: State): (r: State)
    requires WellFormed(c, s)
    ensures WellFormed(c, r)
  {
    IdlenessTracked(Reaped(Disconnected(Purged(s))))
  }

  function ModelStateOf(s: State, model: ModelConfig): ModelState
    requires AllWithin(s.queues, s.reqs) && model.name in s.queues
  {
    var isResident := s.resident == Some(model.name);
    ModelState(
      model.name,
      model.priority,
      Depth(s.reqs, s.queues[model.name]),
      Oldest(s.reqs, s.queues[model.name]),
      model.loadSeconds,
      isResident,
      if isResident then s.residentSince else None,
      if isResident then |s.inFlight| else 0,
      if isResident then s.idleSince else None,
      if model.name in s.unavailableUntil then Some(s.unavailableUntil[model.name]) else None)
  }

  function SnapshotOf(c: AppConfig, s: State): (r: Snapshot)
    requires WellFormed(c, s)
    ensures |r.models| == |c.models|
    ensures forall i :: 0 <= i < |c.models| ==>
      c.models[i].name in s.queues && r.models[i] == ModelStateOf(s, c.models[i])
  {
    assert forall i :: 0 <= i < |c.models| ==> c.models[i].name in c.Names();
    Snapshot(
      seq(|c.models|, i requires 0 <= i < |c.models| => ModelStateOf(s, c.models[i])),
      s.resident, s.draining, s.switching)
  }

  function DecisionOf(c: AppConfig, s: State): Decision
    requires WellFormed(c, s)
  {
    Policy.Decide(SnapshotOf(c, s), s.now, c.scheduler)
  }

  function Dispatched(c: AppConfig, s: State): State
    requires WellFormed(c, s)
  {
    var capacity := c.scheduler.maxConcurrent - |s.inFlight|;
    if s.resident.None? || capacity <= 0 then s
    else
      var b := TakeWhile(s.reqs, s.queues[s.resident.value], s.now, capacity);
      s.(reqs := b.reqs, queues := s.queues[s.resident.value := b.rest],
         inFlight := s.inFlight + b.ids, dispatched := s.dispatched + b.ids)
  }

  /** Nothing is in flight: hand the device over, unloading the incumbent first if there is one. */
  function Handover(s: State, target: ModelName, reason: DecisionReason, began: real): State {
    if s.resident.Some? then
      s.(phase := Unloading(s.resident.value, target, reason, began),
         resident := None, residentSince := None, switching := true)
    else
      s.(phase := Loading(target, began, s.now), switching := true, gpu := s.gpu + {target})
  }

  function Obeyed(c: AppConfig, s: State, d: Decision): State
    requires WellFormed(c, s)
  {
    if d.kind == Switch && d.target.Some? then
      if s.inFlight == [] then Handover(s, d.target.value, d.reason, s.now)
      else Disconnected(s).(phase := Draining(d.target.value, d.reason, s.now), draining := true)
    else
      (if Policy.Dispatches(d) then Dispatched(c, s) else s).(phase := Waiting(s.now))
  }

  /** At the top of the loop the wakeup flag is cleared before anything is read. */
  function Woken(s: State): State {
    if s.phase.Top? then s.(wakeup := false) else s
  }

  /** One pass of the loop from the sweep to the next suspension. */
  function Passed(c: AppConfig, s: State): State
    requires WellFormed(c, s)
  {
    var swept := Swept(c, Woken(s));
    Obeyed(c, swept, DecisionOf(c, swept))
  }

  /** The loop is about to sweep and decide. */
  predicate IsDeciding(s: State) {
    (s.phase.Top? && s.failed == {}) || s.phase == Containing({})
  }

  // ------------------------------------------------------------------ loop: transitions

  function Drained(s: State): State
    requires s.phase.Draining?
  {
    Handover(s.(inFlight := [], draining := false), s.phase.target, s.phase.reason, s.phase.began)
  }

  function Unloaded(s: State): State
    requires s.phase.Unloading?
  {
    s.(phase := Loading(s.phase.target, s.phase.began, s.now),
       gpu := s.gpu - {s.phase.previous} + {s.phase.target},
       swaps := s.swaps + 1,
       scoredSwaps := if s.phase.reason == Starvation then s.scoredSwaps else s.scoredSwaps + 1)
  }

  function LoadSucceeded(s: State): State
    requires s.phase.Loading?
  {
    var target := s.phase.target;
    s.(phase := Top, resident := Some(target), residentSince := Some(s.now), idleSince := None,
       unavailableUntil := s.unavailableUntil - {target}, switching := false,
       loads := s.loads + 1, timeLoading := s.timeLoading + (s.now - s.phase.started))
  }

  function LoadFailed(s: State): State
    requires s.phase.Loading?
  {
    s.(phase := LoadCleanup(s.phase.target, s.phase.began), timeLoading := s.timeLoading + (s.now - s.phase.started))
  }

  function CleanedUp(c: AppConfig, s: State): State
    requires s.phase.LoadCleanup?
  {
    MarkUnavailable(c, s, s.phase.target).(phase := Top, gpu := s.gpu - {s.phase.target}, switching := false)
  }

  // ------------------------------------------------------------------ shutdown

  function StopBegun(s: State): State {
    s.(phase := Stopping, draining := false, reqs := CancelTasks(s.reqs, s.inFlight, false))
  }

  predicate InSomeQueue(s: State, i: nat) {
    i < |s.reqs| && s.reqs[i].model in s.queues && i in s.queues[s.reqs[i].model]
  }

  const SHUTTING_DOWN: StreamEvent := StreamError("router shutting down", 503)

  function Turned(r: Request, away: bool): Request {
    if away then r.(state := Cancelled, channel := r.channel + [SHUTTING_DOWN]) else r
  }

  function Refused(s: State): (r: Table)
    ensures |r| == |s.reqs|
    ensures forall i :: 0 <= i < |s.reqs| ==> r[i] == Turned(s.reqs[i], InSomeQueue(s, i))
  {
    seq(|s.reqs|, i requires 0 <= i < |s.reqs| => Turned(s.reqs[i], InSomeQueue(s, i)))
  }

  function StopDrained(s: State): State {
    s.(reqs := Refused(s), inFlight := [], queues := map m | m in s.queues :: [],
       phase := if s.resident.Some? then StopUnloading(s.resident.value) else Stopped)
  }

  function StopUnloaded(s: State): State
    requires s.phase.StopUnloading?
  {
    s.(phase := Stopped, gpu := s.gpu - {s.phase.model}, resident := None, residentSince := None)
  }

  // ------------------------------------------------------------------ steps and runs

  datatype Action =
    | Submit(model: ModelName)
    | ClientCancel(id: nat)
    | Advance(seconds: real)
    | TaskYields(id: nat, chunk: Chunk)
    | TaskFinishes(id: nat, finishReason: string, usage: Option<Usage>)
    | TaskExhausts(id: nat)
    | TaskBackendFails(id: nat, message: string)
    | TaskFaults(id: nat, message: string)
    | TaskCancelled(id: nat)
    | StartContaining
    | Contain(model: ModelName)
    | FinishCrashDrain
    | FinishCrashStop
    | Pass
    | FinishDrain
    | FinishUnload
    | FinishLoad
    | FailLoad
    | FinishCleanup
    | Wake
    | BeginStop
    | FinishStopDrain
    | FinishStopUnload
  {
    /** The loop resumes inside a switch. */
    predicate IsSwitching() {
      FinishDrain? || FinishUnload? || FinishLoad? || FailLoad? || FinishCleanup?
    }

    /** A step of containment itself, or of the shutdown. */
    predicate IsEnding() {
      StartContaining? || FinishCrashDrain? || FinishCrashStop? || IsStopping()
    }

    predicate IsStopping() {
      BeginStop? || FinishStopDrain? || FinishStopUnload?
    }

    predicate IsTask() {
      TaskYields? || TaskFinishes? || TaskExhausts? || TaskBackendFails? || TaskFaults? || TaskCancelled?
    }
  }

  /** A task that was asked to stop does nothing but stop. Time stands still while the loop computes, and
      a waiting loop sleeps no longer than its tick. */
  predicate Enabled(c: AppConfig, s: State, a: Action) {
    if a.IsTask() then
      a.id in s.inFlight && IsRunning(s, a.id) && (a.TaskCancelled? <==> s.reqs[a.id].cancelRequested)
    else match a
      case Submit(_) => !s.phase.IsShutdown()
      case ClientCancel(id) => id < |s.reqs|
      case Advance(seconds) =>
        && 0.0 < seconds && !s.phase.Top? && !s.phase.Containing?
        && (s.phase.Waiting? ==> s.now + seconds <= s.phase.since + c.scheduler.tick)
      case StartContaining => s.phase.Top? && s.failed != {}
      case Contain(model) => s.phase.Containing? && model in s.phase.pending
      case FinishCrashDrain => s.phase.CrashDraining? && AllTasksDone(s)
      case FinishCrashStop => s.phase.CrashStopping?
      case Pass => IsDeciding(s)
      case FinishDrain => s.phase.Draining? && AllTasksDone(s)
      case FinishUnload => s.phase.Unloading?
      case FinishLoad => s.phase.Loading?
      case FailLoad => s.phase.Loading?
      case FinishCleanup => s.phase.LoadCleanup?
      case Wake => s.phase.Waiting? && (s.wakeup || s.now >= s.phase.since + c.scheduler.tick)
      case BeginStop => s.phase.Waiting? || s.phase.Draining? || s.phase.CrashDraining?
      case FinishStopDrain => s.phase.Stopping? && AllTasksDone(s)
      case FinishStopUnload => s.phase.StopUnloading?
      case _ => false
  }

  function TaskStep(s: State, a: Action): State
    requires a.IsTask() && a.id < |s.reqs|
  {
    match a
    case TaskYields(id, chunk) => Yielded(s, id, chunk)
    case TaskFinishes(id, reason, usage) => Finished(s, id, StreamEnd(reason, usage))
    case TaskExhausts(id) => Finished(s, id, StreamEnd("stop", None))
    case TaskBackendFails(id, message) => BackendFailed(s, id, message)
    case TaskFaults(id, message) => Faulted(s, id, message)
    case TaskCancelled(id) => CancelDelivered(s, id)
  }

  function Step(c: AppConfig, s: State, a: Action): State
    requires WellFormed(c, s) && Enabled(c, s, a)
  {
    if a.IsTask() then TaskStep(s, a)
    else match a
      case Submit(model) => Submitted(s, model)
      case ClientCancel(id) => ClientCancelled(s, id)
      case Advance(seconds) => s.(now := s.now + seconds)
      case StartContaining => ContainStarted(s)
      case Contain(model) => Contained(c, s, model, s.phase.pending)
      case FinishCrashDrain => Evicted(s, s.phase.model, s.phase.pending)
      case FinishCrashStop => s.(phase := Containing(s.phase.pending), gpu := s.gpu - {s.phase.model})
      case Pass => Passed(c, s)
      case FinishDrain => Drained(s)
      case FinishUnload => Unloaded(s)
      case FinishLoad => LoadSucceeded(s)
      case FailLoad => LoadFailed(s)
      case FinishCleanup => CleanedUp(c, s)
      case Wake => s.(phase := Top)
      case BeginStop => StopBegun(s)
      case FinishStopDrain => StopDrained(s)
      case FinishStopUnload => StopUnloaded(s)
  }

  /** `run` can be taken from `s`. */
  ghost predicate IsRun(c: AppConfig, s: State, run: seq<Action>)
    decreases run
  {
    run != [] ==> WellFormed(c, s) && Enabled(c, s, run[0]) && IsRun(c, Step(c, s, run[0]), run[1..])
  }

  ghost function After(c: AppConfig, s: State, run: seq<Action>): State
    requires IsRun(c, s, run)
    decreases run
  {
    if run == [] then s else After(c, Step(c, s, run[0]), run[1..])
  }
}
