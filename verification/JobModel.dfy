/** Polled jobs: a third rendering of a request's events, kept in a store that outlives the client's
    connection, and the one-world model of store and engine running side by side. */
module JobModel {
  import opened Types
  import opened Requests
  import opened QueueSpec
  import opened EngineModel
  import Policy

  datatype JobsConfig = JobsConfig(
    lease: real,
    resultTtl: real,
    readTtl: real,
    sweepInterval: real,
    maxJobs: int)
  {
    predicate Valid() {
      && 0.0 <= lease && 0.0 < resultTtl && 0.0 < readTtl && 0.0 < sweepInterval && 0 < maxJobs
      && (lease != 0.0 ==> sweepInterval < lease)
    }
  }

  /** The pump copies events until the first terminator; told to stop, it only stops. */
  datatype Pump = Pumping | PumpStopping | PumpOver

  /** `id` is the job's request; `taken` counts the events its pump has taken off the channel; `advised`
      is the polling interval last recommended to its client. */
  datatype Job = Job(
    id: nat,
    key: Option<string>,
    createdAt: real,
    lastPolledAt: real,
    chunks: seq<Chunk>,
    terminal: Option<StreamEvent>,
    finishedAt: Option<real>,
    firstReadAt: Option<real>,
    pump: Pump,
    taken: nat,
    advised: real)

  function Opened(id: nat, key: Option<string>, now: real): Job {
    Job(id, key, now, now, [], None, None, None, Pumping, 0, 0.0)
  }

  // ------------------------------------------------------------------ derivations

  /** Derived, never stored: what the job has recorded, then what became of its request. */
  function Derived(terminal: Option<StreamEvent>, cancelled: bool, state: RequestState): RequestState {
    if terminal.Some? && terminal.value.StreamError? then Failed
    else if terminal.Some? && terminal.value.StreamEnd? then Done
    else if cancelled then Cancelled
    else state
  }

  function StateOf(job: Job, request: Request): RequestState {
    Derived(job.terminal, request.cancelled, request.state)
  }

  predicate IsTerminal(job: Job, request: Request) {
    StateOf(job, request).IsTerminal()
  }

  /** Nobody has asked for the job within the lease. A lease of zero is none. */
  predicate IsStale(config: JobsConfig, job: Job, request: Request, now: real) {
    config.lease != 0.0 && !IsTerminal(job, request) && now - job.lastPolledAt > config.lease
  }

  /** Finished, and past the time to live that applies: counted from the first read if there was one, and
      from the finish otherwise. */
  predicate IsExpired(config: JobsConfig, job: Job, request: Request, now: real) {
    && IsTerminal(job, request) && job.finishedAt.Some?
    && now >= if job.firstReadAt.Some? then job.firstReadAt.value + config.readTtl
              else job.finishedAt.value + config.resultTtl
  }

  // ------------------------------------------------------------------ the store

  datatype Store = Store(jobs: seq<Job>, byKey: map<string, nat>)

  predicate Known(jobs: seq<Job>, reqs: Table) {
    forall k :: 0 <= k < |jobs| ==> jobs[k].id < |reqs|
  }

  function PlaceOf(jobs: seq<Job>, id: nat): (place: Option<nat>)
    ensures place.Some? ==> place.value < |jobs| && jobs[place.value].id == id
    ensures place.None? ==> forall k :: 0 <= k < |jobs| ==> jobs[k].id != id
  {
    if jobs == [] then None
    else if jobs[0].id == id then Some(0)
    else
      var behind := PlaceOf(jobs[1..], id);
      if behind.None? then None else Some(behind.value + 1)
  }

  function FindByKey(s: Store, key: string): Option<nat> {
    if key in s.byKey && PlaceOf(s.jobs, s.byKey[key]).Some? then Some(s.byKey[key]) else None
  }

  function Without(jobs: seq<Job>, k: nat): seq<Job>
    requires k < |jobs|
  {
    jobs[..k] + jobs[k + 1..]
  }

  function Forgotten(s: Store, k: nat): Store
    requires k < |s.jobs|
  {
    var key := s.jobs[k].key;
    Store(Without(s.jobs, k), if key.Some? then s.byKey - {key.value} else s.byKey)
  }

  /** The time eviction goes by; a falsy finishing time counts as none. */
  function Age(finishedAt: Option<real>, createdAt: real): real {
    if finishedAt.Some? && finishedAt.value != 0.0 then finishedAt.value else createdAt
  }

  function EvictionKey(job: Job): real {
    Age(job.finishedAt, job.createdAt)
  }

  /** The first of the terminal jobs that finished earliest. */
  function Evictable(jobs: seq<Job>, reqs: Table): (k: Option<nat>)
    requires Known(jobs, reqs)
    ensures k.Some? ==> k.value < |jobs| && IsTerminal(jobs[k.value], reqs[jobs[k.value].id])
    ensures k.None? ==> forall i :: 0 <= i < |jobs| ==> !IsTerminal(jobs[i], reqs[jobs[i].id])
    ensures k.Some? ==> forall i :: 0 <= i < |jobs| && IsTerminal(jobs[i], reqs[jobs[i].id]) ==>
      EvictionKey(jobs[k.value]) <= EvictionKey(jobs[i])
    ensures k.Some? ==> forall i :: 0 <= i < k.value && IsTerminal(jobs[i], reqs[jobs[i].id]) ==>
      EvictionKey(jobs[k.value]) < EvictionKey(jobs[i])
  {
    if jobs == [] then None
    else
      var rest := Evictable(jobs[1..], reqs);
      assert forall i :: 0 <= i < |jobs[1..]| ==> jobs[1..][i] == jobs[i + 1];
      assert forall i :: 0 < i < |jobs| ==> jobs[i] == jobs[1..][i - 1];
      if !IsTerminal(jobs[0], reqs[jobs[0].id]) then
        if rest.Some? then Some(rest.value + 1) else None
      else if rest.Some? && EvictionKey(jobs[rest.value + 1]) < EvictionKey(jobs[0]) then Some(rest.value + 1)
      else Some(0)
  }

  /** None is the refusal: at the ceiling with nothing evictable. */
  function RoomMade(config: JobsConfig, s: Store, reqs: Table): Option<Store>
    requires Known(s.jobs, reqs)
  {
    if |s.jobs| < config.maxJobs then Some(s)
    else
      var k := Evictable(s.jobs, reqs);
      if k.None? then None else Some(Forgotten(s, k.value))
  }

  function Added(s: Store, job: Job): Store {
    Store(s.jobs + [job], if job.key.Some? then s.byKey[job.key.value := job.id] else s.byKey)
  }

  function Updated(s: Store, k: nat, job: Job): Store
    requires k < |s.jobs|
  {
    s.(jobs := s.jobs[k := job])
  }

  /** A read renews the lease, and the first read of a finished job starts its shorter clock. */
  function Read(job: Job, request: Request, now: real): Job {
    job.(lastPolledAt := now,
         firstReadAt := if IsTerminal(job, request) && job.firstReadAt.None? then Some(now) else job.firstReadAt)
  }

  /** Stop pumping; the request itself is cancelled beside this. */
  function Abandoned(job: Job, now: real): Job {
    job.(pump := if job.pump.Pumping? then PumpStopping else job.pump,
         finishedAt := if job.finishedAt.None? then Some(now) else job.finishedAt)
  }

  /** The pump takes one event: a chunk is kept, a terminator is recorded and ends the pump. */
  function Pumped(job: Job, event: StreamEvent, now: real): Job {
    if event.Piece? then job.(chunks := job.chunks + [event.chunk], taken := job.taken + 1)
    else job.(terminal := Some(event), taken := job.taken + 1, pump := PumpOver, finishedAt := Some(now))
  }

  function PumpStopped(job: Job, now: real): Job {
    job.(pump := PumpOver, finishedAt := Some(now))
  }

  // ------------------------------------------------------------------ advice

  const RUNNING_POLL: real := 1.0

  /** What a job document tells the client to wait before polling again; `mean` is the model's current
      running average of request durations. */
  function RetryAfter(c: AppConfig, config: JobsConfig, s: State, job: Job, mean: real): real
    requires c.scheduler.Valid() && WellFormed(c, s) && job.id < |s.reqs|
  {
    var request := s.reqs[job.id];
    var base :=
      if IsTerminal(job, request) then 0.0
      else
        var estimate := EstimateOf(c, s, job.id, mean);
        if estimate.Some? then estimate.value.retryAfter else RUNNING_POLL;
    if config.lease != 0.0 then Min(base, config.lease / 2.0) else base
  }

  /** None once the request has left its queue. */
  function EstimateOf(c: AppConfig, s: State, id: nat, mean: real): Option<Policy.WaitEstimate>
    requires c.scheduler.Valid() && WellFormed(c, s) && id < |s.reqs|
  {
    var model := s.reqs[id].model;
    var position := if model in s.queues then PositionOf(s.reqs, s.queues[model], id) else None;
    if position.None? then None
    else Policy.EstimateWait(SnapshotOf(c, s), model, position.value, s.now, c.scheduler, mean)
  }

  /** Rounding to the nearest integer, halves to the even one. */
  function Round(r: real): int {
    var below := r.Floor;
    var rest := r - below as real;
    if rest < 0.5 then below
    else if rest > 0.5 then below + 1
    else if below % 2 == 0 then below else below + 1
  }

  /** The header of an accepted submission. */
  function RetryAfterHeader(advice: real): int {
    if Round(advice) < 1 then 1 else Round(advice)
  }

  // ------------------------------------------------------------------ store and engine side by side

  /** `lastSweep` is when the sweeper last ran, or when the store was started. */
  datatype World = World(engine: State, store: Store, lastSweep: real)

  datatype Act =
    | EngineDoes(action: Action)
    | Post(model: ModelName, key: Option<string>, mean: real)
    | Poll(id: nat, mean: real)
    | Delete(id: nat)
    | PumpTakes(id: nat)
    | PumpEnds(id: nat)
    | Sweep

  predicate Sound(c: AppConfig, w: World) {
    WellFormed(c, w.engine) && Known(w.store.jobs, w.engine.reqs)
  }

  /** The sweeper runs promptly: time does not pass its next deadline. Shutdown is outside this model. */
  predicate CanAct(c: AppConfig, config: JobsConfig, w: World, a: Act)
    requires Sound(c, w)
  {
    match a
    case EngineDoes(action) =>
      && Enabled(c, w.engine, action) && !action.BeginStop?
      && (action.Advance? ==> w.engine.now + action.seconds <= w.lastSweep + config.sweepInterval)
    case Post(_, _, _) => !w.engine.phase.IsShutdown()
    case Poll(_, _) => true
    case Delete(_) => true
    case PumpTakes(id) =>
      var place := PlaceOf(w.store.jobs, id);
      place.Some? &&
        var job := w.store.jobs[place.value];
        job.pump.Pumping? && job.taken < |w.engine.reqs[id].channel|
    case PumpEnds(id) =>
      var place := PlaceOf(w.store.jobs, id);
      place.Some? && w.store.jobs[place.value].pump.PumpStopping?
    case Sweep => true
  }

  /** The key that makes a submission idempotent: an empty one is not looked up. */
  predicate IsLookedUp(key: Option<string>) {
    key.Some? && key.value != ""
  }

  /** Reply to a submission or a poll, remembering the advice given. */
  function Advised(c: AppConfig, config: JobsConfig, w: World, id: nat, mean: real): World
    requires c.scheduler.Valid() && Sound(c, w)
  {
    var place := PlaceOf(w.store.jobs, id);
    if place.None? then w
    else
      var job := w.store.jobs[place.value];
      w.(store := Updated(w.store, place.value, job.(advised := RetryAfter(c, config, w.engine, job, mean))))
  }

  /** Submit and create, or only find: the order of the submission endpoint. */
  function Posted(c: AppConfig, config: JobsConfig, w: World, model: ModelName, key: Option<string>, mean: real): World
    requires c.scheduler.Valid() && Sound(c, w)
  {
    if model !in w.engine.queues then w
    else if IsLookedUp(key) && FindByKey(w.store, key.value).Some? then
      Advised(c, config, w, FindByKey(w.store, key.value).value, mean)
    else
      var id := |w.engine.reqs|;
      var engine := Submitted(w.engine, model);
      SubmittedIsSound(c, w, model);
      var room := RoomMade(config, w.store, engine.reqs);
      if room.None? then w.(engine := ClientCancelled(engine, id))
      else
        CreatedIsSound(c, config, w, engine, room.value, Opened(id, key, engine.now));
        Advised(c, config, w.(engine := engine, store := Added(room.value, Opened(id, key, engine.now))), id, mean)
  }

  lemma SubmittedIsSound(c: AppConfig, w: World, model: ModelName)
    requires Sound(c, w) && model in w.engine.queues
    ensures var engine := Submitted(w.engine, model);
      WellFormed(c, engine) && Known(w.store.jobs, engine.reqs) && |engine.reqs| == |w.engine.reqs| + 1
  {
  }

  lemma CreatedIsSound(c: AppConfig, config: JobsConfig, w: World, engine: State, room: Store, job: Job)
    requires WellFormed(c, engine) && Known(w.store.jobs, engine.reqs) && job.id < |engine.reqs|
    requires RoomMade(config, w.store, engine.reqs) == Some(room)
    ensures Sound(c, w.(engine := engine, store := Added(room, job)))
  {
  }

  function Polled(c: AppConfig, config: JobsConfig, w: World, id: nat, mean: real): World
    requires c.scheduler.Valid() && Sound(c, w)
  {
    var place := PlaceOf(w.store.jobs, id);
    if place.None? then w
    else
      var read := Read(w.store.jobs[place.value], w.engine.reqs[id], w.engine.now);
      Advised(c, config, w.(store := Updated(w.store, place.value, read)), id, mean)
  }

  function AbandonedAt(w: World, k: nat): World
    requires k < |w.store.jobs| && w.store.jobs[k].id < |w.engine.reqs|
  {
    var job := w.store.jobs[k];
    w.(engine := ClientCancelled(w.engine, job.id), store := Updated(w.store, k, Abandoned(job, w.engine.now)))
  }

  function Deleted(w: World, id: nat): World
    requires Known(w.store.jobs, w.engine.reqs)
  {
    var place := PlaceOf(w.store.jobs, id);
    if place.None? then w else AbandonedAt(w, place.value)
  }

  /** What the sweep does with one job: abandon it, forget it, or leave it. */
  function SweptOne(config: JobsConfig, w: World, id: nat): (r: World)
    requires Known(w.store.jobs, w.engine.reqs)
    ensures Known(r.store.jobs, r.engine.reqs)
  {
    var place := PlaceOf(w.store.jobs, id);
    if place.None? then w else SweptAt(config, w, place.value)
  }

  function SweptAt(config: JobsConfig, w: World, k: nat): (r: World)
    requires Known(w.store.jobs, w.engine.reqs) && k < |w.store.jobs|
    ensures Known(r.store.jobs, r.engine.reqs)
  {
    var job := w.store.jobs[k];
    var request := w.engine.reqs[job.id];
    if IsStale(config, job, request, w.engine.now) then AbandonedAt(w, k)
    else if IsExpired(config, job, request, w.engine.now) then w.(store := Forgotten(w.store, k))
    else w
  }

  /** The sweep goes through the jobs it found when it began. */
  function SweptAll(config: JobsConfig, w: World, ids: seq<nat>): (r: World)
    requires Known(w.store.jobs, w.engine.reqs)
    ensures Known(r.store.jobs, r.engine.reqs)
    decreases |ids|
  {
    if ids == [] then w else SweptAll(config, SweptOne(config, w, ids[0]), ids[1..])
  }

  function IdsOf(jobs: seq<Job>): (ids: seq<nat>)
    ensures |ids| == |jobs|
    ensures forall k :: 0 <= k < |jobs| ==> ids[k] == jobs[k].id
  {
    seq(|jobs|, k requires 0 <= k < |jobs| => jobs[k].id)
  }

  function SweptOnce(config: JobsConfig, w: World): World
    requires Known(w.store.jobs, w.engine.reqs)
  {
    SweptAll(config, w, IdsOf(w.store.jobs))
  }

  function PumpStep(w: World, id: nat, job: Job): World
    requires PlaceOf(w.store.jobs, id).Some?
  {
    w.(store := Updated(w.store, PlaceOf(w.store.jobs, id).value, job))
  }

  function Do(c: AppConfig, config: JobsConfig, w: World, a: Act): World
    requires c.scheduler.Valid() && Sound(c, w) && CanAct(c, config, w, a)
  {
    match a
    case EngineDoes(action) => w.(engine := Step(c, w.engine, action))
    case Post(model, key, mean) => Posted(c, config, w, model, key, mean)
    case Poll(id, mean) => Polled(c, config, w, id, mean)
    case Delete(id) => Deleted(w, id)
    case PumpTakes(id) =>
      var job := w.store.jobs[PlaceOf(w.store.jobs, id).value];
      PumpStep(w, id, Pumped(job, w.engine.reqs[id].channel[job.taken], w.engine.now))
    case PumpEnds(id) =>
      PumpStep(w, id, PumpStopped(w.store.jobs[PlaceOf(w.store.jobs, id).value], w.engine.now))
    case Sweep => SweptOnce(config, w).(lastSweep := w.engine.now)
  }

  function Begin(c: AppConfig, now: real): World {
    World(Init(c, now), Store([], map[]), now)
  }

  ghost predicate IsHistory(c: AppConfig, config: JobsConfig, w: World, run: seq<Act>)
    requires c.scheduler.Valid()
    decreases run
  {
    run != [] ==> Sound(c, w) && CanAct(c, config, w, run[0]) && IsHistory(c, config, Do(c, config, w, run[0]), run[1..])
  }

  ghost function Afterwards(c: AppConfig, config: JobsConfig, w: World, run: seq<Act>): World
    requires c.scheduler.Valid() && IsHistory(c, config, w, run)
    decreases run
  {
    if run == [] then w else Afterwards(c, config, Do(c, config, w, run[0]), run[1..])
  }
}
