/** What every step of store and engine keeps, whatever the interleaving. */
module JobInvariant {
  import opened Types
  import opened Requests
  import opened QueueSpec
  import opened EngineModel
  import opened JobModel
  import EnginePools
  import EngineInvariant
  import EngineTheorems

  // ------------------------------------------------------------------ the invariant

  /** The events a job has copied so far. */
  function Copied(job: Job): seq<StreamEvent> {
    Pieces(job.chunks) + if job.terminal.Some? then [job.terminal.value] else []
  }

  /** One retained job against its request: what it holds is a prefix of the channel; it has a finishing
      time exactly when its pump was stopped or has ended; and it was only ever read as finished when it
      was. */
  ghost predicate JobOk(job: Job, request: Request, now: real) {
    && job.taken <= |request.channel| && Copied(job) == request.channel[..job.taken]
    && (job.terminal.Some? ==> job.terminal.value.IsTerminator() && job.pump.PumpOver?)
    && (!job.pump.Pumping? && job.terminal.None? ==> request.cancelled)
    && (job.finishedAt.Some? <==> !job.pump.Pumping?)
    && (job.firstReadAt.Some? ==> IsTerminal(job, request))
    && job.createdAt == request.enqueuedAt
    && job.createdAt <= job.lastPolledAt <= now
    && (job.finishedAt.Some? ==> job.finishedAt.value <= now)
  }

  /** A job still in progress had a valid lease at the last sweep. */
  ghost predicate LeaseOk(config: JobsConfig, job: Job, request: Request, lastSweep: real) {
    config.lease != 0.0 && !IsTerminal(job, request) ==> lastSweep - job.lastPolledAt <= config.lease
  }

  /** The advice last given can be followed at leisure without losing the lease. */
  ghost predicate AdviceOk(config: JobsConfig, job: Job) {
    config.lease != 0.0 ==> job.advised <= config.lease / 2.0
  }

  ghost predicate RetainedOk(config: JobsConfig, w: World, k: nat)
    requires k < |w.store.jobs|
  {
    var job := w.store.jobs[k];
    && job.id < |w.engine.reqs|
    && JobOk(job, w.engine.reqs[job.id], w.engine.now)
    && LeaseOk(config, job, w.engine.reqs[job.id], w.lastSweep)
    && AdviceOk(config, job)
  }

  ghost predicate DistinctIds(jobs: seq<Job>) {
    forall j, k :: 0 <= j < k < |jobs| ==> jobs[j].id != jobs[k].id
  }

  ghost predicate StoreOk(config: JobsConfig, w: World) {
    && |w.store.jobs| <= config.maxJobs
    && DistinctIds(w.store.jobs)
    && (forall k: nat :: k < |w.store.jobs| ==> RetainedOk(config, w, k))
  }

  ghost predicate WorldOk(c: AppConfig, config: JobsConfig, w: World) {
    && EngineTheorems.Inv(c, w.engine)
    && StoreOk(config, w)
    && w.lastSweep <= w.engine.now <= w.lastSweep + config.sweepInterval
  }

  lemma PlaceIsUnique(jobs: seq<Job>, k: nat)
    requires DistinctIds(jobs) && k < |jobs|
    ensures PlaceOf(jobs, jobs[k].id) == Some(k)
  {
    var place := PlaceOf(jobs, jobs[k].id);
    assert place.Some?;
  }

  lemma IsSound(c: AppConfig, config: JobsConfig, w: World)
    requires WorldOk(c, config, w)
    ensures Sound(c, w)
  {
    forall k | 0 <= k < |w.store.jobs| ensures w.store.jobs[k].id < |w.engine.reqs| {
      assert RetainedOk(config, w, k);
    }
  }

  // ------------------------------------------------------------------ small steps

  /** A terminal request stays terminal, so whatever a job recorded stays right while its request moves on. */
  lemma JobPersists(job: Job, request: Request, later: Request, now: real, then_: real)
    requires JobOk(job, request, now) && EnginePools.Persists(request, later) && now <= then_
    ensures JobOk(job, later, then_)
    ensures IsTerminal(job, request) ==> IsTerminal(job, later)
  {
    assert request.channel[..job.taken] == later.channel[..job.taken];
  }

  /** The engine moves, the store does not. */
  lemma EngineMoves(config: JobsConfig, w: World, engine: State)
    requires StoreOk(config, w)
    requires EnginePools.AllPersist(w.engine.reqs, engine.reqs) && w.engine.now <= engine.now
    ensures StoreOk(config, w.(engine := engine))
  {
    var v := w.(engine := engine);
    forall k: nat | k < |v.store.jobs| ensures RetainedOk(config, v, k) {
      assert RetainedOk(config, w, k);
      var job := w.store.jobs[k];
      JobPersists(job, w.engine.reqs[job.id], engine.reqs[job.id], w.engine.now, engine.now);
    }
  }

  /** One job is replaced by another version of itself. */
  lemma JobMoves(config: JobsConfig, w: World, k: nat, job: Job)
    requires StoreOk(config, w) && k < |w.store.jobs|
    requires job.id == w.store.jobs[k].id
    requires job.id < |w.engine.reqs| && JobOk(job, w.engine.reqs[job.id], w.engine.now)
    requires LeaseOk(config, job, w.engine.reqs[job.id], w.lastSweep) && AdviceOk(config, job)
    ensures StoreOk(config, w.(store := Updated(w.store, k, job)))
  {
    var v := w.(store := Updated(w.store, k, job));
    forall i: nat | i < |v.store.jobs| ensures RetainedOk(config, v, i) {
      assert RetainedOk(config, w, i);
    }
  }

  lemma ForgetKeepsStore(config: JobsConfig, w: World, k: nat)
    requires StoreOk(config, w) && k < |w.store.jobs|
    ensures StoreOk(config, w.(store := Forgotten(w.store, k)))
  {
    var v := w.(store := Forgotten(w.store, k));
    forall i: nat | i < |v.store.jobs| ensures RetainedOk(config, v, i) {
      assert v.store.jobs[i] == w.store.jobs[if i < k then i else i + 1];
      assert RetainedOk(config, w, if i < k then i else i + 1);
    }
  }

  lemma AddKeepsStore(config: JobsConfig, w: World, job: Job)
    requires StoreOk(config, w) && |w.store.jobs| < config.maxJobs
    requires forall k :: 0 <= k < |w.store.jobs| ==> w.store.jobs[k].id != job.id
    requires job.id < |w.engine.reqs| && JobOk(job, w.engine.reqs[job.id], w.engine.now)
    requires LeaseOk(config, job, w.engine.reqs[job.id], w.lastSweep) && AdviceOk(config, job)
    ensures StoreOk(config, w.(store := Added(w.store, job)))
  {
    var v := w.(store := Added(w.store, job));
    forall k: nat | k < |v.store.jobs| ensures RetainedOk(config, v, k) {
      if k < |w.store.jobs| {
        assert RetainedOk(config, w, k);
      }
    }
  }

  // ------------------------------------------------------------------ step by step

  lemma CancelIsStep(c: AppConfig, s: State, id: nat)
    requires c.Valid() && EngineTheorems.Inv(c, s) && id < |s.reqs|
    ensures EngineTheorems.Inv(c, ClientCancelled(s, id))
    ensures EnginePools.AllPersist(s.reqs, ClientCancelled(s, id).reqs)
  {
    EngineStep(c, s, ClientCancel(id));
  }

  lemma EngineStep(c: AppConfig, s: State, a: Action)
    requires c.Valid() && EngineTheorems.Inv(c, s) && Enabled(c, s, a)
    ensures EngineTheorems.Inv(c, Step(c, s, a))
    ensures EnginePools.AllPersist(s.reqs, Step(c, s, a).reqs)
    ensures s.now <= Step(c, s, a).now && (!a.Advance? ==> Step(c, s, a).now == s.now)
  {
    EngineTheorems.StepKeepsInv(c, s, a);
    EngineInvariant.TimeStep(c, s, a);
    EngineInvariant.NothingStartedInQueue(s);
    EnginePools.StepPersists(c, s, a);
  }

  lemma AdviceIsClamped(c: AppConfig, config: JobsConfig, s: State, job: Job, mean: real)
    requires c.scheduler.Valid() && WellFormed(c, s) && job.id < |s.reqs|
    ensures config.lease != 0.0 ==> RetryAfter(c, config, s, job, mean) <= config.lease / 2.0
  {
  }

  lemma AdviseKeepsWorld(c: AppConfig, config: JobsConfig, w: World, id: nat, mean: real)
    requires c.Valid() && WorldOk(c, config, w)
    ensures Sound(c, w) && WorldOk(c, config, Advised(c, config, w, id, mean))
  {
    IsSound(c, config, w);
    var place := PlaceOf(w.store.jobs, id);
    if place.Some? {
      var job := w.store.jobs[place.value];
      assert RetainedOk(config, w, place.value);
      AdviceIsClamped(c, config, w.engine, job, mean);
      JobMoves(config, w, place.value, job.(advised := RetryAfter(c, config, w.engine, job, mean)));
    }
  }

  lemma RoomKeepsStore(config: JobsConfig, w: World)
    requires StoreOk(config, w) && Known(w.store.jobs, w.engine.reqs) && config.Valid()
    requires RoomMade(config, w.store, w.engine.reqs).Some?
    ensures var room := RoomMade(config, w.store, w.engine.reqs).value;
      StoreOk(config, w.(store := room)) && |room.jobs| < config.maxJobs
  {
    if |w.store.jobs| >= config.maxJobs {
      ForgetKeepsStore(config, w, Evictable(w.store.jobs, w.engine.reqs).value);
    }
  }

  lemma CreateKeepsStore(config: JobsConfig, w: World, id: nat, key: Option<string>)
    requires StoreOk(config, w) && |w.store.jobs| < config.maxJobs && config.Valid()
    requires id < |w.engine.reqs| && forall k :: 0 <= k < |w.store.jobs| ==> w.store.jobs[k].id < id
    requires w.engine.reqs[id].channel == [] && w.engine.reqs[id].enqueuedAt == w.engine.now
    requires w.lastSweep <= w.engine.now
    ensures StoreOk(config, w.(store := Added(w.store, Opened(id, key, w.engine.now))))
  {
    var job := Opened(id, key, w.engine.now);
    assert Copied(job) == [];
    assert JobOk(job, w.engine.reqs[id], w.engine.now);
    AddKeepsStore(config, w, job);
  }

  lemma PostKeepsWorld(c: AppConfig, config: JobsConfig, w: World, model: ModelName, key: Option<string>, mean: real)
    requires c.Valid() && config.Valid() && WorldOk(c, config, w) && Sound(c, w) && !w.engine.phase.IsShutdown()
    ensures WorldOk(c, config, Posted(c, config, w, model, key, mean))
  {
    if model in w.engine.queues {
      if IsLookedUp(key) && FindByKey(w.store, key.value).Some? {
        AdviseKeepsWorld(c, config, w, FindByKey(w.store, key.value).value, mean);
      } else {
        NewPostKeepsWorld(c, config, w, model, key, mean);
      }
    }
  }

  lemma SubmitKeepsWorld(c: AppConfig, config: JobsConfig, w: World, model: ModelName)
    requires c.Valid() && WorldOk(c, config, w) && !w.engine.phase.IsShutdown() && model in w.engine.queues
    ensures WorldOk(c, config, w.(engine := Submitted(w.engine, model)))
    ensures Sound(c, w) && WellFormed(c, Submitted(w.engine, model))
  {
    IsSound(c, config, w);
    EngineStep(c, w.engine, Submit(model));
    EngineMoves(config, w, Submitted(w.engine, model));
  }

  lemma NewPostKeepsWorld(c: AppConfig, config: JobsConfig, w: World, model: ModelName, key: Option<string>, mean: real)
    requires c.Valid() && config.Valid() && WorldOk(c, config, w) && Sound(c, w) && !w.engine.phase.IsShutdown()
    requires model in w.engine.queues && !(IsLookedUp(key) && FindByKey(w.store, key.value).Some?)
    ensures WorldOk(c, config, Posted(c, config, w, model, key, mean))
  {
    var id := |w.engine.reqs|;
    var engine := Submitted(w.engine, model);
    var v := w.(engine := engine);
    SubmitKeepsWorld(c, config, w, model);
    IsSound(c, config, v);
    var room := RoomMade(config, w.store, engine.reqs);
    if room.None? {
      CancelIsStep(c, engine, id);
      EngineMoves(config, v, ClientCancelled(engine, id));
    } else {
      RoomKeepsStore(config, v);
      RoomIsOld(config, w, engine.reqs);
      CreateKeepsStore(config, v.(store := room.value), id, key);
      AdviseKeepsWorld(c, config, v.(store := Added(room.value, Opened(id, key, engine.now))), id, mean);
    }
  }

  lemma RoomIsOld(config: JobsConfig, w: World, reqs: Table)
    requires Known(w.store.jobs, w.engine.reqs) && Known(w.store.jobs, reqs)
    requires RoomMade(config, w.store, reqs).Some?
    ensures var room := RoomMade(config, w.store, reqs).value;
      forall k :: 0 <= k < |room.jobs| ==> room.jobs[k].id < |w.engine.reqs|
  {
  }

  lemma PollKeepsWorld(c: AppConfig, config: JobsConfig, w: World, id: nat, mean: real)
    requires c.Valid() && config.Valid() && WorldOk(c, config, w) && Sound(c, w)
    ensures WorldOk(c, config, Polled(c, config, w, id, mean))
  {
    var place := PlaceOf(w.store.jobs, id);
    if place.Some? {
      assert RetainedOk(config, w, place.value);
      var read := Read(w.store.jobs[place.value], w.engine.reqs[id], w.engine.now);
      JobMoves(config, w, place.value, read);
      AdviseKeepsWorld(c, config, w.(store := Updated(w.store, place.value, read)), id, mean);
    }
  }

  lemma AbandonKeepsWorld(c: AppConfig, config: JobsConfig, w: World, k: nat)
    requires c.Valid() && WorldOk(c, config, w) && Sound(c, w) && k < |w.store.jobs|
    ensures WorldOk(c, config, AbandonedAt(w, k))
  {
    var job := w.store.jobs[k];
    assert RetainedOk(config, w, k);
    CancelIsStep(c, w.engine, job.id);
    EngineMoves(config, w, ClientCancelled(w.engine, job.id));
    var v := w.(engine := ClientCancelled(w.engine, job.id));
    assert RetainedOk(config, v, k);
    JobMoves(config, v, k, Abandoned(job, w.engine.now));
  }

  lemma PumpKeepsWorld(c: AppConfig, config: JobsConfig, w: World, a: Act)
    requires c.Valid() && WorldOk(c, config, w) && Sound(c, w) && CanAct(c, config, w, a)
    requires a.PumpTakes? || a.PumpEnds?
    ensures WorldOk(c, config, Do(c, config, w, a))
  {
    var k := PlaceOf(w.store.jobs, a.id).value;
    var job, request := w.store.jobs[k], w.engine.reqs[a.id];
    assert RetainedOk(config, w, k);
    if a.PumpTakes? {
      PumpedIsOk(job, request, w.engine.now);
      JobMoves(config, w, k, Pumped(job, request.channel[job.taken], w.engine.now));
    } else {
      JobMoves(config, w, k, PumpStopped(job, w.engine.now));
    }
  }

  lemma PumpedIsOk(job: Job, request: Request, now: real)
    requires JobOk(job, request, now) && job.pump.Pumping? && job.taken < |request.channel|
    ensures JobOk(Pumped(job, request.channel[job.taken], now), request, now)
    ensures !IsTerminal(Pumped(job, request.channel[job.taken], now), request) ==> !IsTerminal(job, request)
  {
    var event := request.channel[job.taken];
    assert request.channel[..job.taken + 1] == request.channel[..job.taken] + [event];
    if event.Piece? {
      assert Pieces(job.chunks + [event.chunk]) == Pieces(job.chunks) + [event];
      assert job.terminal.None?;
    }
  }

  // ------------------------------------------------------------------ the sweep

  lemma SweepOneKeepsWorld(c: AppConfig, config: JobsConfig, w: World, id: nat)
    requires c.Valid() && WorldOk(c, config, w) && Sound(c, w)
    ensures WorldOk(c, config, SweptOne(config, w, id)) && Sound(c, SweptOne(config, w, id))
    ensures SweptOne(config, w, id).lastSweep == w.lastSweep && SweptOne(config, w, id).engine.now == w.engine.now
  {
    var place := PlaceOf(w.store.jobs, id);
    if place.Some? {
      AbandonKeepsWorld(c, config, w, place.value);
      ForgetKeepsStore(config, w, place.value);
    }
    IsSound(c, config, SweptOne(config, w, id));
  }

  lemma {:induction false} SweepAllKeepsWorld(c: AppConfig, config: JobsConfig, w: World, ids: seq<nat>)
    requires c.Valid() && WorldOk(c, config, w) && Sound(c, w)
    ensures WorldOk(c, config, SweptAll(config, w, ids)) && Sound(c, SweptAll(config, w, ids))
    ensures SweptAll(config, w, ids).lastSweep == w.lastSweep && SweptAll(config, w, ids).engine.now == w.engine.now
    decreases |ids|
  {
    if ids != [] {
      SweepOneKeepsWorld(c, config, w, ids[0]);
      SweepAllKeepsWorld(c, config, SweptOne(config, w, ids[0]), ids[1..]);
    }
  }
}
