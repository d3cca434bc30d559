/** What the lease buys: nobody who follows the advice loses a job, and nobody who stopped polling can
    force a swap. */
module JobLease {
  import opened Types
  import opened Requests
  import opened QueueSpec
  import opened EngineModel
  import opened JobModel
  import opened JobInvariant
  import opened JobSweep
  import opened JobTheorems
  import EngineFairness
  import EngineInvariant
  import EnginePools
  import EngineTheorems

  // ------------------------------------------------------------------ abandoned work

  /** At every instant, a job still in progress was polled within the last lease and sweep interval. */
  lemma LeaseBoundsSilence(c: AppConfig, config: JobsConfig, w: World, k: nat)
    requires c.Valid() && config.Valid() && Happens(c, config, w) && config.lease != 0.0
    requires k < |w.store.jobs|
    ensures Sound(c, w)
    ensures var job := w.store.jobs[k];
      !IsTerminal(job, w.engine.reqs[job.id]) ==> w.engine.now - job.lastPolledAt <= config.lease + config.sweepInterval
  {
    HappensOk(c, config, w);
    assert RetainedOk(config, w, k);
  }

  /** A request that has not been started has told its job nothing. */
  lemma QueuedIsInProgress(c: AppConfig, config: JobsConfig, w: World, k: nat)
    requires WorldOk(c, config, w) && k < |w.store.jobs| && w.store.jobs[k].id < |w.engine.reqs|
    requires w.engine.reqs[w.store.jobs[k].id].state == Queued && !w.engine.reqs[w.store.jobs[k].id].cancelled
    ensures !IsTerminal(w.store.jobs[k], w.engine.reqs[w.store.jobs[k].id])
  {
    var job := w.store.jobs[k];
    assert RetainedOk(config, w, k);
    assert EngineInvariant.Sound(w.engine, job.id);
    assert |Copied(job)| == 0;
  }

  /** If the lease and one sweep interval together stay below the starvation ceiling, then a decision that
      is forced by the ceiling is never for the sake of a job nobody has polled since submitting it: the
      request the ceiling is about, if a job's, was polled since, and within that time. */
  lemma AbandonedNeverForcesSwap(c: AppConfig, config: JobsConfig, w: World, k: nat)
    requires c.Valid() && config.Valid() && Happens(c, config, w) && IsDeciding(w.engine)
    requires config.lease != 0.0 && config.lease + config.sweepInterval < c.scheduler.maxWait
    requires k < |w.store.jobs|
    ensures WellFormed(c, Woken(w.engine))
    ensures var swept := Swept(c, Woken(w.engine));
      var d := DecisionOf(c, swept);
      var job := w.store.jobs[k];
      d.reason == Starvation ==>
        && d.target.Some? && EngineFairness.HasWork(swept, d.target.value)
        && (EngineFairness.Head(swept, d.target.value) == job.id ==>
              job.createdAt < job.lastPolledAt && w.engine.now - job.lastPolledAt <= config.lease + config.sweepInterval)
  {
    HappensOk(c, config, w);
    var swept := Swept(c, Woken(w.engine));
    var d := DecisionOf(c, swept);
    EngineFairness.DecidingState(c, w.engine);
    EngineFairness.DecisionHeeds(c, swept);
    if d.reason == Starvation {
      OverdueJobWasPolled(c, config, w, k, d.target.value);
    }
  }

  lemma OverdueJobWasPolled(c: AppConfig, config: JobsConfig, w: World, k: nat, m: ModelName)
    requires c.Valid() && config.Valid() && WorldOk(c, config, w) && IsDeciding(w.engine)
    requires config.lease != 0.0 && config.lease + config.sweepInterval < c.scheduler.maxWait
    requires k < |w.store.jobs| && m in c.Names()
    requires EngineFairness.OverdueAt(c, Swept(c, Woken(w.engine)), m)
    ensures EngineFairness.Head(Swept(c, Woken(w.engine)), m) == w.store.jobs[k].id ==>
      w.store.jobs[k].createdAt < w.store.jobs[k].lastPolledAt &&
      w.engine.now - w.store.jobs[k].lastPolledAt <= config.lease + config.sweepInterval
  {
    var s, swept, job := w.engine, Swept(c, Woken(w.engine)), w.store.jobs[k];
    EngineFairness.SweptSeesSameLive(c, s, m);
    if EngineFairness.Head(swept, m) == job.id {
      assert RetainedOk(config, w, k);
      HeadIsQueued(s, swept, m);
      QueuedIsInProgress(c, config, w, k);
      SweptKeepsClock(c, s);
    }
  }

  lemma SweptKeepsClock(c: AppConfig, s: State)
    requires WellFormed(c, Woken(s))
    ensures Swept(c, Woken(s)).now == s.now
  {
    EnginePools.SweepKeepsLoop(c, Woken(s));
  }

  lemma HeadIsQueued(s: State, swept: State, m: ModelName)
    requires m in s.queues && EnginePools.QueueOk(s, m)
    requires EngineFairness.SameLive(s, swept, m) && EngineFairness.HasWork(swept, m)
    ensures var id := EngineFairness.Head(swept, m);
      id < |s.reqs| && s.reqs[id].state == Queued && !s.reqs[id].cancelled
      && swept.reqs[id].enqueuedAt == s.reqs[id].enqueuedAt
  {
    LiveMembers(s.reqs, s.queues[m]);
    assert EngineFairness.Head(swept, m) in Live(s.reqs, s.queues[m]);
  }

  // ------------------------------------------------------------------ following the advice

  /** The client of job `id` is at most `delay` late on the interval it was last advised. */
  ghost predicate IsPunctual(w: World, id: nat, delay: real)
    requires Known(w.store.jobs, w.engine.reqs)
  {
    forall k :: 0 <= k < |w.store.jobs| && w.store.jobs[k].id == id ==>
      IsTerminal(w.store.jobs[k], w.engine.reqs[id])
      || w.engine.now <= w.store.jobs[k].lastPolledAt + w.store.jobs[k].advised + delay
  }

  ghost predicate AlwaysPunctual(c: AppConfig, config: JobsConfig, w: World, run: seq<Act>, id: nat, delay: real)
    requires c.scheduler.Valid() && IsHistory(c, config, w, run)
    decreases run
  {
    (Known(w.store.jobs, w.engine.reqs) ==> IsPunctual(w, id, delay)) &&
    (run != [] ==> AlwaysPunctual(c, config, Do(c, config, w, run[0]), run[1..], id, delay))
  }

  /** Nobody asks for request `id` to be cancelled. */
  predicate LeavesAlone(a: Act, id: nat) {
    a != Delete(id) && a != EngineDoes(ClientCancel(id))
  }

  /** Whatever happens to the store, a sweep cancels request `id` only if its job is stale. */
  lemma SweepSpares(config: JobsConfig, w: World, id: nat)
    requires DistinctIds(w.store.jobs) && Known(w.store.jobs, w.engine.reqs) && id < |w.engine.reqs|
    requires NotStale(config, w, id)
    ensures var reqs := SweptOnce(config, w).engine.reqs; id < |reqs| && reqs[id] == w.engine.reqs[id]
  {
    SweepIsExact(config, w);
  }

  /** No job of request `id` is stale. */
  ghost predicate NotStale(config: JobsConfig, w: World, id: nat)
    requires Known(w.store.jobs, w.engine.reqs)
  {
    forall k :: 0 <= k < |w.store.jobs| && w.store.jobs[k].id == id ==>
      !IsStale(config, w.store.jobs[k], w.engine.reqs[id], w.engine.now)
  }

  lemma PunctualIsNotStale(config: JobsConfig, w: World, id: nat, delay: real)
    requires StoreOk(config, w) && Known(w.store.jobs, w.engine.reqs) && IsPunctual(w, id, delay)
    requires config.lease != 0.0 ==> delay <= config.lease / 2.0
    ensures NotStale(config, w, id)
  {
    forall k | 0 <= k < |w.store.jobs| && w.store.jobs[k].id == id
      ensures !IsStale(config, w.store.jobs[k], w.engine.reqs[id], w.engine.now) {
      assert RetainedOk(config, w, k);
    }
  }

  /** Only a client's wish, or a sweep that finds its job stale, sets a request's cancellation flag. */
  lemma StepSpares(c: AppConfig, config: JobsConfig, w: World, a: Act, id: nat)
    requires c.Valid() && config.Valid() && WorldOk(c, config, w) && Sound(c, w) && CanAct(c, config, w, a)
    requires LeavesAlone(a, id) && id < |w.engine.reqs| && (a.Sweep? ==> NotStale(config, w, id))
    ensures var v := Do(c, config, w, a);
      id < |v.engine.reqs| && v.engine.reqs[id].cancelled == w.engine.reqs[id].cancelled
  {
    match a
    case EngineDoes(action) => EngineTheorems.OnlyClientsCancel(c, w.engine, action, id);
    case Sweep => SweepSpares(config, w, id);
    case Post(model, key, mean) => PostSpares(c, config, w, model, key, mean, id);
    case _ =>
  }

  lemma PostSpares(c: AppConfig, config: JobsConfig, w: World, model: ModelName, key: Option<string>, mean: real, id: nat)
    requires c.Valid() && Sound(c, w) && id < |w.engine.reqs|
    ensures var v := Posted(c, config, w, model, key, mean);
      id < |v.engine.reqs| && v.engine.reqs[id].cancelled == w.engine.reqs[id].cancelled
  {
  }

  /** Following the server's advice never loses a job. If every poll comes at most half a lease later than
      the interval advised last, after the poll before it, then in no history does any sweep, or anything
      but its client's own wish, mark the job's request as cancelled. */
  lemma {:induction false} AdviceIsSafe(
    c: AppConfig, config: JobsConfig, w: World, run: seq<Act>, id: nat, delay: real)
    requires c.Valid() && config.Valid() && WorldOk(c, config, w) && IsHistory(c, config, w, run)
    requires config.lease != 0.0 ==> delay <= config.lease / 2.0
    requires AlwaysPunctual(c, config, w, run, id, delay)
    requires forall i :: 0 <= i < |run| ==> LeavesAlone(run[i], id)
    requires id < |w.engine.reqs| && !w.engine.reqs[id].cancelled
    ensures var v := Afterwards(c, config, w, run);
      id < |v.engine.reqs| && !v.engine.reqs[id].cancelled
    decreases run
  {
    if run != [] {
      StepKeepsWorld(c, config, w, run[0]);
      PunctualIsNotStale(config, w, id, delay);
      StepSpares(c, config, w, run[0], id);
      assert forall i :: 0 <= i < |run[1..]| ==> run[1..][i] == run[i + 1];
      AdviceIsSafe(c, config, Do(c, config, w, run[0]), run[1..], id, delay);
    }
  }
}
