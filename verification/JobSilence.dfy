/** Jobs whose requests end without a word: that they arise, in which configurations, and that they stay. */
module JobSilence {
  import opened Types
  import opened Requests
  import opened QueueSpec
  import opened EngineModel
  import opened JobModel
  import opened JobInvariant
  import opened JobTheorems
  import opened JobAnswers
  import opened EngineWalk
  import EngineInvariant
  import EngineSilence
  import EngineTheorems

  // ------------------------------------------------------------------ histories go on

  lemma {:induction false} HistoriesJoin(c: AppConfig, config: JobsConfig, w: World, run: seq<Act>, a: Act)
    requires c.scheduler.Valid() && IsHistory(c, config, w, run)
    requires var e := Afterwards(c, config, w, run); Sound(c, e) && CanAct(c, config, e, a)
    ensures IsHistory(c, config, w, run + [a])
    ensures Afterwards(c, config, w, run + [a]) == Do(c, config, Afterwards(c, config, w, run), a)
    decreases run
  {
    if run == [] {
      assert run + [a] == [a] && [a][1..] == [];
      assert IsHistory(c, config, Do(c, config, w, a), []);
    } else {
      assert (run + [a])[1..] == run[1..] + [a] && (run + [a])[0] == run[0];
      HistoriesJoin(c, config, Do(c, config, w, run[0]), run[1..], a);
    }
  }

  lemma HappensNext(c: AppConfig, config: JobsConfig, w: World, a: Act)
    requires c.Valid() && config.Valid() && Happens(c, config, w) && Sound(c, w) && CanAct(c, config, w, a)
    ensures Happens(c, config, Do(c, config, w, a))
  {
    var start, run :| IsHistory(c, config, Begin(c, start), run) && Afterwards(c, config, Begin(c, start), run) == w;
    HistoriesJoin(c, config, Begin(c, start), run, a);
  }

  lemma BeginHappens(c: AppConfig, config: JobsConfig, now: real)
    requires c.Valid()
    ensures Happens(c, config, Begin(c, now))
  {
    assert IsHistory(c, config, Begin(c, now), []) && Afterwards(c, config, Begin(c, now), []) == Begin(c, now);
  }

  /** The engine takes a step that takes no time. */
  lemma EngineGoes(c: AppConfig, config: JobsConfig, w: World, a: Action)
    requires c.Valid() && config.Valid() && Happens(c, config, w) && Enabled(c, w.engine, a)
    requires !a.Advance? && !a.BeginStop?
    ensures WellFormed(c, w.engine) && Happens(c, config, w.(engine := Step(c, w.engine, a)))
  {
    HappensOk(c, config, w);
    HappensNext(c, config, w, EngineDoes(a));
  }

  // ------------------------------------------------------------------ the engine beside the store

  /** Still up, and in a state some run of the engine alone leads to. */
  ghost predicate IsUp(c: AppConfig, s: State) {
    EngineTheorems.Reachable(c, s) && !s.phase.IsShutdown()
  }

  lemma StepKeepsUp(c: AppConfig, s: State, a: Action)
    requires c.Valid() && IsUp(c, s) && Enabled(c, s, a) && !a.BeginStop?
    ensures WellFormed(c, s) && IsUp(c, Step(c, s, a))
  {
    TakeStep(c, s, a);
    OnlyStopStops(c, s, a);
  }

  lemma OnlyStopStops(c: AppConfig, s: State, a: Action)
    requires WellFormed(c, s) && Enabled(c, s, a) && !a.BeginStop? && !s.phase.IsShutdown()
    ensures !Step(c, s, a).phase.IsShutdown()
  {
    if a.IsTask() {
      EngineInvariant.TaskKeepsLoop(s, a);
    } else if a.Pass? {
      EngineTheorems.PassLeadsTo(c, s);
    } else if a.Contain? {
      EngineTheorems.ContainLeadsTo(c, s, a.model, s.phase.pending);
    } else {
      OthersDoNotStop(c, s, a);
    }
  }

  lemma OthersDoNotStop(c: AppConfig, s: State, a: Action)
    requires WellFormed(c, s) && Enabled(c, s, a) && !a.BeginStop? && !s.phase.IsShutdown()
    requires !a.IsTask() && !a.Pass? && !a.Contain?
    ensures !Step(c, s, a).phase.IsShutdown()
  {
  }

  lemma CancelKeepsUp(c: AppConfig, s: State, id: nat)
    requires c.Valid() && IsUp(c, s) && id < |s.reqs|
    ensures IsUp(c, ClientCancelled(s, id))
  {
    StepKeepsUp(c, s, ClientCancel(id));
  }

  lemma SubmitKeepsUp(c: AppConfig, s: State, m: ModelName)
    requires c.Valid() && IsUp(c, s)
    ensures IsUp(c, Submitted(s, m))
  {
    StepKeepsUp(c, s, Submit(m));
  }

  lemma {:induction false} SweepKeepsUp(c: AppConfig, config: JobsConfig, w: World, ids: seq<nat>)
    requires c.Valid() && IsUp(c, w.engine) && Known(w.store.jobs, w.engine.reqs)
    ensures IsUp(c, SweptAll(config, w, ids).engine)
    decreases |ids|
  {
    if ids != [] {
      var place := PlaceOf(w.store.jobs, ids[0]);
      if place.Some? {
        CancelKeepsUp(c, w.engine, w.store.jobs[place.value].id);
      }
      SweepKeepsUp(c, config, SweptOne(config, w, ids[0]), ids[1..]);
    }
  }

  lemma PostKeepsUp(c: AppConfig, config: JobsConfig, w: World, model: ModelName, key: Option<string>, mean: real)
    requires c.Valid() && IsUp(c, w.engine) && Sound(c, w)
    ensures IsUp(c, Posted(c, config, w, model, key, mean).engine)
  {
    SubmitKeepsUp(c, w.engine, model);
    if model in w.engine.queues {
      CancelKeepsUp(c, Submitted(w.engine, model), |w.engine.reqs|);
    }
  }

  lemma ActKeepsUp(c: AppConfig, config: JobsConfig, w: World, a: Act)
    requires c.Valid() && IsUp(c, w.engine) && Sound(c, w) && CanAct(c, config, w, a)
    ensures IsUp(c, Do(c, config, w, a).engine)
  {
    if a.EngineDoes? {
      StepKeepsUp(c, w.engine, a.action);
    } else if a.Post? {
      PostKeepsUp(c, config, w, a.model, a.key, a.mean);
    } else if a.Sweep? {
      SweepKeepsUp(c, config, w, IdsOf(w.store.jobs));
    } else if a.Delete? && PlaceOf(w.store.jobs, a.id).Some? {
      CancelKeepsUp(c, w.engine, a.id);
    }
  }

  lemma {:induction false} HistoryKeepsUp(c: AppConfig, config: JobsConfig, w: World, run: seq<Act>)
    requires c.Valid() && IsHistory(c, config, w, run) && IsUp(c, w.engine)
    ensures IsUp(c, Afterwards(c, config, w, run).engine)
    decreases run
  {
    if run != [] {
      ActKeepsUp(c, config, w, run[0]);
      HistoryKeepsUp(c, config, Do(c, config, w, run[0]), run[1..]);
    }
  }

  /** Whatever store, sweeper and pumps do beside it, the engine is only ever where its own runs lead: what
      is proved of its reachable states holds in every history. */
  lemma EngineIsReachable(c: AppConfig, config: JobsConfig, w: World)
    requires c.Valid() && Happens(c, config, w)
    ensures EngineTheorems.Reachable(c, w.engine) && !w.engine.phase.IsShutdown()
  {
    var start, run :| IsHistory(c, config, Begin(c, start), run) && Afterwards(c, config, Begin(c, start), run) == w;
    EngineTheorems.ReachableInit(c, start);
    HistoryKeepsUp(c, config, Begin(c, start), run);
  }

  // ------------------------------------------------------------------ one job, being generated

  /** One job, for request 0, of which nothing has been copied yet. */
  ghost predicate HasFreshJob(w: World) {
    && |w.store.jobs| == 1
    && var job := w.store.jobs[0];
    job.id == 0 && job.chunks == [] && job.terminal.None? && job.finishedAt.None? && job.pump.Pumping?
  }

  lemma FirstPost(c: AppConfig, config: JobsConfig, m: ModelName, now: real) returns (w: World)
    requires c.Valid() && config.Valid() && m in c.Names()
    ensures Happens(c, config, w) && w.engine == Asked(c, m, 1, now) && HasFreshJob(w)
  {
    var begin := Begin(c, now);
    BeginHappens(c, config, now);
    HappensOk(c, config, begin);
    HappensNext(c, config, begin, Post(m, None, 0.0));
    w := Posted(c, config, begin, m, None, 0.0);
    PostedFirst(c, config, m, now);
  }

  lemma PostedFirst(c: AppConfig, config: JobsConfig, m: ModelName, now: real)
    requires c.Valid() && config.Valid() && m in c.Names() && Sound(c, Begin(c, now))
    ensures var w := Posted(c, config, Begin(c, now), m, None, 0.0);
      w.engine == Asked(c, m, 1, now) && HasFreshJob(w)
  {
    var begin := Begin(c, now);
    AskedNone(c, m, now);
    OneMoreAsks(c, m, 0, now);
    var engine := Submitted(begin.engine, m);
    SubmittedIsSound(c, begin, m);
    CreatedIsSound(c, config, begin, engine, begin.store, Opened(0, None, now));
    assert Added(begin.store, Opened(0, None, now)).jobs == [Opened(0, None, now)];
  }

  lemma {:induction false} MoreAsk(c: AppConfig, config: JobsConfig, w: World, m: ModelName, k: nat, n: nat, now: real)
    requires c.Valid() && config.Valid() && m in c.Names() && k <= n
    requires Happens(c, config, w) && w.engine == Asked(c, m, k, now)
    ensures Happens(c, config, w.(engine := Asked(c, m, n, now)))
    decreases n - k
  {
    if k < n {
      EngineGoes(c, config, w, Submit(m));
      OneMoreAsks(c, m, k, now);
      MoreAsk(c, config, w.(engine := Asked(c, m, k + 1, now)), m, k + 1, n, now);
    } else {
      assert w.(engine := Asked(c, m, n, now)) == w;
    }
  }

  lemma PassGoes(c: AppConfig, config: JobsConfig, w: World)
    requires c.Valid() && config.Valid() && Happens(c, config, w) && WellFormed(c, w.engine) && IsDeciding(w.engine)
    ensures Happens(c, config, w.(engine := Passed(c, w.engine)))
  {
    EngineGoes(c, config, w, Pass);
  }

  lemma LoadGoes(c: AppConfig, config: JobsConfig, w: World)
    requires c.Valid() && config.Valid() && Happens(c, config, w) && w.engine.phase.Loading?
    ensures Happens(c, config, w.(engine := LoadSucceeded(w.engine)))
  {
    EngineGoes(c, config, w, FinishLoad);
  }

  /** A job's request is being generated, in whatever company. */
  lemma JobIsServed(c: AppConfig, config: JobsConfig, m: ModelName, n: nat, now: real) returns (w: World)
    requires c.Valid() && config.Valid() && m in c.Names() && 0 < n <= c.scheduler.maxConcurrent
    ensures Happens(c, config, w) && w.engine == Serving(c, m, n, now) && HasFreshJob(w)
  {
    w := FirstPost(c, config, m, now);
    MoreAsk(c, config, w, m, 1, n, now);
    FirstPass(c, m, n, now);
    PassGoes(c, config, w.(engine := Asked(c, m, n, now)));
    LoadGoes(c, config, w.(engine := BeingLoaded(c, m, n, now)));
    SecondPass(c, m, n, now);
    PassGoes(c, config, w.(engine := Loaded(c, m, n, now)));
    w := w.(engine := Serving(c, m, n, now));
  }

  // ------------------------------------------------------------------ done before it is complete

  /** In every configuration, for every model and with one job, a history makes that job read done while
      it lacks a chunk. */
  lemma DoneRunsAhead(c: AppConfig, config: JobsConfig, m: ModelName, now: real, chunk: Chunk) returns (w: World)
    requires c.Valid() && config.Valid() && m in c.Names()
    ensures Happens(c, config, w) && |w.store.jobs| == 1 && w.store.jobs[0].id < |w.engine.reqs|
    ensures var job := w.store.jobs[0];
      StateOf(job, w.engine.reqs[job.id]) == Done && job.chunks != w.engine.reqs[job.id].produced
  {
    var v := JobIsServed(c, config, m, 1, now);
    ServingIs(c, m, 1, now);
    HappensOk(c, config, v);
    DoneBeforeComplete(c, config, v, 0, chunk);
    EngineGoes(c, config, v, TaskYields(0, chunk));
    var mid := v.(engine := Step(c, v.engine, TaskYields(0, chunk)));
    EngineGoes(c, config, mid, TaskExhausts(0));
    w := mid.(engine := Step(c, mid.engine, TaskExhausts(0)));
  }

  lemma ServingIs(c: AppConfig, m: ModelName, n: nat, now: real)
    requires 0 < n
    ensures var s := Serving(c, m, n, now);
      0 in s.inFlight && IsRunning(s, 0) && !s.reqs[0].cancelRequested && !s.reqs[0].cancelled
  {
    assert FirstIds(n)[0] == 0;
  }

  // ------------------------------------------------------------------ orphans

  /** A retained job whose client never asked to stop it, and which is an orphan all the same. */
  ghost predicate IsForsaken(w: World, id: nat) {
    IsOrphan(w, id) && Retains(w, id) && !w.engine.reqs[id].cancelled
  }

  /** Where two requests may be generating at once, one job and one other request make an orphan: the other
      one's stream fails, and containing that stops the job's. */
  lemma OrphanArises(c: AppConfig, config: JobsConfig, m: ModelName, now: real) returns (w: World)
    requires c.Valid() && config.Valid() && m in c.Names() && 2 <= c.scheduler.maxConcurrent
    ensures Happens(c, config, w) && IsForsaken(w, 0)
  {
    var v := JobIsServed(c, config, m, 2, now);
    OtherFails(c, config, v, m, now);
    ContainingGoes(c, config, v.(engine := EngineSilence.Failing(c, m, now)), m);
    w := TaskStops(c, config, v.(engine := EngineSilence.Handled(c, m, now)), m, now);
  }

  lemma OtherFails(c: AppConfig, config: JobsConfig, w: World, m: ModelName, now: real)
    requires c.Valid() && config.Valid() && m in c.Names()
    requires Happens(c, config, w) && w.engine == Serving(c, m, 2, now)
    ensures var s := EngineSilence.Failing(c, m, now);
      Happens(c, config, w.(engine := s)) && s.phase.Waiting? && s.wakeup && s.failed == {m}
  {
    EngineSilence.FailingIs(c, m, now);
    EngineGoes(c, config, w, Submit(m));
    EngineGoes(c, config, w.(engine := Submitted(w.engine, m)), TaskBackendFails(1, ""));
  }

  lemma TaskStops(c: AppConfig, config: JobsConfig, v: World, m: ModelName, now: real) returns (w: World)
    requires c.Valid() && config.Valid() && m in c.Names()
    requires Happens(c, config, v) && v.engine == EngineSilence.Handled(c, m, now) && HasFreshJob(v)
    ensures Happens(c, config, w) && IsForsaken(w, 0)
  {
    EngineSilence.HandledIs(c, m, now);
    HappensOk(c, config, v);
    EngineGoes(c, config, v, TaskCancelled(0));
    ContainmentMakesOrphans(c, config, v, 0);
    w := v.(engine := CancelDelivered(v.engine, 0));
    assert w.store.jobs[0].id == 0;
  }

  lemma ContainingGoes(c: AppConfig, config: JobsConfig, w: World, m: ModelName)
    requires c.Valid() && config.Valid() && Happens(c, config, w)
    requires w.engine.phase.Waiting? && w.engine.wakeup && w.engine.failed == {m}
    ensures Happens(c, config, w.(engine := Contained(c, ContainStarted(w.engine.(phase := Top)), m, {m})))
  {
    var s := w.engine;
    EngineGoes(c, config, w, Wake);
    EngineGoes(c, config, w.(engine := s.(phase := Top)), StartContaining);
    EngineGoes(c, config, w.(engine := ContainStarted(s.(phase := Top))), Contain(m));
  }

  /** Orphans arise in some history if and only if two requests may be generating at once. */
  lemma OrphansTakeCompany(c: AppConfig, config: JobsConfig)
    requires c.Valid() && config.Valid()
    ensures (exists w: World, id: nat :: Happens(c, config, w) && IsForsaken(w, id)) <==> 2 <= c.scheduler.maxConcurrent
  {
    if 2 <= c.scheduler.maxConcurrent {
      var m := c.models[0].name;
      assert m in c.Names();
      var w := OrphanArises(c, config, m, 0.0);
    } else {
      forall w: World, id: nat | Happens(c, config, w) ensures !IsForsaken(w, id) {
        NoOrphanAlone(c, config, w, id);
      }
    }
  }

  lemma NoOrphanAlone(c: AppConfig, config: JobsConfig, w: World, id: nat)
    requires c.Valid() && config.Valid() && Happens(c, config, w) && c.scheduler.maxConcurrent == 1
    ensures !IsForsaken(w, id)
  {
    EngineIsReachable(c, config, w);
    EngineSilence.AloneWhenReachable(c, w.engine);
    if id < |w.engine.reqs| {
      assert EngineSilence.Unwanted(w.engine.reqs[id]);
    }
  }

  // ------------------------------------------------------------------ and they stay

  /** Nobody deletes the job, and every submission finds room. */
  ghost predicate LeavesAlone(c: AppConfig, config: JobsConfig, w: World, run: seq<Act>, id: nat)
    requires c.scheduler.Valid() && IsHistory(c, config, w, run)
    decreases run
  {
    run != [] ==>
      && run[0] != Delete(id) && (run[0].Post? ==> |w.store.jobs| < config.maxJobs)
      && LeavesAlone(c, config, Do(c, config, w, run[0]), run[1..], id)
  }

  /** However long the history and however often the sweeper runs: an orphan nobody deletes, in a store that
      is never full, is there for good. */
  lemma {:induction false} OrphansStayForGood(c: AppConfig, config: JobsConfig, w: World, run: seq<Act>, id: nat)
    requires c.Valid() && config.Valid() && Happens(c, config, w) && IsHistory(c, config, w, run)
    requires IsOrphan(w, id) && Retains(w, id) && LeavesAlone(c, config, w, run, id)
    ensures var e := Afterwards(c, config, w, run); IsOrphan(e, id) && Retains(e, id)
    decreases run
  {
    if run != [] {
      OrphansStay(c, config, w, run[0], id);
      HappensNext(c, config, w, run[0]);
      OrphansStayForGood(c, config, Do(c, config, w, run[0]), run[1..], id);
    }
  }
}
