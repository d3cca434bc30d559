/** Jobs lost by obedient clients, from the very start: histories in which the sweeper keeps to its schedule,
    nobody fails, and a client that waits for exactly as long as it was told, or less, finds its job
    cancelled. */
module JobLost {
  import opened Types
  import opened Requests
  import opened EngineModel
  import opened JobModel
  import opened JobInvariant
  import opened JobTheorems
  import opened JobSilence
  import opened JobWaiting
  import opened JobAdvice

  // ------------------------------------------------------------------ the sweeper's schedule

  lemma SweepTimesAdd(config: JobsConfig, from: real, next: real, t: real)
    requires IsSweepTime(config, from, next) && IsSweepTime(config, next, t)
    ensures IsSweepTime(config, from, t)
  {
    var n: nat :| next == SweepTime(config, from, n);
    var m: nat :| t == SweepTime(config, next, m);
    Spread(n as real, m as real, config.sweepInterval);
    assert t == SweepTime(config, from, n + m);
  }

  /** Between two sweeps on schedule there is at least one interval. */
  lemma NextSweepTime(config: JobsConfig, from: real, t: real, later: real)
    requires config.Valid() && IsSweepTime(config, from, t) && IsSweepTime(config, from, later) && t < later
    ensures t + config.sweepInterval <= later
  {
    var n: nat :| t == SweepTime(config, from, n);
    var m: nat :| later == SweepTime(config, from, m);
    if m <= n {
      SweepTimesGrow(config, from, m, n);
    } else {
      SweepTimesGrow(config, from, n + 1, m);
      OneIntervalMore(config, from, n);
    }
  }

  lemma OneIntervalMore(config: JobsConfig, from: real, n: nat)
    ensures SweepTime(config, from, n + 1) == SweepTime(config, from, n) + config.sweepInterval
  {
    Spread(n as real, 1.0, config.sweepInterval);
  }

  lemma {:induction false} SweepTimesGrow(config: JobsConfig, from: real, n: nat, m: nat)
    requires n <= m && 0.0 < config.sweepInterval
    ensures SweepTime(config, from, n) <= SweepTime(config, from, m)
    decreases m - n
  {
    if n < m {
      SweepTimesGrow(config, from, n, m - 1);
      OneIntervalMore(config, from, m - 1);
    }
  }

  lemma Spread(p: real, q: real, interval: real)
    ensures (p + q) * interval == p * interval + q * interval
  {
  }

  /** The sweeper runs at arbitrarily late times. */
  lemma SomeSweepTime(config: JobsConfig, from: real, length: real) returns (t: real)
    requires config.Valid() && 0.0 <= length
    ensures IsSweepTime(config, from, t) && from + length < t
  {
    var n := SomeMultiple(length, config.sweepInterval);
    t := SweepTime(config, from, n);
  }

  lemma SomeMultiple(length: real, interval: real) returns (n: nat)
    requires 0.0 <= length && 0.0 < interval
    ensures length < n as real * interval
  {
    var q := length / interval;
    Quotient(length, interval);
    FactorIsPositive(q, interval);
    n := q.Floor + 1;
    LargerFactor(q, n as real, interval);
  }

  // ------------------------------------------------------------------ lost on schedule

  /** Left alone, the open job is cut off by the sweep at `t`, if that is more than a lease after its last
      poll. */
  lemma LostAtSweep(
    c: AppConfig, config: JobsConfig, w: World, id: nat, last: real, key: Option<string>, start: real, t: real)
    returns (run: seq<Act>, v: World)
    requires c.Valid() && config.Valid() && config.lease != 0.0 && Happens(c, config, w)
    requires IsOpen(w, id, last, key) && w.engine.now <= t && w.lastSweep < t && config.lease < t - last
    requires IsSweepTime(config, start, w.lastSweep) && IsSweepTime(config, start, t)
    ensures Becomes(c, config, w, run, v) && v.engine.now == t
    ensures id < |v.engine.reqs| && v.engine.reqs[id].cancelled
  {
    run, v := WaitUntil(c, config, w, t);
    assert KeepsJob(config, w, v, id, last, key);
    if IsOpen(v, id, last, key) {
      SweepTimesAdd(config, start, w.lastSweep, v.lastSweep);
      NextSweepTime(config, start, v.lastSweep, t);
      HappensOk(c, config, v);
      var u := LastSweep(c, config, v, id, last, key);
      BecomesJoin(c, config, w, run, v, [Sweep], u);
      run, v := run + [Sweep], u;
    }
  }

  lemma LastSweep(c: AppConfig, config: JobsConfig, w: World, id: nat, last: real, key: Option<string>)
    returns (v: World)
    requires c.Valid() && config.Valid() && config.lease != 0.0 && WorldOk(c, config, w) && Sound(c, w)
    requires IsOpen(w, id, last, key) && IsSweepDue(config, w) && config.lease < w.engine.now - last
    ensures Becomes(c, config, w, [Sweep], v) && v.engine.now == w.engine.now
    ensures id < |v.engine.reqs| && v.engine.reqs[id].cancelled
  {
    v := Do(c, config, w, Sweep);
    BecomesByOne(c, config, w, Sweep);
    SweepCutsOff(c, config, w, id, last, key);
  }

  // ------------------------------------------------------------------ one job, submitted at a chosen time

  /** One job, for request 0, submitted at `at` and not polled since; the sweeper is on the schedule that began
      at `start`. */
  ghost predicate HasOneJob(config: JobsConfig, w: World, key: Option<string>, start: real, at: real) {
    && |w.store.jobs| == 1 && w.store.jobs[0].id == 0 && w.store.jobs[0].lastPolledAt == at
    && IsOpen(w, 0, at, key) && KeysOk(w.store)
    && IsSweepTime(config, start, w.lastSweep)
  }

  lemma EmptyStoreHasNoKeys(s: Store)
    requires KeysOk(s) && s.jobs == []
    ensures s.byKey == map[]
  {
    assert forall key :: key in s.byKey ==> KeyOk(s, key);
  }

  lemma SubmitAt(c: AppConfig, config: JobsConfig, m: ModelName, key: Option<string>, start: real, at: real, mean: real)
    returns (w: World)
    requires c.Valid() && config.Valid() && config.lease != 0.0 && m in c.Names() && start <= at
    ensures Happens(c, config, w) && w.engine.now == at && HasOneJob(config, w, key, start, at)
    ensures w.lastSweep <= at && 0.0 < LeastAdvice(config) <= w.store.jobs[0].advised <= config.lease / 2.0
    ensures m in w.engine.queues
  {
    var begin := Begin(c, start);
    BeginHappens(c, config, start);
    assert begin.lastSweep == SweepTime(config, start, 0);
    assert KeysOk(begin.store);
    var run, v := WaitUntil(c, config, begin, at);
    SweepTimesAdd(config, start, begin.lastSweep, v.lastSweep);
    HappensOk(c, config, v);
    EngineIsReachable(c, config, v);
    EmptyStoreHasNoKeys(v.store);
    HappensNext(c, config, v, Post(m, key, mean));
    PostIntoEmpty(c, config, v, m, key, mean);
    w := Posted(c, config, v, m, key, mean);
    HappensOk(c, config, w);
  }

  lemma PostIntoEmpty(c: AppConfig, config: JobsConfig, w: World, m: ModelName, key: Option<string>, mean: real)
    requires c.Valid() && config.Valid() && config.lease != 0.0 && Sound(c, w) && m in w.engine.queues
    requires WorldOk(c, config, w) && w.store == Store([], map[]) && w.engine.reqs == []
    ensures var v := Posted(c, config, w, m, key, mean);
      && |v.store.jobs| == 1 && v.store.jobs[0].id == 0 && v.store.jobs[0].lastPolledAt == w.engine.now
      && IsOpen(v, 0, w.engine.now, key) && KeysOk(v.store)
      && v.lastSweep == w.lastSweep && v.engine.now == w.engine.now && m in v.engine.queues
      && LeastAdvice(config) <= v.store.jobs[0].advised <= config.lease / 2.0
  {
    var u, job := FirstOpened(w, m, key), Opened(0, key, w.engine.now);
    PostOpens(c, config, w, m, key, mean);
    AddKeepsKeysIff(w.store, job);
    AdviseKeepsKeys(c, config, u, 0, mean);
    AdvisedFirst(c, config, u, job, mean);
  }

  /** The first request is submitted, and a job opened for it. */
  function FirstOpened(w: World, m: ModelName, key: Option<string>): World {
    w.(engine := Submitted(w.engine, m), store := Added(w.store, Opened(0, key, w.engine.now)))
  }

  lemma PostOpens(c: AppConfig, config: JobsConfig, w: World, m: ModelName, key: Option<string>, mean: real)
    requires c.Valid() && config.Valid() && Sound(c, w) && m in w.engine.queues
    requires w.store == Store([], map[]) && w.engine.reqs == []
    ensures var u := FirstOpened(w, m, key);
      && Sound(c, u) && u.store.jobs == [Opened(0, key, w.engine.now)] && u.store == Added(w.store, u.store.jobs[0])
      && u.engine.reqs == [Fresh(m, w.engine.now)] && u.engine.now == w.engine.now && m in u.engine.queues
      && u.lastSweep == w.lastSweep
      && Posted(c, config, w, m, key, mean) == Advised(c, config, u, 0, mean)
  {
    var engine := Submitted(w.engine, m);
    SubmittedIsSound(c, w, m);
    CreatedIsSound(c, config, w, engine, w.store, Opened(0, key, w.engine.now));
  }

  lemma AdvisedFirst(c: AppConfig, config: JobsConfig, w: World, job: Job, mean: real)
    requires c.Valid() && config.Valid() && config.lease != 0.0 && Sound(c, w) && w.store.jobs == [job]
    requires job.id == 0 && job.terminal.None? && 0 < |w.engine.reqs|
    requires !w.engine.reqs[0].cancelled && !w.engine.reqs[0].state.IsTerminal()
    ensures var v := Advised(c, config, w, 0, mean);
      && v.engine == w.engine && v.lastSweep == w.lastSweep
      && v.store.jobs == [job.(advised := v.store.jobs[0].advised)]
      && IsOpen(v, 0, job.lastPolledAt, job.key)
      && LeastAdvice(config) <= v.store.jobs[0].advised <= config.lease / 2.0
  {
    AdviceIsPositive(c, config, w.engine, job, mean);
    assert IsOpenAt(Advised(c, config, w, 0, mean), 0, 0, job.lastPolledAt, job.key);
  }

  // ------------------------------------------------------------------ told by a repeated submission

  /** `v` is `w` after the answer to a repeated submission, given when the lease had just not run out. */
  lemma SubmitAgain(
    c: AppConfig, config: JobsConfig, w: World, m: ModelName, key: string, start: real, at: real, mean: real)
    returns (u: World)
    requires c.Valid() && config.Valid() && config.lease != 0.0 && Happens(c, config, w) && key != ""
    requires HasOneJob(config, w, Some(key), start, at) && w.engine.now == at && w.lastSweep <= at
    requires m in w.engine.queues
    ensures Happens(c, config, u) && u.engine.now == at + config.lease && IsOpen(u, 0, at, Some(key))
    ensures Sound(c, u) && |u.store.jobs| > 0 && IsAnswer(u, m, key, PlaceOf(u.store.jobs, 0).value)
    ensures u.lastSweep < at + config.lease && IsSweepTime(config, start, u.lastSweep)
  {
    var run;
    run, u := WaitUntil(c, config, w, at + config.lease);
    assert KeepsJob(config, w, u, 0, at, Some(key));
    SweepTimesAdd(config, start, w.lastSweep, u.lastSweep);
    HappensOk(c, config, w);
    HappensOk(c, config, u);
    OpenIsAnswer(c, config, u, m, key, at);
  }

  lemma OpenIsAnswer(c: AppConfig, config: JobsConfig, w: World, m: ModelName, key: string, at: real)
    requires c.Valid() && WorldOk(c, config, w) && Sound(c, w) && key != "" && m in c.Names()
    requires IsOpen(w, 0, at, Some(key)) && KeysOk(w.store)
    ensures |w.store.jobs| > 0 && PlaceOf(w.store.jobs, 0).Some?
    ensures IsAnswer(w, m, key, PlaceOf(w.store.jobs, 0).value)
    ensures w.store.jobs[PlaceOf(w.store.jobs, 0).value].lastPolledAt == at
  {
    var k :| 0 <= k < |w.store.jobs| && IsOpenAt(w, k, 0, at, Some(key));
    assert JobIsIndexed(w.store, k);
    PlaceIsUnique(w.store.jobs, k);
  }

  /** `u` is `w` after the answer to a repeated submission, and `run` cancels that job's request before its
      client was told to come back. */
  ghost predicate IsLostOnAnswer(
    c: AppConfig, config: JobsConfig, w: World, m: ModelName, key: string, mean: real, k: nat, run: seq<Act>, v: World)
  {
    && c.Valid() && config.Valid() && Happens(c, config, w) && Sound(c, w) && IsAnswer(w, m, key, k)
    && var u := Posted(c, config, w, m, Some(key), mean);
    && k < |u.store.jobs| && Becomes(c, config, u, run, v)
    && v.engine.now <= u.engine.now + u.store.jobs[k].advised
    && var id := w.store.jobs[k].id;
    id < |v.engine.reqs| && v.engine.reqs[id].cancelled
  }

  /** It happens: in every configuration with a lease, for every model, every key that is looked up and every
      running average. A client submits, submits again when its lease has just not run out, is answered, and
      while it waits as told, in silence, a sweep on schedule cancels its job. */
  lemma AdviceLosesJob(c: AppConfig, config: JobsConfig, m: ModelName, key: string, start: real, mean: real)
    returns (w: World, k: nat, run: seq<Act>, v: World)
    requires c.Valid() && config.Valid() && config.lease != 0.0 && m in c.Names() && key != ""
    ensures IsLostOnAnswer(c, config, w, m, key, mean, k, run, v)
  {
    var t := SomeSweepTime(config, start, config.lease + LeastAdvice(config));
    var at := t - config.lease - LeastAdvice(config);
    var first := SubmitAt(c, config, m, Some(key), start, at, mean);
    w := SubmitAgain(c, config, first, m, key, start, at, mean);
    k := PlaceOf(w.store.jobs, 0).value;
    run, v := AnswerIsLost(c, config, w, m, key, start, at, mean, k, t);
  }

  lemma AnswerIsLost(
    c: AppConfig, config: JobsConfig, w: World, m: ModelName, key: string, start: real, at: real, mean: real,
    k: nat, t: real)
    returns (run: seq<Act>, v: World)
    requires c.Valid() && config.Valid() && config.lease != 0.0 && Happens(c, config, w) && Sound(c, w)
    requires IsAnswer(w, m, key, k) && w.store.jobs[k].id == 0 && IsOpen(w, 0, at, Some(key))
    requires w.engine.now == at + config.lease && t == at + config.lease + LeastAdvice(config)
    requires w.lastSweep < at + config.lease
    requires IsSweepTime(config, start, w.lastSweep) && IsSweepTime(config, start, t)
    ensures IsLostOnAnswer(c, config, w, m, key, mean, k, run, v)
  {
    var u := Posted(c, config, w, m, Some(key), mean);
    EngineIsReachable(c, config, w);
    HappensNext(c, config, w, Post(m, Some(key), mean));
    AnswerIsAdvice(c, config, w, m, key, mean, k);
    AnswerKeepsOpen(c, config, w, m, key, mean, k, at);
    run, v := LostAtSweep(c, config, u, 0, at, Some(key), start, t);
  }

  lemma AnswerKeepsOpen(
    c: AppConfig, config: JobsConfig, w: World, m: ModelName, key: string, mean: real, k: nat, at: real)
    requires c.Valid() && Sound(c, w) && IsAnswer(w, m, key, k) && IsOpen(w, 0, at, Some(key))
    ensures var u := Posted(c, config, w, m, Some(key), mean);
      IsOpen(u, 0, at, Some(key)) && u.lastSweep == w.lastSweep && u.engine == w.engine
  {
    var u := Posted(c, config, w, m, Some(key), mean);
    var j :| 0 <= j < |w.store.jobs| && IsOpenAt(w, j, 0, at, Some(key));
    assert IsOpenAt(u, j, 0, at, Some(key));
  }

  // ------------------------------------------------------------------ told by the rounded header

  /** The header of the last answer tells the client of a job in progress to stay away for longer than its
      lease. */
  ghost predicate HeaderExceedsLease(config: JobsConfig, w: World, k: nat) {
    && config.lease != 0.0 && Known(w.store.jobs, w.engine.reqs) && k < |w.store.jobs|
    && !IsTerminal(w.store.jobs[k], w.engine.reqs[w.store.jobs[k].id])
    && config.lease < RetryAfterHeader(w.store.jobs[k].advised) as real
  }

  /** A client that goes by the header can lose its job if and only if the time since its last poll and the
      header together exceed the lease. */
  lemma HeaderLosesIff(c: AppConfig, config: JobsConfig, w: World, k: nat)
    requires c.Valid() && config.Valid() && config.lease != 0.0 && Happens(c, config, w) && Sound(c, w)
    requires k < |w.store.jobs| && !IsTerminal(w.store.jobs[k], w.engine.reqs[w.store.jobs[k].id])
    ensures var job := w.store.jobs[k];
      var header := RetryAfterHeader(job.advised) as real;
      CanBeCutOff(c, config, w, job.id, w.engine.now + header) <==>
        config.lease < (w.engine.now - job.lastPolledAt) + header
  {
    SilenceIsCutOffIff(c, config, w, k, w.engine.now + RetryAfterHeader(w.store.jobs[k].advised) as real);
  }

  lemma RoundIsNear(r: real)
    ensures r - 0.5 <= Round(r) as real <= r + 0.5
  {
  }

  /** Some job in progress is told so in some history if and only if the lease is shorter than a second. */
  lemma HeaderExceedsLeaseIff(c: AppConfig, config: JobsConfig)
    requires c.Valid() && config.Valid()
    ensures (exists w: World, k: nat :: Happens(c, config, w) && HeaderExceedsLease(config, w, k))
       <==> 0.0 < config.lease < 1.0
  {
    if 0.0 < config.lease < 1.0 {
      var m := c.models[0].name;
      assert m in c.Names();
      var w, run, v := HeaderLosesJob(c, config, m, None, 0.0, 0.0);
    } else {
      forall w: World, k: nat | Happens(c, config, w) ensures !HeaderExceedsLease(config, w, k) {
        LongLeaseIsKept(c, config, w, k);
      }
    }
  }

  lemma LongLeaseIsKept(c: AppConfig, config: JobsConfig, w: World, k: nat)
    requires c.Valid() && config.Valid() && Happens(c, config, w) && !(0.0 < config.lease < 1.0)
    ensures !HeaderExceedsLease(config, w, k)
  {
    HappensOk(c, config, w);
    if k < |w.store.jobs| {
      assert RetainedOk(config, w, k);
      RoundIsNear(w.store.jobs[k].advised);
    }
  }

  /** And then it loses the job: its client submits, is told to come back in a second, and a sweep on schedule
      cancels the job no later than that. */
  lemma HeaderLosesJob(c: AppConfig, config: JobsConfig, m: ModelName, key: Option<string>, start: real, mean: real)
    returns (w: World, run: seq<Act>, v: World)
    requires c.Valid() && config.Valid() && 0.0 < config.lease < 1.0 && m in c.Names()
    ensures Happens(c, config, w) && HeaderExceedsLease(config, w, 0)
    ensures w.store.jobs[0].id == 0 && RetryAfterHeader(w.store.jobs[0].advised) == 1
    ensures Becomes(c, config, w, run, v) && v.engine.now <= w.engine.now + 1.0
    ensures 0 < |v.engine.reqs| && v.engine.reqs[0].cancelled
  {
    var t := SomeSweepTime(config, start, 1.0);
    w := SubmitAt(c, config, m, key, start, t - 1.0, mean);
    run, v := LostAtSweep(c, config, w, 0, t - 1.0, key, start, t);
    HappensOk(c, config, w);
    ShortLeaseRoundsUp(config, w.store.jobs[0].advised);
    OpenIsInProgress(c, config, w, key, t - 1.0);
  }

  lemma ShortLeaseRoundsUp(config: JobsConfig, advice: real)
    requires 0.0 < config.lease < 1.0 && 0.0 < advice <= config.lease / 2.0
    ensures RetryAfterHeader(advice) == 1
  {
    assert advice < 0.5;
    assert advice.Floor == 0;
  }

  lemma OpenIsInProgress(c: AppConfig, config: JobsConfig, w: World, key: Option<string>, at: real)
    requires WorldOk(c, config, w) && Sound(c, w) && |w.store.jobs| == 1 && IsOpen(w, 0, at, key)
    ensures !IsTerminal(w.store.jobs[0], w.engine.reqs[w.store.jobs[0].id])
  {
    var k :| 0 <= k < |w.store.jobs| && IsOpenAt(w, k, 0, at, key);
  }
}
