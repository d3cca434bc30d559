/** When a client that does as it is told loses its job all the same: it was told by the answer to a repeated
    submission, which does not renew the lease, or by a header that was rounded up. */
module JobAdvice {
  import opened Types
  import opened Requests
  import opened EngineModel
  import opened JobModel
  import opened JobInvariant
  import opened JobSweep
  import opened JobTheorems
  import opened JobSilence
  import opened JobWaiting
  import JobAnswers
  import JobLease
  import Policy

  // ------------------------------------------------------------------ within the lease nothing happens

  /** No record of request `id` was last polled before `last`. */
  ghost predicate PolledSince(w: World, id: nat, last: real) {
    && id < |w.engine.reqs|
    && forall k :: 0 <= k < |w.store.jobs| && w.store.jobs[k].id == id ==> last <= w.store.jobs[k].lastPolledAt
  }

  lemma ActKeepsPolled(c: AppConfig, config: JobsConfig, w: World, a: Act, id: nat, last: real)
    requires c.Valid() && config.Valid() && WorldOk(c, config, w) && Sound(c, w) && CanAct(c, config, w, a)
    requires PolledSince(w, id, last) && last <= w.engine.now
    ensures PolledSince(Do(c, config, w, a), id, last)
  {
    match a
    case EngineDoes(action) => EngineStep(c, w.engine, action);
    case Post(model, key, mean) => PostKeepsPolled(c, config, w, model, key, mean, id, last);
    case Poll(other, mean) => PollKeepsPolled(c, config, w, other, mean, id, last);
    case Sweep => SweepKeepsPolled(config, w, id, last);
    case _ =>
  }

  lemma AdviseKeepsPolled(
    c: AppConfig, config: JobsConfig, w: World, other: nat, mean: real, id: nat, last: real)
    requires c.Valid() && Sound(c, w) && PolledSince(w, id, last)
    ensures PolledSince(Advised(c, config, w, other, mean), id, last)
  {
  }

  lemma PollKeepsPolled(c: AppConfig, config: JobsConfig, w: World, other: nat, mean: real, id: nat, last: real)
    requires c.Valid() && Sound(c, w) && PolledSince(w, id, last) && last <= w.engine.now
    ensures PolledSince(Polled(c, config, w, other, mean), id, last)
  {
    var place := PlaceOf(w.store.jobs, other);
    if place.Some? {
      var read := Read(w.store.jobs[place.value], w.engine.reqs[other], w.engine.now);
      AdviseKeepsPolled(c, config, w.(store := Updated(w.store, place.value, read)), other, mean, id, last);
    }
  }

  lemma PostKeepsPolled(
    c: AppConfig, config: JobsConfig, w: World, model: ModelName, key: Option<string>, mean: real, id: nat, last: real)
    requires c.Valid() && Sound(c, w) && PolledSince(w, id, last)
    ensures PolledSince(Posted(c, config, w, model, key, mean), id, last)
  {
    if model in w.engine.queues {
      if IsLookedUp(key) && FindByKey(w.store, key.value).Some? {
        AdviseKeepsPolled(c, config, w, FindByKey(w.store, key.value).value, mean, id, last);
      } else {
        var engine := Submitted(w.engine, model);
        SubmittedIsSound(c, w, model);
        var room := RoomMade(config, w.store, engine.reqs);
        if room.Some? {
          var newcomer := Opened(|w.engine.reqs|, key, engine.now);
          CreatedIsSound(c, config, w, engine, room.value, newcomer);
          var v := w.(engine := engine, store := Added(room.value, newcomer));
          RoomKeepsPolled(config, w, engine.reqs, id, last);
          AdviseKeepsPolled(c, config, v, |w.engine.reqs|, mean, id, last);
        }
      }
    }
  }

  lemma RoomKeepsPolled(config: JobsConfig, w: World, reqs: seq<Request>, id: nat, last: real)
    requires Known(w.store.jobs, reqs) && PolledSince(w, id, last) && RoomMade(config, w.store, reqs).Some?
    ensures PolledSince(w.(store := RoomMade(config, w.store, reqs).value), id, last)
  {
    if |w.store.jobs| >= config.maxJobs {
      var gone, rest := Evictable(w.store.jobs, reqs).value, RoomMade(config, w.store, reqs).value.jobs;
      forall k | 0 <= k < |rest| ensures rest[k] in w.store.jobs {
        assert rest[k] == w.store.jobs[if k < gone then k else k + 1];
      }
    }
  }

  lemma SweepKeepsPolled(config: JobsConfig, w: World, id: nat, last: real)
    requires DistinctIds(w.store.jobs) && Known(w.store.jobs, w.engine.reqs) && PolledSince(w, id, last)
    ensures PolledSince(SweptOnce(config, w).(lastSweep := w.engine.now), id, last)
  {
    SweepIsExact(config, w);
    var jobs, reqs, now := w.store.jobs, w.engine.reqs, w.engine.now;
    JobAnswers.SurvivorsAreJobs(config, jobs, reqs, now);
    var rest := Survivors(config, jobs, reqs, now);
    forall k | 0 <= k < |rest| && rest[k].id == id ensures last <= rest[k].lastPolledAt {
      assert JobAnswers.IsKept(config, jobs, reqs, now, rest[k]);
      var j :| 0 <= j < |jobs| && rest[k] == Kept(config, jobs[j], reqs[jobs[j].id], now);
    }
  }

  lemma {:induction false} TimeGoesForward(c: AppConfig, config: JobsConfig, w: World, run: seq<Act>)
    requires c.Valid() && config.Valid() && WorldOk(c, config, w) && IsHistory(c, config, w, run)
    ensures w.engine.now <= Afterwards(c, config, w, run).engine.now
    decreases run
  {
    if run != [] {
      StepKeepsWorld(c, config, w, run[0]);
      ActTakesTime(c, config, w, run[0]);
      TimeGoesForward(c, config, Do(c, config, w, run[0]), run[1..]);
    }
  }

  lemma ActTakesTime(c: AppConfig, config: JobsConfig, w: World, a: Act)
    requires c.Valid() && config.Valid() && WorldOk(c, config, w) && Sound(c, w) && CanAct(c, config, w, a)
    ensures w.engine.now <= Do(c, config, w, a).engine.now
  {
    match a
    case EngineDoes(action) => EngineStep(c, w.engine, action);
    case Sweep => SweepIsExact(config, w);
    case _ =>
  }

  /** Until the lease is over, counted from the last poll, no history cancels the request against its client's
      will. */
  lemma {:induction false} EarlyIsSafe(c: AppConfig, config: JobsConfig, w: World, run: seq<Act>, id: nat, last: real)
    requires c.Valid() && config.Valid() && WorldOk(c, config, w) && IsHistory(c, config, w, run)
    requires PolledSince(w, id, last) && last <= w.engine.now && !w.engine.reqs[id].cancelled
    requires forall i :: 0 <= i < |run| ==> JobLease.LeavesAlone(run[i], id)
    requires Afterwards(c, config, w, run).engine.now - last <= config.lease
    ensures var e := Afterwards(c, config, w, run); id < |e.engine.reqs| && !e.engine.reqs[id].cancelled
    decreases run
  {
    if run != [] {
      var a := run[0];
      TimeGoesForward(c, config, w, run);
      assert JobLease.NotStale(config, w, id);
      JobLease.StepSpares(c, config, w, a, id);
      ActKeepsPolled(c, config, w, a, id, last);
      ActTakesTime(c, config, w, a);
      StepKeepsWorld(c, config, w, a);
      assert forall i :: 0 <= i < |run[1..]| ==> run[1..][i] == run[i + 1];
      EarlyIsSafe(c, config, Do(c, config, w, a), run[1..], id, last);
    }
  }

  // ------------------------------------------------------------------ past the lease it can be cut off

  /** The client of request `id` neither polls nor asks for anything to be cancelled. */
  predicate IsHandsOff(a: Act, id: nat) {
    JobLease.LeavesAlone(a, id) && !(a.Poll? && a.id == id)
  }

  /** `run` cancels the request of a silent client, no later than `until`. */
  ghost predicate CutsOff(c: AppConfig, config: JobsConfig, w: World, run: seq<Act>, id: nat, until: real)
    requires c.scheduler.Valid()
  {
    && IsHistory(c, config, w, run) && (forall i :: 0 <= i < |run| ==> IsHandsOff(run[i], id))
    && var e := Afterwards(c, config, w, run);
    e.engine.now <= until && id < |e.engine.reqs| && e.engine.reqs[id].cancelled
  }

  ghost predicate CanBeCutOff(c: AppConfig, config: JobsConfig, w: World, id: nat, until: real)
    requires c.scheduler.Valid()
  {
    exists run :: CutsOff(c, config, w, run, id, until)
  }

  lemma {:induction false} UnattendedIsHandsOff(c: AppConfig, config: JobsConfig, w: World, run: seq<Act>, id: nat)
    requires c.scheduler.Valid() && IsHistory(c, config, w, run) && Unattended(c, config, w, run)
    ensures forall i :: 0 <= i < |run| ==> IsHandsOff(run[i], id)
    decreases run
  {
    if run != [] {
      UnattendedIsHandsOff(c, config, Do(c, config, w, run[0]), run[1..], id);
      assert forall i :: 0 < i < |run| ==> run[i] == run[1..][i - 1];
    }
  }

  /** Left alone until `target`, from any state. */
  lemma WaitUntil(c: AppConfig, config: JobsConfig, w: World, target: real) returns (run: seq<Act>, v: World)
    requires c.Valid() && config.Valid() && config.lease != 0.0 && Happens(c, config, w) && w.engine.now <= target
    ensures Waits(c, config, w, run, v) && HasArrived(config, w, v, target)
  {
    HappensOk(c, config, w);
    if IsResting(w.engine) {
      run, v := Forward(c, config, w, target);
    } else {
      var first, u := Settles(c, config, w);
      var rest;
      rest, v := Forward(c, config, u, target);
      run := first + rest;
      WaitsJoin(c, config, w, first, u, rest, v);
    }
  }

  /** One more sweep, whenever the sweeper runs, and the job is cut off. */
  lemma SilenceIsCutOff(
    c: AppConfig, config: JobsConfig, w: World, id: nat, last: real, key: Option<string>, until: real)
    requires c.Valid() && config.Valid() && config.lease != 0.0 && Happens(c, config, w)
    requires IsOpen(w, id, last, key) && w.engine.now <= until && config.lease < until - last
    ensures CanBeCutOff(c, config, w, id, until)
  {
    var run, v := WaitUntil(c, config, w, until);
    assert KeepsJob(config, w, v, id, last, key);
    UnattendedIsHandsOff(c, config, w, run, id);
    WaitedOut(c, config, w, run, v, id, last, key, until);
  }

  lemma WaitedOut(
    c: AppConfig, config: JobsConfig, w: World, run: seq<Act>, v: World, id: nat, last: real, key: Option<string>,
    until: real)
    requires c.Valid() && config.Valid() && config.lease != 0.0 && Happens(c, config, v) && v.engine.now == until
    requires IsHistory(c, config, w, run) && Afterwards(c, config, w, run) == v
    requires forall i :: 0 <= i < |run| ==> IsHandsOff(run[i], id)
    requires OpenOrCutOff(config, v, id, last, key) && config.lease < until - last
    ensures CanBeCutOff(c, config, w, id, until)
  {
    if IsOpen(v, id, last, key) {
      HappensOk(c, config, v);
      SweepCutsOff(c, config, v, id, last, key);
      OneSweepMore(c, config, w, run, v, id, until);
    } else {
      assert CutsOff(c, config, w, run, id, until);
    }
  }

  lemma OneSweepMore(
    c: AppConfig, config: JobsConfig, w: World, run: seq<Act>, v: World, id: nat, until: real)
    requires c.scheduler.Valid() && IsHistory(c, config, w, run) && Afterwards(c, config, w, run) == v && Sound(c, v)
    requires forall i :: 0 <= i < |run| ==> IsHandsOff(run[i], id)
    requires var e := Do(c, config, v, Sweep);
      e.engine.now <= until && id < |e.engine.reqs| && e.engine.reqs[id].cancelled
    ensures CutsOff(c, config, w, run + [Sweep], id, until)
  {
    HistoriesJoin(c, config, w, run, Sweep);
    EndsCutOff(c, config, w, run + [Sweep], Do(c, config, v, Sweep), id, until);
  }

  lemma EndsCutOff(c: AppConfig, config: JobsConfig, w: World, run: seq<Act>, e: World, id: nat, until: real)
    requires c.scheduler.Valid() && IsHistory(c, config, w, run) && Afterwards(c, config, w, run) == e
    requires forall i :: 0 <= i < |run| ==> IsHandsOff(run[i], id)
    requires e.engine.now <= until && id < |e.engine.reqs| && e.engine.reqs[id].cancelled
    ensures CutsOff(c, config, w, run, id, until)
  {
  }

  lemma SweepCutsOff(c: AppConfig, config: JobsConfig, w: World, id: nat, last: real, key: Option<string>)
    requires c.Valid() && config.Valid() && WorldOk(c, config, w) && Sound(c, w) && config.lease != 0.0
    requires IsOpen(w, id, last, key) && w.engine.now - last > config.lease
    ensures var v := Do(c, config, w, Sweep);
      v.engine.now == w.engine.now && id < |v.engine.reqs| && v.engine.reqs[id].cancelled
  {
    SweepOfOpen(c, config, w, id, last, key);
    SweepKeeps(c, config, w);
  }

  /** The job of a client that stays silent until `until` can be cancelled under it by then if and only if more
      than a lease will have passed since its last poll. */
  lemma SilenceIsCutOffIff(c: AppConfig, config: JobsConfig, w: World, k: nat, until: real)
    requires c.Valid() && config.Valid() && config.lease != 0.0 && Happens(c, config, w) && Sound(c, w)
    requires k < |w.store.jobs| && !IsTerminal(w.store.jobs[k], w.engine.reqs[w.store.jobs[k].id])
    requires w.engine.now <= until
    ensures CanBeCutOff(c, config, w, w.store.jobs[k].id, until) <==>
      config.lease < until - w.store.jobs[k].lastPolledAt
  {
    var job := w.store.jobs[k];
    HappensOk(c, config, w);
    InProgressIsOpen(c, config, w, k);
    if config.lease < until - job.lastPolledAt {
      SilenceIsCutOff(c, config, w, job.id, job.lastPolledAt, job.key, until);
    } else {
      OnlyRecord(c, config, w, k);
      forall run | IsHistory(c, config, w, run) ensures !CutsOff(c, config, w, run, job.id, until) {
        if CutsOff(c, config, w, run, job.id, until) {
          EarlyIsSafe(c, config, w, run, job.id, job.lastPolledAt);
        }
      }
    }
  }

  lemma InProgressIsOpen(c: AppConfig, config: JobsConfig, w: World, k: nat)
    requires WorldOk(c, config, w) && Sound(c, w) && k < |w.store.jobs|
    requires !IsTerminal(w.store.jobs[k], w.engine.reqs[w.store.jobs[k].id])
    ensures var job := w.store.jobs[k]; IsOpen(w, job.id, job.lastPolledAt, job.key)
  {
    var job := w.store.jobs[k];
    assert RetainedOk(config, w, k);
    assert IsOpenAt(w, k, job.id, job.lastPolledAt, job.key);
  }

  lemma OnlyRecord(c: AppConfig, config: JobsConfig, w: World, k: nat)
    requires WorldOk(c, config, w) && Sound(c, w) && k < |w.store.jobs|
    ensures PolledSince(w, w.store.jobs[k].id, w.store.jobs[k].lastPolledAt)
    ensures w.store.jobs[k].lastPolledAt <= w.engine.now
  {
    assert RetainedOk(config, w, k);
    forall j | 0 <= j < |w.store.jobs| && w.store.jobs[j].id == w.store.jobs[k].id ensures j == k {
      PlaceIsUnique(w.store.jobs, j);
      PlaceIsUnique(w.store.jobs, k);
    }
  }

  // ------------------------------------------------------------------ the answer to a repeated submission

  /** The place of the job in progress that a repeated submission with this key is answered with. */
  ghost predicate IsAnswer(w: World, model: ModelName, key: string, k: nat) {
    && Known(w.store.jobs, w.engine.reqs) && k < |w.store.jobs|
    && model in w.engine.queues && key != "" && key in w.store.byKey && w.store.byKey[key] == w.store.jobs[k].id
    && PlaceOf(w.store.jobs, w.store.jobs[k].id) == Some(k)
    && !IsTerminal(w.store.jobs[k], w.engine.reqs[w.store.jobs[k].id])
  }

  /** The answer to it leaves everything as it was but the advice, which is positive. */
  ghost predicate Answered(config: JobsConfig, w: World, v: World, k: nat)
    requires k < |w.store.jobs|
  {
    && v.engine == w.engine && k < |v.store.jobs|
    && v.store.jobs[k] == w.store.jobs[k].(advised := v.store.jobs[k].advised)
    && 0.0 < LeastAdvice(config) <= v.store.jobs[k].advised <= config.lease / 2.0
  }

  lemma AnswerIsAdvice(c: AppConfig, config: JobsConfig, w: World, model: ModelName, key: string, mean: real, k: nat)
    requires c.Valid() && config.Valid() && config.lease != 0.0 && Sound(c, w) && IsAnswer(w, model, key, k)
    ensures Answered(config, w, Posted(c, config, w, model, Some(key), mean), k)
  {
    AdviceIsPositive(c, config, w.engine, w.store.jobs[k], mean);
  }

  /** The client of job `k` comes back `delay` later than it was just told to: its job can be cancelled before
      that if and only if the time since its last real poll, the advice and the delay exceed the lease. */
  ghost predicate LosesIff(c: AppConfig, config: JobsConfig, w: World, k: nat, delay: real)
    requires c.scheduler.Valid() && k < |w.store.jobs|
  {
    var job, now := w.store.jobs[k], w.engine.now;
    CanBeCutOff(c, config, w, job.id, now + job.advised + delay) <==>
      config.lease < (now - job.lastPolledAt) + job.advised + delay
  }

  /** A repeated submission is answered with fresh advice, but it is not a poll, and a client that acts on the
      answer as if it had been one can lose its job. */
  lemma ResubmissionDoesNotRenew(
    c: AppConfig, config: JobsConfig, w: World, model: ModelName, key: string, mean: real, k: nat, delay: real)
    requires c.Valid() && config.Valid() && config.lease != 0.0 && Happens(c, config, w) && Sound(c, w)
    requires IsAnswer(w, model, key, k) && 0.0 <= delay
    ensures var v := Posted(c, config, w, model, Some(key), mean);
      && Answered(config, w, v, k) && LosesIff(c, config, v, k, delay)
  {
    EngineIsReachable(c, config, w);
    HappensNext(c, config, w, Post(model, Some(key), mean));
    AnswerIsAdvice(c, config, w, model, key, mean, k);
    AnsweredSilence(c, config, w, Posted(c, config, w, model, Some(key), mean), k, delay);
  }

  lemma AnsweredSilence(c: AppConfig, config: JobsConfig, w: World, v: World, k: nat, delay: real)
    requires c.Valid() && config.Valid() && config.lease != 0.0 && Happens(c, config, v) && 0.0 <= delay
    requires Known(w.store.jobs, w.engine.reqs) && k < |w.store.jobs| && Answered(config, w, v, k)
    requires !IsTerminal(w.store.jobs[k], w.engine.reqs[w.store.jobs[k].id])
    ensures LosesIff(c, config, v, k, delay)
  {
    HappensOk(c, config, v);
    SilenceIsCutOffIff(c, config, v, k, v.engine.now + v.store.jobs[k].advised + delay);
  }

  /** The least advice a job in progress can be given. */
  function LeastAdvice(config: JobsConfig): real {
    Min(Policy.MIN_RETRY_AFTER, config.lease / 2.0)
  }

  lemma AdviceIsPositive(c: AppConfig, config: JobsConfig, s: State, job: Job, mean: real)
    requires c.Valid() && config.Valid() && config.lease != 0.0 && WellFormed(c, s) && job.id < |s.reqs|
    requires !IsTerminal(job, s.reqs[job.id])
    ensures 0.0 < LeastAdvice(config) <= RetryAfter(c, config, s, job, mean) <= config.lease / 2.0
  {
  }
}
