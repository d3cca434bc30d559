/** What each act does to the store, job by job, over what the jobs and their requests have recorded. */
module JobTable {
  import opened Types
  import opened Requests
  import opened QueueSpec
  import opened EngineModel
  import opened JobModel
  import opened JobInvariant
  import opened JobSweep
  import opened JobTheorems

  // ------------------------------------------------------------------ what a job reads as

  /** Over for its client: it has recorded a terminator, its request was cancelled, or its request is over. */
  predicate HasEnded(job: Job, request: Request) {
    || (job.terminal.Some? && job.terminal.value.IsTerminator())
    || request.cancelled
    || request.state == Done || request.state == Failed || request.state == Cancelled
  }

  /** What a job has recorded outlives everything that becomes of its request afterwards; before that, a
      cancellation shows at once, and otherwise the request's own state does. */
  lemma ReadsAs(job: Job, request: Request)
    ensures IsTerminal(job, request) <==> HasEnded(job, request)
    ensures job.terminal.Some? && job.terminal.value.StreamEnd? ==> StateOf(job, request) == Done
    ensures job.terminal.Some? && job.terminal.value.StreamError? ==> StateOf(job, request) == Failed
    ensures job.terminal.None? ==>
      StateOf(job, request) == if request.cancelled then Cancelled else request.state
  {
  }

  // ------------------------------------------------------------------ who has to make room

  /** It has a finishing time to go by; the time zero does not count as one. */
  predicate HasFinish(job: Job) {
    job.finishedAt.Some? && job.finishedAt.value != 0.0
  }

  /** `job` goes before `other` by finishing time, the time of creation standing in where there is none. */
  predicate GoesFirst(job: Job, other: Job, strictly: bool) {
    var t := if HasFinish(job) then job.finishedAt.value else job.createdAt;
    var u := if HasFinish(other) then other.finishedAt.value else other.createdAt;
    t < u || (!strictly && t == u)
  }

  /** The job at `k` has ended, and finished no later than any other that has, and earlier than those before it. */
  ghost predicate MustGo(jobs: seq<Job>, reqs: Table, k: nat)
    requires Known(jobs, reqs)
  {
    && k < |jobs| && HasEnded(jobs[k], reqs[jobs[k].id])
    && forall i: nat :: i < |jobs| && i != k && HasEnded(jobs[i], reqs[jobs[i].id]) ==> GoesFirst(jobs[k], jobs[i], i < k)
  }

  lemma OnlyOneMustGo(jobs: seq<Job>, reqs: Table, j: nat, k: nat)
    requires Known(jobs, reqs) && MustGo(jobs, reqs, j) && MustGo(jobs, reqs, k)
    ensures j == k
  {
  }

  ghost predicate NobodyEnded(jobs: seq<Job>, reqs: Table)
    requires Known(jobs, reqs)
  {
    forall i :: 0 <= i < |jobs| ==> !HasEnded(jobs[i], reqs[jobs[i].id])
  }

  /** The one evicted is the one that must go, and there is one unless nobody has ended. */
  lemma EvictableMustGo(jobs: seq<Job>, reqs: Table)
    requires Known(jobs, reqs)
    ensures Evictable(jobs, reqs).None? <==> NobodyEnded(jobs, reqs)
    ensures Evictable(jobs, reqs).Some? ==> MustGo(jobs, reqs, Evictable(jobs, reqs).value)
  {
    forall i | 0 <= i < |jobs|
      ensures IsTerminal(jobs[i], reqs[jobs[i].id]) <==> HasEnded(jobs[i], reqs[jobs[i].id]) {
      ReadsAs(jobs[i], reqs[jobs[i].id]);
    }
    if Evictable(jobs, reqs).Some? {
      EvictedGoesFirst(jobs, reqs, Evictable(jobs, reqs).value);
    }
  }

  lemma EvictedGoesFirst(jobs: seq<Job>, reqs: Table, k: nat)
    requires Known(jobs, reqs) && Evictable(jobs, reqs) == Some(k)
    requires forall i :: 0 <= i < |jobs| ==>
      (IsTerminal(jobs[i], reqs[jobs[i].id]) <==> HasEnded(jobs[i], reqs[jobs[i].id]))
    ensures MustGo(jobs, reqs, k)
  {
    forall i: nat | i < |jobs| && i != k && HasEnded(jobs[i], reqs[jobs[i].id]) ensures GoesFirst(jobs[k], jobs[i], i < k) {
      assert EvictionKey(jobs[k]) <= EvictionKey(jobs[i]);
      assert i < k ==> EvictionKey(jobs[k]) < EvictionKey(jobs[i]);
    }
  }

  /** `v` is `s` without the job at `k` and its key. */
  ghost predicate LacksOnly(s: Store, v: Store, k: nat) {
    && k < |s.jobs| && v.jobs == s.jobs[..k] + s.jobs[k + 1..]
    && v.byKey == if s.jobs[k].key.Some? then s.byKey - {s.jobs[k].key.value} else s.byKey
  }

  /** A new job finds room below the ceiling; at it, exactly the job that must go makes room, and there is none
      if and only if nobody has ended. */
  lemma RoomIsMade(config: JobsConfig, s: Store, reqs: Table)
    requires Known(s.jobs, reqs)
    ensures var room := RoomMade(config, s, reqs);
      && (|s.jobs| < config.maxJobs ==> room == Some(s))
      && (|s.jobs| >= config.maxJobs ==> (room.None? <==> NobodyEnded(s.jobs, reqs)))
      && (|s.jobs| >= config.maxJobs && room.Some? ==>
            (exists k: nat :: MustGo(s.jobs, reqs, k) && LacksOnly(s, room.value, k)))
  {
    EvictableMustGo(s.jobs, reqs);
    if |s.jobs| >= config.maxJobs && Evictable(s.jobs, reqs).Some? {
      var k := Evictable(s.jobs, reqs).value;
      assert MustGo(s.jobs, reqs, k) && LacksOnly(s, Forgotten(s, k), k);
    }
  }

  // ------------------------------------------------------------------ the acts, one job at a time

  /** The job at `k` may have changed, and nothing else in the store. */
  ghost predicate OnlyJobMoved(w: World, v: World, k: nat) {
    && |v.store.jobs| == |w.store.jobs| && v.store.byKey == w.store.byKey && v.lastSweep == w.lastSweep
    && k < |w.store.jobs| && v.store.jobs[k].id == w.store.jobs[k].id && v.store.jobs[k].key == w.store.jobs[k].key
    && v.store.jobs[k].createdAt == w.store.jobs[k].createdAt
    && forall i :: 0 <= i < |w.store.jobs| && i != k ==> v.store.jobs[i] == w.store.jobs[i]
  }

  predicate SameRecord(job: Job, later: Job) {
    later.chunks == job.chunks && later.terminal == job.terminal && later.taken == job.taken
  }

  predicate SameReads(job: Job, later: Job) {
    later.lastPolledAt == job.lastPolledAt && later.firstReadAt == job.firstReadAt
  }

  predicate IsAt(time: Option<real>, now: real) {
    time.Some? && time.value == now
  }

  /** A poll renews the lease and, the first time it finds the job ended, notes that it was read; the advice it is
      answered with is the one given last. */
  lemma PollDoes(c: AppConfig, config: JobsConfig, w: World, k: nat, mean: real)
    requires c.scheduler.Valid() && Sound(c, w) && DistinctIds(w.store.jobs) && k < |w.store.jobs|
    ensures var v := Do(c, config, w, Poll(w.store.jobs[k].id, mean));
      && v.engine == w.engine && OnlyJobMoved(w, v, k)
      && var job, later := w.store.jobs[k], v.store.jobs[k];
      && SameRecord(job, later) && later.finishedAt == job.finishedAt && later.pump == job.pump
      && later.lastPolledAt == w.engine.now && later.advised == RetryAfter(c, config, w.engine, later, mean)
      && (if job.firstReadAt.None? && HasEnded(job, w.engine.reqs[job.id]) then IsAt(later.firstReadAt, w.engine.now)
          else later.firstReadAt == job.firstReadAt)
  {
    var job := w.store.jobs[k];
    PlaceIsUnique(w.store.jobs, k);
    ReadsAs(job, w.engine.reqs[job.id]);
    var read := Read(job, w.engine.reqs[job.id], w.engine.now);
    var mid := w.(store := Updated(w.store, k, read));
    PlaceIsUnique(mid.store.jobs, k);
    assert Polled(c, config, w, job.id, mean) == Advised(c, config, mid, job.id, mean);
  }

  /** Deleting marks the request as cancelled, tells the pump to stop, and notes the time unless there is one. */
  lemma DeleteDoes(c: AppConfig, config: JobsConfig, w: World, k: nat)
    requires c.scheduler.Valid() && Sound(c, w) && DistinctIds(w.store.jobs) && k < |w.store.jobs|
    ensures var job := w.store.jobs[k];
      var v := Do(c, config, w, Delete(job.id));
      && v.engine == w.engine.(reqs := v.engine.reqs) && IsCancelledOnly(w.engine.reqs, v.engine.reqs, job.id)
      && OnlyJobMoved(w, v, k) && IsAbandoned(job, v.store.jobs[k], w.engine.now)
  {
    PlaceIsUnique(w.store.jobs, k);
  }

  ghost predicate IsCancelledOnly(reqs: Table, later: Table, id: nat) {
    && |later| == |reqs| && id < |reqs| && later[id].cancelled
    && later[id] == reqs[id].(cancelled := later[id].cancelled)
    && forall i :: 0 <= i < |reqs| && i != id ==> later[i] == reqs[i]
  }

  predicate IsAbandoned(job: Job, later: Job, now: real) {
    && SameRecord(job, later) && SameReads(job, later) && later.advised == job.advised
    && later.pump == (if job.pump.PumpOver? then PumpOver else PumpStopping)
    && (if job.finishedAt.None? then IsAt(later.finishedAt, now) else later.finishedAt == job.finishedAt)
  }

  /** The pump keeps a chunk, and a terminator ends it and is noted with its time; told to stop, it only notes the
      time. */
  lemma PumpDoes(c: AppConfig, config: JobsConfig, w: World, k: nat, a: Act)
    requires c.scheduler.Valid() && Sound(c, w) && DistinctIds(w.store.jobs) && k < |w.store.jobs|
    requires a == PumpTakes(w.store.jobs[k].id) || a == PumpEnds(w.store.jobs[k].id)
    requires CanAct(c, config, w, a)
    ensures var v := Do(c, config, w, a);
      && v.engine == w.engine && OnlyJobMoved(w, v, k)
      && var job, later := w.store.jobs[k], v.store.jobs[k];
      && SameReads(job, later) && later.advised == job.advised
      && (a.PumpEnds? ==> SameRecord(job, later) && later.pump.PumpOver? && IsAt(later.finishedAt, w.engine.now))
      && (a.PumpTakes? ==>
            && job.taken < |w.engine.reqs[job.id].channel|
            && TakesIn(job, later, w.engine.reqs[job.id].channel[job.taken], w.engine.now))
  {
    PlaceIsUnique(w.store.jobs, k);
  }

  predicate TakesIn(job: Job, later: Job, event: StreamEvent, now: real) {
    && later.taken == job.taken + 1
    && (event.Piece? ==>
          && later.chunks == job.chunks + [event.chunk] && later.terminal == job.terminal
          && later.pump == job.pump && later.finishedAt == job.finishedAt)
    && (!event.Piece? ==>
          && later.chunks == job.chunks && later.terminal == Some(event)
          && later.pump.PumpOver? && IsAt(later.finishedAt, now))
  }

  // ------------------------------------------------------------------ submitting

  predicate IsOpened(job: Job, id: nat, key: Option<string>, now: real) {
    && job.id == id && job.key == key && job.createdAt == now && job.lastPolledAt == now
    && job.chunks == [] && job.terminal.None? && job.finishedAt.None? && job.firstReadAt.None?
    && job.pump.Pumping? && job.taken == 0
  }

  /** The submission repeats one whose job is retained: its key is not empty, and the index leads to that job. */
  ghost predicate Repeats(w: World, key: Option<string>, k: nat) {
    && key.Some? && key.value != "" && key.value in w.store.byKey
    && k < |w.store.jobs| && w.store.jobs[k].id == w.store.byKey[key.value]
  }

  /** A submission for a model that is not configured does nothing; a repeated one only finds its job again. */
  lemma RepeatedPostDoes(
    c: AppConfig, config: JobsConfig, w: World, model: ModelName, key: Option<string>, mean: real, k: nat)
    requires c.scheduler.Valid() && Sound(c, w) && DistinctIds(w.store.jobs) && !w.engine.phase.IsShutdown()
    ensures var v := Do(c, config, w, Post(model, key, mean));
      && (model !in c.Names() ==> v == w)
      && (model in c.Names() && Repeats(w, key, k) ==>
            && v.engine == w.engine && OnlyJobMoved(w, v, k)
            && var job, later := w.store.jobs[k], v.store.jobs[k];
            && SameRecord(job, later) && SameReads(job, later)
            && later.finishedAt == job.finishedAt && later.pump == job.pump
            && later.advised == RetryAfter(c, config, w.engine, later, mean))
  {
    if model in c.Names() && Repeats(w, key, k) {
      PlaceIsUnique(w.store.jobs, k);
      assert FindByKey(w.store, key.value) == Some(w.store.jobs[k].id);
    }
  }

  /** Any other submits a request. Where room could be made for it, a job is opened for it behind those that stay
      and its key, if any, leads there; where none could, the request is cancelled and no job opened. */
  lemma NewPostDoes(c: AppConfig, config: JobsConfig, w: World, model: ModelName, key: Option<string>, mean: real)
    requires c.scheduler.Valid() && Sound(c, w) && DistinctIds(w.store.jobs) && !w.engine.phase.IsShutdown()
    requires model in c.Names() && forall k: nat :: !Repeats(w, key, k)
    ensures var v := Do(c, config, w, Post(model, key, mean));
      && SubmittedIn(w, v, model)
      && Known(w.store.jobs, v.engine.reqs)
      && var room := RoomMade(config, w.store, w.engine.reqs + [Fresh(model, w.engine.now)]);
      && v.engine.reqs[|w.engine.reqs|].cancelled == room.None?
      && (room.None? ==> v.store == w.store)
      && (room.Some? ==> OpensOne(room.value, v.store, |w.engine.reqs|, key, w.engine.now))
  {
    var id := |w.engine.reqs|;
    var engine := Submitted(w.engine, model);
    SubmittedIsSound(c, w, model);
    NotFound(w, key);
    assert engine.reqs == w.engine.reqs + [Fresh(model, w.engine.now)];
    var room := RoomMade(config, w.store, engine.reqs);
    if room.Some? {
      var job := Opened(id, key, engine.now);
      CreatedIsSound(c, config, w, engine, room.value, job);
      AdviceMovesOne(c, config, w.(engine := engine, store := Added(room.value, job)), room.value, job, mean);
    }
  }

  lemma NotFound(w: World, key: Option<string>)
    requires forall k: nat :: !Repeats(w, key, k)
    ensures IsLookedUp(key) ==> FindByKey(w.store, key.value).None?
  {
    if IsLookedUp(key) && FindByKey(w.store, key.value).Some? {
      var place := PlaceOf(w.store.jobs, w.store.byKey[key.value]);
      assert Repeats(w, key, place.value);
    }
  }

  ghost predicate SubmittedIn(w: World, v: World, model: ModelName) {
    && |v.engine.reqs| == |w.engine.reqs| + 1 && v.engine.reqs[..|w.engine.reqs|] == w.engine.reqs
    && v.engine == Submitted(w.engine, model).(reqs := v.engine.reqs)
    && v.engine.reqs[|w.engine.reqs|].model == model && v.engine.reqs[|w.engine.reqs|].state == Queued
    && v.lastSweep == w.lastSweep
  }

  ghost predicate OpensOne(room: Store, later: Store, id: nat, key: Option<string>, now: real) {
    && |later.jobs| == |room.jobs| + 1 && later.jobs[..|room.jobs|] == room.jobs
    && IsOpened(later.jobs[|room.jobs|], id, key, now)
    && later.byKey == if key.Some? then room.byKey[key.value := id] else room.byKey
  }

  lemma AdviceMovesOne(c: AppConfig, config: JobsConfig, w: World, room: Store, job: Job, mean: real)
    requires c.scheduler.Valid() && Sound(c, w) && w.store == Added(room, job)
    requires forall k :: 0 <= k < |room.jobs| ==> room.jobs[k].id != job.id
    requires job.terminal.None? && IsOpened(job, job.id, job.key, job.createdAt)
    ensures var v := Advised(c, config, w, job.id, mean);
      v.engine == w.engine && v.lastSweep == w.lastSweep && OpensOne(room, v.store, job.id, job.key, job.createdAt)
  {
    var place := PlaceOf(w.store.jobs, job.id);
    assert w.store.jobs[|room.jobs|] == job;
    assert place == Some(|room.jobs|);
  }

  // ------------------------------------------------------------------ the sweep

  /** In progress, and nobody has asked for it for longer than the lease, if there is one. */
  predicate IsDesertedJob(config: JobsConfig, job: Job, request: Request, now: real) {
    !HasEnded(job, request) && config.lease != 0.0 && config.lease < now - job.lastPolledAt
  }

  /** Ended, and kept for as long as results are: counted from the first read, or from the finish if unread. */
  predicate IsOutdated(config: JobsConfig, job: Job, request: Request, now: real) {
    && HasEnded(job, request) && job.finishedAt.Some?
    && (job.firstReadAt.Some? ==> config.readTtl <= now - job.firstReadAt.value)
    && (job.firstReadAt.None? ==> config.resultTtl <= now - job.finishedAt.value)
  }

  /** What a sweep from `w` to `v` did about `job`: an outdated one is forgotten, key and all; a deserted one is
      abandoned and its request cancelled; any other stays as it is, with its request. */
  ghost predicate IsSwept(config: JobsConfig, w: World, v: World, job: Job)
    requires job.id < |w.engine.reqs|
  {
    var request := w.engine.reqs[job.id];
    && job.id < |v.engine.reqs|
    && (IsOutdated(config, job, request, w.engine.now) ==>
          && v.engine.reqs[job.id] == request && !Retains(v, job.id)
          && (job.key.Some? ==> job.key.value !in v.store.byKey))
    && (IsDesertedJob(config, job, request, w.engine.now) ==>
          && v.engine.reqs[job.id].cancelled
          && v.engine.reqs[job.id] == request.(cancelled := v.engine.reqs[job.id].cancelled)
          && exists later :: later in v.store.jobs && later.id == job.id && later.key == job.key
                             && IsAbandoned(job, later, w.engine.now))
    && (!IsOutdated(config, job, request, w.engine.now) && !IsDesertedJob(config, job, request, w.engine.now) ==>
          v.engine.reqs[job.id] == request && job in v.store.jobs)
  }

  lemma SweepDoes(c: AppConfig, config: JobsConfig, w: World, k: nat)
    requires c.scheduler.Valid() && Sound(c, w) && DistinctIds(w.store.jobs) && k < |w.store.jobs|
    ensures var v := Do(c, config, w, Sweep);
      && v.engine == w.engine.(reqs := v.engine.reqs) && |v.engine.reqs| == |w.engine.reqs|
      && v.lastSweep == w.engine.now && IsSwept(config, w, v, w.store.jobs[k])
  {
    SweepIsExact(config, w);
    MeaningSweeps(config, w, Meaning(config, w).(lastSweep := w.engine.now), k);
  }

  lemma MeaningSweeps(config: JobsConfig, w: World, v: World, k: nat)
    requires Known(w.store.jobs, w.engine.reqs) && DistinctIds(w.store.jobs) && k < |w.store.jobs|
    requires v == Meaning(config, w).(lastSweep := w.engine.now)
    ensures IsSwept(config, w, v, w.store.jobs[k])
  {
    var jobs, reqs, now := w.store.jobs, w.engine.reqs, w.engine.now;
    var job := jobs[k];
    ReadsAs(job, reqs[job.id]);
    StaleIsDeserted(config, jobs, reqs, now, k);
    if IsExpired(config, job, reqs[job.id], now) {
      ExpiredIsGone(config, jobs, reqs, now, k);
      assert forall j :: 0 <= j < |v.store.jobs| ==> v.store.jobs[j] in v.store.jobs;
    } else {
      SurvivorRetained(config, jobs, reqs, now, k);
    }
  }

  lemma {:induction false} SurvivorsAreOld(config: JobsConfig, jobs: seq<Job>, reqs: Table, now: real, id: nat)
    requires Known(jobs, reqs) && forall k :: 0 <= k < |jobs| ==> jobs[k].id != id
    ensures forall job :: job in Survivors(config, jobs, reqs, now) ==> job.id != id
  {
    if jobs != [] {
      SurvivorsAreOld(config, jobs[1..], reqs, now, id);
    }
  }

  lemma {:induction false} ExpiredIsGone(config: JobsConfig, jobs: seq<Job>, reqs: Table, now: real, k: nat)
    requires Known(jobs, reqs) && DistinctIds(jobs) && k < |jobs|
    requires IsExpired(config, jobs[k], reqs[jobs[k].id], now)
    ensures forall job :: job in Survivors(config, jobs, reqs, now) ==> job.id != jobs[k].id
  {
    if k == 0 {
      SurvivorsAreOld(config, jobs[1..], reqs, now, jobs[0].id);
    } else {
      ExpiredIsGone(config, jobs[1..], reqs, now, k - 1);
    }
  }

  /** A sweep brings in nothing, and cancels nobody else. */
  lemma SweepOnlyTakes(c: AppConfig, config: JobsConfig, w: World, id: nat)
    requires c.scheduler.Valid() && Sound(c, w) && DistinctIds(w.store.jobs) && !Retains(w, id)
    ensures var v := Do(c, config, w, Sweep);
      && !Retains(v, id)
      && (id < |w.engine.reqs| ==> |v.engine.reqs| == |w.engine.reqs| && v.engine.reqs[id] == w.engine.reqs[id])
  {
    SweepIsExact(config, w);
    SurvivorsAreOld(config, w.store.jobs, w.engine.reqs, w.engine.now, id);
    var kept := Survivors(config, w.store.jobs, w.engine.reqs, w.engine.now);
    assert forall j :: 0 <= j < |kept| ==> kept[j] in kept;
  }
}
