/** What a job holds: everything its request's channel held, once it says so itself; and the two ways in
    which a job's state can run ahead of, or lag behind, what it holds. */
module JobAnswers {
  import opened Types
  import opened Requests
  import opened QueueSpec
  import opened EngineModel
  import opened JobModel
  import opened JobInvariant
  import opened JobSweep
  import opened JobTheorems
  import EngineInvariant
  import EngineTheorems

  /** Nothing is lost between request and job: what the job has copied and what is still on the channel
      are together, in order, everything that was ever put there. */
  lemma BufferConserves(c: AppConfig, config: JobsConfig, w: World, k: nat)
    requires c.Valid() && config.Valid() && Happens(c, config, w) && k < |w.store.jobs|
    ensures Sound(c, w)
    ensures var job := w.store.jobs[k];
      var channel := w.engine.reqs[job.id].channel;
      job.taken <= |channel| && Copied(job) + channel[job.taken..] == channel
  {
    HappensOk(c, config, w);
    assert RetainedOk(config, w, k);
  }

  /** Only the last event of a channel can be a terminator. */
  lemma TerminatorIsLast(c: AppConfig, s: State, i: nat, k: nat)
    requires EngineTheorems.Inv(c, s) && i < |s.reqs| && k < |s.reqs[i].channel| - 1
    ensures s.reqs[i].channel[k].Piece?
  {
    assert EngineInvariant.Sound(s, i);
    var r := s.reqs[i];
    assert |Pieces(r.produced)| == |r.produced|;
  }

  lemma RecordedMeansAll(c: AppConfig, config: JobsConfig, w: World, k: nat)
    requires c.Valid() && WorldOk(c, config, w) && k < |w.store.jobs| && w.store.jobs[k].terminal.Some?
    ensures var job := w.store.jobs[k];
      && job.id < |w.engine.reqs| && job.taken == |w.engine.reqs[job.id].channel|
      && Pieces(job.chunks) + [job.terminal.value] == w.engine.reqs[job.id].channel
  {
    var job := w.store.jobs[k];
    assert RetainedOk(config, w, k);
    var channel := w.engine.reqs[job.id].channel;
    assert channel[..job.taken][job.taken - 1] == job.terminal.value;
    if job.taken < |channel| {
      TerminatorIsLast(c, w.engine, job.id, job.taken - 1);
    }
    assert channel[..|channel|] == channel;
  }

  /** Once a job has recorded a terminator it is complete. If that terminator is the stream's end and the
      request was not disturbed, the job holds exactly the chunks its backend produced. */
  lemma RecordedIsComplete(c: AppConfig, config: JobsConfig, w: World, k: nat)
    requires c.Valid() && config.Valid() && Happens(c, config, w) && k < |w.store.jobs|
    requires w.store.jobs[k].terminal.Some?
    ensures Sound(c, w)
    ensures var job := w.store.jobs[k];
      var request := w.engine.reqs[job.id];
      && Pieces(job.chunks) + [job.terminal.value] == request.channel
      && (job.terminal.value.StreamEnd? <==> StateOf(job, request) == Done)
      && (job.terminal.value.StreamEnd? ==> request.state == Done && job.chunks == request.produced)
  {
    HappensOk(c, config, w);
    RecordedMeansAll(c, config, w, k);
    var job := w.store.jobs[k];
    var request := w.engine.reqs[job.id];
    assert RetainedOk(config, w, k);
    assert EngineInvariant.Sound(w.engine, job.id);
    if job.terminal.value.StreamEnd? {
      assert EngineInvariant.Last(request.channel) == job.terminal.value;
      SamePieces(job.chunks, request.produced, job.terminal.value);
    }
  }

  lemma SamePieces(chunks: seq<Chunk>, other: seq<Chunk>, end: StreamEvent)
    requires Pieces(chunks) + [end] == Pieces(other) + [end]
    ensures chunks == other
  {
    assert |chunks| == |other|;
    forall i | 0 <= i < |chunks| ensures chunks[i] == other[i] {
      assert (Pieces(chunks) + [end])[i] == (Pieces(other) + [end])[i];
    }
  }

  /** A retained job only ever gains: recorded chunks stay, and a recorded terminator never changes. */
  ghost predicate Gains(job: Job, later: Job) {
    && later.id == job.id && later.key == job.key && later.createdAt == job.createdAt
    && job.chunks <= later.chunks && job.taken <= later.taken
    && (job.terminal.Some? ==> later.terminal == job.terminal && later.chunks == job.chunks)
  }

  ghost predicate GainsIn(job: Job, jobs: seq<Job>) {
    forall k :: 0 <= k < |jobs| && jobs[k].id == job.id ==> Gains(job, jobs[k])
  }

  lemma JobsOnlyGain(c: AppConfig, config: JobsConfig, w: World, a: Act, i: nat)
    requires c.Valid() && config.Valid() && Happens(c, config, w) && Sound(c, w) && CanAct(c, config, w, a)
    requires i < |w.store.jobs|
    ensures GainsIn(w.store.jobs[i], Do(c, config, w, a).store.jobs)
  {
    HappensOk(c, config, w);
    if a.Sweep? {
      SweepIsExact(config, w);
      SurvivorsGain(config, w.store.jobs, w.engine.reqs, w.engine.now, i);
    } else if a.Post? {
      PostGains(c, config, w, a.model, a.key, a.mean, i);
    } else {
      OtherActGains(c, config, w, a, i);
    }
  }

  lemma SameJobsGain(w: World, i: nat)
    requires DistinctIds(w.store.jobs) && i < |w.store.jobs|
    ensures GainsIn(w.store.jobs[i], w.store.jobs)
  {
  }

  lemma UpdateGains(w: World, k: nat, job: Job, i: nat)
    requires DistinctIds(w.store.jobs) && i < |w.store.jobs| && k < |w.store.jobs| && Gains(w.store.jobs[k], job)
    ensures GainsIn(w.store.jobs[i], Updated(w.store, k, job).jobs)
  {
  }

  lemma AdviseGains(c: AppConfig, config: JobsConfig, w: World, id: nat, mean: real, job: Job)
    requires c.Valid() && Sound(c, w) && GainsIn(job, w.store.jobs)
    ensures GainsIn(job, Advised(c, config, w, id, mean).store.jobs)
  {
    var place := PlaceOf(w.store.jobs, id);
    if place.Some? {
      AdviceGains(w.store.jobs, place.value, job, RetryAfter(c, config, w.engine, w.store.jobs[place.value], mean));
    }
  }

  lemma AdviceGains(jobs: seq<Job>, k: nat, job: Job, advice: real)
    requires k < |jobs| && GainsIn(job, jobs)
    ensures GainsIn(job, jobs[k := jobs[k].(advised := advice)])
  {
  }

  lemma OtherActGains(c: AppConfig, config: JobsConfig, w: World, a: Act, i: nat)
    requires c.Valid() && WorldOk(c, config, w) && Sound(c, w) && CanAct(c, config, w, a) && i < |w.store.jobs|
    requires !a.Post? && !a.Sweep?
    ensures GainsIn(w.store.jobs[i], Do(c, config, w, a).store.jobs)
  {
    SameJobsGain(w, i);
    if a.Poll? && PlaceOf(w.store.jobs, a.id).Some? {
      var k := PlaceOf(w.store.jobs, a.id).value;
      var read := Read(w.store.jobs[k], w.engine.reqs[a.id], w.engine.now);
      UpdateGains(w, k, read, i);
      AdviseGains(c, config, w.(store := Updated(w.store, k, read)), a.id, a.mean, w.store.jobs[i]);
    } else if !a.EngineDoes? && PlaceOf(w.store.jobs, a.id).Some? {
      var k := PlaceOf(w.store.jobs, a.id).value;
      assert RetainedOk(config, w, k);
      JobActGains(c, config, w, a, k);
      UpdateGains(w, k, Do(c, config, w, a).store.jobs[k], i);
    }
  }

  lemma JobActGains(c: AppConfig, config: JobsConfig, w: World, a: Act, k: nat)
    requires c.Valid() && Sound(c, w) && CanAct(c, config, w, a)
    requires a.Delete? || a.PumpTakes? || a.PumpEnds?
    requires PlaceOf(w.store.jobs, a.id) == Some(k) && RetainedOk(config, w, k)
    ensures Do(c, config, w, a).store == Updated(w.store, k, Do(c, config, w, a).store.jobs[k])
    ensures Gains(w.store.jobs[k], Do(c, config, w, a).store.jobs[k])
  {
  }

  lemma {:induction false} SurvivorsGain(config: JobsConfig, jobs: seq<Job>, reqs: Table, now: real, i: nat)
    requires Known(jobs, reqs) && DistinctIds(jobs) && i < |jobs|
    ensures GainsIn(jobs[i], Survivors(config, jobs, reqs, now))
  {
    var rest := Survivors(config, jobs[1..], reqs, now);
    assert forall k :: 0 <= k < |jobs[1..]| ==> jobs[1..][k] == jobs[k + 1];
    if i > 0 {
      SurvivorsGain(config, jobs[1..], reqs, now, i - 1);
    } else {
      SurvivorsAreJobs(config, jobs[1..], reqs, now);
      forall k | 0 <= k < |rest| ensures rest[k].id != jobs[0].id {
        assert IsKept(config, jobs[1..], reqs, now, rest[k]);
        var later := jobs[1..];
        var j :| 0 <= j < |later| && rest[k] == Kept(config, later[j], reqs[later[j].id], now);
        assert jobs[j + 1].id == rest[k].id;
      }
    }
  }

  lemma {:induction false} SurvivorsAreJobs(config: JobsConfig, jobs: seq<Job>, reqs: Table, now: real)
    requires Known(jobs, reqs)
    ensures AreKept(config, jobs, reqs, now, Survivors(config, jobs, reqs, now))
  {
    if jobs != [] {
      var tail := Survivors(config, jobs[1..], reqs, now);
      assert forall k :: 0 <= k < |jobs[1..]| ==> jobs[1..][k] == jobs[k + 1];
      SurvivorsAreJobs(config, jobs[1..], reqs, now);
      forall k | 0 <= k < |tail| ensures IsKept(config, jobs, reqs, now, tail[k]) {
        assert IsKept(config, jobs[1..], reqs, now, tail[k]);
        var later := jobs[1..];
        var j :| 0 <= j < |later| && tail[k] == Kept(config, later[j], reqs[later[j].id], now);
        assert tail[k] == Kept(config, jobs[j + 1], reqs[jobs[j + 1].id], now);
      }
      assert IsKept(config, jobs, reqs, now, Kept(config, jobs[0], reqs[jobs[0].id], now));
    }
  }

  ghost predicate AreKept(config: JobsConfig, jobs: seq<Job>, reqs: Table, now: real, rest: seq<Job>)
    requires Known(jobs, reqs)
  {
    forall k :: 0 <= k < |rest| ==> IsKept(config, jobs, reqs, now, rest[k])
  }

  ghost predicate IsKept(config: JobsConfig, jobs: seq<Job>, reqs: Table, now: real, survivor: Job)
    requires Known(jobs, reqs)
  {
    exists j :: 0 <= j < |jobs| && survivor == Kept(config, jobs[j], reqs[jobs[j].id], now)
  }

  lemma PostGains(
    c: AppConfig, config: JobsConfig, w: World, model: ModelName, key: Option<string>, mean: real, i: nat)
    requires c.Valid() && WorldOk(c, config, w) && Sound(c, w) && i < |w.store.jobs|
    ensures GainsIn(w.store.jobs[i], Posted(c, config, w, model, key, mean).store.jobs)
  {
    SameJobsGain(w, i);
    if model in w.engine.queues {
      if IsLookedUp(key) && FindByKey(w.store, key.value).Some? {
        AdviseGains(c, config, w, FindByKey(w.store, key.value).value, mean, w.store.jobs[i]);
      } else {
        var engine := Submitted(w.engine, model);
        SubmittedIsSound(c, w, model);
        var room := RoomMade(config, w.store, engine.reqs);
        if room.Some? {
          var newcomer := Opened(|w.engine.reqs|, key, engine.now);
          CreatedIsSound(c, config, w, engine, room.value, newcomer);
          var v := w.(engine := engine, store := Added(room.value, newcomer));
          RoomGains(config, w.store, engine.reqs, i);
          assert GainsIn(w.store.jobs[i], v.store.jobs);
          AdviseGains(c, config, v, |w.engine.reqs|, mean, w.store.jobs[i]);
        }
      }
    }
  }

  lemma RoomGains(config: JobsConfig, s: Store, reqs: Table, i: nat)
    requires Known(s.jobs, reqs) && DistinctIds(s.jobs) && i < |s.jobs|
    ensures var room := RoomMade(config, s, reqs); room.Some? ==> GainsIn(s.jobs[i], room.value.jobs)
  {
    if |s.jobs| >= config.maxJobs && Evictable(s.jobs, reqs).Some? {
      ForgetGains(s, Evictable(s.jobs, reqs).value, i);
    }
  }

  lemma ForgetGains(s: Store, gone: nat, i: nat)
    requires gone < |s.jobs| && DistinctIds(s.jobs) && i < |s.jobs|
    ensures GainsIn(s.jobs[i], Forgotten(s, gone).jobs)
  {
    var rest := Forgotten(s, gone).jobs;
    forall k | 0 <= k < |rest| && rest[k].id == s.jobs[i].id ensures rest[k] == s.jobs[i] {
      assert rest[k] == s.jobs[if k < gone then k else k + 1];
    }
  }

  // ------------------------------------------------------------------ done before it is complete

  /** The derived state may say done while the pump is still copying. The answer rendered then is whole if
      and only if the pump has taken everything but the terminator. */
  lemma DoneIsWholeIff(c: AppConfig, config: JobsConfig, w: World, k: nat)
    requires c.Valid() && config.Valid() && Happens(c, config, w) && k < |w.store.jobs| && Sound(c, w)
    requires StateOf(w.store.jobs[k], w.engine.reqs[w.store.jobs[k].id]) == Done
    ensures var job := w.store.jobs[k];
      var request := w.engine.reqs[job.id];
      request.state == Done && (job.chunks == request.produced <==> job.taken >= |request.channel| - 1)
  {
    HappensOk(c, config, w);
    var job := w.store.jobs[k];
    var request := w.engine.reqs[job.id];
    assert RetainedOk(config, w, k);
    assert EngineInvariant.Sound(w.engine, job.id);
    if job.terminal.Some? {
      RecordedIsComplete(c, config, w, k);
    } else {
      assert |Copied(job)| == job.taken == |job.chunks|;
      PiecesTaken(job.chunks, request.produced, request.channel, job.taken);
    }
  }

  lemma PiecesTaken(chunks: seq<Chunk>, produced: seq<Chunk>, channel: seq<StreamEvent>, taken: nat)
    requires channel != [] && channel == Pieces(produced) + [channel[|channel| - 1]] && taken <= |channel|
    requires Pieces(chunks) == channel[..taken] && |chunks| == taken
    requires channel[|channel| - 1].IsTerminator()
    ensures chunks == produced <==> taken >= |channel| - 1
  {
    PrefixIsPieces(chunks, channel, taken);
    forall i | 0 <= i < taken ensures chunks[i] == produced[i] {
      assert Pieces(chunks)[i] == channel[i];
    }
  }

  lemma PrefixIsPieces(chunks: seq<Chunk>, channel: seq<StreamEvent>, taken: nat)
    requires taken <= |channel| && Pieces(chunks) == channel[..taken]
    ensures forall i :: 0 <= i < taken ==> channel[i].Piece?
  {
    forall i | 0 <= i < taken ensures channel[i].Piece? {
      assert Pieces(chunks)[i] == channel[i];
    }
  }

  lemma RecordedWasTaken(job: Job, channel: seq<StreamEvent>)
    requires job.taken <= |channel| && Copied(job) == channel[..job.taken]
    ensures job.terminal.Some? ==> 0 < job.taken && channel[job.taken - 1] == job.terminal.value
  {
    if job.terminal.Some? {
      assert Copied(job)[job.taken - 1] == channel[job.taken - 1];
    }
  }

  /** It does happen. In every reachable situation where a job's request is generating, one more chunk and
      the end of the stream make the job read done without that chunk. */
  lemma DoneBeforeComplete(c: AppConfig, config: JobsConfig, w: World, k: nat, chunk: Chunk)
    requires c.Valid() && config.Valid() && Happens(c, config, w) && Sound(c, w) && k < |w.store.jobs|
    requires var id := w.store.jobs[k].id;
      id in w.engine.inFlight && IsRunning(w.engine, id) && !w.engine.reqs[id].cancelRequested
      && !w.engine.reqs[id].cancelled
    ensures var id := w.store.jobs[k].id;
      var mid := Step(c, w.engine, TaskYields(id, chunk));
      && WellFormed(c, mid) && Enabled(c, mid, TaskExhausts(id))
      && var v := w.(engine := Step(c, mid, TaskExhausts(id)));
      && v.engine.reqs[id].state == Done && StateOf(v.store.jobs[k], v.engine.reqs[id]) == Done
      && v.store.jobs[k].chunks != v.engine.reqs[id].produced
  {
    HappensOk(c, config, w);
    var job := w.store.jobs[k];
    var request := w.engine.reqs[job.id];
    assert RetainedOk(config, w, k);
    assert EngineInvariant.Sound(w.engine, job.id);
    EngineStep(c, w.engine, TaskYields(job.id, chunk));
    assert |job.chunks| <= |Copied(job)| <= |request.channel| == |request.produced|;
    RecordedWasTaken(job, request.channel);
  }

  // ------------------------------------------------------------------ finished, and never forgotten

  /** A terminal job can expire some day if and only if it has a finishing time. */
  lemma ExpiresSomeDayIff(config: JobsConfig, job: Job, request: Request)
    requires IsTerminal(job, request)
    ensures (exists t: real :: IsExpired(config, job, request, t)) <==> job.finishedAt.Some?
  {
    if job.finishedAt.Some? {
      var t := if job.firstReadAt.Some? then job.firstReadAt.value + config.readTtl
               else job.finishedAt.value + config.resultTtl;
      assert IsExpired(config, job, request, t);
    }
  }

  /** The request was stopped by the engine itself, without its client asking and without a terminator:
      the job reads cancelled, but its pump goes on waiting for an event that never comes. */
  ghost predicate IsOrphan(w: World, id: nat) {
    && id < |w.engine.reqs| && w.engine.reqs[id].state == Cancelled
    && (forall i :: 0 <= i < |w.engine.reqs[id].channel| ==> w.engine.reqs[id].channel[i].Piece?)
    && (forall k :: 0 <= k < |w.store.jobs| && w.store.jobs[k].id == id ==>
          w.store.jobs[k].pump.Pumping? && w.store.jobs[k].terminal.None? && w.store.jobs[k].finishedAt.None?)
  }

  /** Crash containment makes orphans: a request its client still wants, whose task the engine told to stop,
      becomes one the moment the task does. */
  lemma ContainmentMakesOrphans(c: AppConfig, config: JobsConfig, w: World, k: nat)
    requires c.Valid() && config.Valid() && Happens(c, config, w) && Sound(c, w) && k < |w.store.jobs|
    requires var id := w.store.jobs[k].id;
      id in w.engine.inFlight && IsRunning(w.engine, id) && w.engine.reqs[id].cancelRequested
      && !w.engine.reqs[id].cancelled
    ensures var id := w.store.jobs[k].id;
      IsOrphan(w.(engine := Step(c, w.engine, TaskCancelled(id))), id)
  {
    HappensOk(c, config, w);
    var job := w.store.jobs[k];
    var request := w.engine.reqs[job.id];
    assert RetainedOk(config, w, k);
    assert EngineInvariant.Sound(w.engine, job.id);
    RecordedWasTaken(job, request.channel);
    forall i | 0 <= i < |w.store.jobs| && w.store.jobs[i].id == job.id ensures i == k {
      PlaceIsUnique(w.store.jobs, i);
      PlaceIsUnique(w.store.jobs, k);
    }
  }

  /** Such a job is out of every sweep's reach, at any time. */
  lemma OrphanIsNotSwept(config: JobsConfig, w: World, id: nat, k: nat, now: real)
    requires IsOrphan(w, id) && k < |w.store.jobs| && w.store.jobs[k].id == id
    ensures StateOf(w.store.jobs[k], w.engine.reqs[id]) == Cancelled
    ensures !IsStale(config, w.store.jobs[k], w.engine.reqs[id], now)
    ensures !IsExpired(config, w.store.jobs[k], w.engine.reqs[id], now)
  {
  }

  /** An orphan stays one through everything but a request to delete it: only that, or an eviction to make
      room, ever frees its place. */
  lemma OrphansStay(c: AppConfig, config: JobsConfig, w: World, a: Act, id: nat)
    requires c.Valid() && config.Valid() && Happens(c, config, w) && Sound(c, w) && CanAct(c, config, w, a)
    requires IsOrphan(w, id) && Retains(w, id) && a != Delete(id)
    ensures IsOrphan(Do(c, config, w, a), id)
    ensures Retains(Do(c, config, w, a), id) || (a.Post? && |w.store.jobs| >= config.maxJobs)
  {
    HappensOk(c, config, w);
    var i :| 0 <= i < |w.store.jobs| && w.store.jobs[i].id == id;
    if a.EngineDoes? {
      EngineStep(c, w.engine, a.action);
    } else if a.Sweep? {
      OrphanSurvivesSweep(config, w, id, i);
    } else if a.Post? {
      OrphanAndPost(c, config, w, a.model, a.key, a.mean, id);
      RoomyPostRetains(c, config, w, a.model, a.key, a.mean, i);
    } else {
      OtherActRetains(c, config, w, a, i);
      OrphanAndOthers(c, config, w, a, id);
    }
  }

  /** A submission that finds room evicts nobody. */
  lemma RoomyPostRetains(
    c: AppConfig, config: JobsConfig, w: World, model: ModelName, key: Option<string>, mean: real, i: nat)
    requires c.Valid() && WorldOk(c, config, w) && Sound(c, w) && i < |w.store.jobs|
    ensures |w.store.jobs| < config.maxJobs ==> Retains(Posted(c, config, w, model, key, mean), w.store.jobs[i].id)
  {
    if |w.store.jobs| < config.maxJobs {
      if model in w.engine.queues {
        if IsLookedUp(key) && FindByKey(w.store, key.value).Some? {
          AdviseRetains(c, config, w, FindByKey(w.store, key.value).value, mean, i);
        } else {
          var engine := Submitted(w.engine, model);
          SubmittedIsSound(c, w, model);
          var job := Opened(|w.engine.reqs|, key, engine.now);
          CreatedIsSound(c, config, w, engine, w.store, job);
          var v := w.(engine := engine, store := Added(w.store, job));
          assert v.store.jobs[i] == w.store.jobs[i];
          AdviseRetains(c, config, v, |w.engine.reqs|, mean, i);
        }
      }
    }
  }

  lemma OrphanSurvivesSweep(config: JobsConfig, w: World, id: nat, i: nat)
    requires DistinctIds(w.store.jobs) && Known(w.store.jobs, w.engine.reqs)
    requires IsOrphan(w, id) && i < |w.store.jobs| && w.store.jobs[i].id == id
    ensures var v := SweptOnce(config, w).(lastSweep := w.engine.now);
      IsOrphan(v, id) && Retains(v, id)
  {
    SweepIsExact(config, w);
    OrphanIsKept(config, w, id, i);
    OrphanIsNotStale(config, w, id);
  }

  /** The sweep keeps the orphan as it is. */
  lemma OrphanIsKept(config: JobsConfig, w: World, id: nat, i: nat)
    requires DistinctIds(w.store.jobs) && Known(w.store.jobs, w.engine.reqs)
    requires IsOrphan(w, id) && i < |w.store.jobs| && w.store.jobs[i].id == id
    ensures var rest := Survivors(config, w.store.jobs, w.engine.reqs, w.engine.now);
      && w.store.jobs[i] in rest
      && forall k :: 0 <= k < |rest| && rest[k].id == id ==> rest[k] == w.store.jobs[i]
  {
    var jobs, reqs, now := w.store.jobs, w.engine.reqs, w.engine.now;
    var rest := Survivors(config, jobs, reqs, now);
    OrphanIsNotSwept(config, w, id, i, now);
    SurvivorRetained(config, jobs, reqs, now, i);
    SurvivorsAreJobs(config, jobs, reqs, now);
    forall k | 0 <= k < |rest| && rest[k].id == id ensures rest[k] == jobs[i] {
      assert IsKept(config, jobs, reqs, now, rest[k]);
      var j :| 0 <= j < |jobs| && rest[k] == Kept(config, jobs[j], reqs[jobs[j].id], now);
      assert jobs[j].id == id;
    }
  }

  lemma OrphanIsNotStale(config: JobsConfig, w: World, id: nat)
    requires Known(w.store.jobs, w.engine.reqs) && IsOrphan(w, id)
    ensures forall k :: 0 <= k < |w.store.jobs| && w.store.jobs[k].id == id ==>
      !IsStale(config, w.store.jobs[k], w.engine.reqs[id], w.engine.now)
  {
    forall k | 0 <= k < |w.store.jobs| && w.store.jobs[k].id == id
      ensures !IsStale(config, w.store.jobs[k], w.engine.reqs[id], w.engine.now) {
      OrphanIsNotSwept(config, w, id, k, w.engine.now);
    }
  }

  lemma OrphanAndPost(
    c: AppConfig, config: JobsConfig, w: World, model: ModelName, key: Option<string>, mean: real, id: nat)
    requires c.Valid() && WorldOk(c, config, w) && Sound(c, w) && IsOrphan(w, id)
    ensures IsOrphan(Posted(c, config, w, model, key, mean), id)
  {
    if model in w.engine.queues {
      if IsLookedUp(key) && FindByKey(w.store, key.value).Some? {
        OrphanAdvised(c, config, w, FindByKey(w.store, key.value).value, mean, id);
      } else {
        var engine := Submitted(w.engine, model);
        SubmittedIsSound(c, w, model);
        var room := RoomMade(config, w.store, engine.reqs);
        if room.Some? {
          var newcomer := Opened(|w.engine.reqs|, key, engine.now);
          CreatedIsSound(c, config, w, engine, room.value, newcomer);
          var v := w.(engine := engine, store := Added(room.value, newcomer));
          OrphanInRoom(config, w, engine.reqs, id);
          OrphanBeside(w, engine, room.value, newcomer, id);
          OrphanAdvised(c, config, v, |w.engine.reqs|, mean, id);
        }
      }
    }
  }

  lemma OrphanInRoom(config: JobsConfig, w: World, reqs: Table, id: nat)
    requires Known(w.store.jobs, reqs) && IsOrphan(w, id) && RoomMade(config, w.store, reqs).Some?
    ensures IsOrphan(w.(store := RoomMade(config, w.store, reqs).value), id)
  {
  }

  lemma OrphanBeside(w: World, engine: State, room: Store, newcomer: Job, id: nat)
    requires IsOrphan(w.(store := room), id) && newcomer.id != id
    requires id < |engine.reqs| && engine.reqs[id] == w.engine.reqs[id]
    ensures IsOrphan(w.(engine := engine, store := Added(room, newcomer)), id)
  {
  }

  lemma OrphanAdvised(c: AppConfig, config: JobsConfig, w: World, other: nat, mean: real, id: nat)
    requires c.Valid() && Sound(c, w) && IsOrphan(w, id)
    ensures IsOrphan(Advised(c, config, w, other, mean), id)
  {
  }

  lemma OrphanAndOthers(c: AppConfig, config: JobsConfig, w: World, a: Act, id: nat)
    requires c.Valid() && WorldOk(c, config, w) && Sound(c, w) && CanAct(c, config, w, a) && IsOrphan(w, id)
    requires a != Delete(id) && (a.Poll? || a.Delete? || a.PumpTakes? || a.PumpEnds?)
    ensures IsOrphan(Do(c, config, w, a), id)
  {
    if PlaceOf(w.store.jobs, a.id).Some? {
      var k := PlaceOf(w.store.jobs, a.id).value;
      if a.Poll? {
        var v := w.(store := Updated(w.store, k, Read(w.store.jobs[k], w.engine.reqs[a.id], w.engine.now)));
        OrphanAdvised(c, config, v, a.id, a.mean, id);
      } else {
        assert RetainedOk(config, w, k);
      }
    }
  }
}
