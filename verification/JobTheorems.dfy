/** The promises of polled jobs, for every history of store and engine. */
module JobTheorems {
  import opened Types
  import opened Requests
  import opened QueueSpec
  import opened EngineModel
  import opened JobModel
  import opened JobInvariant
  import opened JobSweep
  import EngineInvariant

  // ------------------------------------------------------------------ every history

  lemma SweepKeepsWorld(c: AppConfig, config: JobsConfig, w: World)
    requires c.Valid() && config.Valid() && WorldOk(c, config, w) && Sound(c, w)
    ensures WorldOk(c, config, Do(c, config, w, Sweep))
  {
    var v := SweptOnce(config, w);
    SweepAllKeepsWorld(c, config, w, IdsOf(w.store.jobs));
    SweepIsExact(config, w);
    var swept := v.(lastSweep := w.engine.now);
    forall k: nat | k < |swept.store.jobs| ensures RetainedOk(config, swept, k) {
      assert RetainedOk(config, v, k);
      NothingStale(c, config, w, k);
    }
  }

  /** Right after a sweep nobody is overdue for a poll. */
  lemma NothingStale(c: AppConfig, config: JobsConfig, w: World, k: nat)
    requires c.Valid() && config.Valid() && WorldOk(c, config, w) && Sound(c, w)
    requires k < |SweptOnce(config, w).store.jobs|
    ensures var v := SweptOnce(config, w);
      var job := v.store.jobs[k];
      job.id < |v.engine.reqs| && !IsStale(config, job, v.engine.reqs[job.id], v.engine.now)
  {
    SweepLeavesFine(c, config, w);
    var v := SweptOnce(config, w);
    assert IsFine(config, v.store.jobs[k], v.engine.reqs, v.engine.now);
  }

  lemma StepKeepsWorld(c: AppConfig, config: JobsConfig, w: World, a: Act)
    requires c.Valid() && config.Valid() && WorldOk(c, config, w) && Sound(c, w) && CanAct(c, config, w, a)
    ensures WorldOk(c, config, Do(c, config, w, a))
  {
    match a
    case EngineDoes(action) =>
      EngineStep(c, w.engine, action);
      EngineMoves(config, w, Step(c, w.engine, action));
      AdvanceAdds(c, w.engine, action);
    case Post(model, key, mean) => PostKeepsWorld(c, config, w, model, key, mean);
    case Poll(id, mean) => PollKeepsWorld(c, config, w, id, mean);
    case Delete(id) =>
      if PlaceOf(w.store.jobs, id).Some? {
        AbandonKeepsWorld(c, config, w, PlaceOf(w.store.jobs, id).value);
      }
    case PumpTakes(_) => PumpKeepsWorld(c, config, w, a);
    case PumpEnds(_) => PumpKeepsWorld(c, config, w, a);
    case Sweep => SweepKeepsWorld(c, config, w);
  }

  lemma AdvanceAdds(c: AppConfig, s: State, a: Action)
    requires WellFormed(c, s) && Enabled(c, s, a)
    ensures a.Advance? ==> Step(c, s, a).now == s.now + a.seconds
  {
  }

  lemma {:induction false} HistoryKeepsWorld(c: AppConfig, config: JobsConfig, w: World, run: seq<Act>)
    requires c.Valid() && config.Valid() && WorldOk(c, config, w) && IsHistory(c, config, w, run)
    ensures WorldOk(c, config, Afterwards(c, config, w, run))
    decreases run
  {
    if run != [] {
      StepKeepsWorld(c, config, w, run[0]);
      HistoryKeepsWorld(c, config, Do(c, config, w, run[0]), run[1..]);
    }
  }

  ghost predicate Happens(c: AppConfig, config: JobsConfig, w: World)
    requires c.scheduler.Valid()
  {
    exists start: real, run: seq<Act> ::
      IsHistory(c, config, Begin(c, start), run) && Afterwards(c, config, Begin(c, start), run) == w
  }

  lemma HappensOk(c: AppConfig, config: JobsConfig, w: World)
    requires c.Valid() && config.Valid() && Happens(c, config, w)
    ensures WorldOk(c, config, w) && Sound(c, w)
  {
    var start, run :| IsHistory(c, config, Begin(c, start), run) && Afterwards(c, config, Begin(c, start), run) == w;
    EngineInvariant.InitIsSafe(c, start);
    HistoryKeepsWorld(c, config, Begin(c, start), run);
    IsSound(c, config, w);
  }

  // ------------------------------------------------------------------ retention

  ghost predicate Retains(w: World, id: nat) {
    exists k :: 0 <= k < |w.store.jobs| && w.store.jobs[k].id == id
  }

  /** The store never grows past its ceiling, and no two retained jobs are for one request. */
  lemma StoreIsBounded(c: AppConfig, config: JobsConfig, w: World)
    requires c.Valid() && config.Valid() && Happens(c, config, w)
    ensures |w.store.jobs| <= config.maxJobs && DistinctIds(w.store.jobs)
  {
    HappensOk(c, config, w);
  }

  lemma ForgetsOnlyOne(s: Store, k: nat, i: nat)
    requires k < |s.jobs| && i < |s.jobs| && i != k
    ensures s.jobs[i] in Forgotten(s, k).jobs
  {
    assert Forgotten(s, k).jobs[if i < k then i else i - 1] == s.jobs[i];
  }

  lemma UpdateRetains(w: World, k: nat, job: Job, i: nat)
    requires k < |w.store.jobs| && job.id == w.store.jobs[k].id && i < |w.store.jobs|
    ensures Retains(w.(store := Updated(w.store, k, job)), w.store.jobs[i].id)
  {
    assert Updated(w.store, k, job).jobs[i].id == w.store.jobs[i].id;
  }

  lemma AdviseRetains(c: AppConfig, config: JobsConfig, w: World, id: nat, mean: real, i: nat)
    requires c.Valid() && Sound(c, w) && i < |w.store.jobs|
    ensures Retains(Advised(c, config, w, id, mean), w.store.jobs[i].id)
  {
    var place := PlaceOf(w.store.jobs, id);
    if place.Some? {
      var job := w.store.jobs[place.value];
      UpdateRetains(w, place.value, job.(advised := RetryAfter(c, config, w.engine, job, mean)), i);
    }
  }

  lemma RoomRetains(config: JobsConfig, s: Store, reqs: Table, i: nat)
    requires Known(s.jobs, reqs) && i < |s.jobs| && !IsTerminal(s.jobs[i], reqs[s.jobs[i].id])
    ensures var room := RoomMade(config, s, reqs); room.Some? ==> s.jobs[i] in room.value.jobs
  {
    if |s.jobs| >= config.maxJobs && Evictable(s.jobs, reqs).Some? {
      ForgetsOnlyOne(s, Evictable(s.jobs, reqs).value, i);
    }
  }

  lemma {:induction false} SurvivorRetained(config: JobsConfig, jobs: seq<Job>, reqs: Table, now: real, i: nat)
    requires Known(jobs, reqs) && i < |jobs| && !IsExpired(config, jobs[i], reqs[jobs[i].id], now)
    ensures Kept(config, jobs[i], reqs[jobs[i].id], now) in Survivors(config, jobs, reqs, now)
  {
    if i > 0 {
      SurvivorRetained(config, jobs[1..], reqs, now, i - 1);
    }
  }

  lemma InProgressSurvivesPost(
    c: AppConfig, config: JobsConfig, w: World, model: ModelName, key: Option<string>, mean: real, i: nat)
    requires c.Valid() && WorldOk(c, config, w) && Sound(c, w) && i < |w.store.jobs|
    requires !IsTerminal(w.store.jobs[i], w.engine.reqs[w.store.jobs[i].id])
    ensures Retains(Posted(c, config, w, model, key, mean), w.store.jobs[i].id)
  {
    if model in w.engine.queues {
      if IsLookedUp(key) && FindByKey(w.store, key.value).Some? {
        AdviseRetains(c, config, w, FindByKey(w.store, key.value).value, mean, i);
      } else {
        var engine := Submitted(w.engine, model);
        SubmittedIsSound(c, w, model);
        RoomRetains(config, w.store, engine.reqs, i);
        var room := RoomMade(config, w.store, engine.reqs);
        if room.Some? {
          var job := Opened(|w.engine.reqs|, key, engine.now);
          CreatedIsSound(c, config, w, engine, room.value, job);
          var v := w.(engine := engine, store := Added(room.value, job));
          var j :| 0 <= j < |room.value.jobs| && room.value.jobs[j] == w.store.jobs[i];
          assert v.store.jobs[j] == w.store.jobs[i];
          AdviseRetains(c, config, v, |w.engine.reqs|, mean, j);
        }
      }
    }
  }

  /** A job leaves the store only once it is terminal: no step forgets one still in progress. */
  lemma LeavesOnlyIfTerminal(c: AppConfig, config: JobsConfig, w: World, a: Act, i: nat)
    requires c.Valid() && config.Valid() && Happens(c, config, w) && Sound(c, w) && CanAct(c, config, w, a)
    requires i < |w.store.jobs|
    ensures Retains(Do(c, config, w, a), w.store.jobs[i].id)
      || IsTerminal(w.store.jobs[i], w.engine.reqs[w.store.jobs[i].id])
  {
    HappensOk(c, config, w);
    var job := w.store.jobs[i];
    if !IsTerminal(job, w.engine.reqs[job.id]) {
      InProgressIsRetained(c, config, w, a, i);
    }
  }

  lemma InProgressIsRetained(c: AppConfig, config: JobsConfig, w: World, a: Act, i: nat)
    requires c.Valid() && config.Valid() && WorldOk(c, config, w) && Sound(c, w) && CanAct(c, config, w, a)
    requires i < |w.store.jobs| && !IsTerminal(w.store.jobs[i], w.engine.reqs[w.store.jobs[i].id])
    ensures Retains(Do(c, config, w, a), w.store.jobs[i].id)
  {
    if a.Post? {
      InProgressSurvivesPost(c, config, w, a.model, a.key, a.mean, i);
    } else if a.Sweep? {
      SweepIsExact(config, w);
      SurvivorRetained(config, w.store.jobs, w.engine.reqs, w.engine.now, i);
    } else {
      OtherActRetains(c, config, w, a, i);
    }
  }

  lemma OtherActRetains(c: AppConfig, config: JobsConfig, w: World, a: Act, i: nat)
    requires c.Valid() && WorldOk(c, config, w) && Sound(c, w) && CanAct(c, config, w, a) && i < |w.store.jobs|
    requires !a.Post? && !a.Sweep?
    ensures Retains(Do(c, config, w, a), w.store.jobs[i].id)
  {
    if a.Poll? && PlaceOf(w.store.jobs, a.id).Some? {
      var k := PlaceOf(w.store.jobs, a.id).value;
      var read := Read(w.store.jobs[k], w.engine.reqs[a.id], w.engine.now);
      var v := w.(store := Updated(w.store, k, read));
      AdviseRetains(c, config, v, a.id, a.mean, i);
    } else {
      assert Do(c, config, w, a).store.jobs[i].id == w.store.jobs[i].id;
    }
  }

  /** A finished result that was never read lives for the long time to live from its finish; the first read
      puts it on the short one, and later reads do not prolong it. */
  lemma ReadStartsShortClockOnce(config: JobsConfig, job: Job, request: Request, now: real, later: real, t: real)
    requires config.Valid() && IsTerminal(job, request) && job.finishedAt.Some? && job.firstReadAt.None?
    ensures IsExpired(config, job, request, t) <==> t >= job.finishedAt.value + config.resultTtl
    ensures var read := Read(job, request, now);
      var again := Read(read, request, later);
      && again.lastPolledAt == later && again.firstReadAt == read.firstReadAt == Some(now)
      && (IsExpired(config, again, request, t) <==> t >= now + config.readTtl)
  {
  }

  /** Deleting a job cancels its request and leaves the job with what it has recorded, or reading cancelled;
      deleting it again changes nothing. */
  lemma DeleteIsIdempotent(w: World, id: nat)
    requires Known(w.store.jobs, w.engine.reqs) && DistinctIds(w.store.jobs)
    ensures var v := Deleted(w, id);
      && Known(v.store.jobs, v.engine.reqs) && Deleted(v, id) == v
      && forall k :: 0 <= k < |v.store.jobs| && v.store.jobs[k].id == id ==>
           var job := v.store.jobs[k];
           && !job.pump.Pumping? && v.engine.reqs[id].cancelled && job.finishedAt.Some?
           && (job.terminal.None? ==> StateOf(job, v.engine.reqs[id]) == Cancelled)
  {
    var place := PlaceOf(w.store.jobs, id);
    if place.Some? {
      var v := Deleted(w, id);
      assert v.store.jobs[place.value].id == id;
      PlaceIsUnique(v.store.jobs, place.value);
      var job, request := v.store.jobs[place.value], v.engine.reqs[id];
      assert Abandoned(job, w.engine.now) == job;
      assert v.store.jobs[place.value := job] == v.store.jobs;
      assert v.engine.reqs[id := request.(cancelled := true)] == v.engine.reqs;
    }
  }

  // ------------------------------------------------------------------ the key index

  ghost predicate KeyOk(s: Store, key: string)
    requires key in s.byKey
  {
    exists k :: 0 <= k < |s.jobs| && s.jobs[k].key == Some(key) && s.jobs[k].id == s.byKey[key]
  }

  ghost predicate JobIsIndexed(s: Store, k: nat)
    requires k < |s.jobs|
  {
    s.jobs[k].key.Some? ==> s.jobs[k].key.value in s.byKey && s.byKey[s.jobs[k].key.value] == s.jobs[k].id
  }

  /** Index and retained jobs correspond exactly; in particular no two retained jobs share a key. */
  ghost predicate KeysOk(s: Store) {
    && DistinctIds(s.jobs)
    && (forall key :: key in s.byKey ==> KeyOk(s, key))
    && (forall k: nat :: k < |s.jobs| ==> JobIsIndexed(s, k))
  }

  lemma OneJobPerKey(s: Store, j: nat, k: nat)
    requires KeysOk(s) && j < |s.jobs| && k < |s.jobs| && s.jobs[j].key.Some? && s.jobs[j].key == s.jobs[k].key
    ensures j == k && FindByKey(s, s.jobs[j].key.value) == Some(s.jobs[j].id)
  {
    assert JobIsIndexed(s, j) && JobIsIndexed(s, k);
    PlaceIsUnique(s.jobs, j);
  }

  lemma ForgetKeepsKeys(s: Store, k: nat)
    requires KeysOk(s) && k < |s.jobs|
    ensures KeysOk(Forgotten(s, k))
  {
    var t := Forgotten(s, k);
    forall i: nat | i < |t.jobs| ensures JobIsIndexed(t, i) {
      var j := if i < k then i else i + 1;
      assert t.jobs[i] == s.jobs[j];
      assert JobIsIndexed(s, j) && JobIsIndexed(s, k);
    }
    forall key | key in t.byKey ensures KeyOk(t, key) {
      assert KeyOk(s, key);
      var j :| 0 <= j < |s.jobs| && s.jobs[j].key == Some(key) && s.jobs[j].id == s.byKey[key];
      assert j != k;
      assert t.jobs[if j < k then j else j - 1] == s.jobs[j];
    }
  }

  lemma UpdateKeepsKeys(s: Store, k: nat, job: Job)
    requires KeysOk(s) && k < |s.jobs| && job.id == s.jobs[k].id && job.key == s.jobs[k].key
    ensures KeysOk(Updated(s, k, job))
  {
    var t := Updated(s, k, job);
    forall i: nat | i < |t.jobs| ensures JobIsIndexed(t, i) {
      assert JobIsIndexed(s, i);
    }
    forall key | key in t.byKey ensures KeyOk(t, key) {
      assert KeyOk(s, key);
      var j :| 0 <= j < |s.jobs| && s.jobs[j].key == Some(key) && s.jobs[j].id == s.byKey[key];
      assert t.jobs[j].key == Some(key);
    }
  }

  /** Opening a job keeps the correspondence if and only if its key is not held by a retained job. */
  lemma AddKeepsKeysIff(s: Store, job: Job)
    requires KeysOk(s) && forall k :: 0 <= k < |s.jobs| ==> s.jobs[k].id != job.id
    ensures KeysOk(Added(s, job)) <==> !(job.key.Some? && job.key.value in s.byKey)
  {
    var t := Added(s, job);
    assert t.jobs[|s.jobs|] == job;
    if job.key.Some? && job.key.value in s.byKey {
      assert KeyOk(s, job.key.value);
      var j :| 0 <= j < |s.jobs| && s.jobs[j].key == job.key;
      assert t.jobs[j].key == job.key && !JobIsIndexed(t, j);
    } else {
      forall i: nat | i < |t.jobs| ensures JobIsIndexed(t, i) {
        if i < |s.jobs| {
          assert JobIsIndexed(s, i);
        }
      }
      forall key | key in t.byKey ensures KeyOk(t, key) {
        if key in s.byKey {
          assert KeyOk(s, key);
          var j :| 0 <= j < |s.jobs| && s.jobs[j].key == Some(key) && s.jobs[j].id == s.byKey[key];
          assert t.jobs[j].key == Some(key);
        }
      }
    }
  }

  lemma RoomKeepsKeys(config: JobsConfig, s: Store, reqs: Table)
    requires KeysOk(s) && Known(s.jobs, reqs)
    ensures var room := RoomMade(config, s, reqs); room.Some? ==> KeysOk(room.value)
  {
    if |s.jobs| >= config.maxJobs && Evictable(s.jobs, reqs).Some? {
      ForgetKeepsKeys(s, Evictable(s.jobs, reqs).value);
    }
  }

  lemma AdviseKeepsKeys(c: AppConfig, config: JobsConfig, w: World, id: nat, mean: real)
    requires c.scheduler.Valid() && Sound(c, w)
    ensures KeysOk(w.store) <==> KeysOk(Advised(c, config, w, id, mean).store)
  {
    var place := PlaceOf(w.store.jobs, id);
    if place.Some? {
      var k := place.value;
      var job := w.store.jobs[k];
      var advised := job.(advised := RetryAfter(c, config, w.engine, job, mean));
      if KeysOk(w.store) {
        UpdateKeepsKeys(w.store, k, advised);
      }
      var t := Updated(w.store, k, advised);
      if KeysOk(t) {
        UpdateKeepsKeys(t, k, job);
        assert Updated(t, k, job).jobs == w.store.jobs;
      }
    }
  }

  /** Is a submission with this key going to open a second job beside one that holds the key already?
      Only the empty key can: it is stored but never looked up. */
  predicate Duplicates(config: JobsConfig, w: World, model: ModelName, key: Option<string>)
    requires Known(w.store.jobs, w.engine.reqs)
  {
    var room := RoomMade(config, w.store, w.engine.reqs + [Fresh(model, w.engine.now)]);
    model in w.engine.queues && key == Some("") && room.Some? && "" in room.value.byKey
  }

  /** A submission keeps index and retained jobs in exact correspondence if and only if it does not open a
      second job under the empty key. */
  lemma PostKeepsKeysIff(c: AppConfig, config: JobsConfig, w: World, model: ModelName, key: Option<string>, mean: real)
    requires c.Valid() && config.Valid() && WorldOk(c, config, w) && Sound(c, w) && KeysOk(w.store)
    ensures KeysOk(Posted(c, config, w, model, key, mean).store) <==> !Duplicates(config, w, model, key)
  {
    if model in w.engine.queues {
      if IsLookedUp(key) && FindByKey(w.store, key.value).Some? {
        AdviseKeepsKeys(c, config, w, FindByKey(w.store, key.value).value, mean);
      } else {
        NewPostKeepsKeysIff(c, config, w, model, key, mean);
      }
    }
  }

  lemma NewPostKeepsKeysIff(c: AppConfig, config: JobsConfig, w: World, model: ModelName, key: Option<string>, mean: real)
    requires c.Valid() && config.Valid() && WorldOk(c, config, w) && Sound(c, w) && KeysOk(w.store)
    requires model in w.engine.queues && !(IsLookedUp(key) && FindByKey(w.store, key.value).Some?)
    ensures KeysOk(Posted(c, config, w, model, key, mean).store) <==> !Duplicates(config, w, model, key)
  {
    var id := |w.engine.reqs|;
    var engine := Submitted(w.engine, model);
    SubmittedIsSound(c, w, model);
    assert engine.reqs == w.engine.reqs + [Fresh(model, w.engine.now)];
    RoomKeepsKeys(config, w.store, engine.reqs);
    var room := RoomMade(config, w.store, engine.reqs);
    if room.Some? {
      RoomIsOld(config, w, engine.reqs);
      var job := Opened(id, key, engine.now);
      CreatedIsSound(c, config, w, engine, room.value, job);
      AddKeepsKeysIff(room.value, job);
      AdviseKeepsKeys(c, config, w.(engine := engine, store := Added(room.value, job)), id, mean);
      UnindexedIsNotHeld(config, w, engine.reqs, key);
    }
  }

  /** A key that is looked up and not found is not in the index, before or after room is made. */
  lemma UnindexedIsNotHeld(config: JobsConfig, w: World, reqs: Table, key: Option<string>)
    requires KeysOk(w.store) && Known(w.store.jobs, reqs)
    requires RoomMade(config, w.store, reqs).Some?
    requires IsLookedUp(key) ==> FindByKey(w.store, key.value).None?
    ensures IsLookedUp(key) ==> key.value !in RoomMade(config, w.store, reqs).value.byKey
  {
    if IsLookedUp(key) {
      IndexedIsFound(w.store, key.value);
    }
  }

  lemma IndexedIsFound(s: Store, key: string)
    requires KeysOk(s)
    ensures key in s.byKey ==> FindByKey(s, key) == Some(s.byKey[key])
  {
    if key in s.byKey {
      assert KeyOk(s, key);
      var k :| 0 <= k < |s.jobs| && s.jobs[k].id == s.byKey[key];
      PlaceIsUnique(s.jobs, k);
    }
  }

  /** Every other step keeps the correspondence. */
  lemma OtherActKeepsKeys(c: AppConfig, config: JobsConfig, w: World, a: Act)
    requires c.Valid() && config.Valid() && WorldOk(c, config, w) && Sound(c, w) && CanAct(c, config, w, a)
    requires KeysOk(w.store) && !a.Post?
    ensures KeysOk(Do(c, config, w, a).store)
  {
    if a.Sweep? {
      SweepKeepsKeys(config, w, IdsOf(w.store.jobs));
    } else if !a.EngineDoes? && PlaceOf(w.store.jobs, a.id).Some? {
      var k := PlaceOf(w.store.jobs, a.id).value;
      if a.Poll? {
        var read := Read(w.store.jobs[k], w.engine.reqs[a.id], w.engine.now);
        UpdateKeepsKeys(w.store, k, read);
        AdviseKeepsKeys(c, config, w.(store := Updated(w.store, k, read)), a.id, a.mean);
      } else {
        JobActKeepsKeys(c, config, w, a, k);
      }
    }
  }

  lemma JobActKeepsKeys(c: AppConfig, config: JobsConfig, w: World, a: Act, k: nat)
    requires c.Valid() && Sound(c, w) && CanAct(c, config, w, a) && KeysOk(w.store)
    requires a.Delete? || a.PumpTakes? || a.PumpEnds?
    requires PlaceOf(w.store.jobs, a.id) == Some(k)
    ensures KeysOk(Do(c, config, w, a).store)
  {
    var job := Do(c, config, w, a).store.jobs[k];
    assert Do(c, config, w, a).store == Updated(w.store, k, job);
    UpdateKeepsKeys(w.store, k, job);
  }

  lemma {:induction false} SweepKeepsKeys(config: JobsConfig, w: World, ids: seq<nat>)
    requires Known(w.store.jobs, w.engine.reqs) && KeysOk(w.store)
    ensures KeysOk(SweptAll(config, w, ids).store)
    decreases |ids|
  {
    if ids != [] {
      var place := PlaceOf(w.store.jobs, ids[0]);
      if place.Some? {
        ForgetKeepsKeys(w.store, place.value);
        UpdateKeepsKeys(w.store, place.value, Abandoned(w.store.jobs[place.value], w.engine.now));
      }
      SweepKeepsKeys(config, SweptOne(config, w, ids[0]), ids[1..]);
    }
  }

  ghost predicate NoEmptyKeys(run: seq<Act>) {
    forall i :: 0 <= i < |run| && run[i].Post? ==> run[i].key != Some("")
  }

  /** In every history whose clients send no empty key, one key means one retained job. */
  lemma {:induction false} KeysStayExact(c: AppConfig, config: JobsConfig, w: World, run: seq<Act>)
    requires c.Valid() && config.Valid() && WorldOk(c, config, w) && IsHistory(c, config, w, run)
    requires KeysOk(w.store) && NoEmptyKeys(run)
    ensures KeysOk(Afterwards(c, config, w, run).store)
    decreases run
  {
    if run != [] {
      var a := run[0];
      StepKeepsWorld(c, config, w, a);
      if a.Post? {
        PostKeepsKeysIff(c, config, w, a.model, a.key, a.mean);
      } else {
        OtherActKeepsKeys(c, config, w, a);
      }
      assert forall i :: 0 <= i < |run[1..]| ==> run[1..][i] == run[i + 1];
      KeysStayExact(c, config, Do(c, config, w, a), run[1..]);
    }
  }

  /** With the empty key the correspondence does break: two submissions open two jobs under one key. */
  lemma EmptyKeyBreaksIndex(c: AppConfig, config: JobsConfig, start: real, mean: real)
    requires c.Valid() && config.Valid() && 2 <= config.maxJobs
    ensures var m := c.models[0].name;
      var w := Begin(c, start);
      && Sound(c, w)
      && var first := Posted(c, config, w, m, Some(""), mean);
      && Sound(c, first) && KeysOk(first.store) && |first.store.jobs| == 1
      && var second := Posted(c, config, first, m, Some(""), mean);
      !KeysOk(second.store)
  {
    var m, w := c.models[0].name, Begin(c, start);
    EngineInvariant.InitIsSafe(c, start);
    assert m in c.Names();
    PostKeepsKeysIff(c, config, w, m, Some(""), mean);
    PostKeepsWorld(c, config, w, m, Some(""), mean);
    var first := Posted(c, config, w, m, Some(""), mean);
    IsSound(c, config, first);
    FirstIsHeld(c, config, w, m, mean);
    PostKeepsKeysIff(c, config, first, m, Some(""), mean);
  }

  lemma FirstIsHeld(c: AppConfig, config: JobsConfig, w: World, model: ModelName, mean: real)
    requires c.Valid() && config.Valid() && Sound(c, w) && model in w.engine.queues && w.store == Store([], map[])
    ensures var first := Posted(c, config, w, model, Some(""), mean);
      |first.store.jobs| == 1 && "" in first.store.byKey && model in first.engine.queues
  {
    SubmittedIsSound(c, w, model);
    var engine := Submitted(w.engine, model);
    var job := Opened(|w.engine.reqs|, Some(""), engine.now);
    CreatedIsSound(c, config, w, engine, w.store, job);
    assert Added(w.store, job).jobs == [job];
  }
}
