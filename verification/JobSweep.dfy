/** The sweep, which goes through the jobs one by one and changes store and requests as it goes, against
    its meaning: what happens to each job depends on that job alone. */
module JobSweep {
  import opened Types
  import opened Requests
  import opened QueueSpec
  import opened EngineModel
  import opened JobModel
  import opened JobInvariant

  // ------------------------------------------------------------------ what a sweep means

  function Kept(config: JobsConfig, job: Job, request: Request, now: real): Job {
    if IsStale(config, job, request, now) then Abandoned(job, now) else job
  }

  /** The jobs that remain, in order, the stale ones abandoned. */
  function Survivors(config: JobsConfig, jobs: seq<Job>, reqs: Table, now: real): seq<Job>
    requires Known(jobs, reqs)
  {
    if jobs == [] then []
    else (if IsExpired(config, jobs[0], reqs[jobs[0].id], now) then []
          else [Kept(config, jobs[0], reqs[jobs[0].id], now)]) + Survivors(config, jobs[1..], reqs, now)
  }

  /** The keys of the jobs that expire. */
  function KeysLost(config: JobsConfig, jobs: seq<Job>, reqs: Table, now: real): set<string>
    requires Known(jobs, reqs)
  {
    set k | 0 <= k < |jobs| && IsExpired(config, jobs[k], reqs[jobs[k].id], now) && jobs[k].key.Some? ::
      jobs[k].key.value
  }

  /** Some retained job for this request is stale. */
  predicate IsDeserted(config: JobsConfig, jobs: seq<Job>, reqs: Table, now: real, i: nat)
    requires Known(jobs, reqs)
  {
    exists k :: 0 <= k < |jobs| && jobs[k].id == i && IsStale(config, jobs[k], reqs[i], now)
  }

  function Deserted(config: JobsConfig, jobs: seq<Job>, reqs: Table, now: real): (r: Table)
    requires Known(jobs, reqs)
    ensures |r| == |reqs|
    ensures forall i :: 0 <= i < |reqs| ==>
      r[i] == if IsDeserted(config, jobs, reqs, now, i) then reqs[i].(cancelled := true) else reqs[i]
  {
    seq(|reqs|, i requires 0 <= i < |reqs| =>
      if IsDeserted(config, jobs, reqs, now, i) then reqs[i].(cancelled := true) else reqs[i])
  }

  function Meaning(config: JobsConfig, w: World): World
    requires Known(w.store.jobs, w.engine.reqs)
  {
    var jobs, reqs, now := w.store.jobs, w.engine.reqs, w.engine.now;
    World(w.engine.(reqs := Deserted(config, jobs, reqs, now)),
          Store(Survivors(config, jobs, reqs, now), w.store.byKey - KeysLost(config, jobs, reqs, now)),
          w.lastSweep)
  }

  // ------------------------------------------------------------------ the loop has that meaning

  /** The jobs `done` have been dealt with, those of `rest` not yet. */
  ghost predicate Midway(w: World, done: seq<Job>, rest: seq<Job>) {
    w.store.jobs == done + rest && DistinctIds(w.store.jobs) && Known(w.store.jobs, w.engine.reqs)
  }

  /** The sweep cancels exactly the requests of the stale jobs still in progress and forgets exactly the
      expired finished ones; everything else stays as and where it is. */
  lemma SweepIsExact(config: JobsConfig, w: World)
    requires DistinctIds(w.store.jobs) && Known(w.store.jobs, w.engine.reqs)
    ensures SweptOnce(config, w) == Meaning(config, w)
  {
    assert [] + w.store.jobs == w.store.jobs;
    SweepRest(config, w, [], w.store.jobs);
    OutcomeIsMeaning(config, w);
  }

  lemma OutcomeIsMeaning(config: JobsConfig, w: World)
    requires Known(w.store.jobs, w.engine.reqs)
    ensures Outcome(config, w, [], w.store.jobs) == Meaning(config, w)
  {
    var kept := Survivors(config, w.store.jobs, w.engine.reqs, w.engine.now);
    assert [] + kept == kept;
  }

  lemma {:induction false} SweepRest(config: JobsConfig, w: World, done: seq<Job>, rest: seq<Job>)
    requires Midway(w, done, rest) && Known(rest, w.engine.reqs)
    ensures SweptAll(config, w, IdsOf(rest)) == Outcome(config, w, done, rest)
    decreases |rest|
  {
    if rest == [] {
      NothingLeft(config, w, done);
    } else {
      var v := SweptOne(config, w, rest[0].id);
      assert IdsOf(rest)[1..] == IdsOf(rest[1..]);
      SweepHead(config, w, done, rest);
      var kept := Head(config, rest[0], w.engine.reqs, w.engine.now);
      SweepRest(config, v, done + kept, rest[1..]);
      OutcomeUnmoved(config, w, v, done, rest);
    }
  }

  /** The jobs in `done` as they are, those in `rest` swept. */
  function Outcome(config: JobsConfig, w: World, done: seq<Job>, rest: seq<Job>): World
    requires Known(rest, w.engine.reqs)
  {
    var reqs, now := w.engine.reqs, w.engine.now;
    World(w.engine.(reqs := Deserted(config, rest, reqs, now)),
          Store(done + Survivors(config, rest, reqs, now), w.store.byKey - KeysLost(config, rest, reqs, now)),
          w.lastSweep)
  }

  function Head(config: JobsConfig, job: Job, reqs: Table, now: real): seq<Job>
    requires job.id < |reqs|
  {
    if IsExpired(config, job, reqs[job.id], now) then [] else [Kept(config, job, reqs[job.id], now)]
  }

  lemma NothingLeft(config: JobsConfig, w: World, done: seq<Job>)
    requires w.store.jobs == done
    ensures Outcome(config, w, done, []) == w
  {
    assert Deserted(config, [], w.engine.reqs, w.engine.now) == w.engine.reqs;
    assert KeysLost(config, [], w.engine.reqs, w.engine.now) == {};
    assert w.store.byKey - {} == w.store.byKey;
    assert done + [] == done;
  }

  lemma OutcomeUnmoved(config: JobsConfig, w: World, v: World, done: seq<Job>, rest: seq<Job>)
    requires rest != [] && Known(rest, w.engine.reqs) && DistinctIds(done + rest)
    requires v.engine == w.engine.(reqs := AfterHead(config, rest[0], w.engine.reqs, w.engine.now))
    requires v.lastSweep == w.lastSweep
    requires v.store.byKey == w.store.byKey - KeyLost(config, rest[0], w.engine.reqs, w.engine.now)
    ensures Known(rest[1..], v.engine.reqs)
    ensures Outcome(config, v, done + Head(config, rest[0], w.engine.reqs, w.engine.now), rest[1..]) ==
      Outcome(config, w, done, rest)
  {
    var reqs, now := w.engine.reqs, w.engine.now;
    assert forall k :: 0 <= k < |rest| ==> (done + rest)[|done| + k] == rest[k];
    RestUnmoved(config, rest, reqs, v.engine.reqs, now);
    assert (done + Head(config, rest[0], reqs, now)) + Survivors(config, rest[1..], reqs, now) ==
      done + Survivors(config, rest, reqs, now);
    assert w.store.byKey - KeyLost(config, rest[0], reqs, now) - KeysLost(config, rest[1..], v.engine.reqs, now) ==
      w.store.byKey - KeysLost(config, rest, reqs, now);
  }

  function KeyLost(config: JobsConfig, job: Job, reqs: Table, now: real): set<string>
    requires job.id < |reqs|
  {
    if IsExpired(config, job, reqs[job.id], now) && job.key.Some? then {job.key.value} else {}
  }

  /** Dealing with the first of the remaining jobs. */
  lemma SweepHead(config: JobsConfig, w: World, done: seq<Job>, rest: seq<Job>)
    requires Midway(w, done, rest) && rest != [] && Known(rest, w.engine.reqs)
    ensures var job, reqs, now := rest[0], w.engine.reqs, w.engine.now;
      var v := SweptOne(config, w, job.id);
      && Midway(v, done + Head(config, job, reqs, now), rest[1..]) && Known(rest[1..], v.engine.reqs)
      && v.lastSweep == w.lastSweep
      && v.engine == w.engine.(reqs := AfterHead(config, job, reqs, now))
      && v.store.byKey == w.store.byKey - KeyLost(config, job, reqs, now)
  {
    var job := rest[0];
    assert w.store.jobs[|done|] == job;
    PlaceIsUnique(w.store.jobs, |done|);
    assert w.store.byKey - {} == w.store.byKey;
    HeadLeaves(config, w, done, rest);
    HeadStaysApart(done, Head(config, job, w.engine.reqs, w.engine.now), rest);
  }

  lemma HeadLeaves(config: JobsConfig, w: World, done: seq<Job>, rest: seq<Job>)
    requires w.store.jobs == done + rest && Known(w.store.jobs, w.engine.reqs) && rest != []
    requires PlaceOf(w.store.jobs, rest[0].id) == Some(|done|) && rest[0].id < |w.engine.reqs|
    ensures SweptOne(config, w, rest[0].id).store.jobs ==
      done + Head(config, rest[0], w.engine.reqs, w.engine.now) + rest[1..]
  {
    var jobs, job := SweptOne(config, w, rest[0].id).store.jobs, rest[0];
    if IsExpired(config, job, w.engine.reqs[job.id], w.engine.now) {
      assert jobs == done + [] + rest[1..];
    } else {
      assert jobs == done + [Kept(config, job, w.engine.reqs[job.id], w.engine.now)] + rest[1..];
    }
  }

  lemma HeadStaysApart(done: seq<Job>, head: seq<Job>, rest: seq<Job>)
    requires rest != [] && DistinctIds(done + rest) && |head| <= 1 && (head != [] ==> head[0].id == rest[0].id)
    ensures DistinctIds((done + head) + rest[1..]) && done + head + rest[1..] == (done + head) + rest[1..]
  {
    var all, was := (done + head) + rest[1..], done + rest;
    forall k | 0 <= k < |all| ensures all[k].id == was[if k < |done| then k else k + 1 - |head|].id {
    }
  }

  function AfterHead(config: JobsConfig, job: Job, reqs: Table, now: real): (r: Table)
    requires job.id < |reqs|
    ensures |r| == |reqs|
  {
    if IsStale(config, job, reqs[job.id], now) then reqs[job.id := reqs[job.id].(cancelled := true)] else reqs
  }

  /** What was done to the first job's request is no concern of the others. */
  lemma RestUnmoved(config: JobsConfig, rest: seq<Job>, reqs: Table, after: Table, now: real)
    requires rest != [] && Known(rest, reqs) && Known(rest[1..], after) && DistinctIds(rest)
    requires after == AfterHead(config, rest[0], reqs, now)
    ensures Survivors(config, rest[1..], after, now) == Survivors(config, rest[1..], reqs, now)
    ensures KeysLost(config, rest, reqs, now) ==
      KeysLost(config, rest[1..], after, now) + KeyLost(config, rest[0], reqs, now)
    ensures Deserted(config, rest[1..], after, now) == Deserted(config, rest, reqs, now)
  {
    SameSurvivors(config, rest[1..], reqs, after, now);
    SameKeysLost(config, rest, reqs, after, now);
    SameDeserted(config, rest, reqs, after, now);
  }

  lemma {:induction false} SameSurvivors(config: JobsConfig, jobs: seq<Job>, reqs: Table, after: Table, now: real)
    requires Known(jobs, reqs) && Known(jobs, after)
    requires forall k :: 0 <= k < |jobs| ==> after[jobs[k].id] == reqs[jobs[k].id]
    ensures Survivors(config, jobs, after, now) == Survivors(config, jobs, reqs, now)
  {
    if jobs != [] {
      assert forall k :: 0 <= k < |jobs[1..]| ==> jobs[1..][k] == jobs[k + 1];
      SameSurvivors(config, jobs[1..], reqs, after, now);
    }
  }

  lemma SameKeysLost(config: JobsConfig, rest: seq<Job>, reqs: Table, after: Table, now: real)
    requires rest != [] && Known(rest, reqs) && Known(rest[1..], after)
    requires forall k :: 0 < k < |rest| ==> after[rest[k].id] == reqs[rest[k].id]
    ensures KeysLost(config, rest, reqs, now) ==
      KeysLost(config, rest[1..], after, now) + KeyLost(config, rest[0], reqs, now)
  {
    var tail := rest[1..];
    forall key | key in KeysLost(config, rest, reqs, now)
      ensures key in KeysLost(config, tail, after, now) ||
        (IsExpired(config, rest[0], reqs[rest[0].id], now) && rest[0].key == Some(key)) {
      var k :| 0 <= k < |rest| && IsExpired(config, rest[k], reqs[rest[k].id], now) && rest[k].key == Some(key);
      assert k > 0 ==> tail[k - 1] == rest[k];
    }
    forall key | key in KeysLost(config, tail, after, now) ensures key in KeysLost(config, rest, reqs, now) {
      var k :| 0 <= k < |tail| && IsExpired(config, tail[k], after[tail[k].id], now) && tail[k].key == Some(key);
      assert rest[k + 1] == tail[k];
    }
  }

  lemma SameDeserted(config: JobsConfig, rest: seq<Job>, reqs: Table, after: Table, now: real)
    requires rest != [] && Known(rest, reqs) && Known(rest[1..], after) && DistinctIds(rest)
    requires after == AfterHead(config, rest[0], reqs, now)
    ensures Deserted(config, rest[1..], after, now) == Deserted(config, rest, reqs, now)
  {
    var tail := rest[1..];
    forall i: nat | i < |reqs|
      ensures Deserted(config, tail, after, now)[i] == Deserted(config, rest, reqs, now)[i] {
      if IsDeserted(config, tail, after, now, i) {
        var k :| 0 <= k < |tail| && tail[k].id == i && IsStale(config, tail[k], after[i], now);
        assert rest[k + 1].id == i && i != rest[0].id;
        assert IsStale(config, rest[k + 1], reqs[i], now);
      }
      if IsDeserted(config, rest, reqs, now, i) {
        var k :| 0 <= k < |rest| && rest[k].id == i && IsStale(config, rest[k], reqs[i], now);
        if k > 0 {
          assert tail[k - 1].id == i && i != rest[0].id && IsStale(config, tail[k - 1], after[i], now);
        }
      }
    }
  }

  // ------------------------------------------------------------------ sweeping twice

  /** Nothing of what a sweep leaves behind is stale or expired at that instant. */
  lemma {:induction false} SurvivorsAreFine(config: JobsConfig, jobs: seq<Job>, reqs: Table, after: Table, now: real)
    requires config.Valid() && Known(jobs, reqs) && Known(jobs, after)
    requires forall k :: 0 <= k < |jobs| ==> JobOk(jobs[k], reqs[jobs[k].id], now)
    requires forall k :: 0 <= k < |jobs| ==>
      after[jobs[k].id] == if IsStale(config, jobs[k], reqs[jobs[k].id], now) then reqs[jobs[k].id].(cancelled := true)
                           else reqs[jobs[k].id]
    ensures AllFine(config, Survivors(config, jobs, reqs, now), after, now)
  {
    if jobs != [] {
      assert forall k :: 0 <= k < |jobs[1..]| ==> jobs[1..][k] == jobs[k + 1];
      SurvivorsAreFine(config, jobs[1..], reqs, after, now);
      assert JobOk(jobs[0], reqs[jobs[0].id], now);
      KeptIsFine(config, jobs[0], reqs[jobs[0].id], now);
      assert AllFine(config, Head(config, jobs[0], reqs, now), after, now);
      assert Survivors(config, jobs, reqs, now) ==
        Head(config, jobs[0], reqs, now) + Survivors(config, jobs[1..], reqs, now);
    }
  }

  ghost predicate AllFine(config: JobsConfig, jobs: seq<Job>, reqs: Table, now: real) {
    forall k :: 0 <= k < |jobs| ==> IsFine(config, jobs[k], reqs, now)
  }

  ghost predicate IsFine(config: JobsConfig, job: Job, reqs: Table, now: real) {
    job.id < |reqs| && !IsStale(config, job, reqs[job.id], now) && !IsExpired(config, job, reqs[job.id], now)
  }

  lemma KeptIsFine(config: JobsConfig, job: Job, request: Request, now: real)
    requires config.Valid() && JobOk(job, request, now)
    ensures var stale := IsStale(config, job, request, now);
      var after := if stale then request.(cancelled := true) else request;
      var kept := Kept(config, job, request, now);
      && kept.id == job.id && !IsStale(config, kept, after, now)
      && (!IsExpired(config, job, request, now) ==> !IsExpired(config, kept, after, now))
  {
  }

  lemma {:induction false} FineSurvive(config: JobsConfig, jobs: seq<Job>, reqs: Table, now: real)
    requires Known(jobs, reqs)
    requires AllFine(config, jobs, reqs, now)
    ensures Survivors(config, jobs, reqs, now) == jobs
  {
    if jobs != [] {
      assert forall k :: 0 <= k < |jobs[1..]| ==> jobs[1..][k] == jobs[k + 1];
      FineSurvive(config, jobs[1..], reqs, now);
    }
  }

  lemma FineWorldUnmoved(config: JobsConfig, w: World)
    requires Known(w.store.jobs, w.engine.reqs)
    requires AllFine(config, w.store.jobs, w.engine.reqs, w.engine.now)
    ensures Meaning(config, w) == w
  {
    FineSurvive(config, w.store.jobs, w.engine.reqs, w.engine.now);
    assert Deserted(config, w.store.jobs, w.engine.reqs, w.engine.now) == w.engine.reqs;
    assert KeysLost(config, w.store.jobs, w.engine.reqs, w.engine.now) == {};
    assert w.store.byKey - {} == w.store.byKey;
  }

  lemma SweepLeavesFine(c: AppConfig, config: JobsConfig, w: World)
    requires c.Valid() && config.Valid() && WorldOk(c, config, w) && Sound(c, w)
    ensures var v := SweptOnce(config, w);
      AllFine(config, v.store.jobs, v.engine.reqs, v.engine.now) && v.engine.now == w.engine.now
  {
    var jobs, reqs, now := w.store.jobs, w.engine.reqs, w.engine.now;
    SweepIsExact(config, w);
    var v := SweptOnce(config, w);
    forall k | 0 <= k < |jobs|
      ensures JobOk(jobs[k], reqs[jobs[k].id], now)
      ensures v.engine.reqs[jobs[k].id] ==
        if IsStale(config, jobs[k], reqs[jobs[k].id], now) then reqs[jobs[k].id].(cancelled := true)
        else reqs[jobs[k].id] {
      assert RetainedOk(config, w, k);
      StaleIsDeserted(config, jobs, reqs, now, k);
    }
    SurvivorsAreFine(config, jobs, reqs, v.engine.reqs, now);
  }

  /** Sweeping again at the same instant changes nothing. */
  lemma SweepTwiceIsSweepOnce(c: AppConfig, config: JobsConfig, w: World)
    requires c.Valid() && config.Valid() && WorldOk(c, config, w) && Sound(c, w)
    ensures SweptOnce(config, SweptOnce(config, w)) == SweptOnce(config, w)
  {
    var v := SweptOnce(config, w);
    SweepAllKeepsWorld(c, config, w, IdsOf(w.store.jobs));
    SweepLeavesFine(c, config, w);
    SweepIsExact(config, v);
    FineWorldUnmoved(config, v);
  }

  lemma StaleIsDeserted(config: JobsConfig, jobs: seq<Job>, reqs: Table, now: real, k: nat)
    requires Known(jobs, reqs) && DistinctIds(jobs) && k < |jobs|
    ensures IsDeserted(config, jobs, reqs, now, jobs[k].id) <==> IsStale(config, jobs[k], reqs[jobs[k].id], now)
  {
  }
}
