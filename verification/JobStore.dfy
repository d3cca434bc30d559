/** The job store itself: records updated in place, a dictionary of jobs in order of insertion, and the
    index by idempotency key. Every method is proved to do what JobModel says. */
module JobStores {
  import opened Types
  import opened Requests
  import opened JobModel
  import opened JobInvariant

  class JobRecord {
    const queued: QueuedRequest
    const key: Option<string>
    const createdAt: real
    var lastPolledAt: real
    var chunks: seq<Chunk>
    var terminal: Option<StreamEvent>
    var finishedAt: Option<real>
    var firstReadAt: Option<real>
    var pump: Pump
    var taken: nat
    ghost var advised: real

    constructor (queued: QueuedRequest, key: Option<string>, now: real)
      ensures this.queued == queued && Value() == Opened(queued.id, key, now)
    {
      this.queued, this.key, createdAt, lastPolledAt := queued, key, now, now;
      chunks, terminal, finishedAt, firstReadAt := [], None, None, None;
      pump, taken, advised := Pumping, 0, 0.0;
    }

    ghost function Value(): Job
      reads this
    {
      Job(queued.id, key, createdAt, lastPolledAt, chunks, terminal, finishedAt, firstReadAt, pump, taken, advised)
    }

    function State(): (r: RequestState)
      reads this, queued
      ensures r == StateOf(Value(), queued.Value())
    {
      Derived(terminal, queued.cancelled, queued.state)
    }

    /** The time eviction goes by. */
    function Age(): (r: real)
      reads this
      ensures r == EvictionKey(Value())
    {
      JobModel.Age(finishedAt, createdAt)
    }
  }

  ghost function JobValues(jobs: seq<JobRecord>): (values: seq<Job>)
    reads jobs
    ensures |values| == |jobs|
    ensures forall k :: 0 <= k < |jobs| ==> values[k] == jobs[k].Value()
  {
    seq(|jobs|, k requires 0 <= k < |jobs| reads jobs => jobs[k].Value())
  }

  ghost function KeyIds(byKey: map<string, QueuedRequest>): map<string, nat> {
    map key | key in byKey :: byKey[key].id
  }

  lemma OneRecordChanged(jobs: seq<JobRecord>, before: seq<Job>, k: nat)
    requires k < |jobs| == |before|
    requires forall i :: 0 <= i < |jobs| && i != k ==> jobs[i].Value() == before[i]
    ensures JobValues(jobs) == before[k := jobs[k].Value()]
  {
  }

  lemma SweepUnfolds(config: JobsConfig, w: World, ids: seq<nat>, i: nat)
    requires JobModel.Known(w.store.jobs, w.engine.reqs) && i < |ids|
    ensures SweptAll(config, w, ids[i..]) == SweptAll(config, SweptOne(config, w, ids[i]), ids[i + 1..])
  {
    assert ids[i..][0] == ids[i] && ids[i..][1..] == ids[i + 1..];
  }

  class JobStore {
    const config: JobsConfig
    var jobs: seq<JobRecord>
    var byKey: map<string, QueuedRequest>

    ghost function View(): Store
      reads this, jobs
    {
      Store(JobValues(jobs), KeyIds(byKey))
    }

    ghost predicate Known(request: QueuedRequest, all: seq<QueuedRequest>) {
      request.id < |all| && all[request.id] == request
    }

    /** No two records are for one request. */
    ghost predicate Valid(all: seq<QueuedRequest>)
      reads this
    {
      && config.Valid() && Indexed(all)
      && (forall k :: 0 <= k < |jobs| ==> Known(jobs[k].queued, all))
      && (forall j, k :: 0 <= j < k < |jobs| ==> jobs[j].queued != jobs[k].queued)
      && (forall key :: key in byKey ==> Known(byKey[key], all))
    }

    constructor (config: JobsConfig)
      requires config.Valid()
      ensures this.config == config && Valid([]) && View() == Store([], map[])
    {
      this.config := config;
      jobs, byKey := [], map[];
    }

    lemma ViewIsKnown(all: seq<QueuedRequest>)
      requires Valid(all)
      ensures JobModel.Known(View().jobs, Values(all)) && DistinctIds(View().jobs)
    {
    }

    /** Find the record of a request. */
    method Lookup(queued: QueuedRequest, ghost all: seq<QueuedRequest>) returns (k: int)
      requires Valid(all) && Known(queued, all)
      ensures -1 <= k < |jobs|
      ensures PlaceOf(View().jobs, queued.id) == if k == -1 then None else Some(k)
      ensures k != -1 ==> jobs[k].queued == queued
    {
      ViewIsKnown(all);
      for i := 0 to |jobs|
        invariant forall j :: 0 <= j < i ==> jobs[j].queued != queued
      {
        if jobs[i].queued == queued {
          PlaceIsUnique(View().jobs, i);
          return i;
        }
      }
      k := -1;
      forall j | 0 <= j < |jobs| ensures View().jobs[j].id != queued.id {
        assert jobs[j].queued != queued && Known(jobs[j].queued, all);
      }
    }

    method Forget(k: nat, ghost all: seq<QueuedRequest>)
      requires Valid(all) && k < |jobs|
      modifies this
      ensures Valid(all) && jobs == old(jobs[..k] + jobs[k + 1..])
      ensures View() == Forgotten(old(View()), k)
    {
      var key := jobs[k].key;
      ghost var before := View();
      jobs := jobs[..k] + jobs[k + 1..];
      assert JobValues(jobs) == Without(before.jobs, k);
      if key.Some? {
        byKey := byKey - {key.value};
        assert KeyIds(byKey) == before.byKey - {key.value};
      }
    }

    /** The first of the terminal jobs that finished earliest. */
    method ToEvict(ghost all: seq<QueuedRequest>) returns (best: int)
      requires Valid(all)
      ensures -1 <= best < |jobs|
      ensures JobModel.Known(View().jobs, Values(all))
      ensures Evictable(View().jobs, Values(all)) == if best == -1 then None else Some(best)
    {
      ViewIsKnown(all);
      best := -1;
      for i := 0 to |jobs|
        invariant -1 <= best < i
        invariant best == -1 ==> forall j :: 0 <= j < i ==> !jobs[j].State().IsTerminal()
        invariant best != -1 ==> IsBest(best, i)
      {
        if jobs[i].State().IsTerminal() && (best == -1 || jobs[i].Age() < jobs[best].Age()) {
          best := i;
        }
      }
      BestIsEvictable(best, all);
    }

    /** Among the first `n`, the terminal job with the least age, the first of them. */
    ghost predicate IsBest(best: nat, n: nat)
      requires best < n <= |jobs|
      reads this, jobs, set k | 0 <= k < |jobs| :: jobs[k].queued
    {
      && jobs[best].State().IsTerminal()
      && (forall j :: 0 <= j < n && jobs[j].State().IsTerminal() ==> jobs[best].Age() <= jobs[j].Age())
      && (forall j :: 0 <= j < best && jobs[j].State().IsTerminal() ==> jobs[best].Age() < jobs[j].Age())
    }

    lemma BestIsEvictable(best: int, all: seq<QueuedRequest>)
      requires Valid(all) && -1 <= best < |jobs|
      requires best == -1 ==> forall j :: 0 <= j < |jobs| ==> !jobs[j].State().IsTerminal()
      requires best != -1 ==> IsBest(best, |jobs|)
      ensures JobModel.Known(View().jobs, Values(all))
      ensures Evictable(View().jobs, Values(all)) == if best == -1 then None else Some(best)
    {
      ViewIsKnown(all);
      var values, reqs := View().jobs, Values(all);
      var k := Evictable(values, reqs);
      forall j | 0 <= j < |jobs|
        ensures IsTerminal(values[j], reqs[values[j].id]) <==> jobs[j].State().IsTerminal()
        ensures EvictionKey(values[j]) == jobs[j].Age() {
        assert reqs[values[j].id] == jobs[j].queued.Value();
      }
      if best != -1 && k.Some? {
        assert jobs[best].Age() <= jobs[k.value].Age();
      }
    }

    /** False is the refusal: at the ceiling with nothing evictable. */
    method MakeRoom(ghost all: seq<QueuedRequest>) returns (made: bool)
      requires Valid(all)
      modifies this
      ensures Valid(all) && JobModel.Known(old(View()).jobs, Values(all))
      ensures forall k :: 0 <= k < |jobs| ==> jobs[k] in old(jobs)
      ensures var room := RoomMade(config, old(View()), Values(all));
        made == room.Some? && View() == if made then room.value else old(View())
    {
      ViewIsKnown(all);
      if |jobs| < config.maxJobs {
        return true;
      }
      var best := ToEvict(all);
      if best == -1 {
        return false;
      }
      Forget(best, all);
      made := true;
    }

    /** Add a job for this request, evicting one if need be; null if nobody can be evicted. */
    method Create(queued: QueuedRequest, key: Option<string>, now: real, ghost all: seq<QueuedRequest>)
      returns (job: JobRecord?)
      requires Valid(all) && Known(queued, all) && forall k :: 0 <= k < |jobs| ==> jobs[k].queued != queued
      modifies this
      ensures Valid(all) && JobModel.Known(old(View()).jobs, Values(all))
      ensures var room := RoomMade(config, old(View()), Values(all));
        && (job == null <==> room.None?)
        && View() == if room.Some? then Added(room.value, Opened(queued.id, key, now)) else old(View())
      ensures job != null ==> fresh(job) && job.queued == queued
    {
      var made := MakeRoom(all);
      if !made {
        return null;
      }
      job := new JobRecord(queued, key, now);
      Insert(job, all);
    }

    method Insert(job: JobRecord, ghost all: seq<QueuedRequest>)
      requires Valid(all) && Known(job.queued, all) && forall k :: 0 <= k < |jobs| ==> jobs[k].queued != job.queued
      modifies this
      ensures Valid(all) && View() == Added(old(View()), job.Value())
    {
      ghost var before := View();
      jobs := jobs + [job];
      assert JobValues(jobs) == before.jobs + [job.Value()];
      if job.key.Some? {
        byKey := byKey[job.key.value := job.queued];
        assert KeyIds(byKey) == before.byKey[job.key.value := job.queued.id];
      }
    }

    /** The place of the retained job that the index names for this key, or -1. */
    method FindByKey(key: string, ghost all: seq<QueuedRequest>) returns (k: int)
      requires Valid(all)
      ensures -1 <= k < |jobs|
      ensures k == -1 <==> JobModel.FindByKey(View(), key).None?
      ensures k != -1 ==> JobModel.FindByKey(View(), key) == Some(jobs[k].queued.id)
    {
      if key !in byKey {
        return -1;
      }
      k := Lookup(byKey[key], all);
    }

    /** A poll: the lease starts anew, and a finished job's first poll is remembered. */
    method Get(queued: QueuedRequest, now: real, ghost all: seq<QueuedRequest>) returns (k: int)
      requires Valid(all) && Known(queued, all)
      modifies jobs
      ensures Valid(all) && -1 <= k < |jobs| && PlaceOf(old(View()).jobs, queued.id) == if k == -1 then None else Some(k)
      ensures View() == if k == -1 then old(View())
                        else Updated(old(View()), k, Read(old(View()).jobs[k], queued.Value(), now))
    {
      k := Lookup(queued, all);
      if k != -1 {
        ghost var before := JobValues(jobs);
        var job := jobs[k];
        job.lastPolledAt := now;
        if job.State().IsTerminal() && job.firstReadAt.None? {
          job.firstReadAt := Some(now);
        }
        OneRecordChanged(jobs, before, k);
      }
    }

    /** The request reads cancelled, the pump is told to stop and the job has a finishing time, the earlier
        one if it had one. */
    method Abandon(k: nat, now: real, ghost all: seq<QueuedRequest>)
      requires Valid(all) && k < |jobs|
      modifies jobs[k], jobs[k].queued
      ensures Valid(all)
      ensures View() == Updated(old(View()), k, Abandoned(old(View()).jobs[k], now))
      ensures var id := jobs[k].queued.id;
        Values(all) == old(Values(all))[id := old(Values(all))[id].(cancelled := true)]
    {
      var job := jobs[k];
      ghost var before := JobValues(jobs);
      job.queued.Cancel(all);
      if job.pump.Pumping? {
        job.pump := PumpStopping;
      }
      if job.finishedAt.None? {
        job.finishedAt := Some(now);
      }
      OneRecordChanged(jobs, before, k);
    }

    /** Delete: false if there is no such job. */
    method Cancel(queued: QueuedRequest, now: real, ghost all: seq<QueuedRequest>, ghost w: World) returns (found: bool)
      requires Valid(all) && Known(queued, all) && Shows(w, all, now)
      modifies jobs, all
      ensures Valid(all) && JobModel.Known(w.store.jobs, w.engine.reqs) && Shows(Deleted(w, queued.id), all, now)
      ensures found == PlaceOf(w.store.jobs, queued.id).Some?
    {
      ViewIsKnown(all);
      var k := Lookup(queued, all);
      found := k != -1;
      if found {
        Abandon(k, now, all);
      }
    }

    /** The world's store and requests are what these objects hold. */
    ghost predicate Shows(w: World, all: seq<QueuedRequest>, now: real)
      reads this, jobs, all
    {
      w.store == View() && w.engine.reqs == Values(all) && w.engine.now == now
    }

    /** One step of the sweep. */
    method SweepOne(job: JobRecord, now: real, ghost all: seq<QueuedRequest>, ghost w: World)
      requires Valid(all) && Known(job.queued, all) && Shows(w, all, now)
      modifies this, jobs, all
      ensures Valid(all) && JobModel.Known(w.store.jobs, w.engine.reqs)
      ensures Shows(SweptOne(config, w, job.queued.id), all, now)
      ensures forall k :: 0 <= k < |jobs| ==> jobs[k] in old(jobs)
    {
      ViewIsKnown(all);
      var k := Lookup(job.queued, all);
      if k != -1 {
        SweepAt(k, now, all, w);
      }
    }

    method SweepAt(k: nat, now: real, ghost all: seq<QueuedRequest>, ghost w: World)
      requires Valid(all) && k < |jobs| && Shows(w, all, now)
      modifies this, jobs, all
      ensures Valid(all) && JobModel.Known(w.store.jobs, w.engine.reqs)
      ensures Shows(SweptAt(config, w, k), all, now)
      ensures forall k :: 0 <= k < |jobs| ==> jobs[k] in old(jobs)
    {
      ViewIsKnown(all);
      var found := jobs[k];
      var terminal := found.State().IsTerminal();
      if config.lease != 0.0 && !terminal && now - found.lastPolledAt > config.lease {
        Abandon(k, now, all);
      } else if terminal && found.finishedAt.Some? {
        var expiresAt := if found.firstReadAt.Some? then found.firstReadAt.value + config.readTtl
                         else found.finishedAt.value + config.resultTtl;
        if now >= expiresAt {
          Forget(k, all);
        }
      }
    }

    /** `v` is the world in the middle of the sweep of `w`, before the job at place `i`. */
    ghost predicate IsSweptUpTo(w: World, v: World, ids: seq<nat>, i: nat) {
      && JobModel.Known(w.store.jobs, w.engine.reqs) && JobModel.Known(v.store.jobs, v.engine.reqs)
      && i <= |ids| && SweptAll(config, v, ids[i..]) == SweptOnce(config, w)
    }

    lemma SweptOneMore(w: World, v: World, ids: seq<nat>, i: nat)
      requires IsSweptUpTo(w, v, ids, i) && i < |ids|
      ensures IsSweptUpTo(w, SweptOne(config, v, ids[i]), ids, i + 1)
    {
      SweepUnfolds(config, v, ids, i);
    }

    /** Whatever job was there at the beginning: exactly the stale ones in progress end up abandoned, and
        exactly the expired finished ones are gone. */
    method SweepOnce(now: real, ghost all: seq<QueuedRequest>, ghost w: World)
      requires Valid(all) && Shows(w, all, now)
      modifies this, jobs, all
      ensures Valid(all) && JobModel.Known(w.store.jobs, w.engine.reqs)
      ensures Shows(SweptOnce(config, w), all, now)
    {
      ViewIsKnown(all);
      var found := jobs;
      ghost var ids := IdsOf(w.store.jobs);
      assert forall k :: 0 <= k < |found| ==> ids[k] == found[k].queued.id;
      ghost var v := w;
      assert ids[0..] == ids;
      for i := 0 to |found|
        invariant Valid(all) && Shows(v, all, now) && IsSweptUpTo(w, v, ids, i)
        invariant forall k :: 0 <= k < |jobs| ==> jobs[k] in found
      {
        SweptOneMore(w, v, ids, i);
        SweepOne(found[i], now, all, v);
        v := SweptOne(config, v, ids[i]);
      }
      assert ids[|found|..] == [];
    }

    /** The pump takes one event off the channel. */
    method PumpTake(k: nat, now: real, ghost all: seq<QueuedRequest>)
      requires Valid(all) && k < |jobs| && jobs[k].pump.Pumping? && jobs[k].taken < |jobs[k].queued.channel|
      modifies jobs[k]
      ensures Valid(all)
      ensures var job := old(View()).jobs[k];
        View() == Updated(old(View()), k, Pumped(job, jobs[k].queued.channel[job.taken], now))
    {
      ghost var before := JobValues(jobs);
      var job := jobs[k];
      var event := job.queued.channel[job.taken];
      job.taken := job.taken + 1;
      if event.Piece? {
        job.chunks := job.chunks + [event.chunk];
      } else {
        job.terminal := Some(event);
        job.pump, job.finishedAt := PumpOver, Some(now);
      }
      OneRecordChanged(jobs, before, k);
    }

    /** A pump told to stop stops. */
    method PumpEnd(k: nat, now: real, ghost all: seq<QueuedRequest>)
      requires Valid(all) && k < |jobs| && jobs[k].pump.PumpStopping?
      modifies jobs[k]
      ensures Valid(all) && View() == Updated(old(View()), k, PumpStopped(old(View()).jobs[k], now))
    {
      ghost var before := JobValues(jobs);
      jobs[k].pump, jobs[k].finishedAt := PumpOver, Some(now);
      OneRecordChanged(jobs, before, k);
    }
  }
}
