/** What a polling client is told to wait, worked out from the engine's own requests and times. */
module JobEstimate {
  import opened Types
  import opened QueueSpec
  import opened EngineModel
  import opened EnginePools
  import opened EngineInvariant
  import opened EngineTheorems
  import opened EngineSight
  import opened JobModel
  import opened JobTable
  import DecisionTable

  /** Those that wait for the same model and came before. */
  function WaitingBefore(s: State, id: nat): set<nat> {
    set i: nat | 0 <= i < id && id < |s.reqs| && IsWaiting(s, s.reqs[id].model, i)
  }

  /** How much of the resident's minimum residency is left. */
  function HoldOf(c: AppConfig, s: State): real {
    if s.resident.Some? && s.residentSince.Some? && s.now - s.residentSince.value < c.scheduler.minResidency
    then c.scheduler.minResidency - (s.now - s.residentSince.value) else 0.0
  }

  lemma HoldIsLeft(c: AppConfig, s: State)
    requires c.Valid() && WellFormed(c, s)
    ensures DecisionTable.IsHoldLeft(SnapshotOf(c, s), s.now, c.scheduler, HoldOf(c, s))
  {
    var models := SnapshotOf(c, s).models;
    if s.resident.Some? {
      var k :| 0 <= k < |c.models| && c.models[k].name == s.resident.value;
      assert DecisionTable.IsResidentAt(SnapshotOf(c, s), k);
    }
    forall r: nat | DecisionTable.IsResidentAt(SnapshotOf(c, s), r)
      ensures HoldOf(c, s) == if DecisionTable.IsYoung(models[r], s.now, c.scheduler)
                              then c.scheduler.minResidency - (s.now - models[r].residentSince.value) else 0.0 {
      assert models[r] == ModelStateOf(s, c.models[r]);
    }
  }

  /** A request's position is the number of those that wait before it. */
  lemma PositionIsAhead(c: AppConfig, s: State, id: nat)
    requires Pools(c, s) && id < |s.reqs| && IsWaiting(s, s.reqs[id].model, id)
    ensures s.reqs[id].model in s.queues
    ensures PositionOf(s.reqs, s.queues[s.reqs[id].model], id) == Some(|WaitingBefore(s, id)|)
  {
    var m := s.reqs[id].model;
    assert Placed(s, id) && QueueOk(s, m);
    var live := Live(s.reqs, s.queues[m]);
    PositionCountsLive(s.reqs, s.queues[m], id);
    var p := PositionOf(s.reqs, s.queues[m], id).value;
    LiveAreWaiting(c, s, m);
    LiveIsIncreasing(s.reqs, s.queues[m]);
    FirstAreBefore(s, m, live, p);
  }

  lemma FirstAreBefore(s: State, m: ModelName, live: seq<nat>, p: nat)
    requires Increasing(live) && Members(live) == WaitingFor(s, m) && p < |live|
    requires live[p] < |s.reqs| && s.reqs[live[p]].model == m
    ensures |WaitingBefore(s, live[p])| == p
  {
    var id, first := live[p], live[..p];
    DistinctCount(first);
    forall i: nat ensures i in Members(first) <==> i in WaitingBefore(s, id) {
      if i in Members(first) {
        var k :| 0 <= k < |first| && first[k] == i;
        assert live[k] == i && i in Members(live);
      }
      if i in WaitingBefore(s, id) {
        assert i in WaitingFor(s, m);
        var k :| 0 <= k < |live| && live[k] == i;
        assert k < p;
        assert first[k] == i;
      }
    }
    assert Members(first) == WaitingBefore(s, id);
  }

  /** While a request waits, its estimate is there and is the whole estimate for as many ahead as came before it
      and still wait; once it has left its queue there is none. */
  lemma EstimateIsOf(c: AppConfig, s: State, id: nat, k: nat, mean: real)
    requires c.Valid() && Reachable(c, s) && id < |s.reqs| && k < |c.models| && c.models[k].name == s.reqs[id].model
    ensures WellFormed(c, s)
    ensures IsWaiting(s, s.reqs[id].model, id) ==>
      var e := EstimateOf(c, s, id, mean);
      e.Some? && DecisionTable.IsEstimate(
        SnapshotOf(c, s).models[k], |WaitingBefore(s, id)|, HoldOf(c, s), s.now, c.scheduler, mean, e.value)
    ensures s.reqs[id].state != Queued ==> EstimateOf(c, s, id, mean).None?
  {
    ReachableInv(c, s);
    if IsWaiting(s, s.reqs[id].model, id) {
      PositionIsAhead(c, s, id);
      HoldIsLeft(c, s);
      SnapshotNames(c, s);
      DecisionTable.EstimateIsRight(
        SnapshotOf(c, s), k, |WaitingBefore(s, id)|, HoldOf(c, s), s.now, c.scheduler, mean);
    } else if s.reqs[id].state != Queued {
      NotQueuedHasNone(c, s, id, mean);
    }
  }

  lemma NotQueuedHasNone(c: AppConfig, s: State, id: nat, mean: real)
    requires c.Valid() && Pools(c, s) && id < |s.reqs| && s.reqs[id].state != Queued
    ensures EstimateOf(c, s, id, mean).None?
  {
    var m := s.reqs[id].model;
    assert Placed(s, id) && QueueOk(s, m);
    PositionKnownIffQueued(s.reqs, s.queues[m], id);
  }

  /** At most half the lease, if there is one. */
  function Capped(base: real, config: JobsConfig): real {
    if config.lease != 0.0 && config.lease / 2.0 < base then config.lease / 2.0 else base
  }

  /** The advice: nothing to wait for once the job has ended, a quarter of the estimate between half a second and
      ten while its request waits, and a second while it is served; and never more than half the lease. */
  lemma AdviceIs(c: AppConfig, config: JobsConfig, s: State, job: Job, mean: real)
    requires c.Valid() && config.Valid() && Reachable(c, s) && job.id < |s.reqs| && WellFormed(c, s)
    ensures var request := s.reqs[job.id];
      var advice := RetryAfter(c, config, s, job, mean);
      var e := EstimateOf(c, s, job.id, mean);
      && (HasEnded(job, request) ==> advice == 0.0)
      && (!HasEnded(job, request) && request.state == Running ==> advice == Capped(1.0, config))
      && (!HasEnded(job, request) && request.state == Queued ==> e.Some? && advice == Capped(e.value.retryAfter, config))
  {
    ReadsAs(job, s.reqs[job.id]);
    if !HasEnded(job, s.reqs[job.id]) {
      EstimateWhileQueued(c, s, job.id, mean);
    }
    AdviceFollows(c, config, s, job, mean);
  }

  lemma EstimateWhileQueued(c: AppConfig, s: State, id: nat, mean: real)
    requires c.Valid() && Reachable(c, s) && id < |s.reqs| && WellFormed(c, s) && !s.reqs[id].cancelled
    ensures EstimateOf(c, s, id, mean).Some? <==> s.reqs[id].state == Queued
  {
    ReachableInv(c, s);
    assert Placed(s, id);
    var k :| 0 <= k < |c.models| && c.models[k].name == s.reqs[id].model;
    EstimateIsOf(c, s, id, k, mean);
  }

  lemma AdviceFollows(c: AppConfig, config: JobsConfig, s: State, job: Job, mean: real)
    requires c.scheduler.Valid() && config.Valid() && WellFormed(c, s) && job.id < |s.reqs|
    ensures var e := EstimateOf(c, s, job.id, mean);
      RetryAfter(c, config, s, job, mean) ==
        if IsTerminal(job, s.reqs[job.id]) then 0.0
        else Capped(if e.Some? then e.value.retryAfter else 1.0, config)
  {
  }

  /** Rounding is to the nearest whole number, and of two as near to the even one; the header of an accepted
      submission is that, but never below a second. */
  lemma RoundIsNearest(r: real)
    ensures var n := Round(r);
      && r - 0.5 <= n as real <= r + 0.5
      && (n as real == r - 0.5 || n as real == r + 0.5 ==> n % 2 == 0)
    ensures RetryAfterHeader(r) >= 1 && (r < 1.0 ==> RetryAfterHeader(r) == 1)
    ensures r >= 1.0 ==> RetryAfterHeader(r) == Round(r)
  {
    var below := r.Floor;
    assert below as real <= r < below as real + 1.0;
  }
}
