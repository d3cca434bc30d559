/** What the engine decides, in terms of its own queues: who is overdue, and what one pass does about it. */
module EngineFairness {
  import opened Types
  import opened Requests
  import opened QueueSpec
  import opened EngineModel
  import opened EnginePools
  import opened EngineInvariant
  import opened EngineTheorems
  import Policy

  ghost predicate HasWork(s: State, m: ModelName) {
    m in s.queues && Within(s.queues[m], s.reqs) && Live(s.reqs, s.queues[m]) != []
  }

  /** The oldest live request of `m`. */
  ghost function Head(s: State, m: ModelName): nat
    requires HasWork(s, m)
  {
    Live(s.reqs, s.queues[m])[0]
  }

  /** `m` could be loaded now, is not resident, and its oldest live request has waited past the ceiling. */
  ghost predicate OverdueAt(c: AppConfig, s: State, m: ModelName) {
    && HasWork(s, m)
    && !InBackoff(s, m, s.now)
    && s.resident != Some(m)
    && s.now - s.reqs[Head(s, m)].enqueuedAt >= c.scheduler.maxWait
  }

  ghost predicate SomeoneOverdue(c: AppConfig, s: State) {
    exists m :: m in c.Names() && OverdueAt(c, s, m)
  }

  // ------------------------------------------------------------------ through the policy's eyes

  lemma OverdueSeen(c: AppConfig, s: State, i: nat)
    requires c.Valid() && WellFormed(c, s) && i < |c.models|
    ensures Policy.IsOverdue(SnapshotOf(c, s).models[i], s.resident, s.now, c.scheduler)
       <==> OverdueAt(c, s, c.models[i].name)
  {
    var m := c.models[i].name;
    assert SnapshotOf(c, s).models[i] == ModelStateOf(s, c.models[i]);
  }

  /** The age the policy sees is the largest: in every reachable state, whatever has been cancelled, what the
      snapshot reports as a model's oldest wait is the age of some live request in its queue, and no live
      request there is older. */
  lemma ReportedAgeIsLargest(c: AppConfig, s: State, k: nat, i: nat)
    requires c.Valid() && Reachable(c, s) && WellFormed(c, s) && k < |c.models|
    requires c.models[k].name in s.queues && i in s.queues[c.models[k].name] && !s.reqs[i].cancelled
    ensures var m := c.models[k].name;
      var seen := SnapshotOf(c, s).models[k];
      && HasWork(s, m) && s.reqs[i].enqueuedAt <= s.now
      && s.now - s.reqs[i].enqueuedAt <= s.now - s.reqs[Head(s, m)].enqueuedAt
      && seen.HasPending() && seen.OldestWait(s.now) == s.now - s.reqs[Head(s, m)].enqueuedAt
      && Head(s, m) in s.queues[m] && !s.reqs[Head(s, m)].cancelled
  {
    var m := c.models[k].name;
    ReachableInv(c, s);
    HeadIsOldest(s, m, i);
    assert SnapshotOf(c, s).models[k] == ModelStateOf(s, c.models[k]);
  }

  lemma HeadIsOldest(s: State, m: ModelName, i: nat)
    requires m in s.queues && QueueOk(s, m) && ArrivalsOk(s) && i in s.queues[m] && !s.reqs[i].cancelled
    ensures HasWork(s, m) && Head(s, m) in s.queues[m] && !s.reqs[Head(s, m)].cancelled
    ensures s.reqs[Head(s, m)].enqueuedAt <= s.reqs[i].enqueuedAt <= s.now
  {
    LiveMembers(s.reqs, s.queues[m]);
    OldestIsEarliest(s.reqs, s.queues[m]);
    assert Live(s.reqs, s.queues[m])[0] in Live(s.reqs, s.queues[m]);
  }

  /** What a decision made at rest says about overdue models. */
  ghost predicate Heeds(c: AppConfig, s: State, d: Decision) {
    && (d.reason == Starvation <==> SomeoneOverdue(c, s))
    && (d.reason == Starvation ==>
          d.kind == Switch && d.target.Some? && d.target.value in c.Names() && OverdueAt(c, s, d.target.value))
  }

  lemma DecisionHeeds(c: AppConfig, s: State)
    requires c.Valid() && WellFormed(c, s) && !s.draining && !s.switching
    ensures Heeds(c, s, DecisionOf(c, s))
  {
    Policy.StarvationIffOverdue(SnapshotOf(c, s), s.now, c.scheduler);
    CeilingHeeded(c, s, DecisionOf(c, s));
  }

  lemma CeilingHeeded(c: AppConfig, s: State, d: Decision)
    requires c.Valid() && WellFormed(c, s)
    requires Policy.HeedsCeiling(SnapshotOf(c, s), s.now, c.scheduler, d)
    ensures Heeds(c, s, d)
  {
    var snapshot := SnapshotOf(c, s);
    SeenOverdueIff(c, s);
    if d.reason == Starvation {
      var t :| t in snapshot.models && Policy.IsLongestOverdue(t, snapshot, s.now, c.scheduler)
               && d.target == Some(t.name);
      TargetSeen(c, s, t);
    }
  }

  lemma TargetSeen(c: AppConfig, s: State, t: ModelState)
    requires c.Valid() && WellFormed(c, s)
    requires t in SnapshotOf(c, s).models && Policy.IsOverdue(t, s.resident, s.now, c.scheduler)
    ensures t.name in c.Names() && OverdueAt(c, s, t.name)
  {
    var i :| 0 <= i < |c.models| && SnapshotOf(c, s).models[i] == t;
    OverdueSeen(c, s, i);
  }

  lemma OverdueIsSeen(c: AppConfig, s: State)
    requires c.Valid() && WellFormed(c, s) && SomeoneOverdue(c, s)
    ensures exists m :: m in SnapshotOf(c, s).models && Policy.IsOverdue(m, s.resident, s.now, c.scheduler)
  {
    var models := SnapshotOf(c, s).models;
    var m :| m in c.Names() && OverdueAt(c, s, m);
    var i :| 0 <= i < |c.models| && c.models[i].name == m;
    OverdueSeen(c, s, i);
    assert models[i] in models;
  }

  lemma SeenOverdueIff(c: AppConfig, s: State)
    requires c.Valid() && WellFormed(c, s)
    ensures SomeoneOverdue(c, s) <==>
      exists m :: m in SnapshotOf(c, s).models && Policy.IsOverdue(m, s.resident, s.now, c.scheduler)
  {
    var models := SnapshotOf(c, s).models;
    if SomeoneOverdue(c, s) {
      OverdueIsSeen(c, s);
    }
    if m :| m in models && Policy.IsOverdue(m, s.resident, s.now, c.scheduler) {
      var i :| 0 <= i < |models| && models[i] == m;
      OverdueSeen(c, s, i);
      assert c.models[i].name in c.Names();
    }
  }

  /** The resident has queued work and is up. */
  ghost predicate Wanted(s: State) {
    s.resident.Some? && HasWork(s, s.resident.value) && s.resident.value !in s.unavailableUntil
  }

  /** Some model with queued work that could be loaded now scores strictly above the resident. */
  ghost predicate Outscored(c: AppConfig, s: State) {
    WellFormed(c, s) && exists r :: 0 <= r < |c.models| && OutscoredAs(c, s, r)
  }

  ghost predicate OutscoredAs(c: AppConfig, s: State, r: nat)
    requires WellFormed(c, s) && r < |c.models|
  {
    && s.resident == Some(c.models[r].name) && c.models[r].name in s.queues
    && Policy.SomeoneOutscores(SnapshotOf(c, s), ModelStateOf(s, c.models[r]), s.now, c.scheduler)
  }

  /** The resident is within its minimum residency. */
  predicate IsProtected(c: AppConfig, s: State) {
    s.residentSince.Some? && s.now - s.residentSince.value < c.scheduler.minResidency
  }

  /** Nobody takes the device from the resident: neither the ceiling nor, once it is no longer protected, a
      higher score. */
  ghost predicate Prevails(c: AppConfig, s: State) {
    !SomeoneOverdue(c, s) && (IsProtected(c, s) || !Outscored(c, s))
  }

  /** A resident with queued work is let to dispatch exactly when it prevails, and else made to leave. */
  ghost predicate Lets(c: AppConfig, s: State, d: Decision) {
    && (Policy.Dispatches(d) <==> Prevails(c, s))
    && (!Policy.Dispatches(d) ==>
          Policy.IsSwitch(d) && d.reason == if SomeoneOverdue(c, s) then Starvation else ChallengerWins)
  }

  lemma DecisionLets(c: AppConfig, s: State)
    requires c.Valid() && WellFormed(c, s) && !s.draining && !s.switching && Wanted(s)
    ensures Lets(c, s, DecisionOf(c, s))
  {
    var snapshot := SnapshotOf(c, s);
    SnapshotNames(c, s);
    var r :| 0 <= r < |c.models| && c.models[r].name == s.resident.value;
    assert snapshot.models[r] == ModelStateOf(s, c.models[r]);
    Policy.BusyResidentDispatchesIff(snapshot, s.now, c.scheduler, snapshot.models[r]);
    GoingOnSeen(c, s, r, DecisionOf(c, s));
  }

  lemma GoingOnSeen(c: AppConfig, s: State, r: nat, d: Decision)
    requires c.Valid() && WellFormed(c, s) && r < |c.models| && s.resident == Some(c.models[r].name)
    requires Policy.GoesOnIff(SnapshotOf(c, s), s.now, c.scheduler, SnapshotOf(c, s).models[r], d)
    ensures Lets(c, s, d)
  {
    SeenOverdueIff(c, s);
    OnlyResidentIsOutscored(c, s, r);
  }

  lemma OnlyResidentIsOutscored(c: AppConfig, s: State, r: nat)
    requires c.Valid() && WellFormed(c, s) && r < |c.models| && s.resident == Some(c.models[r].name)
    ensures c.models[r].name in s.queues
    ensures Outscored(c, s) <==>
      Policy.SomeoneOutscores(SnapshotOf(c, s), ModelStateOf(s, c.models[r]), s.now, c.scheduler)
  {
    assert SnapshotOf(c, s).models[r] == ModelStateOf(s, c.models[r]);
    assert OutscoredAs(c, s, r) <==>
      Policy.SomeoneOutscores(SnapshotOf(c, s), ModelStateOf(s, c.models[r]), s.now, c.scheduler);
    forall i | 0 <= i < |c.models| && OutscoredAs(c, s, i) ensures i == r {
      assert c.models[i].name == c.models[r].name;
    }
  }

  // ------------------------------------------------------------------ through the sweep

  /** The sweep changes nobody's live entries and no request's arrival, so it changes nobody's standing. */
  ghost predicate SameLive(s: State, t: State, m: ModelName) {
    && m in s.queues && m in t.queues && Within(s.queues[m], s.reqs) && Within(t.queues[m], t.reqs)
    && Live(t.reqs, t.queues[m]) == Live(s.reqs, s.queues[m])
    && |t.reqs| == |s.reqs|
    && forall i :: 0 <= i < |s.reqs| ==>
         t.reqs[i].enqueuedAt == s.reqs[i].enqueuedAt && t.reqs[i].cancelled == s.reqs[i].cancelled
  }

  lemma SweepSeesSameLive(c: AppConfig, s: State, m: ModelName)
    requires Pools(c, s) && m in s.queues
    ensures SameLive(s, Swept(c, s), m)
  {
    var t := Swept(c, s);
    assert QueueOk(s, m);
    LiveIsIdempotent(s.reqs, s.queues[m]);
    LiveOfSameFlags(s.reqs, t.reqs, Live(s.reqs, s.queues[m]));
  }

  lemma SweepSeesSameOverdue(c: AppConfig, s: State, m: ModelName)
    requires Pools(c, s) && m in s.queues
    ensures OverdueAt(c, Swept(c, s), m) <==> OverdueAt(c, s, m)
    ensures HasWork(Swept(c, s), m) <==> HasWork(s, m)
    ensures HasWork(s, m) ==> Head(Swept(c, s), m) == Head(s, m)
  {
    SweepSeesSameLive(c, s, m);
    SweepKeepsLoop(c, s);
  }

  ghost predicate SameStanding(c: AppConfig, s: State, t: State) {
    forall m :: m in c.Names() ==> (OverdueAt(c, t, m) <==> OverdueAt(c, s, m))
  }

  /** The state in which a pass decides, and the overdue models in it. */
  lemma DecidingState(c: AppConfig, s: State)
    requires c.Valid() && Safe(c, s) && IsDeciding(s)
    ensures var t := Swept(c, Woken(s));
      && Pools(c, t) && !t.draining && !t.switching
      && (t.resident.Some? ==> t.resident.value !in t.unavailableUntil)
      && t.resident == s.resident && t.residentSince == s.residentSince && t.now == s.now
      && t.dispatched == s.dispatched && t.phase == s.phase && t.unavailableUntil == s.unavailableUntil
      && t.failed == s.failed
    ensures SameStanding(c, s, Swept(c, Woken(s)))
  {
    SameStates(c, s, Woken(s));
    SweepKeepsPools(c, Woken(s));
    SweepKeepsLoop(c, Woken(s));
    SweptIsAtRest(c, s);
    forall m | m in c.Names() ensures OverdueAt(c, Swept(c, Woken(s)), m) <==> OverdueAt(c, s, m) {
      SweepSeesSameOverdue(c, Woken(s), m);
      WokenSeesSame(c, s, m);
    }
  }

  lemma WokenSeesSame(c: AppConfig, s: State, m: ModelName)
    ensures OverdueAt(c, Woken(s), m) <==> OverdueAt(c, s, m)
    ensures HasWork(Woken(s), m) <==> HasWork(s, m)
  {
  }

  lemma SweptSeesSameModel(c: AppConfig, s: State, i: nat)
    requires c.Valid() && Safe(c, s) && IsDeciding(s) && i < |c.models|
    ensures var t := Swept(c, Woken(s));
      && WellFormed(c, t) && c.models[i].name in s.queues && c.models[i].name in t.queues
      && var seen := ModelStateOf(t, c.models[i]);
      seen == ModelStateOf(s, c.models[i]).(inFlight := seen.inFlight, idleSince := seen.idleSince)
  {
    assert c.models[i].name in c.Names();
    DecidingState(c, s);
    SweptSeesSameLive(c, s, c.models[i].name);
    ModelSeenSame(s, Swept(c, Woken(s)), c.models[i]);
  }

  lemma ModelSeenSame(s: State, t: State, model: ModelConfig)
    requires AllWithin(s.queues, s.reqs) && AllWithin(t.queues, t.reqs) && SameLive(s, t, model.name)
    requires t.resident == s.resident && t.residentSince == s.residentSince && t.unavailableUntil == s.unavailableUntil
    ensures var seen := ModelStateOf(t, model);
      seen == ModelStateOf(s, model).(inFlight := seen.inFlight, idleSince := seen.idleSince)
  {
  }

  /** A sweep changes nobody's score. */
  lemma SweptSeesSameScores(c: AppConfig, s: State)
    requires c.Valid() && Safe(c, s) && IsDeciding(s) && s.resident.Some?
    ensures Outscored(c, Swept(c, Woken(s))) <==> Outscored(c, s)
  {
    var t := Swept(c, Woken(s));
    DecidingState(c, s);
    var r :| 0 <= r < |c.models| && c.models[r].name == s.resident.value;
    forall i | 0 <= i < |c.models|
      ensures IsRetold(SnapshotOf(c, s).models[i], SnapshotOf(c, t).models[i]) {
      SweptSeesSameModel(c, s, i);
    }
    OnlyResidentIsOutscored(c, s, r);
    OnlyResidentIsOutscored(c, t, r);
    SameScores(SnapshotOf(c, s), SnapshotOf(c, t), r, s.now, c.scheduler);
  }

  /** The same model, seen alike but for what is in flight and since when it is idle. */
  predicate IsRetold(state: ModelState, other: ModelState) {
    other == state.(inFlight := other.inFlight, idleSince := other.idleSince)
  }

  lemma SameScores(snapshot: Snapshot, other: Snapshot, r: nat, now: real, config: SchedulerConfig)
    requires |other.models| == |snapshot.models| && r < |snapshot.models|
    requires forall i :: 0 <= i < |snapshot.models| ==> IsRetold(snapshot.models[i], other.models[i])
    ensures Policy.SomeoneOutscores(other, other.models[r], now, config) <==>
      Policy.SomeoneOutscores(snapshot, snapshot.models[r], now, config)
  {
    forall i | 0 <= i < |snapshot.models|
      ensures Policy.Outscores(other.models[i], other.models[r], now, config) <==>
        Policy.Outscores(snapshot.models[i], snapshot.models[r], now, config) {
      assert IsRetold(snapshot.models[i], other.models[i]) && IsRetold(snapshot.models[r], other.models[r]);
    }
    SomeoneAt(snapshot, snapshot.models[r], now, config);
    SomeoneAt(other, other.models[r], now, config);
  }

  lemma SomeoneAt(snapshot: Snapshot, resident: ModelState, now: real, config: SchedulerConfig)
    ensures Policy.SomeoneOutscores(snapshot, resident, now, config) <==>
      exists i :: 0 <= i < |snapshot.models| && Policy.Outscores(snapshot.models[i], resident, now, config)
  {
    if i :| 0 <= i < |snapshot.models| && Policy.Outscores(snapshot.models[i], resident, now, config) {
      assert snapshot.models[i] in snapshot.models;
    }
  }

  // ------------------------------------------------------------------ what one pass does

  /** While anyone is overdue a pass dispatches nothing: it switches, towards someone overdue. */
  lemma OverdueMeansSwitch(c: AppConfig, s: State)
    requires c.Valid() && Safe(c, s) && IsDeciding(s) && SomeoneOverdue(c, s)
    ensures Passed(c, s).dispatched == s.dispatched && SwitchesTo(c, s, Passed(c, s))
    ensures forall m :: m in s.queues ==> SameLive(s, Passed(c, s), m)
  {
    DecidingState(c, s);
    var swept := Swept(c, Woken(s));
    DecisionHeeds(c, swept);
    HeedfulSwitch(c, s, swept, DecisionOf(c, swept));
    forall m | m in s.queues ensures SameLive(s, Passed(c, s), m) {
      OverdueKeepsLive(c, s, swept, DecisionOf(c, swept), m);
    }
  }

  lemma OverdueKeepsLive(c: AppConfig, s: State, swept: State, d: Decision, m: ModelName)
    requires c.Valid() && Safe(c, s) && swept == Swept(c, Woken(s)) && m in s.queues
    requires Heeds(c, swept, d) && SomeoneOverdue(c, swept)
    ensures SameLive(s, Obeyed(c, swept, d), m)
  {
    SweptSeesSameLive(c, s, m);
    HeedfulKeepsLive(c, swept, d, m);
    SameLiveJoins(s, swept, Obeyed(c, swept, d), m);
  }

  lemma SweptSeesSameLive(c: AppConfig, s: State, m: ModelName)
    requires Pools(c, s) && m in s.queues
    ensures WellFormed(c, Woken(s)) && SameLive(s, Swept(c, Woken(s)), m)
  {
    SameStates(c, s, Woken(s));
    SweepSeesSameLive(c, Woken(s), m);
  }

  lemma SameLiveJoins(s: State, t: State, u: State, m: ModelName)
    requires SameLive(s, t, m) && SameLive(t, u, m)
    ensures SameLive(s, u, m)
  {
  }

  lemma HeedfulKeepsLive(c: AppConfig, s: State, d: Decision, m: ModelName)
    requires WellFormed(c, s) && Heeds(c, s, d) && SomeoneOverdue(c, s) && m in s.queues
    ensures SameLive(s, Obeyed(c, s, d), m)
  {
    SwitchKeepsLive(c, s, d, m);
  }

  lemma SwitchKeepsLive(c: AppConfig, s: State, d: Decision, m: ModelName)
    requires WellFormed(c, s) && Policy.IsSwitch(d) && m in s.queues
    ensures SameLive(s, Obeyed(c, s, d), m)
  {
    var t := Obeyed(c, s, d);
    assert t.queues == s.queues;
    LiveOfSameFlags(s.reqs, t.reqs, s.queues[m]);
  }

  lemma HeedfulSwitch(c: AppConfig, s: State, swept: State, d: Decision)
    requires WellFormed(c, swept) && Heeds(c, swept, d) && SameStanding(c, s, swept) && SomeoneOverdue(c, s)
    requires swept.now == s.now && swept.dispatched == s.dispatched
    ensures Obeyed(c, swept, d).dispatched == s.dispatched && SwitchesTo(c, s, Obeyed(c, swept, d))
  {
    assert SomeoneOverdue(c, swept);
    ObeySwitch(c, swept, d);
  }

  /** The pass left the loop on its way to loading some model that was overdue. */
  ghost predicate SwitchesTo(c: AppConfig, s: State, t: State) {
    && (t.phase.Draining? || t.phase.Unloading? || t.phase.Loading?)
    && t.phase.began == s.now == t.now
    && OverdueAt(c, s, t.phase.target)
    && (t.phase.Draining? || t.phase.Unloading? ==> t.phase.reason == Starvation)
  }

  lemma ObeySwitch(c: AppConfig, s: State, d: Decision)
    requires WellFormed(c, s) && d.kind == Switch && d.target.Some?
    ensures var t := Obeyed(c, s, d);
      && t.dispatched == s.dispatched && t.now == s.now
      && (t.phase.Draining? || t.phase.Unloading? || t.phase.Loading?)
      && t.phase.target == d.target.value && t.phase.began == s.now
      && (t.phase.Draining? || t.phase.Unloading? ==> t.phase.reason == d.reason)
  {
  }

  /** Just after a load, and after the handling of whatever failures were reported meanwhile: the loop is
      about to decide, the fresh resident holds the device and nothing is in flight. */
  ghost predicate JustLoaded(s: State) {
    IsDeciding(s) && s.inFlight == [] && s.resident.Some? && s.residentSince == Some(s.now)
  }

  /** What the pass from `s` to `t` came to: if the resident prevailed, its first `maxConcurrent` live requests
      were dispatched; otherwise nothing was, and the device was taken away. */
  ghost predicate ProgressedIff(c: AppConfig, s: State, t: State)
    requires s.resident.Some? && HasWork(s, s.resident.value)
  {
    var live := Live(s.reqs, s.queues[s.resident.value]);
    && (Prevails(c, s) ==>
          && t.phase == Waiting(s.now) && t.resident == s.resident
          && t.dispatched == s.dispatched + live[..Served(live, c.scheduler.maxConcurrent)]
          && |s.dispatched| < |t.dispatched|
          && live[0] < |t.reqs| && t.reqs[live[0]].startedAt == Some(s.now))
    && (!Prevails(c, s) ==>
          && t.phase.Unloading? && t.phase.previous == s.resident.value
          && t.phase.reason == (if SomeoneOverdue(c, s) then Starvation else ChallengerWins)
          && t.dispatched == s.dispatched)
  }

  /** Exact progress after a load. The next pass dispatches the first `maxConcurrent` live requests of the
      freshly loaded model if and only if no other model is overdue and, where there is no minimum residency,
      none out-scores it; otherwise it dispatches nothing and takes the device away again. */
  lemma ProgressAfterLoadIff(c: AppConfig, s: State)
    requires c.Valid() && Safe(c, s) && JustLoaded(s) && HasWork(s, s.resident.value)
    ensures IsProtected(c, s) <==> 0.0 < c.scheduler.minResidency
    ensures ProgressedIff(c, s, Passed(c, s))
  {
    var swept := Swept(c, Woken(s));
    DecidingState(c, s);
    SweptSeesSameLive(c, s, s.resident.value);
    SweptSeesSameScores(c, s);
    NothingToReap(c, s);
    DecisionLets(c, swept);
    FreshOutcome(c, s, swept, DecisionOf(c, swept));
  }

  lemma FreshOutcome(c: AppConfig, s: State, swept: State, d: Decision)
    requires c.Valid() && Pools(c, swept) && Lets(c, swept, d) && SameStanding(c, s, swept)
    requires Outscored(c, swept) <==> Outscored(c, s)
    requires s.resident.Some? && swept.resident == s.resident && swept.inFlight == [] && swept.now == s.now
    requires swept.residentSince == s.residentSince
    requires SameLive(s, swept, s.resident.value) && HasWork(s, s.resident.value)
    requires swept.dispatched == s.dispatched
    ensures ProgressedIff(c, s, Obeyed(c, swept, d))
  {
    SameOverdueAnyone(c, s, swept);
    assert Prevails(c, swept) <==> Prevails(c, s);
    if Prevails(c, s) {
      DispatchesFresh(c, swept, d);
    } else {
      MadeToLeave(c, swept, d);
    }
  }

  lemma SameOverdueAnyone(c: AppConfig, s: State, t: State)
    requires SameStanding(c, s, t)
    ensures SomeoneOverdue(c, t) <==> SomeoneOverdue(c, s)
  {
  }

  lemma MadeToLeave(c: AppConfig, s: State, d: Decision)
    requires WellFormed(c, s) && Policy.IsSwitch(d) && s.inFlight == [] && s.resident.Some?
    ensures var t := Obeyed(c, s, d);
      && t.phase.Unloading? && t.phase.previous == s.resident.value && t.phase.reason == d.reason
      && t.dispatched == s.dispatched
  {
  }

  lemma NothingToReap(c: AppConfig, s: State)
    requires WellFormed(c, s) && s.inFlight == []
    ensures Swept(c, Woken(s)).inFlight == []
  {
  }

  lemma HeedfulUnload(c: AppConfig, s: State, swept: State, d: Decision)
    requires WellFormed(c, swept) && Heeds(c, swept, d) && SameStanding(c, s, swept) && SomeoneOverdue(c, s)
    requires swept.inFlight == [] && swept.resident.Some?
    ensures var t := Obeyed(c, swept, d);
      t.phase.Unloading? && t.phase.previous == swept.resident.value && t.phase.reason == Starvation
      && t.dispatched == swept.dispatched
  {
    assert SomeoneOverdue(c, swept);
  }

  lemma DispatchesFresh(c: AppConfig, s: State, d: Decision)
    requires Pools(c, s) && c.Valid() && s.resident.Some? && s.inFlight == [] && HasWork(s, s.resident.value)
    requires Policy.Dispatches(d)
    ensures var t := Obeyed(c, s, d);
      var live := Live(s.reqs, s.queues[s.resident.value]);
      && t.phase == Waiting(s.now) && t.resident == s.resident
      && t.dispatched == s.dispatched + live[..Served(live, c.scheduler.maxConcurrent)]
      && |s.dispatched| < |t.dispatched|
      && live[0] < |t.reqs| && t.reqs[live[0]].startedAt == Some(s.now)
  {
    var b := TakeWhile(s.reqs, s.queues[s.resident.value], s.now, c.scheduler.maxConcurrent);
    FirstBatch(c, s, s.resident.value, b);
    DispatchIs(c, s, b);
  }

  /** The first batch is a prefix of the live entries, and the head is in it. */
  lemma FirstBatch(c: AppConfig, s: State, m: ModelName, b: Batch)
    requires Pools(c, s) && c.Valid() && HasWork(s, m)
    requires b == TakeWhile(s.reqs, s.queues[m], s.now, c.scheduler.maxConcurrent)
    ensures var live := Live(s.reqs, s.queues[m]);
      && b.ids == live[..Served(live, c.scheduler.maxConcurrent)] && b.ids != []
      && b.reqs[live[0]].startedAt == Some(s.now)
  {
    var q := s.queues[m];
    assert QueueOk(s, m);
    TakeWhileServesPrefix(s.reqs, q, s.now, c.scheduler.maxConcurrent);
    TakeWhileTouches(s.reqs, q, s.now, c.scheduler.maxConcurrent);
    var head := Live(s.reqs, q)[0];
    assert b.ids[0] == head && head in b.ids;
    assert Popped1(s.reqs, b.reqs, q, b.rest, b.ids, s.now, head);
  }

  // ------------------------------------------------------------------ cold start

  /** No model is resident, and one with queued work could be loaded. */
  ghost predicate ColdWithWork(c: AppConfig, s: State) {
    s.resident.None? && s.inFlight == [] && exists m :: m in c.Names() && HasWork(s, m) && !InBackoff(s, m, s.now)
  }

  /** Then the pass begins a load at once, and every queue keeps its live entries. */
  lemma ColdPassLoads(c: AppConfig, s: State)
    requires c.Valid() && Safe(c, s) && IsDeciding(s) && ColdWithWork(c, s)
    ensures var t := Passed(c, s);
      && t.phase.Loading? && t.phase.began == s.now && t.dispatched == s.dispatched
      && t.failed == s.failed && t.inFlight == [] && t.unavailableUntil == s.unavailableUntil
    ensures forall m :: m in s.queues ==> SameLive(s, Passed(c, s), m)
  {
    var swept := Swept(c, Woken(s));
    DecidingState(c, s);
    NothingToReap(c, s);
    SameStates(c, s, Woken(s));
    var m :| m in c.Names() && HasWork(s, m) && !InBackoff(s, m, s.now);
    WokenSeesSame(c, s, m);
    SweepSeesSameOverdue(c, Woken(s), m);
    WorkSeen(c, swept, m);
    Policy.ColdStartLoads(SnapshotOf(c, swept), swept.now, c.scheduler);
    ColdSwitch(c, swept, DecisionOf(c, swept));
    forall n | n in s.queues ensures SameLive(s, Passed(c, s), n) {
      SwitchPassKeepsLive(c, s, swept, DecisionOf(c, swept), n);
    }
  }

  lemma SwitchPassKeepsLive(c: AppConfig, s: State, swept: State, d: Decision, n: ModelName)
    requires Pools(c, s) && swept == Swept(c, Woken(s)) && Policy.IsSwitch(d) && n in s.queues
    ensures SameLive(s, Obeyed(c, swept, d), n)
  {
    SweptSeesSameLive(c, s, n);
    SwitchKeepsLive(c, swept, d, n);
    SameLiveJoins(s, swept, Obeyed(c, swept, d), n);
  }

  lemma WorkSeen(c: AppConfig, s: State, m: ModelName)
    requires WellFormed(c, s) && m in c.Names() && HasWork(s, m) && !InBackoff(s, m, s.now)
    ensures exists t :: t in SnapshotOf(c, s).models && t.HasPending() && t.IsAvailable(s.now)
  {
    var i :| 0 <= i < |c.models| && c.models[i].name == m;
    var t := SnapshotOf(c, s).models[i];
    assert t == ModelStateOf(s, c.models[i]) && t in SnapshotOf(c, s).models;
  }

  lemma ColdSwitch(c: AppConfig, s: State, d: Decision)
    requires WellFormed(c, s) && Policy.IsSwitch(d) && s.resident.None? && s.inFlight == []
    ensures var t := Obeyed(c, s, d);
      && t.phase.Loading? && t.phase.began == s.now && t.dispatched == s.dispatched
      && t.failed == s.failed && t.inFlight == [] && t.unavailableUntil == s.unavailableUntil
  {
  }
}
