/** The ceiling at work: in every configuration with two models there is a quiet run in which a request is
    dispatched only because it reached the ceiling, by a swap that nothing but the ceiling forced. */
module EngineRescue {
  import opened Types
  import opened Requests
  import opened QueueSpec
  import opened EngineModel
  import opened EnginePools
  import opened EngineInvariant
  import opened EngineTheorems
  import opened EngineFairness
  import opened EngineStarvation
  import opened EngineLivelock
  import Policy

  /** Of two requests one has been given up by its client; the other, `r`, heads its queue. Nothing is in
      flight, nothing has failed. */
  ghost predicate OneLeft(c: AppConfig, s: State, r: nat) {
    && Safe(c, s) && Reachable(c, s)
    && |s.reqs| == 2 && r < 2 && s.reqs[1 - r].cancelled && IsHead(s, r)
    && s.inFlight == [] && s.failed == {} && s.unavailableUntil == map[]
  }

  lemma OnlyOneWaits(c: AppConfig, s: State, r: nat)
    requires Pools(c, s) && |s.reqs| == 2 && r < 2 && s.reqs[1 - r].cancelled && IsHead(s, r)
    ensures !s.reqs[r].cancelled
    ensures forall m :: HasWork(s, m) ==> m == s.reqs[r].model
  {
    HeadIsLive(c, s, s.reqs[r].model);
    forall m | HasWork(s, m) ensures m == s.reqs[r].model {
      HeadIsLive(c, s, m);
    }
  }

  lemma HeadIsLive(c: AppConfig, s: State, m: ModelName)
    requires Pools(c, s) && HasWork(s, m)
    ensures var i := Head(s, m); i < |s.reqs| && s.reqs[i].model == m && !s.reqs[i].cancelled
  {
    assert QueueOk(s, m);
    LiveMembers(s.reqs, s.queues[m]);
    assert Head(s, m) in Live(s.reqs, s.queues[m]);
  }

  lemma NobodyOutscores(c: AppConfig, s: State)
    requires c.Valid() && WellFormed(c, s) && s.resident.Some?
    requires forall m :: HasWork(s, m) ==> m == s.resident.value
    ensures !Outscored(c, s)
  {
    var k :| 0 <= k < |c.models| && c.models[k].name == s.resident.value;
    OnlyResidentIsOutscored(c, s, k);
    SomeoneAt(SnapshotOf(c, s), ModelStateOf(s, c.models[k]), s.now, c.scheduler);
    forall i | 0 <= i < |c.models|
      ensures !Policy.Outscores(SnapshotOf(c, s).models[i], ModelStateOf(s, c.models[k]), s.now, c.scheduler) {
      NotOutscoredBy(c, s, k, i);
    }
  }

  lemma NotOutscoredBy(c: AppConfig, s: State, k: nat, i: nat)
    requires c.Valid() && WellFormed(c, s) && k < |c.models| && i < |c.models|
    requires c.models[k].name in s.queues && s.resident == Some(c.models[k].name)
    requires forall m :: HasWork(s, m) ==> m == c.models[k].name
    ensures !Policy.Outscores(SnapshotOf(c, s).models[i], ModelStateOf(s, c.models[k]), s.now, c.scheduler)
  {
    assert SnapshotOf(c, s).models[i] == ModelStateOf(s, c.models[i]);
    assert SnapshotOf(c, s).models[i].HasPending() ==> HasWork(s, c.models[i].name);
  }

  lemma OneLeftIsQuiet(c: AppConfig, s: State, r: nat, span: real)
    requires c.Valid() && OneLeft(c, s, r) && 0.0 <= span
    requires s.phase.Top? || s.phase.Waiting? || s.phase.Draining? || s.phase.Unloading? || s.phase.Loading?
    requires s.phase.IsTransition() ==> s.now <= s.phase.began + span
    ensures Quiet(c, s, r, span)
  {
    OnlyOneWaits(c, s, r);
    if s.resident == Some(s.reqs[r].model) {
      NobodyOutscores(c, s);
    }
  }

  // ------------------------------------------------------------------ step by step

  /** A step that leaves requests, queues and books alone. */
  lemma FrameKeepsOne(c: AppConfig, s: State, t: State, r: nat)
    requires OneLeft(c, s, r) && Safe(c, t) && Reachable(c, t)
    requires t.reqs == s.reqs && t.queues == s.queues && t.inFlight == s.inFlight && t.failed == s.failed
    requires t.unavailableUntil == map[]
    ensures OneLeft(c, t, r)
  {
    assert IsHead(t, r);
  }

  ghost predicate IsLater(c: AppConfig, s: State, seconds: real, t: State) {
    && WellFormed(c, s) && Enabled(c, s, Advance(seconds)) && t == Step(c, s, Advance(seconds))
    && t.reqs == s.reqs && t.queues == s.queues && t.inFlight == s.inFlight && t.failed == s.failed
    && t.unavailableUntil == s.unavailableUntil && t.now == s.now + seconds && t.phase == s.phase
    && t.swaps == s.swaps && t.scoredSwaps == s.scoredSwaps
  }

  /** Time passes while a model is being loaded. */
  lemma Wait(c: AppConfig, s: State, seconds: real) returns (t: State)
    requires WellFormed(c, s) && s.phase.Loading? && 0.0 < seconds
    ensures IsLater(c, s, seconds, t)
  {
    t := s.(now := s.now + seconds);
    AdvanceEnds(c, s, Advance(seconds));
  }

  lemma WaitKeepsOne(c: AppConfig, s: State, r: nat, seconds: real, t: State)
    requires c.Valid() && OneLeft(c, s, r) && IsLater(c, s, seconds, t)
    ensures OneLeft(c, t, r)
  {
    SafeReachableStep(c, s, Advance(seconds));
    FrameKeepsOne(c, s, t, r);
  }

  lemma LoadKeepsOne(c: AppConfig, s: State, r: nat)
    requires c.Valid() && OneLeft(c, s, r) && s.phase.Loading?
    ensures OneLeft(c, LoadSucceeded(s), r)
  {
    LoadingIsSafe(c, s);
    LoadFacts(c, s);
    FrameKeepsOne(c, s, LoadSucceeded(s), r);
  }

  lemma LoadFacts(c: AppConfig, s: State)
    requires s.phase.Loading? && s.unavailableUntil == map[]
    ensures var t := LoadSucceeded(s);
      && t.reqs == s.reqs && t.queues == s.queues && t.inFlight == s.inFlight && t.failed == s.failed
      && t.unavailableUntil == map[] && t.now == s.now && t.phase.Top? && t.swaps == s.swaps
      && t.resident == Some(s.phase.target) && t.residentSince == Some(s.now) && t.scoredSwaps == s.scoredSwaps
  {
  }

  lemma UnloadKeepsOne(c: AppConfig, s: State, r: nat)
    requires c.Valid() && OneLeft(c, s, r) && s.phase.Unloading?
    ensures OneLeft(c, Unloaded(s), r)
  {
    SafeReachableStep(c, s, FinishUnload);
    UnloadFacts(s);
    FrameKeepsOne(c, s, Unloaded(s), r);
  }

  lemma UnloadFacts(s: State)
    requires s.phase.Unloading?
    ensures var t := Unloaded(s);
      && t.reqs == s.reqs && t.queues == s.queues && t.inFlight == s.inFlight && t.failed == s.failed
      && t.unavailableUntil == s.unavailableUntil && t.now == s.now && t.resident == s.resident
      && t.phase == Loading(s.phase.target, s.phase.began, s.now) && t.swaps == s.swaps + 1
      && (s.phase.reason == Starvation ==> t.scoredSwaps == s.scoredSwaps)
  {
  }

  /** With another model just loaded and the request past the ceiling, the pass forces a swap. */
  lemma ForcedPass(c: AppConfig, s: State, r: nat)
    requires c.Valid() && OneLeft(c, s, r) && s.phase.Top? && s.resident.Some?
    requires s.resident != Some(s.reqs[r].model) && CeilingOf(c, s, r) <= s.now
    ensures var t := Passed(c, s);
      && OneLeft(c, t, r) && t.reqs[r].model == s.reqs[r].model && t.reqs[r].enqueuedAt == s.reqs[r].enqueuedAt
      && t.phase.Unloading? && t.phase.target == s.reqs[r].model && t.phase.reason == Starvation
      && t.phase.began == t.now == s.now && t.swaps == s.swaps && t.scoredSwaps == s.scoredSwaps
  {
    var t := Passed(c, s);
    assert s.reqs[r].model in c.Names() && OverdueAt(c, s, s.reqs[r].model);
    OverdueUnloads(c, s);
    OverdueMeansSwitch(c, s);
    OnlyOneWaits(c, s, r);
    SafeReachablePass(c, s);
    NothingStartedInQueue(s);
    PassPersists(c, s);
    PassKeepsBooks(c, s);
    assert Persists(s.reqs[r], t.reqs[r]) && Persists(s.reqs[1 - r], t.reqs[1 - r]);
    OverduePassKeepsHead(c, s, r);
  }

  /** With its own model just loaded the pass dispatches the request. */
  lemma ServingPass(c: AppConfig, s: State, r: nat)
    requires c.Valid() && OneLeft(c, s, r) && JustLoaded(s) && s.resident == Some(s.reqs[r].model)
    ensures var t := Passed(c, s);
      && r < |t.reqs| && t.reqs[r].startedAt == Some(s.now) && !t.reqs[r].cancelled
      && t.reqs[r].model == s.reqs[r].model && t.phase == Waiting(s.now) && t.resident == s.resident
      && t.now == s.now && t.failed == {} && t.unavailableUntil == map[]
      && t.swaps == s.swaps && t.scoredSwaps == s.scoredSwaps
  {
    OnlyOneWaits(c, s, r);
    NobodyOutscores(c, s);
    ProgressAfterLoadIff(c, s);
    PassKeepsBooks(c, s);
    ReachableInv(c, s);
    PassKeepsClient(c, s, r);
  }

  lemma PassKeepsClient(c: AppConfig, s: State, r: nat)
    requires c.Valid() && Inv(c, s) && IsDeciding(s) && r < |s.reqs| && !s.reqs[r].cancelled
    ensures r < |Passed(c, s).reqs|
    ensures !Passed(c, s).reqs[r].cancelled && Passed(c, s).reqs[r].model == s.reqs[r].model
  {
    NothingStartedInQueue(s);
    PassPersists(c, s);
    assert Persists(s.reqs[r], Passed(c, s).reqs[r]);
    PassKeepsFlag(c, s, r);
  }

  // ------------------------------------------------------------------ the run

  /** `run` leads quietly from `s` to `e`. */
  ghost predicate LeadsQuietly(c: AppConfig, s: State, run: seq<Action>, e: State, r: nat, span: real) {
    IsRun(c, s, run) && AlwaysQuiet(c, s, run, r, span) && After(c, s, run) == e
  }

  lemma StepQuietly(
    c: AppConfig, s: State, a: Action, t: State, rest: seq<Action>, e: State, r: nat, span: real)
    requires WellFormed(c, s) && Enabled(c, s, a) && Quiet(c, s, r, span) && t == Step(c, s, a)
    requires LeadsQuietly(c, t, rest, e, r, span)
    ensures LeadsQuietly(c, s, [a] + rest, e, r, span)
  {
    assert ([a] + rest)[0] == a && ([a] + rest)[1..] == rest;
  }

  lemma PassQuietly(c: AppConfig, s: State, rest: seq<Action>, e: State, r: nat, span: real)
    requires c.Valid() && OneLeft(c, s, r) && s.phase.Top? && 0.0 <= span
    requires LeadsQuietly(c, Passed(c, s), rest, e, r, span)
    ensures LeadsQuietly(c, s, [Pass] + rest, e, r, span)
  {
    OneLeftIsQuiet(c, s, r, span);
    PassIsSafe(c, s);
    StepQuietly(c, s, Pass, Passed(c, s), rest, e, r, span);
  }

  lemma LoadQuietly(c: AppConfig, s: State, rest: seq<Action>, e: State, r: nat, span: real)
    requires c.Valid() && OneLeft(c, s, r) && s.phase.Loading? && s.now <= s.phase.began + span && 0.0 <= span
    requires LeadsQuietly(c, LoadSucceeded(s), rest, e, r, span)
    ensures LeadsQuietly(c, s, [FinishLoad] + rest, e, r, span)
  {
    OneLeftIsQuiet(c, s, r, span);
    StepQuietly(c, s, FinishLoad, LoadSucceeded(s), rest, e, r, span);
  }

  lemma UnloadQuietly(c: AppConfig, s: State, rest: seq<Action>, e: State, r: nat, span: real)
    requires c.Valid() && OneLeft(c, s, r) && s.phase.Unloading? && s.now <= s.phase.began + span && 0.0 <= span
    requires LeadsQuietly(c, Unloaded(s), rest, e, r, span)
    ensures LeadsQuietly(c, s, [FinishUnload] + rest, e, r, span)
  {
    OneLeftIsQuiet(c, s, r, span);
    StepQuietly(c, s, FinishUnload, Unloaded(s), rest, e, r, span);
  }

  lemma WaitQuietly(
    c: AppConfig, s: State, seconds: real, t: State, rest: seq<Action>, e: State, r: nat, span: real)
    requires c.Valid() && OneLeft(c, s, r) && s.phase.Loading? && s.now <= s.phase.began + span && 0.0 <= span
    requires IsLater(c, s, seconds, t) && LeadsQuietly(c, t, rest, e, r, span)
    ensures LeadsQuietly(c, s, [Advance(seconds)] + rest, e, r, span)
  {
    OneLeftIsQuiet(c, s, r, span);
    StepQuietly(c, s, Advance(seconds), t, rest, e, r, span);
  }

  /** The request was served at that time, and so many swaps have been made by then. */
  predicate Rescued(e: State, r: nat, at: real, swaps: nat, scoredSwaps: nat) {
    && r < |e.reqs| && e.reqs[r].startedAt.Some? && e.reqs[r].startedAt.value == at
    && e.swaps == swaps && e.scoredSwaps == scoredSwaps
  }

  lemma Serves(c: AppConfig, s: State, r: nat, span: real) returns (run: seq<Action>, e: State)
    requires c.Valid() && OneLeft(c, s, r) && JustLoaded(s) && s.phase.Top? && 0.0 <= span
    requires s.resident == Some(s.reqs[r].model)
    ensures LeadsQuietly(c, s, run, e, r, span) && Rescued(e, r, s.now, s.swaps, s.scoredSwaps)
  {
    e := Passed(c, s);
    ServingPass(c, s, r);
    ServedIsQuiet(c, e, r, span);
    PassQuietly(c, s, [], e, r, span);
    run := [Pass] + [];
  }

  lemma LoadsAndServes(c: AppConfig, s: State, r: nat, span: real) returns (run: seq<Action>, e: State)
    requires c.Valid() && OneLeft(c, s, r) && s.phase.Loading? && 0.0 <= span
    requires s.phase.target == s.reqs[r].model && s.now <= s.phase.began + span
    ensures LeadsQuietly(c, s, run, e, r, span) && Rescued(e, r, s.now, s.swaps, s.scoredSwaps)
  {
    LoadKeepsOne(c, s, r);
    LoadFacts(c, s);
    var rest;
    rest, e := Serves(c, LoadSucceeded(s), r, span);
    LoadQuietly(c, s, rest, e, r, span);
    run := [FinishLoad] + rest;
  }

  lemma UnloadsAndServes(c: AppConfig, s: State, r: nat, span: real) returns (run: seq<Action>, e: State)
    requires c.Valid() && OneLeft(c, s, r) && s.phase.Unloading? && 0.0 <= span && s.phase.reason == Starvation
    requires s.phase.target == s.reqs[r].model && s.now <= s.phase.began + span
    ensures LeadsQuietly(c, s, run, e, r, span)
    ensures Rescued(e, r, s.now, s.swaps + 1, s.scoredSwaps)
  {
    UnloadKeepsOne(c, s, r);
    UnloadFacts(s);
    var rest;
    rest, e := LoadsAndServes(c, Unloaded(s), r, span);
    UnloadQuietly(c, s, rest, e, r, span);
    run := [FinishUnload] + rest;
  }

  lemma SwapsAndServes(c: AppConfig, s: State, r: nat, span: real) returns (run: seq<Action>, e: State)
    requires c.Valid() && OneLeft(c, s, r) && s.phase.Top? && s.resident.Some? && 0.0 <= span
    requires s.resident != Some(s.reqs[r].model) && CeilingOf(c, s, r) <= s.now
    ensures LeadsQuietly(c, s, run, e, r, span) && Rescued(e, r, s.now, s.swaps + 1, s.scoredSwaps)
  {
    ForcedPass(c, s, r);
    var rest;
    rest, e := UnloadsAndServes(c, Passed(c, s), r, span);
    PassQuietly(c, s, rest, e, r, span);
    run := [Pass] + rest;
  }

  lemma UndoneAndServed(c: AppConfig, s: State, r: nat, span: real) returns (run: seq<Action>, e: State)
    requires c.Valid() && OneLeft(c, s, r) && s.phase.Loading? && 0.0 <= span && s.now <= s.phase.began + span
    requires s.phase.target != s.reqs[r].model && CeilingOf(c, s, r) <= s.now
    ensures LeadsQuietly(c, s, run, e, r, span)
    ensures Rescued(e, r, s.now, s.swaps + 1, s.scoredSwaps)
  {
    LoadKeepsOne(c, s, r);
    LoadFacts(c, s);
    var rest;
    rest, e := SwapsAndServes(c, LoadSucceeded(s), r, span);
    LoadQuietly(c, s, rest, e, r, span);
    run := [FinishLoad] + rest;
  }

  /** Whatever can be reached quietly after the wait can be reached quietly from before it. */
  ghost predicate Precedes(c: AppConfig, s: State, a: Action, t: State, r: nat, span: real) {
    forall rest, e :: LeadsQuietly(c, t, rest, e, r, span) ==> LeadsQuietly(c, s, [a] + rest, e, r, span)
  }

  lemma WaitPrecedes(c: AppConfig, s: State, r: nat, seconds: real, t: State, span: real)
    requires c.Valid() && OneLeft(c, s, r) && s.phase.Loading? && s.now <= s.phase.began + span && 0.0 <= span
    requires IsLater(c, s, seconds, t)
    ensures Precedes(c, s, Advance(seconds), t, r, span)
  {
    forall rest, e | LeadsQuietly(c, t, rest, e, r, span)
      ensures LeadsQuietly(c, s, [Advance(seconds)] + rest, e, r, span) {
      WaitQuietly(c, s, seconds, t, rest, e, r, span);
    }
  }

  /** The other model has been loading for as long as the ceiling allows waiting. */
  ghost predicate AtCeiling(c: AppConfig, t: State, r: nat) {
    && OneLeft(c, t, r) && t.phase.Loading? && t.phase.target != t.reqs[r].model
    && t.phase.began == t.reqs[r].enqueuedAt && t.now == t.reqs[r].enqueuedAt + c.scheduler.maxWait
  }

  lemma WaitFirst(c: AppConfig, s: State, r: nat) returns (t: State)
    requires c.Valid() && OneLeft(c, s, r) && s.phase.Loading? && s.phase.target != s.reqs[r].model
    requires s.now == s.phase.began == s.reqs[r].enqueuedAt
    ensures AtCeiling(c, t, r) && Precedes(c, s, Advance(c.scheduler.maxWait), t, r, c.scheduler.maxWait)
    ensures t.reqs[r].enqueuedAt == s.reqs[r].enqueuedAt && t.swaps == s.swaps && t.scoredSwaps == s.scoredSwaps
  {
    t := Wait(c, s, c.scheduler.maxWait);
    WaitKeepsOne(c, s, r, c.scheduler.maxWait, t);
    WaitPrecedes(c, s, r, c.scheduler.maxWait, t, c.scheduler.maxWait);
  }

  lemma ServedAtCeiling(c: AppConfig, t: State, r: nat) returns (rest: seq<Action>, e: State)
    requires c.Valid() && AtCeiling(c, t, r)
    ensures LeadsQuietly(c, t, rest, e, r, c.scheduler.maxWait) && Rescued(e, r, t.now, t.swaps + 1, t.scoredSwaps)
  {
    rest, e := UndoneAndServed(c, t, r, c.scheduler.maxWait);
  }

  /** The other model is being loaded and the request has just arrived: the load lasts until the ceiling, is
      undone by the forced swap, and the request is served. */
  lemma SwapRescues(c: AppConfig, s: State, r: nat)
    requires c.Valid() && OneLeft(c, s, r) && s.phase.Loading? && s.phase.target != s.reqs[r].model
    requires s.now == s.phase.began == s.reqs[r].enqueuedAt
    ensures exists rest, e :: IsRescue(c, s, rest, e, r)
  {
    var t := WaitFirst(c, s, r);
    var rest, e := ServedAtCeiling(c, t, r);
    IsRescueFrom(c, s, t, rest, e, r);
  }

  /** After the wait `rest` leads quietly to the state `e`, in which the request has been served. */
  ghost predicate IsRescue(c: AppConfig, s: State, rest: seq<Action>, e: State, r: nat)
    requires r < |s.reqs|
  {
    && LeadsQuietly(c, s, [Advance(c.scheduler.maxWait)] + rest, e, r, c.scheduler.maxWait)
    && Rescued(e, r, s.reqs[r].enqueuedAt + c.scheduler.maxWait, s.swaps + 1, s.scoredSwaps)
  }

  lemma IsRescueFrom(c: AppConfig, s: State, t: State, rest: seq<Action>, e: State, r: nat)
    requires Precedes(c, s, Advance(c.scheduler.maxWait), t, r, c.scheduler.maxWait) && r < |s.reqs|
    requires LeadsQuietly(c, t, rest, e, r, c.scheduler.maxWait)
    requires Rescued(e, r, s.reqs[r].enqueuedAt + c.scheduler.maxWait, s.swaps + 1, s.scoredSwaps)
    ensures IsRescue(c, s, rest, e, r)
  {
  }

  lemma ServedIsQuiet(c: AppConfig, s: State, r: nat, span: real)
    requires r < |s.reqs| && !s.reqs[r].cancelled && s.failed == {} && s.phase.Waiting? && s.unavailableUntil == map[]
    ensures Quiet(c, s, r, span)
  {
  }

  // ------------------------------------------------------------------ from the start

  /** Two requests arrive together, for two models; the client of the one that is being served first gives
      up. */
  lemma OneGivesUp(c: AppConfig, start: real) returns (s: State, r: nat)
    requires c.Valid() && 2 <= |c.models|
    ensures OneLeft(c, s, r) && s.phase.Loading? && s.phase.target != s.reqs[r].model
    ensures s.now == s.phase.began == s.reqs[r].enqueuedAt
  {
    var a, b := c.models[0].name, c.models[1].name;
    var asked := AskTwice(c, start, a, b);
    FirstLoad(c, asked, a, b);
    FirstLoadHolds(c, asked, a, b);
    r := if Passed(c, asked).phase.target == a then 1 else 0;
    OtherGivesUp(c, Passed(c, asked), r, a, b);
    s := ClientCancelled(Passed(c, asked), 1 - r);
  }

  lemma OtherGivesUp(c: AppConfig, s: State, r: nat, a: ModelName, b: ModelName)
    requires c.Valid() && LoadingFirst(c, s, a, b) && |s.reqs| == 2 && s.phase.began == s.now
    requires r == if s.phase.target == a then 1 else 0
    ensures var t := ClientCancelled(s, 1 - r);
      && OneLeft(c, t, r) && t.phase.Loading? && t.phase.target != t.reqs[r].model
      && t.now == t.phase.began == t.reqs[r].enqueuedAt
  {
    SafeReachableStep(c, s, ClientCancel(1 - r));
    CancelKeepsHead(c, s, 1 - r, r);
    CancelFacts(s, 1 - r);
  }

  lemma FirstLoadHolds(c: AppConfig, s: State, a: ModelName, b: ModelName)
    requires c.Valid() && TwoAsked(c, s, a, b) && LoadingFirst(c, Passed(c, s), a, b)
    ensures |Passed(c, s).reqs| == 2 && Passed(c, s).phase.began == Passed(c, s).now
  {
    NothingStartedInQueue(s);
    PassPersists(c, s);
    PassKeepsBooks(c, s);
    AskedAreHeads(c, s, a, b);
    ColdPassLoads(c, s);
  }

  lemma CancelFacts(s: State, id: nat)
    requires id < |s.reqs|
    ensures var t := ClientCancelled(s, id);
      && t == s.(reqs := t.reqs) && |t.reqs| == |s.reqs| && t.reqs[id].cancelled
      && forall i :: 0 <= i < |s.reqs| && i != id ==> t.reqs[i] == s.reqs[i]
  {
  }

  /** The ceiling is not a promise about nothing. In every configuration with two models, whatever its weights,
      a request is dispatched at the very moment it reaches the ceiling, in a run that meets every condition
      of the starvation bound, by a swap that only the ceiling forces. */
  lemma CeilingRescues(c: AppConfig, start: real) returns (s: State, run: seq<Action>, r: nat)
    requires c.Valid() && 2 <= |c.models|
    ensures Reachable(c, s) && IsHead(s, r) && s.now == s.reqs[r].enqueuedAt
    ensures IsRun(c, s, run) && AlwaysQuiet(c, s, run, r, c.scheduler.maxWait) && AwayAtCeiling(c, s, run, r)
    ensures var e := After(c, s, run);
      && r < |e.reqs| && e.reqs[r].startedAt.Some?
      && e.reqs[r].startedAt.value == s.reqs[r].enqueuedAt + c.scheduler.maxWait
      && e.swaps == s.swaps + 1 && e.scoredSwaps == s.scoredSwaps
  {
    s, r := OneGivesUp(c, start);
    SwapRescues(c, s, r);
    var rest, e :| IsRescue(c, s, rest, e, r);
    run := [Advance(c.scheduler.maxWait)] + rest;
    AwayWhileLoading(c, s, run, r);
  }

  lemma AwayWhileLoading(c: AppConfig, s: State, run: seq<Action>, r: nat)
    requires c.Valid() && IsRun(c, s, run) && run != [] && run[0] == Advance(c.scheduler.maxWait)
    requires Safe(c, s) && s.phase.Loading? && r < |s.reqs| && s.now == s.reqs[r].enqueuedAt
    ensures AwayAtCeiling(c, s, run, r)
  {
    AdvanceEnds(c, s, run[0]);
  }
}
