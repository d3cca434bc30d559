/** The other side of the ceiling. The loop decides again right after every load, before it dispatches, so
    once two models are past the ceiling each load is undone by the next decision: as long as nobody
    cancels and nothing fails, the engine swaps for ever and serves nobody. */
module EngineLivelock {
  import opened Types
  import opened Requests
  import opened QueueSpec
  import opened EngineModel
  import opened EnginePools
  import opened EngineInvariant
  import opened EngineTheorems
  import opened EngineFairness
  import opened EngineStarvation

  /** Request `r` heads its queue past the ceiling and its model could be loaded. */
  ghost predicate IsStuck(c: AppConfig, s: State, r: nat) {
    IsHead(s, r) && CeilingOf(c, s, r) <= s.now && !InBackoff(s, s.reqs[r].model, s.now)
  }

  ghost predicate TwoStuck(c: AppConfig, s: State, r1: nat, r2: nat) {
    IsStuck(c, s, r1) && IsStuck(c, s, r2) && s.reqs[r1].model != s.reqs[r2].model
  }

  /** Routine steps in which neither of the two clients leaves. */
  predicate IsPatient(a: Action, r1: nat, r2: nat) {
    IsRoutine(a) && a != ClientCancel(r1) && a != ClientCancel(r2)
  }

  predicate AllPatient(run: seq<Action>, r1: nat, r2: nat) {
    run != [] ==> IsPatient(run[0], r1, r2) && AllPatient(run[1..], r1, r2)
  }

  lemma TwoStuckIsOverdue(c: AppConfig, s: State, r1: nat, r2: nat)
    requires Pools(c, s) && TwoStuck(c, s, r1, r2)
    ensures SomeoneOverdue(c, s)
  {
    var m := if s.resident == Some(s.reqs[r1].model) then s.reqs[r2].model else s.reqs[r1].model;
    assert m in c.Names() && OverdueAt(c, s, m);
  }

  /** Backoffs only expire or are lifted by routine steps. */
  lemma RoutineKeepsAvailable(c: AppConfig, s: State, a: Action, m: ModelName)
    requires WellFormed(c, s) && Enabled(c, s, a) && IsRoutine(a)
    requires !InBackoff(s, m, s.now)
    ensures !InBackoff(Step(c, s, a), m, Step(c, s, a).now)
  {
    if a.IsTask() {
      TaskKeepsLoop(s, a);
    } else if a.Pass? {
      PassKeepsBooks(c, s);
    }
  }

  lemma StuckStep(c: AppConfig, s: State, a: Action, r: nat)
    requires c.Valid() && Safe(c, s) && Enabled(c, s, a) && IsStuck(c, s, r)
    requires IsRoutine(a) && a != ClientCancel(r) && (a.Pass? ==> SomeoneOverdue(c, s))
    ensures IsStuck(c, Step(c, s, a), r) && Step(c, s, a).reqs[r].model == s.reqs[r].model
  {
    NothingStartedInQueue(s);
    StepPersists(c, s, a);
    assert Persists(s.reqs[r], Step(c, s, a).reqs[r]);
    RoutineKeepsHead(c, s, a, r);
    RoutineKeepsAvailable(c, s, a, s.reqs[r].model);
    TimeStep(c, s, a);
  }

  lemma NonPassDispatchesNothing(c: AppConfig, s: State, a: Action)
    requires WellFormed(c, s) && Enabled(c, s, a) && !a.Pass? && IsRoutine(a)
    ensures Step(c, s, a).dispatched == s.dispatched
  {
    if a.IsTask() {
      TaskKeepsLoop(s, a);
    }
  }

  /** Nothing is ever served. From any safe state with two models past the ceiling, however long the run,
      whatever the weights and whatever else arrives, as long as nothing fails, the router runs on and the
      two clients stay: not one request of any model is dispatched. */
  lemma {:induction false} TwoOverdueServeNobody(c: AppConfig, s: State, run: seq<Action>, r1: nat, r2: nat)
    requires c.Valid() && Safe(c, s) && IsRun(c, s, run) && TwoStuck(c, s, r1, r2)
    requires AllPatient(run, r1, r2)
    ensures After(c, s, run).dispatched == s.dispatched && TwoStuck(c, After(c, s, run), r1, r2)
    decreases run
  {
    if run != [] {
      var a := run[0];
      TwoStuckIsOverdue(c, s, r1, r2);
      StuckStep(c, s, a, r1);
      StuckStep(c, s, a, r2);
      StepIsSafe(c, s, a);
      if a.Pass? {
        OverdueMeansSwitch(c, s);
      } else {
        NonPassDispatchesNothing(c, s, a);
      }
      TwoOverdueServeNobody(c, Step(c, s, a), run[1..], r1, r2);
    }
  }

  // ------------------------------------------------------------------ such runs exist

  ghost predicate ReadyToSwap(s: State) {
    s.phase.Top? && s.failed == {} && s.inFlight == [] && s.resident.Some?
  }

  ghost predicate StillSwapping(c: AppConfig, s: State, r1: nat, r2: nat) {
    Safe(c, s) && ReadyToSwap(s) && TwoStuck(c, s, r1, r2)
  }

  const ONE_SWAP: seq<Action> := [Pass, FinishUnload, FinishLoad]

  /** One more swap: decide, unload, load. */
  lemma SwapAgain(c: AppConfig, s: State, r1: nat, r2: nat)
    requires c.Valid() && StillSwapping(c, s, r1, r2)
    ensures IsRun(c, s, ONE_SWAP)
    ensures var e := After(c, s, ONE_SWAP);
      StillSwapping(c, e, r1, r2) && e.swaps == s.swaps + 1 && e.dispatched == s.dispatched
  {
    TwoStuckIsOverdue(c, s, r1, r2);
    OverdueStep(c, s);
    UnloadAndLoad(c, Step(c, s, Pass));
    ThreeSteps(c, s, Pass, FinishUnload, FinishLoad);
    OneSwapIsPatient(r1, r2);
    TwoOverdueServeNobody(c, s, ONE_SWAP, r1, r2);
  }

  lemma OneSwapIsPatient(r1: nat, r2: nat)
    ensures AllPatient(ONE_SWAP, r1, r2)
  {
    assert ONE_SWAP[1..] == [FinishUnload, FinishLoad] && [FinishUnload, FinishLoad][1..] == [FinishLoad];
    assert AllPatient([FinishLoad][1..], r1, r2);
  }

  lemma OverdueStep(c: AppConfig, s: State)
    requires c.Valid() && Safe(c, s) && ReadyToSwap(s) && SomeoneOverdue(c, s)
    ensures Enabled(c, s, Pass)
    ensures var t := Step(c, s, Pass);
      Safe(c, t) && t.phase.Unloading? && t.failed == {} && t.inFlight == [] && t.swaps == s.swaps
  {
    OverdueUnloads(c, s);
    PassIsSafe(c, s);
  }

  lemma PassIsSafe(c: AppConfig, s: State)
    requires c.Valid() && Safe(c, s) && IsDeciding(s)
    ensures Enabled(c, s, Pass) && Step(c, s, Pass) == Passed(c, s) && Safe(c, Passed(c, s))
  {
    StepIsSafe(c, s, Pass);
  }

  lemma UnloadAndLoad(c: AppConfig, s: State)
    requires c.Valid() && Safe(c, s) && s.phase.Unloading? && s.failed == {} && s.inFlight == []
    ensures Enabled(c, s, FinishUnload)
    ensures var u := Step(c, s, FinishUnload);
      && Safe(c, u) && Enabled(c, u, FinishLoad)
      && var l := Step(c, u, FinishLoad); Safe(c, l) && ReadyToSwap(l) && l.swaps == s.swaps + 1
  {
    StepIsSafe(c, s, FinishUnload);
    StepIsSafe(c, Step(c, s, FinishUnload), FinishLoad);
  }

  lemma ThreeSteps(c: AppConfig, s: State, a1: Action, a2: Action, a3: Action)
    requires WellFormed(c, s) && Enabled(c, s, a1)
    requires var s1 := Step(c, s, a1); WellFormed(c, s1) && Enabled(c, s1, a2)
    requires var s2 := Step(c, Step(c, s, a1), a2); WellFormed(c, s2) && Enabled(c, s2, a3)
    ensures IsRun(c, s, [a1, a2, a3])
    ensures After(c, s, [a1, a2, a3]) == Step(c, Step(c, Step(c, s, a1), a2), a3)
  {
    var run := [a1, a2, a3];
    var s1 := Step(c, s, a1);
    var s2 := Step(c, s1, a2);
    var s3 := Step(c, s2, a3);
    assert run[1..] == [a2, a3] && [a2, a3][1..] == [a3] && [a3][1..] == [];
    assert IsRun(c, s3, []);
    assert IsRun(c, s2, [a3]) && After(c, s2, [a3]) == s3;
    assert IsRun(c, s1, [a2, a3]) && After(c, s1, [a2, a3]) == s3;
  }

  /** With nothing in flight an overdue pass goes straight to unloading. */
  lemma OverdueUnloads(c: AppConfig, s: State)
    requires c.Valid() && Safe(c, s) && ReadyToSwap(s) && SomeoneOverdue(c, s)
    ensures var t := Passed(c, s);
      && t.phase.Unloading? && t.failed == {} && t.inFlight == [] && t.swaps == s.swaps
  {
    var swept := Swept(c, Woken(s));
    DecidingState(c, s);
    NothingToReap(c, s);
    DecisionHeeds(c, swept);
    SweepKeepsLoop(c, Woken(s));
    HeedfulUnload(c, s, swept, DecisionOf(c, swept));
    UnloadKeepsRest(c, swept, DecisionOf(c, swept));
  }

  lemma UnloadKeepsRest(c: AppConfig, s: State, d: Decision)
    requires WellFormed(c, s) && s.inFlight == [] && Obeyed(c, s, d).phase.Unloading?
    ensures var t := Obeyed(c, s, d); t.failed == s.failed && t.inFlight == [] && t.swaps == s.swaps
  {
  }

  /** For every n there is a run of n more swaps in which nobody is served. */
  lemma {:induction false} SwapsForever(c: AppConfig, s: State, r1: nat, r2: nat, n: nat) returns (run: seq<Action>)
    requires c.Valid() && StillSwapping(c, s, r1, r2)
    ensures IsRun(c, s, run)
    ensures var e := After(c, s, run);
      StillSwapping(c, e, r1, r2) && e.swaps == s.swaps + n && e.dispatched == s.dispatched
    decreases n
  {
    if n == 0 {
      run := [];
    } else {
      SwapAgain(c, s, r1, r2);
      var mid := After(c, s, ONE_SWAP);
      var rest := SwapsForever(c, mid, r1, r2, n - 1);
      run := ONE_SWAP + rest;
      RunsJoin(c, s, ONE_SWAP, rest);
    }
  }

  /** Both requests are queued alone, at the current time, and nothing else has happened. */
  ghost predicate TwoAsked(c: AppConfig, s: State, a: ModelName, b: ModelName) {
    && Safe(c, s) && Reachable(c, s) && a != b
    && s.phase.Top? && s.resident.None? && s.inFlight == [] && s.failed == {} && s.unavailableUntil == map[]
    && s.dispatched == [] && s.reqs == [Fresh(a, s.now), Fresh(b, s.now)]
    && a in s.queues && b in s.queues && s.queues[a] == [0] && s.queues[b] == [1]
  }

  lemma AskTwice(c: AppConfig, start: real, a: ModelName, b: ModelName) returns (s: State)
    requires c.Valid() && a in c.Names() && b in c.Names() && a != b
    ensures TwoAsked(c, s, a, b)
  {
    InitIsSafe(c, start);
    ReachableInit(c, start);
    s := Submitted(Init(c, start), a);
    SubmitIsSafe(c, Init(c, start), a);
    SubmitIsSafe(c, s, b);
    s := Submitted(s, b);
    BothAsked(c, start, a, b);
  }

  lemma BothAsked(c: AppConfig, start: real, a: ModelName, b: ModelName)
    requires a in c.Names() && b in c.Names() && a != b
    ensures var s := Submitted(Submitted(Init(c, start), a), b);
      && s.reqs == [Fresh(a, s.now), Fresh(b, s.now)]
      && a in s.queues && b in s.queues && s.queues[a] == [0] && s.queues[b] == [1]
      && s == Init(c, start).(reqs := s.reqs, queues := s.queues, wakeup := true)
  {
  }

  lemma SubmitIsSafe(c: AppConfig, s: State, m: ModelName)
    requires c.Valid() && Safe(c, s) && Reachable(c, s) && !s.phase.IsShutdown()
    ensures Safe(c, Submitted(s, m)) && Reachable(c, Submitted(s, m))
  {
    SafeReachableStep(c, s, Submit(m));
  }

  /** The livelock is not exotic. In every configuration with two models it is reached from the start by
      one request for each and a first load that takes as long as the ceiling allows waiting. */
  lemma LivelockIsReachable(c: AppConfig, start: real) returns (s: State)
    requires c.Valid() && 2 <= |c.models|
    ensures Reachable(c, s) && StillSwapping(c, s, 0, 1) && s.dispatched == []
  {
    var a, b := c.models[0].name, c.models[1].name;
    var s2 := AskTwice(c, start, a, b);
    FirstLoad(c, s2, a, b);
    FirstLoadEnds(c, Passed(c, s2), a, b);
    s := LoadedLate(c, Passed(c, s2));
  }

  /** The first load, ending when both requests have waited for as long as the ceiling allows. */
  function LoadedLate(c: AppConfig, s: State): State
    requires s.phase.Loading?
  {
    LoadSucceeded(s.(now := s.now + c.scheduler.maxWait))
  }

  lemma FirstLoadEnds(c: AppConfig, s: State, a: ModelName, b: ModelName)
    requires c.Valid() && LoadingFirst(c, s, a, b)
    ensures Reachable(c, LoadedLate(c, s)) && StillSwapping(c, LoadedLate(c, s), 0, 1)
    ensures LoadedLate(c, s).dispatched == []
  {
    LateLoadIsSafe(c, s, c.scheduler.maxWait);
    LoadedTooLate(c, s, a, b);
  }

  lemma LateLoadIsSafe(c: AppConfig, s: State, seconds: real)
    requires c.Valid() && Safe(c, s) && Reachable(c, s) && s.phase.Loading? && 0.0 < seconds
    ensures var e := LoadSucceeded(s.(now := s.now + seconds)); Safe(c, e) && Reachable(c, e)
  {
    WaitingIsSafe(c, s, seconds);
    LoadingIsSafe(c, s.(now := s.now + seconds));
  }

  lemma WaitingIsSafe(c: AppConfig, s: State, seconds: real)
    requires c.Valid() && Safe(c, s) && Reachable(c, s) && s.phase.Loading? && 0.0 < seconds
    ensures Safe(c, s.(now := s.now + seconds)) && Reachable(c, s.(now := s.now + seconds))
  {
    var wait := Advance(seconds);
    assert Step(c, s, wait) == s.(now := s.now + seconds);
    SafeReachableStep(c, s, wait);
  }

  lemma LoadingIsSafe(c: AppConfig, s: State)
    requires c.Valid() && Safe(c, s) && Reachable(c, s) && s.phase.Loading?
    ensures Safe(c, LoadSucceeded(s)) && Reachable(c, LoadSucceeded(s))
  {
    SafeReachableStep(c, s, FinishLoad);
  }

  lemma AskedAreHeads(c: AppConfig, s: State, a: ModelName, b: ModelName)
    requires c.Valid() && TwoAsked(c, s, a, b)
    ensures IsHead(s, 0) && IsHead(s, 1) && ColdWithWork(c, s)
  {
    assert Live(s.reqs, [0]) == [0] + Live(s.reqs, []);
    assert Live(s.reqs, [1]) == [1] + Live(s.reqs, []);
    assert a in c.Names() && HasWork(s, a) && !InBackoff(s, a, s.now);
  }

  /** Loading something, with both requests still at the head of their queues. */
  ghost predicate LoadingFirst(c: AppConfig, s: State, a: ModelName, b: ModelName) {
    && Safe(c, s) && Reachable(c, s) && a != b && s.phase.Loading? && s.inFlight == [] && s.failed == {}
    && s.unavailableUntil == map[] && s.dispatched == []
    && IsHead(s, 0) && s.reqs[0].model == a && s.reqs[0].enqueuedAt == s.now
    && IsHead(s, 1) && s.reqs[1].model == b && s.reqs[1].enqueuedAt == s.now
  }

  lemma SafeReachableStep(c: AppConfig, s: State, a: Action)
    requires c.Valid() && Safe(c, s) && Reachable(c, s) && Enabled(c, s, a)
    ensures Safe(c, Step(c, s, a)) && Reachable(c, Step(c, s, a))
  {
    ReachableStep(c, s, a);
    StepIsSafe(c, s, a);
  }

  lemma PassIsLoading(c: AppConfig, s: State, a: ModelName, b: ModelName)
    requires c.Valid() && TwoAsked(c, s, a, b) && IsHead(s, 0) && IsHead(s, 1) && ColdWithWork(c, s)
    ensures var t := Passed(c, s);
      && t.phase.Loading? && t.inFlight == [] && t.failed == {} && t.unavailableUntil == map[] && t.now == s.now
      && t.dispatched == s.dispatched
      && IsHead(t, 0) && t.reqs[0].model == a && t.reqs[0].enqueuedAt == s.now
      && IsHead(t, 1) && t.reqs[1].model == b && t.reqs[1].enqueuedAt == s.now
  {
    ColdPassLoads(c, s);
    NothingStartedInQueue(s);
    PassPersists(c, s);
    PassKeepsBooks(c, s);
    var t := Passed(c, s);
    assert Persists(s.reqs[0], t.reqs[0]) && Persists(s.reqs[1], t.reqs[1]);
    assert SameLive(s, t, a) && SameLive(s, t, b);
  }

  lemma SafeReachablePass(c: AppConfig, s: State)
    requires c.Valid() && Safe(c, s) && Reachable(c, s) && IsDeciding(s)
    ensures Safe(c, Passed(c, s)) && Reachable(c, Passed(c, s))
  {
    SafeReachableStep(c, s, Pass);
  }

  lemma FirstLoad(c: AppConfig, s: State, a: ModelName, b: ModelName)
    requires c.Valid() && TwoAsked(c, s, a, b)
    ensures LoadingFirst(c, Passed(c, s), a, b)
  {
    AskedAreHeads(c, s, a, b);
    SafeReachablePass(c, s);
    PassIsLoading(c, s, a, b);
  }

  lemma LoadedTooLate(c: AppConfig, s: State, a: ModelName, b: ModelName)
    requires c.Valid() && LoadingFirst(c, s, a, b)
    ensures var e := LoadedLate(c, s);
      ReadyToSwap(e) && TwoStuck(c, e, 0, 1) && e.dispatched == []
  {
    var e := LoadedLate(c, s);
    assert e.reqs == s.reqs && e.queues == s.queues;
    assert IsHead(e, 0) && IsHead(e, 1);
  }
}
