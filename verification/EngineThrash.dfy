/** The anti-thrash bound: swaps that starvation does not force are paid for in residency. */
module EngineThrash {
  import opened Types
  import opened Requests
  import opened QueueSpec
  import opened EngineModel
  import opened EnginePools
  import opened EngineInvariant
  import opened EngineTheorems
  import Policy

  /** `d` is at most the minimum residency and at most what any swap costs by the policy's own count. */
  ghost predicate IsWindow(c: AppConfig, d: real) {
    0.0 <= d <= c.scheduler.minResidency && forall i: nat :: i < |c.models| ==> Covers(c, d, i)
  }

  ghost predicate Covers(c: AppConfig, d: real, i: nat)
    requires i < |c.models|
  {
    d <= c.scheduler.switchCostWeight * c.models[i].loadSeconds
  }

  /** The time up to which residency has been used to pay for swaps. */
  function PaidUpTo(s: State): real {
    if s.residentSince.Some? then s.residentSince.value else s.now
  }

  /** `swaps` disjoint windows of length `d` fit between `start` and `until`. */
  ghost predicate Paid(swaps: nat, d: real, start: real, until: real) {
    swaps as real * d <= until - start
  }

  /** Every counted swap has its own residency window of length `d` behind it, and a switch that is under
      way and not forced has one more. */
  ghost predicate ThrashOk(s: State, start: real, d: real) {
    && Paid(s.scoredSwaps, d, start, PaidUpTo(s))
    && (s.phase.Draining? && s.phase.reason != Starvation && s.residentSince.Some? ==>
          d <= s.now - s.residentSince.value)
    && (s.phase.Unloading? && s.phase.reason != Starvation ==> Paid(s.scoredSwaps + 1, d, start, s.now))
  }

  lemma PayOnce(swaps: nat, d: real, start: real, since: real, now: real)
    requires Paid(swaps, d, start, since) && d <= now - since
    ensures Paid(swaps + 1, d, start, now)
  {
    assert (swaps + 1) as real * d == swaps as real * d + d;
  }

  /** The decision, if it swaps the resident out unforced, finds its window at least `d` long. */
  ghost predicate IsEarned(s: State, decision: Decision, d: real) {
    decision.kind == Switch && decision.reason != Starvation && s.residentSince.Some? ==>
      d <= s.now - s.residentSince.value
  }

  lemma ScoredSwapIsEarned(c: AppConfig, s: State, d: real)
    requires c.Valid() && WellFormed(c, s) && StampsOk(s) && IsWindow(c, d)
    requires s.resident.Some? ==> s.resident.value !in s.unavailableUntil
    ensures IsEarned(s, DecisionOf(c, s), d)
  {
    if s.resident.Some? {
      var snapshot := SnapshotOf(c, s);
      SnapshotNames(c, s);
      var r :| 0 <= r < |c.models| && c.models[r].name == s.resident.value;
      var resident := snapshot.models[r];
      WindowCoversSnapshot(c, s, d);
      Policy.EarnedWindow(snapshot, s.now, c.scheduler, resident, d);
      IdleIsResident(c, s, DecisionOf(c, s), r, d);
    }
  }

  lemma WindowCoversSnapshot(c: AppConfig, s: State, d: real)
    requires WellFormed(c, s) && IsWindow(c, d)
    ensures forall m :: m in SnapshotOf(c, s).models ==> d <= Policy.SwapCost(m, c.scheduler)
  {
    var models := SnapshotOf(c, s).models;
    forall m | m in models ensures d <= Policy.SwapCost(m, c.scheduler) {
      var i :| 0 <= i < |models| && models[i] == m;
      assert m.loadSeconds == c.models[i].loadSeconds && Covers(c, d, i);
    }
  }

  lemma IdleIsResident(c: AppConfig, s: State, decision: Decision, r: int, d: real)
    requires WellFormed(c, s) && StampsOk(s) && s.resident.Some?
    requires 0 <= r < |c.models| && c.models[r].name == s.resident.value
    requires Policy.Justified(decision, s.now, SnapshotOf(c, s).models[r], d)
    ensures IsEarned(s, decision, d)
  {
    var resident := SnapshotOf(c, s).models[r];
    assert resident.residentSince == s.residentSince && resident.idleSince == s.idleSince;
  }

  lemma ObeyKeepsThrash(c: AppConfig, s: State, decision: Decision, start: real, d: real)
    requires WellFormed(c, s) && StampsOk(s) && ThrashOk(s, start, d) && (s.phase.Top? || s.phase.Containing?)
    requires IsEarned(s, decision, d)
    ensures ThrashOk(Obeyed(c, s, decision), start, d)
  {
    if decision.kind == Switch && decision.target.Some? {
      SwitchKeepsThrash(c, s, decision, start, d);
    } else {
      ObeyKeepsBooks(c, s, decision);
      StayKeepsThrash(c, s, decision, start, d);
    }
  }

  lemma StayKeepsThrash(c: AppConfig, s: State, decision: Decision, start: real, d: real)
    requires WellFormed(c, s) && ThrashOk(s, start, d) && !(decision.kind == Switch && decision.target.Some?)
    ensures ThrashOk(Obeyed(c, s, decision), start, d)
  {
    var t := Obeyed(c, s, decision);
    assert t.residentSince == s.residentSince && t.now == s.now && t.phase.Waiting?;
  }

  lemma SwitchKeepsThrash(c: AppConfig, s: State, decision: Decision, start: real, d: real)
    requires WellFormed(c, s) && StampsOk(s) && ThrashOk(s, start, d)
    requires IsEarned(s, decision, d) && decision.kind == Switch && decision.target.Some?
    ensures ThrashOk(Obeyed(c, s, decision), start, d)
  {
    var target := decision.target.value;
    if s.inFlight == [] {
      HandoverKeepsThrash(s, target, decision.reason, start, d);
      assert Obeyed(c, s, decision) == Handover(s, target, decision.reason, s.now);
    } else {
      assert Obeyed(c, s, decision) ==
        Disconnected(s).(phase := Draining(target, decision.reason, s.now), draining := true);
    }
  }

  lemma HandoverKeepsThrash(s: State, target: ModelName, reason: DecisionReason, start: real, d: real)
    requires StampsOk(s) && ThrashOk(s, start, d)
    requires reason != Starvation && s.residentSince.Some? ==> d <= s.now - s.residentSince.value
    ensures ThrashOk(Handover(s, target, reason, s.now), start, d)
  {
    if reason != Starvation && s.residentSince.Some? {
      PayOnce(s.scoredSwaps, d, start, s.residentSince.value, s.now);
    }
  }

  lemma SweepKeepsThrash(c: AppConfig, s: State, start: real, d: real)
    requires WellFormed(c, s) && ThrashOk(s, start, d)
    ensures ThrashOk(Swept(c, Woken(s)), start, d)
  {
    SweptLoop(c, s);
    SameLoopKeepsThrash(s, Swept(c, Woken(s)), start, d);
  }

  lemma SweptLoop(c: AppConfig, s: State)
    requires WellFormed(c, s)
    ensures WellFormed(c, Woken(s))
    ensures var t := Swept(c, Woken(s));
      t.scoredSwaps == s.scoredSwaps && t.residentSince == s.residentSince && t.now == s.now && t.phase == s.phase
  {
    SweepKeepsLoop(c, Woken(s));
    WokenLoop(s);
  }

  lemma WokenLoop(s: State)
    ensures var t := Woken(s);
      t.scoredSwaps == s.scoredSwaps && t.residentSince == s.residentSince && t.now == s.now && t.phase == s.phase
  {
  }

  lemma SameLoopKeepsThrash(s: State, t: State, start: real, d: real)
    requires ThrashOk(s, start, d)
    requires t.scoredSwaps == s.scoredSwaps && t.residentSince == s.residentSince
    requires t.now == s.now && t.phase == s.phase
    ensures ThrashOk(t, start, d)
  {
  }

  lemma PassKeepsThrash(c: AppConfig, s: State, start: real, d: real)
    requires c.Valid() && Safe(c, s) && ThrashOk(s, start, d) && IsWindow(c, d) && IsDeciding(s)
    ensures ThrashOk(Passed(c, s), start, d)
  {
    var swept := Swept(c, Woken(s));
    SweepKeepsThrash(c, s, start, d);
    SweepKeepsStamps(c, Woken(s));
    SweptIsAtRest(c, s);
    ScoredSwapIsEarned(c, swept, d);
    SweepKeepsLoop(c, Woken(s));
    ObeyKeepsThrash(c, swept, DecisionOf(c, swept), start, d);
  }

  lemma DrainKeepsThrash(s: State, start: real, d: real)
    requires StampsOk(s) && ThrashOk(s, start, d) && s.phase.Draining?
    ensures ThrashOk(Drained(s), start, d)
  {
    if s.phase.reason != Starvation && s.residentSince.Some? {
      PayOnce(s.scoredSwaps, d, start, s.residentSince.value, s.now);
    }
  }

  lemma ContainKeepsThrash(c: AppConfig, s: State, model: ModelName, start: real, d: real)
    requires StampsOk(s) && ThrashOk(s, start, d) && s.phase.Containing?
    ensures ThrashOk(Contained(c, s, model, s.phase.pending), start, d)
  {
    var t := Contained(c, s, model, s.phase.pending);
    ContainCountsNothing(c, s, model, s.phase.pending);
    assert PaidUpTo(s) <= PaidUpTo(t);
  }

  lemma OtherKeepsThrash(c: AppConfig, s: State, a: Action, start: real, d: real)
    requires Safe(c, s) && ThrashOk(s, start, d) && Enabled(c, s, a)
    requires !a.IsTask() && !a.Pass? && !a.FinishDrain? && !a.Contain?
    ensures ThrashOk(Step(c, s, a), start, d)
  {
    if a.Advance? {
      assert Step(c, s, a) == s.(now := s.now + a.seconds);
      TimeKeepsThrash(s, s.now + a.seconds, start, d);
    } else if a.FinishUnload? {
      UnloadKeepsThrash(s, start, d);
    } else {
      RestKeepsThrash(c, s, a, start, d);
    }
  }

  lemma TimeKeepsThrash(s: State, now: real, start: real, d: real)
    requires ThrashOk(s, start, d) && s.now <= now
    ensures ThrashOk(s.(now := now), start, d)
  {
  }

  lemma UnloadKeepsThrash(s: State, start: real, d: real)
    requires ThrashOk(s, start, d) && s.phase.Unloading? && s.residentSince.None?
    ensures ThrashOk(Unloaded(s), start, d)
  {
  }

  /** These steps count no swap and never move the paid-up time back. */
  lemma RestKeepsThrash(c: AppConfig, s: State, a: Action, start: real, d: real)
    requires Safe(c, s) && ThrashOk(s, start, d) && Enabled(c, s, a)
    requires !a.IsTask() && !a.Pass? && !a.FinishDrain? && !a.Contain? && !a.Advance? && !a.FinishUnload?
    ensures ThrashOk(Step(c, s, a), start, d)
  {
    var t := Step(c, s, a);
    RestMovesNothing(c, s, a);
    assert PaidUpTo(s) <= PaidUpTo(t);
  }

  lemma RestMovesNothing(c: AppConfig, s: State, a: Action)
    requires Safe(c, s) && Enabled(c, s, a)
    requires !a.IsTask() && !a.Pass? && !a.FinishDrain? && !a.Contain? && !a.Advance? && !a.FinishUnload?
    ensures var t := Step(c, s, a);
      && t.scoredSwaps == s.scoredSwaps && t.now == s.now && PaidUpTo(s) <= PaidUpTo(t)
      && (t.phase.Draining? || t.phase.Unloading? ==> t.phase == s.phase && t.residentSince == s.residentSince)
  {
  }

  lemma ThrashStep(c: AppConfig, s: State, a: Action, start: real, d: real)
    requires c.Valid() && Safe(c, s) && ThrashOk(s, start, d) && IsWindow(c, d) && Enabled(c, s, a)
    ensures ThrashOk(Step(c, s, a), start, d)
  {
    if a.IsTask() {
      TaskKeepsLoop(s, a);
    } else {
      match a
      case Pass => PassKeepsThrash(c, s, start, d);
      case FinishDrain => DrainKeepsThrash(s, start, d);
      case Contain(model) => ContainKeepsThrash(c, s, model, start, d);
      case _ => OtherKeepsThrash(c, s, a, start, d);
    }
  }

  lemma {:induction false} RunKeepsThrash(c: AppConfig, s: State, run: seq<Action>, start: real, d: real)
    requires c.Valid() && Safe(c, s) && ThrashOk(s, start, d) && IsWindow(c, d) && IsRun(c, s, run)
    ensures ThrashOk(After(c, s, run), start, d) && StampsOk(After(c, s, run))
    decreases run
  {
    if run != [] {
      ThrashStep(c, s, run[0], start, d);
      StepIsSafe(c, s, run[0]);
      RunKeepsThrash(c, Step(c, s, run[0]), run[1..], start, d);
    }
  }

  /** In every run, whatever arrives, fails or is cancelled, the number of swaps not forced by starvation,
      times the shorter of the minimum residency and the cheapest swap, is at most the time that passed. */
  lemma AntiThrash(c: AppConfig, start: real, run: seq<Action>, d: real)
    requires c.Valid() && IsRun(c, Init(c, start), run) && IsWindow(c, d)
    ensures var s := After(c, Init(c, start), run);
      Paid(s.scoredSwaps, d, start, s.now) && s.scoredSwaps <= s.swaps
  {
    var s := Init(c, start);
    InitIsSafe(c, start);
    InitIsPaid(c, start, d);
    RunKeepsThrash(c, s, run, start, d);
    CountedAreSwaps(c, s, run);
    WindowIsOver(After(c, s, run), start, d);
  }

  lemma InitIsPaid(c: AppConfig, start: real, d: real)
    ensures ThrashOk(Init(c, start), start, d)
  {
    assert 0 as real * d == 0.0;
  }

  lemma WindowIsOver(s: State, start: real, d: real)
    requires StampsOk(s) && ThrashOk(s, start, d)
    ensures Paid(s.scoredSwaps, d, start, s.now)
  {
  }

  lemma {:induction false} CountedAreSwaps(c: AppConfig, s: State, run: seq<Action>)
    requires IsRun(c, s, run) && s.scoredSwaps <= s.swaps
    ensures After(c, s, run).scoredSwaps <= After(c, s, run).swaps
    decreases run
  {
    if run != [] {
      CountStep(c, s, run[0]);
      CountedAreSwaps(c, Step(c, s, run[0]), run[1..]);
    }
  }

  lemma CountStep(c: AppConfig, s: State, a: Action)
    requires WellFormed(c, s) && Enabled(c, s, a) && s.scoredSwaps <= s.swaps
    ensures Step(c, s, a).scoredSwaps <= Step(c, s, a).swaps
  {
    if a.IsTask() {
      TaskKeepsLoop(s, a);
    } else if a.Pass? {
      PassKeepsBooks(c, s);
    } else if a.Contain? {
      ContainCountsNothing(c, s, a.model, s.phase.pending);
    }
  }

  lemma ContainCountsNothing(c: AppConfig, s: State, model: ModelName, pending: set<ModelName>)
    ensures var t := Contained(c, s, model, pending); t.scoredSwaps == s.scoredSwaps && t.swaps == s.swaps
  {
  }
}
