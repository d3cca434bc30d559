/** What the engine's counters count, read off the runs themselves, and the promises about swaps and loads over
    those counts. */
module EngineHistory {
  import opened Types
  import opened EngineModel
  import opened EnginePools
  import opened EngineInvariant
  import opened EngineTheorems
  import opened EngineFairness
  import opened EngineThrash
  import EngineBackoff
  import Policy

  function One(yes: bool): nat {
    if yes then 1 else 0
  }

  /** How many unloads the run completes: the swaps from one model to another. */
  ghost function Unloads(c: AppConfig, s: State, run: seq<Action>): nat
    requires IsRun(c, s, run)
    decreases run
  {
    if run == [] then 0 else One(run[0].FinishUnload?) + Unloads(c, Step(c, s, run[0]), run[1..])
  }

  /** How many loads the run completes. */
  ghost function Loads(c: AppConfig, s: State, run: seq<Action>): nat
    requires IsRun(c, s, run)
    decreases run
  {
    if run == [] then 0 else One(run[0].FinishLoad?) + Loads(c, Step(c, s, run[0]), run[1..])
  }

  /** How long the run's loads took that ended in it, well or badly. */
  ghost function TimeLoading(c: AppConfig, s: State, run: seq<Action>): real
    requires IsRun(c, s, run)
    decreases run
  {
    if run == [] then 0.0 else
      (if run[0].FinishLoad? || run[0].FailLoad? then s.now - s.phase.started else 0.0)
      + TimeLoading(c, Step(c, s, run[0]), run[1..])
  }

  /** How many unloads the run completes that nobody forced: when the last pass before the unload was made, no
      model was overdue. `forced` says so of the last pass before the run. */
  ghost function UnforcedSwaps(c: AppConfig, s: State, run: seq<Action>, forced: bool): nat
    requires IsRun(c, s, run)
    decreases run
  {
    if run == [] then 0 else
      var now := if run[0].Pass? then SomeoneOverdue(c, s) else forced;
      One(run[0].FinishUnload? && !forced) + UnforcedSwaps(c, Step(c, s, run[0]), run[1..], now)
  }

  // ------------------------------------------------------------------ the counters count

  lemma {:induction false} CountersCount(c: AppConfig, s: State, run: seq<Action>)
    requires IsRun(c, s, run)
    ensures var e := After(c, s, run);
      e.swaps == s.swaps + Unloads(c, s, run) && e.loads == s.loads + Loads(c, s, run)
      && e.timeLoading == s.timeLoading + TimeLoading(c, s, run)
    decreases run
  {
    if run != [] {
      CountStep(c, s, run[0]);
      CountersCount(c, Step(c, s, run[0]), run[1..]);
    }
  }

  lemma CountStep(c: AppConfig, s: State, a: Action)
    requires WellFormed(c, s) && Enabled(c, s, a)
    ensures var t := Step(c, s, a);
      && t.swaps == s.swaps + One(a.FinishUnload?) && t.loads == s.loads + One(a.FinishLoad?)
      && t.timeLoading == s.timeLoading + if a.FinishLoad? || a.FailLoad? then s.now - s.phase.started else 0.0
  {
    if a.IsTask() {
      TaskKeepsLoop(s, a);
      TaskCountsNothing(s, a);
    } else if a.Pass? {
      PassKeepsBooks(c, s);
    } else if a.Contain? {
      ContainCounts(c, s, a.model, s.phase.pending);
    }
  }

  lemma TaskCountsNothing(s: State, a: Action)
    requires a.IsTask() && a.id < |s.reqs|
    ensures var t := TaskStep(s, a); t.swaps == s.swaps && t.loads == s.loads && t.timeLoading == s.timeLoading
  {
  }

  lemma ContainCounts(c: AppConfig, s: State, model: ModelName, pending: set<ModelName>)
    ensures var t := Contained(c, s, model, pending);
      t.swaps == s.swaps && t.loads == s.loads && t.timeLoading == s.timeLoading
  {
  }

  /** A switch under way carries the reason of the pass that decided it. */
  ghost predicate ReasonIs(s: State, forced: bool) {
    s.phase.Draining? || s.phase.Unloading? ==> (s.phase.reason == Starvation <==> forced)
  }

  lemma ReasonStep(c: AppConfig, s: State, a: Action, forced: bool)
    requires c.Valid() && Safe(c, s) && Enabled(c, s, a) && ReasonIs(s, forced)
    ensures var t := Step(c, s, a);
      && ReasonIs(t, if a.Pass? then SomeoneOverdue(c, s) else forced)
      && t.scoredSwaps == s.scoredSwaps + One(a.FinishUnload? && !forced)
  {
    if a.IsTask() {
      TaskKeepsLoop(s, a);
    } else if a.Pass? {
      PassKeepsBooks(c, s);
      DecidingState(c, s);
      DecisionHeeds(c, Swept(c, Woken(s)));
      SameOverdueAnyone(c, s, Swept(c, Woken(s)));
      ObeyRecords(c, Swept(c, Woken(s)), DecisionOf(c, Swept(c, Woken(s))));
    } else if a.Contain? {
      ContainCountsNothing(c, s, a.model, s.phase.pending);
      ContainLeadsTo(c, s, a.model, s.phase.pending);
    } else {
      OtherReasonStep(c, s, a, forced);
    }
  }

  lemma ObeyRecords(c: AppConfig, s: State, d: Decision)
    requires WellFormed(c, s)
    ensures ReasonIs(Obeyed(c, s, d), d.reason == Starvation)
  {
  }

  lemma OtherReasonStep(c: AppConfig, s: State, a: Action, forced: bool)
    requires WellFormed(c, s) && Enabled(c, s, a) && ReasonIs(s, forced)
    requires !a.IsTask() && !a.Pass? && !a.Contain?
    ensures var t := Step(c, s, a);
      ReasonIs(t, forced) && t.scoredSwaps == s.scoredSwaps + One(a.FinishUnload? && !forced)
  {
  }

  lemma {:induction false} ScoredAreUnforced(c: AppConfig, s: State, run: seq<Action>, forced: bool)
    requires c.Valid() && Safe(c, s) && IsRun(c, s, run) && ReasonIs(s, forced)
    ensures After(c, s, run).scoredSwaps == s.scoredSwaps + UnforcedSwaps(c, s, run, forced)
    decreases run
  {
    if run != [] {
      var a := run[0];
      StepIsSafe(c, s, a);
      ReasonStep(c, s, a, forced);
      ScoredAreUnforced(c, Step(c, s, a), run[1..], if a.Pass? then SomeoneOverdue(c, s) else forced);
    }
  }

  // ------------------------------------------------------------------ since when a model is resident

  /** Whatever is resident after a step was so before, since the same time; or the step is the end of its load, and
      then it is resident since now, unmarked and without a backoff entry. */
  lemma ResidencyBegins(c: AppConfig, s: State, a: Action)
    requires c.Valid() && Safe(c, s) && Enabled(c, s, a)
    ensures var t := Step(c, s, a);
      && (a.FinishLoad? ==> IsFresh(t, s.phase.target) && t.residentSince.Some? && t.residentSince.value == s.now)
      && (!a.FinishLoad? && t.resident.Some? ==> t.resident == s.resident && t.residentSince == s.residentSince)
  {
    if a.IsTask() {
      TaskKeepsLoop(s, a);
    } else if a.Pass? {
      SweptLoop(c, s);
      SweepKeepsLoop(c, Woken(s));
      ObeyKeepsResidency(c, Swept(c, Woken(s)), DecisionOf(c, Swept(c, Woken(s))));
    } else if a.Contain? {
      ContainKeepsLoop(c, s, a.model, s.phase.pending);
    } else {
      OtherKeepsResidency(c, s, a);
    }
  }

  predicate IsFresh(s: State, m: ModelName) {
    s.phase.Top? && s.resident == Some(m) && s.idleSince == None && m !in s.unavailableUntil
  }

  lemma ObeyKeepsResidency(c: AppConfig, s: State, d: Decision)
    requires WellFormed(c, s)
    ensures var t := Obeyed(c, s, d);
      t.resident.Some? ==> t.resident == s.resident && t.residentSince == s.residentSince
  {
    if !(d.kind == Switch && d.target.Some?) && Policy.Dispatches(d) {
      DispatchKeepsResidency(c, s);
    }
  }

  lemma DispatchKeepsResidency(c: AppConfig, s: State)
    requires WellFormed(c, s)
    ensures var t := Dispatched(c, s); t.resident == s.resident && t.residentSince == s.residentSince
  {
  }

  lemma OtherKeepsResidency(c: AppConfig, s: State, a: Action)
    requires WellFormed(c, s) && Enabled(c, s, a) && !a.IsTask() && !a.Pass? && !a.Contain?
    ensures var t := Step(c, s, a);
      && (a.FinishLoad? ==> IsFresh(t, s.phase.target) && t.residentSince.Some? && t.residentSince.value == s.now)
      && (!a.FinishLoad? && t.resident.Some? ==> t.resident == s.resident && t.residentSince == s.residentSince)
  {
  }

  // ------------------------------------------------------------------ the promises, over the counts

  /** Anti-thrash, read off the run: in every run the number of swaps decided while no model was overdue, times the
      shorter of the minimum residency and the cheapest swap, is at most the time that passed. */
  lemma UnforcedSwapsAreFew(c: AppConfig, start: real, run: seq<Action>, d: real)
    requires c.Valid() && IsRun(c, Init(c, start), run) && IsWindow(c, d)
    ensures Paid(UnforcedSwaps(c, Init(c, start), run, false), d, start, After(c, Init(c, start), run).now)
    ensures UnforcedSwaps(c, Init(c, start), run, false) <= Unloads(c, Init(c, start), run)
  {
    CountedFromInit(c, start, run);
    AntiThrash(c, start, run, d);
    assert Paid(After(c, Init(c, start), run).scoredSwaps, d, start, After(c, Init(c, start), run).now);
  }

  lemma CountedFromInit(c: AppConfig, start: real, run: seq<Action>)
    requires c.Valid() && IsRun(c, Init(c, start), run)
    ensures var e := After(c, Init(c, start), run);
      e.scoredSwaps == UnforcedSwaps(c, Init(c, start), run, false) && e.swaps == Unloads(c, Init(c, start), run)
  {
    InitIsSafe(c, start);
    ScoredAreUnforced(c, Init(c, start), run, false);
    CountersCount(c, Init(c, start), run);
  }

  /** Loads do not overlap, read off the run: the loads that ended took no longer together than the time that
      passed, and the statistics report exactly them and the swaps. */
  lemma LoadsFit(c: AppConfig, start: real, run: seq<Action>)
    requires c.Valid() && IsRun(c, Init(c, start), run)
    ensures var e := After(c, Init(c, start), run);
      && TimeLoading(c, Init(c, start), run) <= (if e.phase.Loading? then e.phase.started else e.now) - start
      && e.timeLoading == TimeLoading(c, Init(c, start), run)
      && e.loads == Loads(c, Init(c, start), run) && e.swaps == Unloads(c, Init(c, start), run)
  {
    CountersCount(c, Init(c, start), run);
    EngineBackoff.LoadsNeverOverlap(c, start, run);
  }
}
