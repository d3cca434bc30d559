/** Failures are paid for: a failed model is left alone for its backoff, and the time spent loading is time
    that passed. */
module EngineBackoff {
  import opened Types
  import opened Requests
  import opened QueueSpec
  import opened EngineModel
  import opened EnginePools
  import opened EngineInvariant
  import opened EngineTheorems

  /** A failed load, and a failure while serving, put the model in backoff for exactly the retry period. */
  lemma FailureBacksOff(c: AppConfig, s: State, a: Action, m: ModelName, at: real)
    requires WellFormed(c, s) && DeviceOk(c, s) && Enabled(c, s, a)
    requires (a.FinishCleanup? && m == s.phase.target) || a == Contain(m)
    ensures InBackoff(Step(c, s, a), m, at) <==> at < s.now + c.scheduler.backendRetry
    ensures Step(c, s, a).resident != Some(m) || Step(c, s, a).phase.CrashDraining?
  {
    if a.Contain? {
      assert Step(c, s, a) == Contained(c, s, m, s.phase.pending);
    }
  }

  /** The backoff recorded for `m` reaches at least to `until`, which no later failure can undercut. */
  ghost predicate IsBarred(c: AppConfig, s: State, m: ModelName, until: real) {
    m in s.unavailableUntil && until <= s.unavailableUntil[m] && until <= s.now + c.scheduler.backendRetry
  }

  lemma BarStep(c: AppConfig, s: State, a: Action, m: ModelName, until: real)
    requires c.Valid() && Inv(c, s) && Enabled(c, s, a) && IsBarred(c, s, m, until)
    ensures Step(c, s, a).now < until ==> IsBarred(c, Step(c, s, a), m, until)
  {
    if a.IsTask() {
      TaskKeepsLoop(s, a);
    } else if a.Pass? {
      PassKeepsBooks(c, s);
    } else if a.Contain? {
      ContainKeepsBar(c, s, a.model, m, until);
    } else {
      OtherKeepsBar(c, s, a, m, until);
    }
  }

  lemma ContainKeepsBar(c: AppConfig, s: State, model: ModelName, m: ModelName, until: real)
    requires IsBarred(c, s, m, until) && s.phase.Containing?
    ensures IsBarred(c, Contained(c, s, model, s.phase.pending), m, until)
  {
  }

  lemma OtherKeepsBar(c: AppConfig, s: State, a: Action, m: ModelName, until: real)
    requires c.Valid() && Inv(c, s) && Enabled(c, s, a) && IsBarred(c, s, m, until)
    requires !a.IsTask() && !a.Pass? && !a.Contain?
    ensures Step(c, s, a).now < until ==> IsBarred(c, Step(c, s, a), m, until)
  {
  }

  lemma BarredIsNotLoading(s: State, m: ModelName, until: real)
    requires BackoffOk(s) && StampsOk(s) && m in s.unavailableUntil && until <= s.unavailableUntil[m] && s.now < until
    ensures !(s.phase.Loading? && s.phase.target == m)
    ensures s.resident == Some(m) ==> s.phase.CrashDraining? || s.phase.IsShutdown()
  {
  }

  /** A backoff is served in full. In every run from a state in which model `m` is barred until a time no
      later than one retry period from now, as long as that time has not come `m` stays barred, is not
      being loaded and, a drain or a shutdown of a dead resident aside, is not resident. */
  lemma {:induction false} BackoffIsServed(c: AppConfig, s: State, run: seq<Action>, m: ModelName, until: real)
    requires c.Valid() && Inv(c, s) && IsRun(c, s, run) && IsBarred(c, s, m, until)
    ensures var e := After(c, s, run);
      e.now < until ==>
        && InBackoff(e, m, e.now)
        && !(e.phase.Loading? && e.phase.target == m)
        && (e.resident == Some(m) ==> e.phase.CrashDraining? || e.phase.IsShutdown())
    decreases run
  {
    if run == [] {
      if s.now < until {
        BarredIsNotLoading(s, m, until);
      }
    } else {
      var t := Step(c, s, run[0]);
      StepKeepsInv(c, s, run[0]);
      BarStep(c, s, run[0], m, until);
      if t.now < until {
        BackoffIsServed(c, t, run[1..], m, until);
      } else {
        TimeNeverTurns(c, t, run[1..]);
      }
    }
  }

  lemma {:induction false} TimeNeverTurns(c: AppConfig, s: State, run: seq<Action>)
    requires IsRun(c, s, run)
    ensures s.now <= After(c, s, run).now
    decreases run
  {
    if run != [] {
      TimeStep(c, s, run[0]);
      TimeNeverTurns(c, Step(c, s, run[0]), run[1..]);
    }
  }

  // ------------------------------------------------------------------ time spent loading

  /** The end of the last load, or the present. */
  function LoadedUpTo(s: State): real {
    if s.phase.Loading? then s.phase.started else s.now
  }

  lemma LoadingStep(c: AppConfig, s: State, a: Action, start: real)
    requires WellFormed(c, s) && StampsOk(s) && Enabled(c, s, a) && s.timeLoading <= LoadedUpTo(s) - start
    ensures var t := Step(c, s, a); t.timeLoading <= LoadedUpTo(t) - start
  {
    if a.IsTask() {
      TaskKeepsLoop(s, a);
    } else if a.Pass? {
      PassLeadsTo(c, s);
      PassKeepsBooks(c, s);
    } else if a.Contain? {
      ContainKeepsLoop(c, s, a.model, s.phase.pending);
      ContainLoadsNothing(c, s, a.model, s.phase.pending);
    } else {
      OtherLoadingStep(c, s, a, start);
    }
  }

  lemma ContainLoadsNothing(c: AppConfig, s: State, model: ModelName, pending: set<ModelName>)
    ensures Contained(c, s, model, pending).timeLoading == s.timeLoading
  {
  }

  lemma OtherLoadingStep(c: AppConfig, s: State, a: Action, start: real)
    requires WellFormed(c, s) && StampsOk(s) && Enabled(c, s, a) && s.timeLoading <= LoadedUpTo(s) - start
    requires !a.IsTask() && !a.Pass? && !a.Contain?
    ensures var t := Step(c, s, a); t.timeLoading <= LoadedUpTo(t) - start
  {
  }

  /** Loads never overlap: in every run the time recorded as spent loading is at most the time that passed,
      the current load aside. */
  lemma LoadsNeverOverlap(c: AppConfig, start: real, run: seq<Action>)
    requires c.Valid() && IsRun(c, Init(c, start), run)
    ensures var s := After(c, Init(c, start), run);
      s.timeLoading <= (if s.phase.Loading? then s.phase.started else s.now) - start
  {
    InitIsSafe(c, start);
    RunKeepsLoading(c, Init(c, start), run, start);
  }

  lemma {:induction false} RunKeepsLoading(c: AppConfig, s: State, run: seq<Action>, start: real)
    requires c.Valid() && Safe(c, s) && IsRun(c, s, run) && s.timeLoading <= LoadedUpTo(s) - start
    ensures var e := After(c, s, run); e.timeLoading <= LoadedUpTo(e) - start
    decreases run
  {
    if run != [] {
      StepIsSafe(c, s, run[0]);
      LoadingStep(c, s, run[0], start);
      RunKeepsLoading(c, Step(c, s, run[0]), run[1..], start);
    }
  }
}
