/** The starvation ceiling over whole runs: the bound it gives, and when it gives none. */
module EngineStarvation {
  import opened Types
  import opened Requests
  import opened QueueSpec
  import opened EngineModel
  import opened EnginePools
  import opened EngineInvariant
  import opened EngineTheorems
  import opened EngineFairness

  // ------------------------------------------------------------------ heads of queues

  /** Request `r` is the oldest live request of its model. */
  ghost predicate IsHead(s: State, r: nat) {
    r < |s.reqs| && HasWork(s, s.reqs[r].model) && Head(s, s.reqs[r].model) == r
  }

  lemma SubmitKeepsHead(c: AppConfig, s: State, model: ModelName, r: nat)
    requires Pools(c, s) && IsHead(s, r)
    ensures IsHead(Submitted(s, model), r)
  {
    var m := s.reqs[r].model;
    var t := Submitted(s, model);
    assert QueueOk(s, m);
    if model in s.queues {
      LiveOfSameFlags(s.reqs, t.reqs, s.queues[m]);
      LiveOfAppended(t.reqs, s.queues[m], |s.reqs|);
    }
  }

  lemma CancelKeepsHead(c: AppConfig, s: State, id: nat, r: nat)
    requires Pools(c, s) && IsHead(s, r) && id < |s.reqs| && id != r
    ensures IsHead(ClientCancelled(s, id), r)
  {
    var m := s.reqs[r].model;
    assert QueueOk(s, m);
    LiveAfterCancel(s.reqs, s.queues[m], id);
  }

  /** A step that leaves queues and departures alone leaves the heads alone. */
  lemma SameFlagsKeepHead(c: AppConfig, s: State, t: State, r: nat)
    requires Pools(c, s) && IsHead(s, r)
    requires t.queues == s.queues && |t.reqs| == |s.reqs|
    requires forall i :: 0 <= i < |s.reqs| ==> t.reqs[i].cancelled == s.reqs[i].cancelled
    requires t.reqs[r].model == s.reqs[r].model
    ensures IsHead(t, r)
  {
    var m := s.reqs[r].model;
    LiveOfSameFlags(s.reqs, t.reqs, s.queues[m]);
  }

  lemma OverduePassKeepsHead(c: AppConfig, s: State, r: nat)
    requires c.Valid() && Safe(c, s) && IsDeciding(s) && SomeoneOverdue(c, s) && IsHead(s, r)
    ensures IsHead(Passed(c, s), r)
  {
    OverdueMeansSwitch(c, s);
    NothingStartedInQueue(s);
    PassPersists(c, s);
    assert Persists(s.reqs[r], Passed(c, s).reqs[r]);
    assert SameLive(s, Passed(c, s), s.reqs[r].model);
  }

  /** The steps of undisturbed operation: nothing fails to load or crashes, and nobody stops the router. */
  predicate IsRoutine(a: Action) {
    !a.TaskBackendFails? && !a.StartContaining? && !a.Contain? && !a.FinishCrashDrain? && !a.FinishCrashStop? &&
    !a.FailLoad? && !a.FinishCleanup? && !a.BeginStop? && !a.FinishStopDrain? && !a.FinishStopUnload?
  }

  lemma RoutineKeepsHead(c: AppConfig, s: State, a: Action, r: nat)
    requires c.Valid() && Safe(c, s) && Enabled(c, s, a) && IsHead(s, r)
    requires IsRoutine(a) && a != ClientCancel(r) && (a.Pass? ==> SomeoneOverdue(c, s))
    ensures IsHead(Step(c, s, a), r)
  {
    if a.IsTask() {
      TaskKeepsLoop(s, a);
      SameFlagsKeepHead(c, s, TaskStep(s, a), r);
    } else if a.Submit? {
      SubmitKeepsHead(c, s, a.model, r);
    } else if a.ClientCancel? {
      CancelKeepsHead(c, s, a.id, r);
    } else if a.Pass? {
      OverduePassKeepsHead(c, s, r);
    } else {
      OtherKeepsFlags(c, s, a);
      SameFlagsKeepHead(c, s, Step(c, s, a), r);
    }
  }

  lemma OtherKeepsFlags(c: AppConfig, s: State, a: Action)
    requires WellFormed(c, s) && Enabled(c, s, a) && IsRoutine(a)
    requires !a.IsTask() && !a.Submit? && !a.ClientCancel? && !a.Pass?
    ensures var t := Step(c, s, a); t.queues == s.queues && t.reqs == s.reqs
  {
  }

  // ------------------------------------------------------------------ the bound

  /** When request `r` reaches the ceiling. */
  function CeilingOf(c: AppConfig, s: State, r: nat): real
    requires r < |s.reqs|
  {
    s.reqs[r].enqueuedAt + c.scheduler.maxWait
  }

  /** The conditions of the bound, at one state: the client is there, nothing is failing or shutting down,
      the model is not in backoff, a switch takes at most `span` from its decision to the end of the load,
      and whenever the loop decides no other model is overdue, nor, where there is no minimum residency, does
      any out-score this one while it is resident. */
  ghost predicate Quiet(c: AppConfig, s: State, r: nat, span: real) {
    && r < |s.reqs| && !s.reqs[r].cancelled
    && s.failed == {}
    && (s.phase.Top? || s.phase.Waiting? || s.phase.Draining? || s.phase.Unloading? || s.phase.Loading?)
    && !InBackoff(s, s.reqs[r].model, s.now)
    && (s.phase.IsTransition() ==> s.now <= s.phase.began + span)
    && (IsDeciding(s) ==> forall m :: m in c.Names() && OverdueAt(c, s, m) ==> m == s.reqs[r].model)
    && (IsDeciding(s) && s.resident == Some(s.reqs[r].model) ==> 0.0 < c.scheduler.minResidency || !Outscored(c, s))
  }

  ghost predicate AlwaysQuiet(c: AppConfig, s: State, run: seq<Action>, r: nat, span: real)
    requires IsRun(c, s, run)
    decreases run
  {
    && Quiet(c, s, r, span)
    && (run != [] ==> AlwaysQuiet(c, Step(c, s, run[0]), run[1..], r, span))
  }

  /** The latest time at which the switch towards the overdue model is decided, counted from `ref`: the
      ceiling, or the later moment at which the model is seen not to hold the device. */
  function LatestDecision(c: AppConfig, ref: real, span: real): real {
    ref + Max(c.scheduler.tick, span)
  }

  function LatestDispatch(c: AppConfig, ref: real, span: real): real {
    LatestDecision(c, ref, span) + span
  }

  /** The request is past the ceiling and still queued, and every wait or switch that could delay it was
      entered before `ref`, or is a switch towards its own model. */
  ghost predicate Tracked(c: AppConfig, s: State, r: nat, span: real, ref: real)
    requires r < |s.reqs|
  {
    var m := s.reqs[r].model;
    && CeilingOf(c, s, r) <= ref <= s.now
    && IsHead(s, r)
    && match s.phase
       case Top =>
         if s.resident == Some(m) then JustLoaded(s) && s.now <= LatestDispatch(c, ref, span)
         else s.now <= LatestDecision(c, ref, span)
       case Waiting(since) => since <= ref && s.now <= since + c.scheduler.tick && s.resident != Some(m)
       case Draining(target, _, began) => Timely(c, s, r, span, ref, target, began)
       case Unloading(_, target, _, began) => Timely(c, s, r, span, ref, target, began)
       case Loading(target, began, _) => Timely(c, s, r, span, ref, target, began)
       case _ => false
  }

  ghost predicate Timely(c: AppConfig, s: State, r: nat, span: real, ref: real, target: ModelName, began: real)
    requires r < |s.reqs|
  {
    began <= if target == s.reqs[r].model then LatestDecision(c, ref, span) else ref
  }

  ghost predicate ServedInTime(c: AppConfig, s: State, r: nat, span: real, ref: real)
    requires r < |s.reqs|
  {
    s.reqs[r].startedAt.Some? && s.reqs[r].startedAt.value <= LatestDispatch(c, ref, span)
  }

  lemma TrackedIsEarly(c: AppConfig, s: State, r: nat, span: real, ref: real)
    requires Quiet(c, s, r, span) && Tracked(c, s, r, span, ref) && StampsOk(s) && 0.0 <= span
    ensures s.now <= LatestDispatch(c, ref, span)
  {
  }

  lemma OverdueHead(c: AppConfig, s: State, r: nat, span: real)
    requires Pools(c, s) && Quiet(c, s, r, span) && IsHead(s, r)
    requires CeilingOf(c, s, r) <= s.now && s.resident != Some(s.reqs[r].model)
    ensures OverdueAt(c, s, s.reqs[r].model) && SomeoneOverdue(c, s)
  {
    assert s.reqs[r].model in c.Names();
  }

  /** A pass past the ceiling either sets out to load the overdue model, or, if that model has just been
      loaded, serves the request. */
  lemma PassTracks(c: AppConfig, s: State, r: nat, span: real, ref: real)
    requires c.Valid() && Safe(c, s) && IsDeciding(s) && 0.0 <= span
    requires Quiet(c, s, r, span) && Tracked(c, s, r, span, ref)
    ensures var t := Passed(c, s);
      r < |t.reqs| && t.reqs[r].enqueuedAt == s.reqs[r].enqueuedAt && t.reqs[r].model == s.reqs[r].model
      && (Tracked(c, t, r, span, ref) || ServedInTime(c, t, r, span, ref))
  {
    NothingStartedInQueue(s);
    PassPersists(c, s);
    assert Persists(s.reqs[r], Passed(c, s).reqs[r]);
    if s.resident == Some(s.reqs[r].model) {
      assert !SomeoneOverdue(c, s);
      ProgressAfterLoadIff(c, s);
    } else {
      OverdueHead(c, s, r, span);
      OverdueMeansSwitch(c, s);
      OverduePassKeepsHead(c, s, r);
      SwitchIsTracked(c, s, Passed(c, s), r, span, ref);
    }
  }

  lemma SwitchIsTracked(c: AppConfig, s: State, t: State, r: nat, span: real, ref: real)
    requires WellFormed(c, s) && Quiet(c, s, r, span) && Tracked(c, s, r, span, ref) && IsDeciding(s)
    requires s.resident != Some(s.reqs[r].model) && SwitchesTo(c, s, t) && IsHead(t, r)
    requires t.reqs[r].enqueuedAt == s.reqs[r].enqueuedAt && t.reqs[r].model == s.reqs[r].model
    ensures Tracked(c, t, r, span, ref)
  {
    assert t.phase.target in c.Names();
  }

  lemma OtherTracks(c: AppConfig, s: State, a: Action, r: nat, span: real, ref: real)
    requires c.Valid() && Safe(c, s) && Enabled(c, s, a) && !a.Pass? && 0.0 <= span
    requires Quiet(c, s, r, span) && Tracked(c, s, r, span, ref)
    requires Quiet(c, Step(c, s, a), r, span) && IsRoutine(a) && IsHead(Step(c, s, a), r)
    requires Step(c, s, a).reqs[r].enqueuedAt == s.reqs[r].enqueuedAt && Step(c, s, a).reqs[r].model == s.reqs[r].model
    ensures Tracked(c, Step(c, s, a), r, span, ref)
  {
    if a.IsTask() {
      TaskKeepsLoop(s, a);
    } else if a.IsSwitching() {
      SwitchingTracks(c, s, a, r, span, ref);
    } else {
      WaitingTracks(c, s, a, r, span, ref);
    }
  }

  lemma SwitchingTracks(c: AppConfig, s: State, a: Action, r: nat, span: real, ref: real)
    requires DeviceOk(c, s) && WellFormed(c, s) && Enabled(c, s, a) && a.IsSwitching() && IsRoutine(a) && 0.0 <= span
    requires Quiet(c, s, r, span) && Tracked(c, s, r, span, ref) && IsHead(Step(c, s, a), r)
    requires Step(c, s, a).reqs[r].enqueuedAt == s.reqs[r].enqueuedAt && Step(c, s, a).reqs[r].model == s.reqs[r].model
    ensures Tracked(c, Step(c, s, a), r, span, ref)
  {
  }

  lemma WaitingTracks(c: AppConfig, s: State, a: Action, r: nat, span: real, ref: real)
    requires c.Valid() && WellFormed(c, s) && Enabled(c, s, a) && IsRoutine(a) && 0.0 <= span
    requires !a.IsTask() && !a.IsSwitching() && !a.Pass?
    requires Quiet(c, s, r, span) && Tracked(c, s, r, span, ref) && IsHead(Step(c, s, a), r)
    requires Step(c, s, a).reqs[r].enqueuedAt == s.reqs[r].enqueuedAt && Step(c, s, a).reqs[r].model == s.reqs[r].model
    ensures Tracked(c, Step(c, s, a), r, span, ref)
  {
  }

  /** Under quiet conditions only routine steps happen. */
  lemma QuietIsRoutine(c: AppConfig, s: State, a: Action, r: nat, span: real)
    requires WellFormed(c, s) && Enabled(c, s, a)
    requires Quiet(c, s, r, span) && Quiet(c, Step(c, s, a), r, span)
    ensures IsRoutine(a) && a != ClientCancel(r)
  {
    if a.TaskBackendFails? {
      assert false;
    }
  }

  lemma StepTracks(c: AppConfig, s: State, a: Action, r: nat, span: real, ref: real)
    requires c.Valid() && Safe(c, s) && Enabled(c, s, a) && 0.0 <= span
    requires Quiet(c, s, r, span) && Quiet(c, Step(c, s, a), r, span)
    requires Tracked(c, s, r, span, ref) || ServedInTime(c, s, r, span, ref)
    ensures var t := Step(c, s, a);
      r < |t.reqs| && CeilingOf(c, t, r) == CeilingOf(c, s, r)
      && (Tracked(c, t, r, span, ref) || ServedInTime(c, t, r, span, ref))
  {
    RequestPersists(c, s, a, r);
    if Tracked(c, s, r, span, ref) {
      if a.Pass? {
        PassTracks(c, s, r, span, ref);
      } else {
        QuietIsRoutine(c, s, a, r, span);
        RoutineKeepsHead(c, s, a, r);
        OtherTracks(c, s, a, r, span, ref);
      }
    }
  }

  lemma {:induction false} RunTracks(c: AppConfig, s: State, run: seq<Action>, r: nat, span: real, ref: real)
    requires c.Valid() && Safe(c, s) && IsRun(c, s, run) && 0.0 <= span
    requires AlwaysQuiet(c, s, run, r, span)
    requires Tracked(c, s, r, span, ref) || ServedInTime(c, s, r, span, ref)
    ensures var e := After(c, s, run);
      r < |e.reqs| && CeilingOf(c, e, r) == CeilingOf(c, s, r) && Safe(c, e) && Quiet(c, e, r, span)
      && (Tracked(c, e, r, span, ref) || ServedInTime(c, e, r, span, ref))
    decreases run
  {
    if run != [] {
      StepTracks(c, s, run[0], r, span, ref);
      StepIsSafe(c, s, run[0]);
      RunTracks(c, Step(c, s, run[0]), run[1..], r, span, ref);
    }
  }

  /** At the ceiling: the request is tracked if its model is not resident, or on its way out. */
  ghost predicate IsAway(s: State, r: nat)
    requires r < |s.reqs|
  {
    s.resident == Some(s.reqs[r].model) ==> s.phase.Draining?
  }

  lemma TrackedFromHere(c: AppConfig, s: State, r: nat, span: real)
    requires c.Valid() && StampsOk(s) && TickOk(c, s) && Quiet(c, s, r, span) && 0.0 <= span
    requires IsHead(s, r) && CeilingOf(c, s, r) <= s.now && IsAway(s, r)
    ensures Tracked(c, s, r, span, s.now)
  {
  }

  // ------------------------------------------------------------------ before the ceiling

  /** The request has been served in time, or it still heads its queue and is not late. */
  ghost predicate IsInTime(c: AppConfig, s: State, r: nat, span: real, ref: real)
    requires r < |s.reqs|
  {
    ServedInTime(c, s, r, span, ref) || (IsHead(s, r) && s.now <= LatestDispatch(c, ref, span))
  }

  /** The request still heads its queue, or it was started at that time. */
  ghost predicate HeadOrServed(t: State, r: nat, at: real) {
    r < |t.reqs| && (IsHead(t, r) || t.reqs[r].startedAt == Some(at))
  }

  lemma DispatchServesOrKeeps(c: AppConfig, s: State, r: nat)
    requires Pools(c, s) && IsHead(s, r)
    ensures HeadOrServed(Dispatched(c, s), r, s.now)
  {
    if s.resident.Some? && |s.inFlight| < c.scheduler.maxConcurrent {
      var n, limit := s.resident.value, c.scheduler.maxConcurrent - |s.inFlight|;
      var b := TakeWhile(s.reqs, s.queues[n], s.now, limit);
      assert QueueOk(s, n);
      TakeWhileTouches(s.reqs, s.queues[n], s.now, limit);
      DispatchIs(c, s, b);
      if n == s.reqs[r].model {
        HeadIsServed(s, n, limit, r);
      } else {
        OtherQueueKeepsHead(c, s, n, b, r);
      }
    }
  }

  lemma HeadIsServed(s: State, m: ModelName, limit: int, r: nat)
    requires IsHead(s, r) && m == s.reqs[r].model && QueueOk(s, m) && 0 < limit
    ensures TakeWhile(s.reqs, s.queues[m], s.now, limit).reqs[r].startedAt == Some(s.now)
  {
    var q := s.queues[m];
    var b := TakeWhile(s.reqs, q, s.now, limit);
    TakeWhileServesPrefix(s.reqs, q, s.now, limit);
    TakeWhileTouches(s.reqs, q, s.now, limit);
    assert b.ids[0] == r && r in b.ids;
    assert Popped1(s.reqs, b.reqs, q, b.rest, b.ids, s.now, r);
  }

  lemma OtherQueueKeepsHead(c: AppConfig, s: State, n: ModelName, b: Batch, r: nat)
    requires Pools(c, s) && IsHead(s, r) && n in s.queues && n != s.reqs[r].model
    requires |b.reqs| == |s.reqs| && OnlyPopped(s.reqs, b.reqs, s.queues[n], b.rest, b.ids, s.now)
    ensures b.reqs[r].model == s.reqs[r].model
    ensures Live(b.reqs, s.queues[s.reqs[r].model]) == Live(s.reqs, s.queues[s.reqs[r].model])
  {
    forall i: nat | i < |s.reqs|
      ensures b.reqs[i].cancelled == s.reqs[i].cancelled && b.reqs[i].model == s.reqs[i].model {
      assert Popped1(s.reqs, b.reqs, s.queues[n], b.rest, b.ids, s.now, i);
    }
    LiveOfSameFlags(s.reqs, b.reqs, s.queues[s.reqs[r].model]);
  }

  lemma ObeyServesOrKeeps(c: AppConfig, s: State, d: Decision, r: nat)
    requires Pools(c, s) && IsHead(s, r) && (d.kind == Switch ==> d.target.Some?)
    ensures HeadOrServed(Obeyed(c, s, d), r, s.now)
  {
    if d.kind == Switch {
      SwitchKeepsLive(c, s, d, s.reqs[r].model);
    } else {
      DispatchServesOrKeeps(c, s, r);
    }
  }

  /** A pass serves the request or leaves it where it is. */
  lemma PassServesOrKeeps(c: AppConfig, s: State, r: nat)
    requires c.Valid() && Safe(c, s) && IsDeciding(s) && IsHead(s, r)
    ensures HeadOrServed(Passed(c, s), r, s.now)
  {
    var swept := Swept(c, Woken(s));
    SweptSeesSameLive(c, s, s.reqs[r].model);
    DecidingState(c, s);
    NothingStartedInQueue(s);
    SweptPersists(c, s);
    assert Persists(s.reqs[r], swept.reqs[r]);
    TargetIsConfigured(c, swept);
    ObeyServesOrKeeps(c, swept, DecisionOf(c, swept), r);
  }

  /** Time passes the instant at which the request reaches the ceiling. */
  predicate Crosses(c: AppConfig, s: State, a: Action, r: nat)
    requires r < |s.reqs|
  {
    a.Advance? && s.now < CeilingOf(c, s, r) < s.now + a.seconds
  }

  lemma EarlyStep(c: AppConfig, s: State, a: Action, r: nat, span: real)
    requires c.Valid() && Safe(c, s) && Enabled(c, s, a) && 0.0 <= span
    requires Quiet(c, s, r, span) && Quiet(c, Step(c, s, a), r, span)
    requires IsHead(s, r) && s.now < CeilingOf(c, s, r) && !Crosses(c, s, a, r)
    ensures var t := Step(c, s, a);
      && r < |t.reqs| && CeilingOf(c, t, r) == CeilingOf(c, s, r)
      && ((IsHead(t, r) && t.now <= CeilingOf(c, t, r)) || ServedInTime(c, t, r, span, CeilingOf(c, s, r)))
  {
    QuietIsRoutine(c, s, a, r, span);
    RequestPersists(c, s, a, r);
    StepServesOrKeeps(c, s, a, r);
    StepIsEarly(c, s, a, r);
    EarlyOutcome(c, s, Step(c, s, a), r, span);
  }

  lemma EarlyOutcome(c: AppConfig, s: State, t: State, r: nat, span: real)
    requires c.Valid() && r < |s.reqs| && s.now < CeilingOf(c, s, r) && t.now <= CeilingOf(c, s, r) && 0.0 <= span
    requires HeadOrServed(t, r, s.now) && Persists(s.reqs[r], t.reqs[r])
    ensures CeilingOf(c, t, r) == CeilingOf(c, s, r)
    ensures (IsHead(t, r) && t.now <= CeilingOf(c, t, r)) || ServedInTime(c, t, r, span, CeilingOf(c, s, r))
  {
  }

  lemma RequestPersists(c: AppConfig, s: State, a: Action, r: nat)
    requires Safe(c, s) && Enabled(c, s, a) && r < |s.reqs|
    ensures r < |Step(c, s, a).reqs| && Persists(s.reqs[r], Step(c, s, a).reqs[r])
  {
    NothingStartedInQueue(s);
    StepPersists(c, s, a);
  }

  lemma StepServesOrKeeps(c: AppConfig, s: State, a: Action, r: nat)
    requires c.Valid() && Safe(c, s) && Enabled(c, s, a) && IsHead(s, r) && IsRoutine(a) && a != ClientCancel(r)
    ensures HeadOrServed(Step(c, s, a), r, s.now)
  {
    if a.Pass? {
      PassServesOrKeeps(c, s, r);
    } else {
      RoutineKeepsHead(c, s, a, r);
    }
  }

  lemma StepIsEarly(c: AppConfig, s: State, a: Action, r: nat)
    requires WellFormed(c, s) && Enabled(c, s, a) && r < |s.reqs|
    requires s.now < CeilingOf(c, s, r) && !Crosses(c, s, a, r)
    ensures Step(c, s, a).now <= CeilingOf(c, s, r)
  {
    TimeStep(c, s, a);
    AdvanceEnds(c, s, a);
  }

  lemma AdvanceEnds(c: AppConfig, s: State, a: Action)
    requires WellFormed(c, s) && Enabled(c, s, a)
    ensures a.Advance? ==> Step(c, s, a) == s.(now := s.now + a.seconds)
  {
  }

  /** Passing time can be split at any instant on the way, and what is quiet at both ends is quiet there. */
  lemma AdvanceSplits(c: AppConfig, s: State, seconds: real, first: real)
    requires WellFormed(c, s) && Enabled(c, s, Advance(seconds)) && 0.0 < first < seconds
    ensures Enabled(c, s, Advance(first))
    ensures var mid := Step(c, s, Advance(first));
      && mid == s.(now := s.now + first) && WellFormed(c, mid) && Enabled(c, mid, Advance(seconds - first))
      && Step(c, mid, Advance(seconds - first)) == Step(c, s, Advance(seconds))
  {
  }

  lemma AdvanceKeepsInv(c: AppConfig, s: State, seconds: real, first: real)
    requires c.Valid() && Inv(c, s) && Enabled(c, s, Advance(seconds)) && 0.0 < first < seconds
    ensures Inv(c, s.(now := s.now + first))
  {
    AdvanceSplits(c, s, seconds, first);
    StepKeepsInv(c, s, Advance(first));
  }

  lemma QuietBetween(c: AppConfig, s: State, seconds: real, first: real, r: nat, span: real)
    requires Quiet(c, s, r, span) && Quiet(c, s.(now := s.now + seconds), r, span) && 0.0 < first < seconds
    requires !s.phase.Top?
    ensures Quiet(c, s.(now := s.now + first), r, span)
  {
  }

  lemma CrossingTracks(c: AppConfig, s: State, a: Action, r: nat, span: real)
    requires c.Valid() && Inv(c, s) && Enabled(c, s, a) && 0.0 <= span
    requires Quiet(c, s, r, span) && Quiet(c, Step(c, s, a), r, span)
    requires IsHead(s, r) && Crosses(c, s, a, r) && IsAway(s, r)
    ensures var t := Step(c, s, a);
      && r < |t.reqs| && CeilingOf(c, t, r) == CeilingOf(c, s, r)
      && (Tracked(c, t, r, span, CeilingOf(c, s, r)) || ServedInTime(c, t, r, span, CeilingOf(c, s, r)))
  {
    var first := CeilingOf(c, s, r) - s.now;
    TrackedOnTheWay(c, s, a, r, span);
    AdvanceSplits(c, s, a.seconds, first);
    StepTracks(c, s.(now := s.now + first), Advance(a.seconds - first), r, span, CeilingOf(c, s, r));
  }

  lemma TrackedOnTheWay(c: AppConfig, s: State, a: Action, r: nat, span: real)
    requires c.Valid() && Inv(c, s) && Enabled(c, s, a) && 0.0 <= span
    requires Quiet(c, s, r, span) && Quiet(c, Step(c, s, a), r, span)
    requires IsHead(s, r) && Crosses(c, s, a, r) && IsAway(s, r)
    ensures var mid := s.(now := CeilingOf(c, s, r));
      && Safe(c, mid) && Quiet(c, mid, r, span) && Tracked(c, mid, r, span, CeilingOf(c, s, r))
      && CeilingOf(c, mid, r) == CeilingOf(c, s, r)
  {
    var first := CeilingOf(c, s, r) - s.now;
    AdvanceEnds(c, s, a);
    AdvanceKeepsInv(c, s, a.seconds, first);
    QuietBetween(c, s, a.seconds, first, r, span);
    LaterIsTracked(c, s, s.(now := s.now + first), r, span);
  }

  lemma LaterIsTracked(c: AppConfig, s: State, mid: State, r: nat, span: real)
    requires c.Valid() && StampsOk(mid) && TickOk(c, mid) && Quiet(c, mid, r, span) && 0.0 <= span
    requires IsHead(s, r) && IsAway(s, r) && mid == s.(now := CeilingOf(c, s, r))
    ensures Tracked(c, mid, r, span, CeilingOf(c, s, r)) && CeilingOf(c, mid, r) == CeilingOf(c, s, r)
  {
    assert IsHead(mid, r);
    TrackedFromHere(c, mid, r, span);
  }

  /** When the request reaches the ceiling, if it does so unserved, its model is not resident, or is being
      drained. The instant may fall within a step. */
  ghost predicate AwayAtCeiling(c: AppConfig, s: State, run: seq<Action>, r: nat)
    requires IsRun(c, s, run)
    decreases run
  {
    r < |s.reqs| &&
      if CeilingOf(c, s, r) <= s.now || (run != [] && Crosses(c, s, run[0], r)) then IsAway(s, r)
      else run != [] ==> AwayAtCeiling(c, Step(c, s, run[0]), run[1..], r)
  }

  lemma {:induction false} RunIsInTime(c: AppConfig, s: State, run: seq<Action>, r: nat, span: real)
    requires c.Valid() && Inv(c, s) && IsRun(c, s, run) && 0.0 <= span
    requires AlwaysQuiet(c, s, run, r, span)
    requires ServedInTime(c, s, r, span, CeilingOf(c, s, r)) ||
      (IsHead(s, r) && s.now <= CeilingOf(c, s, r) && AwayAtCeiling(c, s, run, r))
    ensures var e := After(c, s, run);
      r < |e.reqs| && CeilingOf(c, e, r) == CeilingOf(c, s, r) && IsInTime(c, e, r, span, CeilingOf(c, s, r))
    decreases run
  {
    if ServedInTime(c, s, r, span, CeilingOf(c, s, r)) {
      TrackedToTheEnd(c, s, run, r, span, CeilingOf(c, s, r));
    } else if s.now == CeilingOf(c, s, r) {
      TrackedFromHere(c, s, r, span);
      TrackedToTheEnd(c, s, run, r, span, CeilingOf(c, s, r));
    } else if run != [] {
      var t := Step(c, s, run[0]);
      StepKeepsInv(c, s, run[0]);
      if Crosses(c, s, run[0], r) {
        CrossingTracks(c, s, run[0], r, span);
        TrackedToTheEnd(c, t, run[1..], r, span, CeilingOf(c, s, r));
      } else {
        EarlyStep(c, s, run[0], r, span);
        RunIsInTime(c, t, run[1..], r, span);
      }
    }
  }

  lemma TrackedToTheEnd(c: AppConfig, s: State, run: seq<Action>, r: nat, span: real, ref: real)
    requires c.Valid() && Safe(c, s) && IsRun(c, s, run) && 0.0 <= span
    requires AlwaysQuiet(c, s, run, r, span)
    requires Tracked(c, s, r, span, ref) || ServedInTime(c, s, r, span, ref)
    ensures var e := After(c, s, run);
      r < |e.reqs| && CeilingOf(c, e, r) == CeilingOf(c, s, r) && IsInTime(c, e, r, span, ref)
  {
    RunTracks(c, s, run, r, span, ref);
    var e := After(c, s, run);
    if Tracked(c, e, r, span, ref) {
      TrackedIsEarly(c, e, r, span, ref);
    }
  }

  /** The bound from any moment past the ceiling. Take any reachable state in which a request heads its queue
      past the ceiling and its model is not resident, or is on its way out: because it never was resident, or
      because it loses the device only now. In every quiet run from there the request is dispatched within
      max(tick, span) + span. */
  lemma OverdueBound(c: AppConfig, s: State, run: seq<Action>, r: nat, span: real)
    requires c.Valid() && Reachable(c, s) && IsRun(c, s, run) && 0.0 <= span && AlwaysQuiet(c, s, run, r, span)
    requires IsHead(s, r) && c.scheduler.maxWait <= s.now - s.reqs[r].enqueuedAt && IsAway(s, r)
    ensures var e := After(c, s, run);
      var bound := s.now + Max(c.scheduler.tick, span) + span;
      && r < |e.reqs|
      && ((e.reqs[r].startedAt.Some? && e.reqs[r].startedAt.value <= bound) || (e.now <= bound && IsHead(e, r)))
  {
    ReachableInv(c, s);
    assert Quiet(c, s, r, span);
    TrackedFromHere(c, s, r, span);
    TrackedToTheEnd(c, s, run, r, span, s.now);
  }

  /** The starvation bound. Take any reachable state in which a request heads its queue and has not waited
      longer than the ceiling, and any quiet run from there, in which the request's model is not resident,
      or is on its way out, at the moment the request reaches the ceiling. Whatever the weights and
      priorities, the request is dispatched no later than maxWait + max(tick, span) + span after its
      arrival: at the end of the run it has been, or it still heads its queue and that time is not over. */
  lemma StarvationBound(c: AppConfig, s: State, run: seq<Action>, r: nat, span: real)
    requires c.Valid() && Reachable(c, s) && IsRun(c, s, run) && 0.0 <= span
    requires AlwaysQuiet(c, s, run, r, span)
    requires IsHead(s, r) && s.now - s.reqs[r].enqueuedAt <= c.scheduler.maxWait && AwayAtCeiling(c, s, run, r)
    ensures var e := After(c, s, run);
      var bound := s.reqs[r].enqueuedAt + c.scheduler.maxWait + Max(c.scheduler.tick, span) + span;
      && r < |e.reqs|
      && ((e.reqs[r].startedAt.Some? && e.reqs[r].startedAt.value <= bound) || (e.now <= bound && IsHead(e, r)))
  {
    ReachableInv(c, s);
    RunIsInTime(c, s, run, r, span);
  }
}
