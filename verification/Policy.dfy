/** The pure policy: what the loop should do next, and how long a client should expect to wait. */
module Policy {
  import opened Types

  // ------------------------------------------------------------------ scoring

  function ScoreModel(state: ModelState, now: real, config: SchedulerConfig, isResident: bool): ScoreBreakdown {
    if !state.IsAvailable(now) then
      ScoreBreakdown(state.name, state.priority, state.depth, state.OldestWait(now), 0.0, 0.0, 0.0, NegInf, false)
    else if !state.HasPending() then
      ScoreBreakdown(state.name, state.priority, 0, 0.0, 0.0, 0.0, 0.0, Fin(0.0), true)
    else
      var wait := state.OldestWait(now);
      var ageTerm := config.ageWeight * wait;
      var depthTerm := config.depthWeight * state.depth as real;
      var switchCost := if isResident then 0.0 else config.switchCostWeight * state.loadSeconds;
      var score := state.priority * (ageTerm + depthTerm) - switchCost;
      ScoreBreakdown(state.name, state.priority, state.depth, wait, ageTerm, depthTerm, switchCost, Fin(score), true)
  }

  function Scores(models: seq<ModelState>, resident: Option<ModelName>, now: real, config: SchedulerConfig)
    : (scores: seq<ScoreBreakdown>)
    ensures |scores| == |models|
    ensures forall i :: 0 <= i < |models| ==>
      scores[i] == ScoreModel(models[i], now, config, Some(models[i].name) == resident)
  {
    seq(|models|, i requires 0 <= i < |models| =>
      ScoreModel(models[i], now, config, Some(models[i].name) == resident))
  }

  function ScoreOf(scores: seq<ScoreBreakdown>, model: ModelName): Score {
    if scores == [] then NegInf
    else if scores[0].model == model then scores[0].score
    else ScoreOf(scores[1..], model)
  }

  // ------------------------------------------------------------------ candidate lists

  function WithWork(models: seq<ModelState>): (r: seq<ModelState>)
    ensures forall s :: s in r <==> s in models && s.HasPending()
  {
    if models == [] then []
    else if models[0].HasPending() then [models[0]] + WithWork(models[1..])
    else WithWork(models[1..])
  }

  function Servable(models: seq<ModelState>, now: real): (r: seq<ModelState>)
    ensures forall s :: s in r <==> s in models && s.HasPending() && s.IsAvailable(now)
  {
    if models == [] then []
    else if models[0].HasPending() && models[0].IsAvailable(now) then [models[0]] + Servable(models[1..], now)
    else Servable(models[1..], now)
  }

  /** The starvation test of one model. */
  predicate IsOverdue(state: ModelState, resident: Option<ModelName>, now: real, config: SchedulerConfig) {
    && state.HasPending()
    && state.IsAvailable(now)
    && Some(state.name) != resident
    && state.OldestWait(now) >= config.maxWait
  }

  function Overdue(servable: seq<ModelState>, resident: Option<ModelName>, now: real, config: SchedulerConfig)
    : (r: seq<ModelState>)
    requires forall s :: s in servable ==> s.HasPending() && s.IsAvailable(now)
    ensures forall s :: s in r <==> s in servable && IsOverdue(s, resident, now, config)
  {
    if servable == [] then []
    else if Some(servable[0].name) != resident && servable[0].OldestWait(now) >= config.maxWait then
      [servable[0]] + Overdue(servable[1..], resident, now, config)
    else Overdue(servable[1..], resident, now, config)
  }

  /** The first of the longest-waiting candidates. */
  function LongestWaiting(states: seq<ModelState>, now: real): (r: ModelState)
    requires states != []
    ensures r in states
    ensures forall s :: s in states ==> s.OldestWait(now) <= r.OldestWait(now)
  {
    if |states| == 1 then states[0]
    else
      var rest := LongestWaiting(states[1..], now);
      if rest.OldestWait(now) > states[0].OldestWait(now) then rest else states[0]
  }

  /** The first of the best-scoring candidates. */
  function BestScoring(states: seq<ModelState>, scores: seq<ScoreBreakdown>): (r: ModelState)
    requires states != []
    ensures r in states
    ensures forall s :: s in states ==> !ScoreOf(scores, s.name).Above(ScoreOf(scores, r.name))
  {
    if |states| == 1 then states[0]
    else
      var rest := BestScoring(states[1..], scores);
      if ScoreOf(scores, rest.name).Above(ScoreOf(scores, states[0].name)) then rest else states[0]
  }

  // ------------------------------------------------------------------ the decision

  function Decide(snapshot: Snapshot, now: real, config: SchedulerConfig): Decision {
    var scores := Scores(snapshot.models, snapshot.resident, now, config);
    var (kind, reason, target) := Verdict(snapshot, now, config, scores);
    Decision(kind, reason, now, snapshot.resident, target, scores)
  }

  /** The branches in order of precedence: transition, starvation ceiling, nothing to do, scoring. */
  function Verdict(snapshot: Snapshot, now: real, config: SchedulerConfig, scores: seq<ScoreBreakdown>)
    : (DecisionKind, DecisionReason, Option<ModelName>)
  {
    if snapshot.switching || snapshot.draining then (Hold, InTransition, None)
    else
      var servable := Servable(snapshot.models, now);
      var overdue := Overdue(servable, snapshot.resident, now, config);
      if overdue != [] then (Switch, Starvation, Some(LongestWaiting(overdue, now).name))
      else if WithWork(snapshot.models) == [] then (Idle, NoWork, None)
      else if servable == [] then (Idle, BackendUnavailable, None)
      else Contest(snapshot.ResidentState(), BestScoring(servable, scores), |servable| == 1, now, config, scores)
  }

  /** Steps 4 to 6: the resident model, if any, against the best candidate. */
  function Contest(
    resident: Option<ModelState>, best: ModelState, alone: bool,
    now: real, config: SchedulerConfig, scores: seq<ScoreBreakdown>)
    : (DecisionKind, DecisionReason, Option<ModelName>)
  {
    if resident.None? then (Switch, ColdStart, Some(best.name))
    else if !resident.value.IsAvailable(now) then (Switch, BackendUnavailable, Some(best.name))
    else if best.name != resident.value.name && IsHeld(resident.value, best, now, config) then
      (Hold, MinResidency, None)
    else if best.name == resident.value.name then (if alone then Serve else Hold, ResidentWins, None)
    else if ScoreOf(scores, best.name).Above(ScoreOf(scores, resident.value.name)) then
      (Switch, if RanDry(resident.value, best, now, config) then ResidentIdle else ChallengerWins, Some(best.name))
    else (Hold, ResidentWins, None)
  }

  function SwapCost(challenger: ModelState, config: SchedulerConfig): real {
    config.switchCostWeight * challenger.loadSeconds
  }

  /** Hysteresis protects the resident from this challenger. */
  predicate IsHeld(resident: ModelState, challenger: ModelState, now: real, config: SchedulerConfig) {
    && resident.residentSince.Some?
    && now - resident.residentSince.value < config.minResidency
    && (resident.IsBusy() || resident.IdleFor(now) < SwapCost(challenger, config))
  }

  /** The resident has been idle for at least as long as loading the challenger takes. */
  predicate RanDry(resident: ModelState, challenger: ModelState, now: real, config: SchedulerConfig) {
    !resident.IsBusy() && resident.IdleFor(now) >= SwapCost(challenger, config)
  }

  /** The decision lets queued work of the resident model be dispatched. */
  predicate Dispatches(d: Decision) {
    d.kind == Serve || d.kind == Hold
  }

  // ------------------------------------------------------------------ what a decision means

  predicate IsLongestOverdue(t: ModelState, snapshot: Snapshot, now: real, config: SchedulerConfig) {
    && IsOverdue(t, snapshot.resident, now, config)
    && forall s :: s in snapshot.models && IsOverdue(s, snapshot.resident, now, config) ==>
         s.OldestWait(now) <= t.OldestWait(now)
  }

  /** The decision is a starvation switch if and only if some available, non-resident model has waited past
      the ceiling, and then its target is one that has waited longest among those. */
  predicate HeedsCeiling(snapshot: Snapshot, now: real, config: SchedulerConfig, d: Decision) {
    && (d.reason == Starvation <==> exists s :: s in snapshot.models && IsOverdue(s, snapshot.resident, now, config))
    && (d.reason == Starvation ==>
          && d.kind == Switch
          && exists t :: t in snapshot.models && IsLongestOverdue(t, snapshot, now, config) && d.target == Some(t.name))
  }

  /** Step 1 is exact. */
  lemma StarvationIffOverdue(snapshot: Snapshot, now: real, config: SchedulerConfig)
    requires !snapshot.switching && !snapshot.draining
    ensures HeedsCeiling(snapshot, now, config, Decide(snapshot, now, config))
  {
    var servable := Servable(snapshot.models, now);
    var overdue := Overdue(servable, snapshot.resident, now, config);
    if overdue != [] {
      var t := LongestWaiting(overdue, now);
      assert t in snapshot.models && IsOverdue(t, snapshot.resident, now, config);
      assert forall s :: s in snapshot.models && IsOverdue(s, snapshot.resident, now, config) ==> s in overdue;
    } else {
      forall s | s in snapshot.models ensures !IsOverdue(s, snapshot.resident, now, config) {
        assert s !in overdue;
      }
    }
  }

  /** The same models, seen alike but for their priorities and load times. */
  predicate AreAlike(models: seq<ModelState>, others: seq<ModelState>) {
    && |others| == |models|
    && forall i :: 0 <= i < |models| ==> IsAlike(models[i], others[i])
  }

  predicate IsAlike(state: ModelState, other: ModelState) {
    other == state.(priority := other.priority, loadSeconds := other.loadSeconds)
  }

  /** No weight, priority or load time can take a mandatory switch away or change its target: a snapshot that
      differs in those alone, judged under a configuration that shares no more than the ceiling, leads to
      the same switch. */
  lemma StarvationIgnoresWeights(
    snapshot: Snapshot, twin: Snapshot, now: real, config: SchedulerConfig, other: SchedulerConfig)
    requires other.maxWait == config.maxWait
    requires AreAlike(snapshot.models, twin.models) && twin == snapshot.(models := twin.models)
    requires !snapshot.switching && !snapshot.draining
    requires exists s :: s in snapshot.models && IsOverdue(s, snapshot.resident, now, config)
    ensures Decide(snapshot, now, config).kind == Decide(twin, now, other).kind == Switch
    ensures Decide(snapshot, now, config).reason == Decide(twin, now, other).reason == Starvation
    ensures Decide(snapshot, now, config).target == Decide(twin, now, other).target
  {
    var servable, theirs := Servable(snapshot.models, now), Servable(twin.models, now);
    var overdue, due := Overdue(servable, snapshot.resident, now, config), Overdue(theirs, twin.resident, now, other);
    var s :| s in snapshot.models && IsOverdue(s, snapshot.resident, now, config);
    assert s in overdue;
    ServableAlike(snapshot.models, twin.models, now);
    OverdueAlike(servable, theirs, snapshot.resident, now, config, other);
    LongestAlike(overdue, due, now);
  }

  lemma {:induction false} ServableAlike(models: seq<ModelState>, others: seq<ModelState>, now: real)
    requires AreAlike(models, others)
    ensures AreAlike(Servable(models, now), Servable(others, now))
  {
    if models != [] {
      assert IsAlike(models[0], others[0]);
      ServableAlike(models[1..], others[1..], now);
    }
  }

  lemma {:induction false} OverdueAlike(
    servable: seq<ModelState>, others: seq<ModelState>, resident: Option<ModelName>, now: real,
    config: SchedulerConfig, other: SchedulerConfig)
    requires forall s :: s in servable ==> s.HasPending() && s.IsAvailable(now)
    requires forall s :: s in others ==> s.HasPending() && s.IsAvailable(now)
    requires AreAlike(servable, others) && other.maxWait == config.maxWait
    ensures AreAlike(Overdue(servable, resident, now, config), Overdue(others, resident, now, other))
  {
    if servable != [] {
      assert IsAlike(servable[0], others[0]);
      OverdueAlike(servable[1..], others[1..], resident, now, config, other);
    }
  }

  lemma {:induction false} LongestAlike(states: seq<ModelState>, others: seq<ModelState>, now: real)
    requires states != [] && AreAlike(states, others)
    ensures IsAlike(LongestWaiting(states, now), LongestWaiting(others, now))
  {
    assert IsAlike(states[0], others[0]);
    if |states| > 1 {
      LongestAlike(states[1..], others[1..], now);
    }
  }

  /** Which of several equals: the mandatory target is the first of those nobody has waited longer than. */
  lemma {:induction false} LongestIsFirst(states: seq<ModelState>, now: real) returns (i: nat)
    requires states != []
    ensures i < |states| && LongestWaiting(states, now) == states[i]
    ensures forall j :: 0 <= j < i ==> states[j].OldestWait(now) < states[i].OldestWait(now)
    ensures forall j :: i <= j < |states| ==> states[j].OldestWait(now) <= states[i].OldestWait(now)
  {
    i := 0;
    if |states| > 1 {
      var k := LongestIsFirst(states[1..], now);
      assert forall j :: 0 < j < |states| ==> states[j] == states[1..][j - 1];
      if states[k + 1].OldestWait(now) > states[0].OldestWait(now) {
        i := k + 1;
      }
    }
  }

  /** And the best candidate is the first of those nobody scores above. */
  lemma {:induction false} BestIsFirst(states: seq<ModelState>, scores: seq<ScoreBreakdown>) returns (i: nat)
    requires states != []
    ensures i < |states| && BestScoring(states, scores) == states[i]
    ensures forall j :: 0 <= j < i ==> ScoreOf(scores, states[i].name).Above(ScoreOf(scores, states[j].name))
    ensures forall j :: i <= j < |states| ==> !ScoreOf(scores, states[j].name).Above(ScoreOf(scores, states[i].name))
  {
    i := 0;
    if |states| > 1 {
      var k := BestIsFirst(states[1..], scores);
      assert forall j :: 0 < j < |states| ==> states[j] == states[1..][j - 1];
      if ScoreOf(scores, states[k + 1].name).Above(ScoreOf(scores, states[0].name)) {
        i := k + 1;
      }
    }
  }

  /** Every switch is worth making: its target has queued work, can be loaded now, and is not already
      resident (the last part unless the resident backend itself is in backoff). */
  lemma SwitchTargetIsServable(snapshot: Snapshot, now: real, config: SchedulerConfig)
    requires snapshot.UniqueNames()
    ensures var d := Decide(snapshot, now, config);
      d.kind == Switch ==>
        && d.target.Some?
        && (exists t :: t in snapshot.models && t.name == d.target.value && t.HasPending() && t.IsAvailable(now))
        && (d.reason != BackendUnavailable ==> d.target != snapshot.resident)
  {
    var d := Decide(snapshot, now, config);
    if d.kind == Switch {
      var servable := Servable(snapshot.models, now);
      var overdue := Overdue(servable, snapshot.resident, now, config);
      if overdue != [] {
        var t := LongestWaiting(overdue, now);
        assert t in overdue;
        assert t in servable;
        assert t in snapshot.models && t.name == d.target.value;
        assert IsOverdue(t, snapshot.resident, now, config);
      } else {
        var best := BestScoring(servable, Scores(snapshot.models, snapshot.resident, now, config));
        assert best in servable;
        assert best in snapshot.models && best.name == d.target.value;
        if snapshot.resident.Some? && snapshot.ResidentState().None? {
          assert best.name != snapshot.resident.value;
        }
      }
    }
  }

  /** `state` has queued work, could be loaded now, and scores strictly above the resident. */
  predicate Outscores(state: ModelState, resident: ModelState, now: real, config: SchedulerConfig) {
    && state.HasPending() && state.IsAvailable(now)
    && ScoreModel(state, now, config, state.name == resident.name).score.Above(
         ScoreModel(resident, now, config, true).score)
  }

  /** Still within its minimum residency. */
  predicate IsFresh(resident: ModelState, now: real, config: SchedulerConfig) {
    resident.residentSince.Some? && now - resident.residentSince.value < config.minResidency
  }

  predicate SomeoneOutscores(snapshot: Snapshot, resident: ModelState, now: real, config: SchedulerConfig) {
    exists s :: s in snapshot.models && Outscores(s, resident, now, config)
  }

  predicate AnyOverdue(snapshot: Snapshot, now: real, config: SchedulerConfig) {
    exists s :: s in snapshot.models && IsOverdue(s, snapshot.resident, now, config)
  }

  /** A decision about a resident with queued work: it goes on exactly when nobody is overdue and it is
      either still within its minimum residency or not out-scored. Otherwise it loses the device, to the
      ceiling or to a challenger. */
  predicate GoesOnIff(snapshot: Snapshot, now: real, config: SchedulerConfig, resident: ModelState, d: Decision) {
    && (Dispatches(d) <==> !AnyOverdue(snapshot, now, config)
                           && (IsFresh(resident, now, config) || !SomeoneOutscores(snapshot, resident, now, config)))
    && (!Dispatches(d) ==>
          IsSwitch(d) && d.reason == if AnyOverdue(snapshot, now, config) then Starvation else ChallengerWins)
  }

  /** When a resident with queued work may go on. */
  lemma BusyResidentDispatchesIff(snapshot: Snapshot, now: real, config: SchedulerConfig, resident: ModelState)
    requires !snapshot.switching && !snapshot.draining && snapshot.UniqueNames()
    requires resident in snapshot.models && snapshot.resident == Some(resident.name)
    requires resident.HasPending() && resident.IsAvailable(now)
    ensures GoesOnIff(snapshot, now, config, resident, Decide(snapshot, now, config))
  {
    if AnyOverdue(snapshot, now, config) {
      StarvationIffOverdue(snapshot, now, config);
      CeilingStops(snapshot, now, config, resident, Decide(snapshot, now, config));
    } else {
      NobodyForces(snapshot, now, config, resident);
    }
  }

  lemma CeilingStops(snapshot: Snapshot, now: real, config: SchedulerConfig, resident: ModelState, d: Decision)
    requires HeedsCeiling(snapshot, now, config, d) && AnyOverdue(snapshot, now, config)
    ensures GoesOnIff(snapshot, now, config, resident, d)
  {
  }

  lemma NobodyForces(snapshot: Snapshot, now: real, config: SchedulerConfig, resident: ModelState)
    requires !snapshot.switching && !snapshot.draining && snapshot.UniqueNames()
    requires resident in snapshot.models && snapshot.resident == Some(resident.name)
    requires resident.HasPending() && resident.IsAvailable(now) && !AnyOverdue(snapshot, now, config)
    ensures GoesOnIff(snapshot, now, config, resident, Decide(snapshot, now, config))
  {
    var scores := Scores(snapshot.models, snapshot.resident, now, config);
    var servable := Servable(snapshot.models, now);
    UncontestedByCeiling(snapshot, now, config, resident, scores);
    BestOutscoresIff(snapshot, now, config, resident);
    BusyContest(resident, BestScoring(servable, scores), |servable| == 1, now, config, scores);
    VerdictDecides(snapshot, now, config);
  }

  lemma VerdictDecides(snapshot: Snapshot, now: real, config: SchedulerConfig)
    ensures var d := Decide(snapshot, now, config);
      (d.kind, d.reason, d.target) ==
        Verdict(snapshot, now, config, Scores(snapshot.models, snapshot.resident, now, config))
  {
  }

  /** With nobody overdue the decision is the resident's against the best candidate. */
  lemma UncontestedByCeiling(
    snapshot: Snapshot, now: real, config: SchedulerConfig, resident: ModelState, scores: seq<ScoreBreakdown>)
    requires !snapshot.switching && !snapshot.draining && snapshot.UniqueNames()
    requires resident in snapshot.models && snapshot.resident == Some(resident.name)
    requires resident.HasPending() && resident.IsAvailable(now)
    requires !AnyOverdue(snapshot, now, config)
    ensures var servable := Servable(snapshot.models, now);
      && servable != []
      && Verdict(snapshot, now, config, scores) ==
           Contest(Some(resident), BestScoring(servable, scores), |servable| == 1, now, config, scores)
  {
    NamedIsUnique(snapshot.models, resident);
    var servable := Servable(snapshot.models, now);
    assert resident in WithWork(snapshot.models) && resident in servable;
    EmptyOrInhabited(Overdue(servable, snapshot.resident, now, config));
  }

  lemma EmptyOrInhabited(states: seq<ModelState>)
    ensures states == [] || exists s :: s in states
  {
    if states != [] {
      assert states[0] in states;
    }
  }

  /** Somebody out-scores the resident if and only if the best candidate does. */
  lemma BestOutscoresIff(snapshot: Snapshot, now: real, config: SchedulerConfig, resident: ModelState)
    requires snapshot.UniqueNames() && resident in snapshot.models && snapshot.resident == Some(resident.name)
    requires Servable(snapshot.models, now) != []
    ensures var scores := Scores(snapshot.models, snapshot.resident, now, config);
      var best := BestScoring(Servable(snapshot.models, now), scores);
      SomeoneOutscores(snapshot, resident, now, config) <==>
        ScoreOf(scores, best.name).Above(ScoreOf(scores, resident.name))
  {
    var scores := Scores(snapshot.models, snapshot.resident, now, config);
    var servable := Servable(snapshot.models, now);
    var best := BestScoring(servable, scores);
    ScoreOfMember(snapshot.models, snapshot.resident, now, config, resident);
    assert best in servable;
    ScoreOfMember(snapshot.models, snapshot.resident, now, config, best);
    if SomeoneOutscores(snapshot, resident, now, config) {
      var s :| s in snapshot.models && Outscores(s, resident, now, config);
      ScoreOfMember(snapshot.models, snapshot.resident, now, config, s);
      assert s in servable;
    }
    if ScoreOf(scores, best.name).Above(ScoreOf(scores, resident.name)) {
      assert Outscores(best, resident, now, config);
    }
  }

  lemma BusyContest(
    resident: ModelState, best: ModelState, alone: bool, now: real, config: SchedulerConfig,
    scores: seq<ScoreBreakdown>)
    requires resident.IsAvailable(now) && resident.HasPending()
    ensures var (kind, reason, target) := Contest(Some(resident), best, alone, now, config, scores);
      && (kind in {Serve, Hold} <==> IsFresh(resident, now, config)
                                     || !ScoreOf(scores, best.name).Above(ScoreOf(scores, resident.name)))
      && (kind !in {Serve, Hold} ==> kind == Switch && reason == ChallengerWins && target.Some?)
  {
  }

  /** A swap away from an available resident that is not forced by starvation was earned: the resident
      either served its minimum residency, or ran dry for at least as long as the swap costs. */
  lemma EarnedSwap(snapshot: Snapshot, now: real, config: SchedulerConfig, resident: ModelState)
    requires snapshot.UniqueNames()
    requires resident in snapshot.models && snapshot.resident == Some(resident.name)
    requires resident.IsAvailable(now) && resident.residentSince.Some?
    ensures var d := Decide(snapshot, now, config);
      d.kind == Switch && d.reason != Starvation ==>
        && (d.reason == ResidentIdle || d.reason == ChallengerWins)
        && exists best :: best in snapshot.models && d.target == Some(best.name)
             && (now - resident.residentSince.value >= config.minResidency || RanDry(resident, best, now, config))
  {
    NamedIsUnique(snapshot.models, resident);
    var d := Decide(snapshot, now, config);
    if d.kind == Switch && d.reason != Starvation {
      var scores := Scores(snapshot.models, snapshot.resident, now, config);
      var best := BestScoring(Servable(snapshot.models, now), scores);
      assert best in Servable(snapshot.models, now);
      ContestWon(resident, best, |Servable(snapshot.models, now)| == 1, now, config, scores);
      assert best in snapshot.models && d.target == Some(best.name);
    }
  }

  /** So, if `d` is at most the minimum residency and at most any swap's cost, the resident was resident or
      idle for `d`. */
  lemma EarnedWindow(snapshot: Snapshot, now: real, config: SchedulerConfig, resident: ModelState, d: real)
    requires snapshot.UniqueNames()
    requires resident in snapshot.models && snapshot.resident == Some(resident.name)
    requires resident.IsAvailable(now) && resident.residentSince.Some?
    requires d <= config.minResidency && forall s :: s in snapshot.models ==> d <= SwapCost(s, config)
    ensures Justified(Decide(snapshot, now, config), now, resident, d)
  {
    EarnedSwap(snapshot, now, config, resident);
  }

  predicate Justified(decision: Decision, now: real, resident: ModelState, d: real)
    requires resident.residentSince.Some?
  {
    decision.kind == Switch && decision.reason != Starvation ==>
      d <= now - resident.residentSince.value || d <= resident.IdleFor(now)
  }

  lemma ContestWon(
    resident: ModelState, best: ModelState, alone: bool, now: real, config: SchedulerConfig,
    scores: seq<ScoreBreakdown>)
    requires resident.IsAvailable(now)
    requires Contest(Some(resident), best, alone, now, config, scores).0 == Switch
    ensures !IsHeld(resident, best, now, config)
    ensures ScoreOf(scores, best.name).Above(ScoreOf(scores, resident.name))
    ensures Contest(Some(resident), best, alone, now, config, scores).2 == Some(best.name)
    ensures var reason := Contest(Some(resident), best, alone, now, config, scores).1;
      reason == ResidentIdle || reason == ChallengerWins
  {
  }

  /** The policy abandons a resident for being unavailable only while its backoff lasts, and reports a
      transition only while one is under way. */
  lemma UnavailableSwitchNeedsBackoff(snapshot: Snapshot, now: real, config: SchedulerConfig)
    ensures var d := Decide(snapshot, now, config);
      && (d.reason == InTransition <==> snapshot.switching || snapshot.draining)
      && (d.kind == Switch && d.reason == BackendUnavailable ==>
            snapshot.ResidentState().Some? && !snapshot.ResidentState().value.IsAvailable(now))
  {
  }

  /** A draw moves nothing: an available resident loses the GPU, starvation aside, only to a candidate
      whose score in the decision's own breakdown is strictly higher than its own. */
  lemma TiesGoToIncumbent(snapshot: Snapshot, now: real, config: SchedulerConfig, resident: ModelState)
    requires snapshot.UniqueNames()
    requires resident in snapshot.models && snapshot.resident == Some(resident.name)
    requires resident.IsAvailable(now)
    ensures var d := Decide(snapshot, now, config);
      d.kind == Switch && d.reason != Starvation ==>
        && d.target.Some?
        && (forall s :: s in snapshot.models && s.HasPending() && s.IsAvailable(now) ==>
              !ScoreOf(d.scores, s.name).Above(ScoreOf(d.scores, d.target.value)))
        && ScoreOf(d.scores, d.target.value).Above(ScoreOf(d.scores, resident.name))
  {
    NamedIsUnique(snapshot.models, resident);
    var d := Decide(snapshot, now, config);
    if d.kind == Switch && d.reason != Starvation {
      var servable := Servable(snapshot.models, now);
      ContestWon(resident, BestScoring(servable, d.scores), |servable| == 1, now, config, d.scores);
      assert forall s :: s in snapshot.models && s.HasPending() && s.IsAvailable(now) ==> s in servable;
    }
  }

  /** The breakdown of a decision gives each model its own score, with the switch cost left out for the
      resident model only. */
  lemma {:induction false} ScoreOfMember(
    models: seq<ModelState>, resident: Option<ModelName>, now: real, config: SchedulerConfig, state: ModelState)
    requires forall i, j :: 0 <= i < j < |models| ==> models[i].name != models[j].name
    requires state in models
    ensures ScoreOf(Scores(models, resident, now, config), state.name)
         == ScoreModel(state, now, config, Some(state.name) == resident).score
  {
    if models[0] != state {
      assert state in models[1..];
      ScoreOfMember(models[1..], resident, now, config, state);
      assert Scores(models, resident, now, config)[1..] == Scores(models[1..], resident, now, config);
    }
  }

  /** What the score is made of. For an available model with queued work: a second more of waiting is worth
      priority times the age weight, a request more in the queue priority times the depth weight, and being
      resident exactly the price of loading the model; whatever else is equal. */
  lemma ScoreIsLinear(state: ModelState, now: real, later: real, config: SchedulerConfig)
    requires state.HasPending() && state.oldestEnqueuedAt.Some? && state.oldestEnqueuedAt.value <= now <= later
    requires state.IsAvailable(now)
    ensures var base := ScoreModel(state, now, config, false).score;
      && base.Fin?
      && ScoreModel(state, later, config, false).score == Fin(base.v + state.priority * config.ageWeight * (later - now))
      && ScoreModel(state.(depth := state.depth + 1), now, config, false).score ==
           Fin(base.v + state.priority * config.depthWeight)
      && ScoreModel(state, now, config, true).score == Fin(base.v + SwapCost(state, config))
  {
    var p, a, d, w, more := state.priority, config.ageWeight, config.depthWeight, state.OldestWait(now), later - now;
    assert state.OldestWait(later) == w + more;
    assert p * (a * (w + more) + d * state.depth as real) == p * (a * w + d * state.depth as real) + p * a * more;
    assert p * (a * w + d * (state.depth as real + 1.0)) == p * (a * w + d * state.depth as real) + p * d;
  }

  /** A model that may not be loaded never scores; one without queued work scores nothing. */
  lemma OnlyWorkScores(state: ModelState, now: real, config: SchedulerConfig, isResident: bool)
    ensures ScoreModel(state, now, config, isResident).score.NegInf? <==> !state.IsAvailable(now)
    ensures state.IsAvailable(now) && !state.HasPending() ==> ScoreModel(state, now, config, isResident).score == Fin(0.0)
    ensures ScoreModel(state, now, config, isResident).eligible <==> state.IsAvailable(now)
  {
  }

  /** A resident that is alone in having queued work, and is up, is let to dispatch it. */
  lemma AloneIsServed(snapshot: Snapshot, now: real, config: SchedulerConfig, resident: ModelState)
    requires !snapshot.switching && !snapshot.draining && snapshot.UniqueNames()
    requires resident in snapshot.models && snapshot.resident == Some(resident.name)
    requires resident.HasPending() && resident.IsAvailable(now)
    requires forall s :: s in snapshot.models && s.HasPending() ==> s == resident
    ensures Dispatches(Decide(snapshot, now, config))
  {
    BusyResidentDispatchesIff(snapshot, now, config, resident);
  }

  /** The device is never left empty while a model with queued work can be loaded. */
  lemma ColdStartLoads(snapshot: Snapshot, now: real, config: SchedulerConfig)
    requires !snapshot.switching && !snapshot.draining && snapshot.resident.None?
    requires exists s :: s in snapshot.models && s.HasPending() && s.IsAvailable(now)
    ensures IsSwitch(Decide(snapshot, now, config))
  {
    var s :| s in snapshot.models && s.HasPending() && s.IsAvailable(now);
    assert s in Servable(snapshot.models, now) && s in WithWork(snapshot.models);
  }

  predicate IsSwitch(d: Decision) {
    d.kind == Switch && d.target.Some?
  }

  // ------------------------------------------------------------------ the wait estimate

  const MIN_RETRY_AFTER := 0.5
  const MAX_RETRY_AFTER := 10.0

  datatype WaitEstimate = WaitEstimate(
    position: nat,
    resident: bool,
    needsSwap: bool,
    loadSeconds: real,
    dispatchWithin: Option<real>,
    estimated: real,
    retryAfter: real)

  /** How much longer hysteresis protects the incumbent. */
  function HoldLeft(snapshot: Snapshot, now: real, config: SchedulerConfig): real {
    var incumbent := snapshot.ResidentState();
    if incumbent.Some? && incumbent.value.residentSince.Some? then
      Max(0.0, config.minResidency - (now - incumbent.value.residentSince.value))
    else 0.0
  }

  function CeilingLeft(state: ModelState, now: real, config: SchedulerConfig): real {
    Max(0.0, config.maxWait - state.OldestWait(now))
  }

  function GpuWait(snapshot: Snapshot, state: ModelState, now: real, config: SchedulerConfig): real {
    if state.resident then 0.0
    else
      var wait := Min(HoldLeft(snapshot, now, config), CeilingLeft(state, now, config)) + state.loadSeconds;
      if !state.IsAvailable(now) && state.unavailableUntil.Some? then
        Max(wait, state.unavailableUntil.value - now + state.loadSeconds)
      else wait
  }

  /** Full batches ahead; requests already generating hold slots exactly as queued ones do. */
  function Batches(state: ModelState, position: nat, config: SchedulerConfig): nat
    requires config.Valid()
  {
    (if state.resident then position + state.inFlight else position) / config.maxConcurrent
  }

  /** `None` is the KeyError for a model the configuration does not know. */
  function EstimateWait(
    snapshot: Snapshot, model: ModelName, position: nat, now: real, config: SchedulerConfig, mean: real)
    : Option<WaitEstimate>
    requires config.Valid()
  {
    var found := snapshot.ByName(model);
    if found.None? then None
    else
      var state := found.value;
      var estimated := GpuWait(snapshot, state, now, config) + (Batches(state, position, config) as real * mean + mean);
      Some(WaitEstimate(
        position,
        state.resident,
        !state.resident,
        if state.resident then 0.0 else state.loadSeconds,
        if state.resident then None else Some(CeilingLeft(state, now, config)),
        estimated,
        Min(MAX_RETRY_AFTER, Max(MIN_RETRY_AFTER, estimated / 4.0))))
  }

  /** The advertised ceiling is the policy's own test: it reads zero exactly when `Decide` counts the
      model as overdue. */
  lemma CeilingAgreesWithDecide(
    snapshot: Snapshot, state: ModelState, position: nat, now: real, config: SchedulerConfig, mean: real)
    requires config.Valid() && snapshot.UniqueNames()
    requires state in snapshot.models
    requires state.HasPending() && state.IsAvailable(now)
    requires !state.resident && Some(state.name) != snapshot.resident
    ensures var e := EstimateWait(snapshot, state.name, position, now, config, mean);
      e.Some? && (e.value.dispatchWithin == Some(0.0) <==> IsOverdue(state, snapshot.resident, now, config))
  {
    NamedIsUnique(snapshot.models, state);
  }

  /** While the advertised hold is positive, the incumbent is up and busy and nobody is overdue, the
      policy keeps the incumbent. */
  lemma HoldAgreesWithDecide(snapshot: Snapshot, now: real, config: SchedulerConfig, incumbent: ModelState)
    requires snapshot.UniqueNames()
    requires incumbent in snapshot.models && snapshot.resident == Some(incumbent.name)
    requires incumbent.IsAvailable(now) && incumbent.IsBusy()
    requires HoldLeft(snapshot, now, config) > 0.0
    requires forall s :: s in snapshot.models ==> !IsOverdue(s, snapshot.resident, now, config)
    ensures Decide(snapshot, now, config).kind != Switch
  {
    NamedIsUnique(snapshot.models, incumbent);
    if !snapshot.switching && !snapshot.draining {
      StarvationIffOverdue(snapshot, now, config);
    }
  }

  /** For a fixed snapshot the estimate never rises as time passes and falls at most a second a second. */
  lemma EstimateFallsGently(
    snapshot: Snapshot, model: ModelName, position: nat, now: real, later: real, config: SchedulerConfig, mean: real)
    requires config.Valid()
    requires now <= later
    requires snapshot.ByName(model).Some? && 0.0 <= snapshot.ByName(model).value.loadSeconds
    ensures var before, after := EstimateWait(snapshot, model, position, now, config, mean),
                                 EstimateWait(snapshot, model, position, later, config, mean);
      before.Some? && after.Some? &&
      before.value.estimated - (later - now) <= after.value.estimated <= before.value.estimated
  {
    var state := snapshot.ByName(model).value;
    var g, g' := GpuWait(snapshot, state, now, config), GpuWait(snapshot, state, later, config);
    assert g - (later - now) <= g' <= g;
    var rest := Batches(state, position, config) as real * mean + mean;
    assert EstimateWait(snapshot, model, position, now, config, mean).value.estimated == g + rest;
    assert EstimateWait(snapshot, model, position, later, config, mean).value.estimated == g' + rest;
  }

  /** Waits step in batches: `maxConcurrent` positions further back costs exactly one more mean, and two
      positions served by the same batch are told the same. */
  lemma EstimateStepsInBatches(
    snapshot: Snapshot, model: ModelName, position: nat, other: nat, now: real, config: SchedulerConfig, mean: real)
    requires config.Valid()
    requires snapshot.ByName(model).Some?
    ensures var state := snapshot.ByName(model).value;
      var held := if state.resident then state.inFlight else 0;
      var e, next, o :=
        EstimateWait(snapshot, model, position, now, config, mean),
        EstimateWait(snapshot, model, position + config.maxConcurrent, now, config, mean),
        EstimateWait(snapshot, model, other, now, config, mean);
      && e.Some? && next.Some? && o.Some?
      && next.value.estimated == e.value.estimated + mean
      && ((position + held) / config.maxConcurrent == (other + held) / config.maxConcurrent ==>
            o.value.estimated == e.value.estimated)
      && MIN_RETRY_AFTER <= e.value.retryAfter <= MAX_RETRY_AFTER
  {
    var state := snapshot.ByName(model).value;
    var ahead := if state.resident then position + state.inFlight else position;
    BatchStep(ahead, config.maxConcurrent);
    var b := ahead / config.maxConcurrent;
    assert (b + 1) as real * mean == b as real * mean + mean;
  }

  lemma BatchStep(ahead: nat, size: int)
    requires 0 < size
    ensures (ahead + size) / size == ahead / size + 1
  {
    var q, q' := ahead / size + 1, (ahead + size) / size;
    if q' < q {
      ProductGrows(q' + 1, q, size);
    } else if q < q' {
      ProductGrows(q + 1, q', size);
    }
  }

  lemma ProductGrows(a: int, b: int, size: int)
    requires a <= b && 0 < size
    ensures a * size <= b * size
  {
    assert 0 <= (b - a) * size;
  }
}
