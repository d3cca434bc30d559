/** The decision, read off the snapshot's own fields: for every snapshot which verdict is the right one, said
    with places in the list of models and plain arithmetic, and proved to be the one that is given. */
module DecisionTable {
  import opened Types
  import opened Policy

  // ------------------------------------------------------------------ from the fields

  function Waited(state: ModelState, now: real): real {
    if state.oldestEnqueuedAt.Some? && state.oldestEnqueuedAt.value < now then now - state.oldestEnqueuedAt.value
    else 0.0
  }

  function Idled(state: ModelState, now: real): real {
    if state.idleSince.Some? && state.idleSince.value < now then now - state.idleSince.value else 0.0
  }

  predicate IsUp(state: ModelState, now: real) {
    state.unavailableUntil.None? || state.unavailableUntil.value <= now
  }

  predicate IsLoadable(state: ModelState, now: real) {
    state.depth > 0 && IsUp(state, now)
  }

  /** What serving a model that is up is worth: nothing without queued work, and otherwise its priority times
      its weighted wait and depth, less the price of loading it unless it is resident. */
  function Worth(state: ModelState, resident: Option<ModelName>, now: real, config: SchedulerConfig): real {
    if state.depth == 0 then 0.0
    else
      state.priority * (config.ageWeight * Waited(state, now) + config.depthWeight * state.depth as real)
        - if resident == Some(state.name) then 0.0 else config.switchCostWeight * state.loadSeconds
  }

  /** Past the ceiling, and not resident. */
  predicate IsForced(snapshot: Snapshot, now: real, config: SchedulerConfig, k: nat) {
    && k < |snapshot.models| && IsLoadable(snapshot.models[k], now)
    && snapshot.resident != Some(snapshot.models[k].name) && config.maxWait <= Waited(snapshot.models[k], now)
  }

  ghost predicate IsFirstForced(snapshot: Snapshot, now: real, config: SchedulerConfig, k: nat) {
    && IsForced(snapshot, now, config, k)
    && forall j: nat :: IsForced(snapshot, now, config, j) ==>
         && Waited(snapshot.models[j], now) <= Waited(snapshot.models[k], now)
         && (j < k ==> Waited(snapshot.models[j], now) < Waited(snapshot.models[k], now))
  }

  predicate IsCandidate(snapshot: Snapshot, now: real, k: nat) {
    k < |snapshot.models| && IsLoadable(snapshot.models[k], now)
  }

  /** What each model is worth, in the list's order. */
  function Worths(snapshot: Snapshot, now: real, config: SchedulerConfig): (worths: seq<real>)
    ensures |worths| == |snapshot.models|
  {
    seq(|snapshot.models|, k requires 0 <= k < |snapshot.models| =>
      Worth(snapshot.models[k], snapshot.resident, now, config))
  }

  /** What loading each would cost. */
  function Costs(snapshot: Snapshot, config: SchedulerConfig): (costs: seq<real>)
    ensures |costs| == |snapshot.models|
  {
    seq(|snapshot.models|, k requires 0 <= k < |snapshot.models| =>
      config.switchCostWeight * snapshot.models[k].loadSeconds)
  }

  /** The first of the candidates worth most. */
  ghost predicate IsBest(snapshot: Snapshot, now: real, worths: seq<real>, k: nat)
    requires |worths| == |snapshot.models|
  {
    && IsCandidate(snapshot, now, k)
    && forall j: nat :: IsCandidate(snapshot, now, j) ==>
         worths[j] <= worths[k] && (j < k ==> worths[j] < worths[k])
  }

  predicate IsResidentAt(snapshot: Snapshot, r: nat) {
    r < |snapshot.models| && snapshot.resident == Some(snapshot.models[r].name)
  }

  // ------------------------------------------------------------------ the table

  datatype Ruling = Ruling(kind: DecisionKind, reason: DecisionReason, target: Option<ModelName>)

  function RulingOf(d: Decision): Ruling {
    Ruling(d.kind, d.reason, d.target)
  }

  /** Nothing queued, nothing generating, and that for at least as long as the swap would cost. */
  predicate HasRunDry(resident: ModelState, cost: real, now: real) {
    resident.depth == 0 && resident.inFlight == 0 && cost <= Idled(resident, now)
  }

  predicate IsYoung(resident: ModelState, now: real, config: SchedulerConfig) {
    resident.residentSince.Some? && now - resident.residentSince.value < config.minResidency
  }

  /** The resident, worth `kept`, against the best candidate, worth `offered` and loaded at that cost. */
  function RulingBetween(
    resident: ModelState, best: ModelState, alone: bool, kept: real, offered: real, cost: real,
    now: real, config: SchedulerConfig): Ruling
  {
    if !IsUp(resident, now) then Ruling(Switch, BackendUnavailable, Some(best.name))
    else if best.name == resident.name then Ruling(if alone then Serve else Hold, ResidentWins, None)
    else if IsYoung(resident, now, config) && !HasRunDry(resident, cost, now) then Ruling(Hold, MinResidency, None)
    else if kept < offered then
      Ruling(Switch, if HasRunDry(resident, cost, now) then ResidentIdle else ChallengerWins, Some(best.name))
    else Ruling(Hold, ResidentWins, None)
  }

  ghost predicate IsAlone(snapshot: Snapshot, now: real, k: nat) {
    forall j: nat :: IsCandidate(snapshot, now, j) ==> j == k
  }

  /** Models as they are seen, what each is worth and what loading it costs. */
  datatype View = View(snapshot: Snapshot, worths: seq<real>, costs: seq<real>)
  {
    predicate Valid() {
      |worths| == |costs| == |snapshot.models|
    }
  }

  /** The model at `r` is resident, the one at `k` the best candidate. */
  ghost predicate RightAgainst(v: View, now: real, config: SchedulerConfig, r: nat, k: nat, d: Decision)
    requires v.Valid() && r < |v.worths| && k < |v.worths|
  {
    RulingOf(d) == RulingBetween(
      v.snapshot.models[r], v.snapshot.models[k], IsAlone(v.snapshot, now, k), v.worths[r], v.worths[k], v.costs[k],
      now, config)
  }

  /** The model at `k` is the best candidate. */
  ghost predicate RightFor(v: View, now: real, config: SchedulerConfig, k: nat, d: Decision)
    requires v.Valid() && k < |v.worths|
  {
    if forall r: nat :: !IsResidentAt(v.snapshot, r) then
      RulingOf(d) == Ruling(Switch, ColdStart, Some(v.snapshot.models[k].name))
    else exists r: nat :: IsResidentAt(v.snapshot, r) && RightAgainst(v, now, config, r, k, d)
  }

  ghost predicate Right(v: View, now: real, config: SchedulerConfig, d: Decision)
    requires v.Valid()
  {
    var models := v.snapshot.models;
    if v.snapshot.switching || v.snapshot.draining then RulingOf(d) == Ruling(Hold, InTransition, None)
    else if exists k: nat :: IsForced(v.snapshot, now, config, k) then
      exists k: nat :: IsFirstForced(v.snapshot, now, config, k)
        && RulingOf(d) == Ruling(Switch, Starvation, Some(models[k].name))
    else if forall k: nat :: k < |models| ==> models[k].depth == 0 then RulingOf(d) == Ruling(Idle, NoWork, None)
    else if forall k: nat :: !IsCandidate(v.snapshot, now, k) then RulingOf(d) == Ruling(Idle, BackendUnavailable, None)
    else exists k: nat :: IsBest(v.snapshot, now, v.worths, k) && RightFor(v, now, config, k, d)
  }

  /** The snapshot with its models' worths and costs. */
  function ViewOf(snapshot: Snapshot, now: real, config: SchedulerConfig): (v: View)
    ensures v.Valid() && v.snapshot == snapshot
  {
    View(snapshot, Worths(snapshot, now, config), Costs(snapshot, config))
  }

  /** The worths are the scores in the decision's breakdown, and the costs the policy's own. */
  ghost predicate IsScored(v: View, now: real, config: SchedulerConfig)
    requires v.Valid()
  {
    && (forall k: nat :: k < |v.worths| && IsUp(v.snapshot.models[k], now) ==>
          ScoreOf(Scores(v.snapshot.models, v.snapshot.resident, now, config), v.snapshot.models[k].name)
            == Fin(v.worths[k]))
    && (forall k: nat :: k < |v.costs| ==> v.costs[k] == SwapCost(v.snapshot.models[k], config))
  }

  lemma ViewIsScored(snapshot: Snapshot, now: real, config: SchedulerConfig)
    requires snapshot.UniqueNames()
    ensures IsScored(ViewOf(snapshot, now, config), now, config)
  {
    forall k: nat | k < |snapshot.models| && IsUp(snapshot.models[k], now)
      ensures ScoreOf(Scores(snapshot.models, snapshot.resident, now, config), snapshot.models[k].name)
        == Fin(Worths(snapshot, now, config)[k]) {
      ScoreOfMember(snapshot.models, snapshot.resident, now, config, snapshot.models[k]);
      WorthIsScore(snapshot.models[k], snapshot.resident, now, config);
    }
  }

  // ------------------------------------------------------------------ worth and score

  lemma WorthIsScore(state: ModelState, resident: Option<ModelName>, now: real, config: SchedulerConfig)
    requires IsUp(state, now)
    ensures ScoreModel(state, now, config, Some(state.name) == resident).score == Fin(Worth(state, resident, now, config))
  {
    assert state.OldestWait(now) == Waited(state, now);
  }

  lemma FieldsSay(state: ModelState, now: real)
    ensures state.OldestWait(now) == Waited(state, now) && state.IdleFor(now) == Idled(state, now)
    ensures state.IsAvailable(now) <==> IsUp(state, now)
    ensures state.HasPending() && state.IsAvailable(now) <==> IsLoadable(state, now)
  {
  }

  /** A breakdown adds up: its parts are the fields' own, and its score is made of them. */
  lemma BreakdownAddsUp(state: ModelState, now: real, config: SchedulerConfig, isResident: bool)
    ensures var b := ScoreModel(state, now, config, isResident);
      && b.model == state.name && b.priority == state.priority && b.depth == state.depth
      && (b.eligible <==> IsUp(state, now)) && (b.score.Fin? <==> IsUp(state, now))
      && (IsLoadable(state, now) ==>
            && b.ageTerm == config.ageWeight * Waited(state, now)
            && b.depthTerm == config.depthWeight * state.depth as real
            && b.switchCost == (if isResident then 0.0 else config.switchCostWeight * state.loadSeconds)
            && b.score == Fin(b.priority * (b.ageTerm + b.depthTerm) - b.switchCost))
      && (!IsLoadable(state, now) ==> b.ageTerm == b.depthTerm == b.switchCost == 0.0)
      && (IsUp(state, now) && state.depth == 0 ==> b.score == Fin(0.0))
      && b.oldestWait == if IsUp(state, now) && state.depth == 0 then 0.0 else Waited(state, now)
  {
  }

  // ------------------------------------------------------------------ candidates keep their order

  lemma {:induction false} ServableInOrder(models: seq<ModelState>, now: real, a: nat, b: nat) returns (i: nat, j: nat)
    requires a < b < |models| && IsLoadable(models[a], now) && IsLoadable(models[b], now)
    ensures i < j < |Servable(models, now)|
    ensures Servable(models, now)[i] == models[a] && Servable(models, now)[j] == models[b]
    decreases models
  {
    if a == 0 {
      assert models[b] == models[1..][b - 1];
      assert models[b] in Servable(models[1..], now);
      var k :| 0 <= k < |Servable(models[1..], now)| && Servable(models[1..], now)[k] == models[b];
      i, j := 0, k + 1;
    } else {
      i, j := ServableInOrder(models[1..], now, a - 1, b - 1);
      if models[0].HasPending() && models[0].IsAvailable(now) {
        i, j := i + 1, j + 1;
      }
    }
  }

  ghost predicate Distinctly(states: seq<ModelState>) {
    forall i, j :: 0 <= i < j < |states| ==> states[i].name != states[j].name
  }

  lemma {:induction false} ServableIsDistinct(models: seq<ModelState>, now: real)
    requires Distinctly(models)
    ensures Distinctly(Servable(models, now))
  {
    if models != [] {
      ServableIsDistinct(models[1..], now);
      var rest := Servable(models[1..], now);
      forall k | 0 <= k < |rest| ensures rest[k].name != models[0].name {
        assert rest[k] in models[1..];
      }
    }
  }

  lemma {:induction false} OverdueInOrder(
    servable: seq<ModelState>, resident: Option<ModelName>, now: real, config: SchedulerConfig, a: nat, b: nat)
    returns (i: nat, j: nat)
    requires forall s :: s in servable ==> s.HasPending() && s.IsAvailable(now)
    requires a < b < |servable|
    requires IsOverdue(servable[a], resident, now, config) && IsOverdue(servable[b], resident, now, config)
    ensures i < j < |Overdue(servable, resident, now, config)|
    ensures Overdue(servable, resident, now, config)[i] == servable[a]
    ensures Overdue(servable, resident, now, config)[j] == servable[b]
    decreases servable
  {
    var rest := Overdue(servable[1..], resident, now, config);
    if a == 0 {
      assert servable[b] == servable[1..][b - 1];
      assert servable[b] in rest;
      var k :| 0 <= k < |rest| && rest[k] == servable[b];
      i, j := 0, k + 1;
    } else {
      i, j := OverdueInOrder(servable[1..], resident, now, config, a - 1, b - 1);
      if Some(servable[0].name) != resident && servable[0].OldestWait(now) >= config.maxWait {
        i, j := i + 1, j + 1;
      }
    }
  }

  lemma {:induction false} OverdueIsDistinct(
    servable: seq<ModelState>, resident: Option<ModelName>, now: real, config: SchedulerConfig)
    requires forall s :: s in servable ==> s.HasPending() && s.IsAvailable(now)
    requires Distinctly(servable)
    ensures Distinctly(Overdue(servable, resident, now, config))
    decreases servable
  {
    if servable != [] {
      OverdueIsDistinct(servable[1..], resident, now, config);
      var rest := Overdue(servable[1..], resident, now, config);
      forall k | 0 <= k < |rest| ensures rest[k].name != servable[0].name {
        assert rest[k] in servable[1..];
      }
    }
  }

  // ------------------------------------------------------------------ the two choices

  /** The choice among the servable is the best candidate. */
  lemma ChoiceIsBest(v: View, now: real, config: SchedulerConfig) returns (k: nat)
    requires v.Valid() && IsScored(v, now, config) && v.snapshot.UniqueNames()
    requires Servable(v.snapshot.models, now) != []
    ensures IsBest(v.snapshot, now, v.worths, k)
    ensures var scores := Scores(v.snapshot.models, v.snapshot.resident, now, config);
      v.snapshot.models[k] == BestScoring(Servable(v.snapshot.models, now), scores)
  {
    var scores := Scores(v.snapshot.models, v.snapshot.resident, now, config);
    var servable := Servable(v.snapshot.models, now);
    var first := BestIsFirst(servable, scores);
    assert servable[first] in servable;
    k :| 0 <= k < |v.snapshot.models| && v.snapshot.models[k] == servable[first];
    forall j: nat | IsCandidate(v.snapshot, now, j)
      ensures v.worths[j] <= v.worths[k] && (j < k ==> v.worths[j] < v.worths[k]) {
      BeatenByChoice(v, now, config, first, k, j);
    }
  }

  lemma BeatenByChoice(v: View, now: real, config: SchedulerConfig, first: nat, k: nat, j: nat)
    requires v.Valid() && IsScored(v, now, config) && v.snapshot.UniqueNames()
    requires IsCandidate(v.snapshot, now, j) && k < |v.worths|
    requires var servable, scores := Servable(v.snapshot.models, now),
                                     Scores(v.snapshot.models, v.snapshot.resident, now, config);
      && first < |servable| && servable[first] == v.snapshot.models[k]
      && (forall i :: 0 <= i < first ==>
            ScoreOf(scores, servable[first].name).Above(ScoreOf(scores, servable[i].name)))
      && (forall i :: first <= i < |servable| ==>
            !ScoreOf(scores, servable[i].name).Above(ScoreOf(scores, servable[first].name)))
    ensures v.worths[j] <= v.worths[k] && (j < k ==> v.worths[j] < v.worths[k])
  {
    var servable := Servable(v.snapshot.models, now);
    assert servable[first] in servable && v.snapshot.models[j] in servable;
    var place :| 0 <= place < |servable| && servable[place] == v.snapshot.models[j];
    if j < k {
      var i, i' := ServableInOrder(v.snapshot.models, now, j, k);
      ServableIsDistinct(v.snapshot.models, now);
      assert i' == first;
    }
  }

  /** The mandatory target is the first of those who have waited longest past the ceiling. */
  lemma TargetIsFirstForced(snapshot: Snapshot, now: real, config: SchedulerConfig) returns (k: nat)
    requires snapshot.UniqueNames()
    requires Overdue(Servable(snapshot.models, now), snapshot.resident, now, config) != []
    ensures IsFirstForced(snapshot, now, config, k)
    ensures snapshot.models[k] ==
      LongestWaiting(Overdue(Servable(snapshot.models, now), snapshot.resident, now, config), now)
  {
    var servable := Servable(snapshot.models, now);
    var overdue := Overdue(servable, snapshot.resident, now, config);
    var first := LongestIsFirst(overdue, now);
    assert overdue[first] in overdue && overdue[first] in servable;
    k :| 0 <= k < |snapshot.models| && snapshot.models[k] == overdue[first];
    FieldsSay(snapshot.models[k], now);
    forall j: nat | IsForced(snapshot, now, config, j)
      ensures Waited(snapshot.models[j], now) <= Waited(snapshot.models[k], now)
      ensures j < k ==> Waited(snapshot.models[j], now) < Waited(snapshot.models[k], now) {
      ForcedIsNoLonger(snapshot, now, config, first, j, k);
    }
  }

  lemma ForcedIsNoLonger(snapshot: Snapshot, now: real, config: SchedulerConfig, first: nat, j: nat, k: nat)
    requires snapshot.UniqueNames() && IsForced(snapshot, now, config, j) && IsForced(snapshot, now, config, k)
    requires var overdue := Overdue(Servable(snapshot.models, now), snapshot.resident, now, config);
      && first < |overdue| && overdue[first] == snapshot.models[k]
      && (forall i :: 0 <= i < first ==> overdue[i].OldestWait(now) < overdue[first].OldestWait(now))
      && (forall i :: first <= i < |overdue| ==> overdue[i].OldestWait(now) <= overdue[first].OldestWait(now))
    ensures Waited(snapshot.models[j], now) <= Waited(snapshot.models[k], now)
    ensures j < k ==> Waited(snapshot.models[j], now) < Waited(snapshot.models[k], now)
  {
    var overdue := Overdue(Servable(snapshot.models, now), snapshot.resident, now, config);
    assert snapshot.models[j] in overdue;
    if j < k {
      ForcedEarlier(snapshot, now, config, first, j, k);
    }
  }

  lemma ForcedEarlier(snapshot: Snapshot, now: real, config: SchedulerConfig, first: nat, j: nat, k: nat)
    requires snapshot.UniqueNames() && IsForced(snapshot, now, config, j) && IsForced(snapshot, now, config, k) && j < k
    requires var overdue := Overdue(Servable(snapshot.models, now), snapshot.resident, now, config);
      && first < |overdue| && overdue[first] == snapshot.models[k]
      && forall i :: 0 <= i < first ==> overdue[i].OldestWait(now) < overdue[first].OldestWait(now)
    ensures Waited(snapshot.models[j], now) < Waited(snapshot.models[k], now)
  {
    var servable := Servable(snapshot.models, now);
    var a, b := ServableInOrder(snapshot.models, now, j, k);
    var i, i' := OverdueInOrder(servable, snapshot.resident, now, config, a, b);
    ServableIsDistinct(snapshot.models, now);
    OverdueIsDistinct(servable, snapshot.resident, now, config);
    OnlyPlace(Overdue(servable, snapshot.resident, now, config), i', first);
    FieldsSay(snapshot.models[j], now);
    FieldsSay(snapshot.models[k], now);
  }

  lemma OnlyPlace(states: seq<ModelState>, i: nat, j: nat)
    requires Distinctly(states) && i < |states| && j < |states| && states[i] == states[j]
    ensures i == j
  {
  }

  // ------------------------------------------------------------------ the decision is right

  lemma SomeoneForcedIff(snapshot: Snapshot, now: real, config: SchedulerConfig)
    ensures Overdue(Servable(snapshot.models, now), snapshot.resident, now, config) != [] <==>
      exists k: nat :: IsForced(snapshot, now, config, k)
  {
    var overdue := Overdue(Servable(snapshot.models, now), snapshot.resident, now, config);
    if overdue != [] {
      assert overdue[0] in overdue;
      var k :| 0 <= k < |snapshot.models| && snapshot.models[k] == overdue[0];
      assert IsForced(snapshot, now, config, k);
    }
    if k: nat :| IsForced(snapshot, now, config, k) {
      assert snapshot.models[k] in overdue;
    }
  }

  lemma SomeoneWaitsIff(snapshot: Snapshot, now: real)
    ensures WithWork(snapshot.models) == [] <==>
      forall k: nat :: k < |snapshot.models| ==> snapshot.models[k].depth == 0
    ensures Servable(snapshot.models, now) == [] <==> forall k: nat :: !IsCandidate(snapshot, now, k)
  {
    var working := WithWork(snapshot.models);
    if working != [] {
      assert working[0] in working;
      var k :| 0 <= k < |snapshot.models| && snapshot.models[k] == working[0];
    }
    forall k: nat | k < |snapshot.models| && working == [] ensures snapshot.models[k].depth == 0 {
      assert snapshot.models[k] !in working;
    }
    var servable := Servable(snapshot.models, now);
    if servable != [] {
      assert servable[0] in servable;
      var k :| 0 <= k < |snapshot.models| && snapshot.models[k] == servable[0];
      assert IsCandidate(snapshot, now, k);
    }
    if k: nat :| IsCandidate(snapshot, now, k) {
      assert snapshot.models[k] in servable;
    }
  }

  lemma OnlyCandidateIff(snapshot: Snapshot, now: real, k: nat)
    requires snapshot.UniqueNames() && IsCandidate(snapshot, now, k)
    ensures |Servable(snapshot.models, now)| == 1 <==> IsAlone(snapshot, now, k)
  {
    var servable := Servable(snapshot.models, now);
    assert snapshot.models[k] in servable;
    ServableIsDistinct(snapshot.models, now);
    if |servable| == 1 {
      forall j: nat | IsCandidate(snapshot, now, j) ensures j == k {
        assert snapshot.models[j] in servable;
      }
    } else {
      assert servable[0] in servable && servable[1] in servable && servable[0].name != servable[1].name;
      var other := if servable[0] == snapshot.models[k] then servable[1] else servable[0];
      var j :| 0 <= j < |snapshot.models| && snapshot.models[j] == other;
      assert IsCandidate(snapshot, now, j);
    }
  }

  /** For every snapshot with distinct names the decision is the right one: in all its cases, target included. */
  lemma DecisionIsRight(snapshot: Snapshot, now: real, config: SchedulerConfig)
    requires snapshot.UniqueNames()
    ensures var d := Decide(snapshot, now, config);
      && Right(ViewOf(snapshot, now, config), now, config, d)
      && d.at == now && d.resident == snapshot.resident
      && d.scores == Scores(snapshot.models, snapshot.resident, now, config)
  {
    ViewIsScored(snapshot, now, config);
    ScoredIsRight(ViewOf(snapshot, now, config), now, config);
  }

  lemma ScoredIsRight(v: View, now: real, config: SchedulerConfig)
    requires v.Valid() && IsScored(v, now, config) && v.snapshot.UniqueNames()
    ensures Right(v, now, config, Decide(v.snapshot, now, config))
  {
    VerdictDecides(v.snapshot, now, config);
    SomeoneForcedIff(v.snapshot, now, config);
    SomeoneWaitsIff(v.snapshot, now);
    if !v.snapshot.switching && !v.snapshot.draining {
      if Overdue(Servable(v.snapshot.models, now), v.snapshot.resident, now, config) != [] {
        ForcedIsRight(v.snapshot, now, config);
      } else if Servable(v.snapshot.models, now) != [] {
        ContestIsRight(v, now, config, Decide(v.snapshot, now, config));
      }
    }
  }

  lemma ForcedIsRight(snapshot: Snapshot, now: real, config: SchedulerConfig)
    requires snapshot.UniqueNames() && !snapshot.switching && !snapshot.draining
    requires Overdue(Servable(snapshot.models, now), snapshot.resident, now, config) != []
    ensures exists k: nat :: (
      && IsFirstForced(snapshot, now, config, k)
      && RulingOf(Decide(snapshot, now, config)) == Ruling(Switch, Starvation, Some(snapshot.models[k].name)))
  {
    VerdictDecides(snapshot, now, config);
    var k := TargetIsFirstForced(snapshot, now, config);
  }

  /** `d` is what comes of the resident's contest with the best candidate. */
  ghost predicate ComesOfContest(snapshot: Snapshot, now: real, config: SchedulerConfig, d: Decision) {
    var scores := Scores(snapshot.models, snapshot.resident, now, config);
    var servable := Servable(snapshot.models, now);
    servable != [] &&
    (d.kind, d.reason, d.target) ==
      Contest(snapshot.ResidentState(), BestScoring(servable, scores), |servable| == 1, now, config, scores)
  }

  lemma ContestIsRight(v: View, now: real, config: SchedulerConfig, d: Decision)
    requires v.Valid() && IsScored(v, now, config) && v.snapshot.UniqueNames()
    requires ComesOfContest(v.snapshot, now, config, d)
    ensures exists k: nat :: IsBest(v.snapshot, now, v.worths, k) && RightFor(v, now, config, k, d)
  {
    var k := ChoiceIsBest(v, now, config);
    if r: nat :| IsResidentAt(v.snapshot, r) {
      NamedIsUnique(v.snapshot.models, v.snapshot.models[r]);
      OnlyCandidateIff(v.snapshot, now, k);
      AgainstIsRight(v, now, config, r, k, d);
    } else {
      NobodyIsResident(v.snapshot);
    }
  }

  lemma NobodyIsResident(snapshot: Snapshot)
    requires forall r: nat :: !IsResidentAt(snapshot, r)
    ensures snapshot.ResidentState().None?
  {
    var found := snapshot.ResidentState();
    if found.Some? {
      var r :| 0 <= r < |snapshot.models| && snapshot.models[r] == found.value;
      assert IsResidentAt(snapshot, r);
    }
  }

  lemma AgainstIsRight(v: View, now: real, config: SchedulerConfig, r: nat, k: nat, d: Decision)
    requires v.Valid() && IsScored(v, now, config) && v.snapshot.UniqueNames()
    requires IsResidentAt(v.snapshot, r) && IsCandidate(v.snapshot, now, k)
    requires |Servable(v.snapshot.models, now)| == 1 <==> IsAlone(v.snapshot, now, k)
    requires (d.kind, d.reason, d.target) ==
      Contest(Some(v.snapshot.models[r]), v.snapshot.models[k], |Servable(v.snapshot.models, now)| == 1, now, config,
              Scores(v.snapshot.models, v.snapshot.resident, now, config))
    ensures RightAgainst(v, now, config, r, k, d)
  {
    BetweenIsRight(
      v.snapshot.models[r], v.snapshot.models[k], |Servable(v.snapshot.models, now)| == 1,
      v.worths[r], v.worths[k], v.costs[k], now, config,
      Scores(v.snapshot.models, v.snapshot.resident, now, config), d);
  }

  lemma BetweenIsRight(
    resident: ModelState, best: ModelState, alone: bool, kept: real, offered: real, cost: real,
    now: real, config: SchedulerConfig, scores: seq<ScoreBreakdown>, d: Decision)
    requires (d.kind, d.reason, d.target) == Contest(Some(resident), best, alone, now, config, scores)
    requires IsUp(resident, now) ==> ScoreOf(scores, resident.name) == Fin(kept)
    requires ScoreOf(scores, best.name) == Fin(offered) && cost == SwapCost(best, config)
    ensures RulingOf(d) == RulingBetween(resident, best, alone, kept, offered, cost, now, config)
  {
    FieldsSay(resident, now);
  }

  // ------------------------------------------------------------------ and no other would be

  lemma BestIsOne(snapshot: Snapshot, now: real, worths: seq<real>, j: nat, k: nat)
    requires |worths| == |snapshot.models| && IsBest(snapshot, now, worths, j) && IsBest(snapshot, now, worths, k)
    ensures j == k
  {
  }

  /** The table leaves no choice: two decisions that are both right are the same ruling. */
  lemma OnlyOneIsRight(v: View, now: real, config: SchedulerConfig, d: Decision, e: Decision)
    requires v.Valid() && v.snapshot.UniqueNames() && Right(v, now, config, d) && Right(v, now, config, e)
    ensures RulingOf(d) == RulingOf(e)
  {
    if k: nat :| IsBest(v.snapshot, now, v.worths, k) && RightFor(v, now, config, k, d) {
      forall j: nat | IsBest(v.snapshot, now, v.worths, j) ensures j == k {
        BestIsOne(v.snapshot, now, v.worths, j, k);
      }
      if RightFor(v, now, config, k, e) {
        RightForOne(v, now, config, k, d, e);
      }
    }
  }

  lemma RightForOne(v: View, now: real, config: SchedulerConfig, k: nat, d: Decision, e: Decision)
    requires v.Valid() && v.snapshot.UniqueNames() && k < |v.worths|
    requires RightFor(v, now, config, k, d) && RightFor(v, now, config, k, e)
    ensures RulingOf(d) == RulingOf(e)
  {
    if r: nat :| IsResidentAt(v.snapshot, r) && RightAgainst(v, now, config, r, k, d) {
      forall q: nat | IsResidentAt(v.snapshot, q) ensures q == r {
        assert v.snapshot.models[q].name == v.snapshot.models[r].name;
      }
    }
  }

  /** What becomes of a resident with nothing queued, where the best candidate is worth `offered` and costs
      `cost`: the device goes to it exactly when it is worth anything and the resident is past its minimum
      residency or has had nothing to do for at least as long as the swap costs; and then that is the reason
      given. */
  predicate EmptyLosesIff(
    resident: ModelState, best: ModelState, offered: real, cost: real, now: real, config: SchedulerConfig, d: Decision)
  {
    var idle := resident.inFlight == 0 && cost <= Idled(resident, now);
    var past := resident.residentSince.None? || now - resident.residentSince.value >= config.minResidency;
    && (d.kind == Switch <==> 0.0 < offered && (past || idle))
    && (d.kind == Switch ==> d.target == Some(best.name) && d.reason == if idle then ResidentIdle else ChallengerWins)
    && (d.kind != Switch ==> RulingOf(d) == Ruling(Hold, if past || idle then ResidentWins else MinResidency, None))
  }

  /** So it is decided whenever nobody is overdue and somebody can be loaded. */
  lemma EmptyResidentLosesIff(snapshot: Snapshot, now: real, config: SchedulerConfig, r: nat, k: nat)
    requires !snapshot.switching && !snapshot.draining && snapshot.UniqueNames()
    requires IsResidentAt(snapshot, r) && IsUp(snapshot.models[r], now) && snapshot.models[r].depth == 0
    requires IsBest(snapshot, now, Worths(snapshot, now, config), k)
    requires forall j: nat :: !IsForced(snapshot, now, config, j)
    ensures EmptyLosesIff(
      snapshot.models[r], snapshot.models[k], Worths(snapshot, now, config)[k], Costs(snapshot, config)[k],
      now, config, Decide(snapshot, now, config))
  {
    DecisionIsRight(snapshot, now, config);
    assert Worths(snapshot, now, config)[r] == 0.0;
    EmptyLosesInView(ViewOf(snapshot, now, config), now, config, r, k, Decide(snapshot, now, config));
  }

  lemma EmptyLosesInView(v: View, now: real, config: SchedulerConfig, r: nat, k: nat, d: Decision)
    requires v.Valid() && !v.snapshot.switching && !v.snapshot.draining && v.snapshot.UniqueNames()
    requires IsResidentAt(v.snapshot, r) && IsUp(v.snapshot.models[r], now) && v.snapshot.models[r].depth == 0
    requires IsBest(v.snapshot, now, v.worths, k) && forall j: nat :: !IsForced(v.snapshot, now, config, j)
    requires Right(v, now, config, d) && v.worths[r] == 0.0
    ensures EmptyLosesIff(v.snapshot.models[r], v.snapshot.models[k], v.worths[k], v.costs[k], now, config, d)
  {
    RightWithBest(v, now, config, r, k, d);
    assert v.snapshot.models[r].name != v.snapshot.models[k].name;
    EmptyAgainst(
      v.snapshot.models[r], v.snapshot.models[k], IsAlone(v.snapshot, now, k), v.worths[k], v.costs[k], now, config, d);
  }

  /** With a resident and nobody overdue, the table's last case is the one that holds. */
  lemma RightWithBest(v: View, now: real, config: SchedulerConfig, r: nat, k: nat, d: Decision)
    requires v.Valid() && !v.snapshot.switching && !v.snapshot.draining && v.snapshot.UniqueNames()
    requires IsResidentAt(v.snapshot, r) && IsBest(v.snapshot, now, v.worths, k)
    requires forall j: nat :: !IsForced(v.snapshot, now, config, j)
    requires Right(v, now, config, d)
    ensures RightAgainst(v, now, config, r, k, d)
  {
    assert IsCandidate(v.snapshot, now, k);
    var j: nat :| IsBest(v.snapshot, now, v.worths, j) && RightFor(v, now, config, j, d);
    BestIsOne(v.snapshot, now, v.worths, j, k);
    var q: nat :| IsResidentAt(v.snapshot, q) && RightAgainst(v, now, config, q, k, d);
    assert v.snapshot.models[q].name == v.snapshot.models[r].name;
  }

  lemma EmptyAgainst(
    resident: ModelState, best: ModelState, alone: bool, offered: real, cost: real,
    now: real, config: SchedulerConfig, d: Decision)
    requires RulingOf(d) == RulingBetween(resident, best, alone, 0.0, offered, cost, now, config)
    requires IsUp(resident, now) && resident.depth == 0 && best.name != resident.name
    ensures EmptyLosesIff(resident, best, offered, cost, now, config, d)
  {
  }

  // ------------------------------------------------------------------ what a client is told

  /** How much of its minimum residency the incumbent, if there is one, still has before it. */
  ghost predicate IsHoldLeft(snapshot: Snapshot, now: real, config: SchedulerConfig, hold: real) {
    && ((forall r: nat :: !IsResidentAt(snapshot, r)) ==> hold == 0.0)
    && forall r: nat :: IsResidentAt(snapshot, r) ==>
         hold == if IsYoung(snapshot.models[r], now, config)
                 then config.minResidency - (now - snapshot.models[r].residentSince.value) else 0.0
  }

  function CeilingLeftOf(state: ModelState, now: real, config: SchedulerConfig): real {
    if Waited(state, now) < config.maxWait then config.maxWait - Waited(state, now) else 0.0
  }

  /** The wait for the device itself: none for a resident model; for any other until the hold or the ceiling is
      over, whichever comes first, and no earlier than the end of its own backoff, and then the load. */
  function DeviceWait(state: ModelState, hold: real, now: real, config: SchedulerConfig): real {
    if state.resident then 0.0
    else
      var ceiling := CeilingLeftOf(state, now, config);
      var turn := if hold < ceiling then hold else ceiling;
      var late := state.unavailableUntil.Some? && turn < state.unavailableUntil.value - now && !IsUp(state, now);
      (if late then state.unavailableUntil.value - now else turn) + state.loadSeconds
  }

  function Ahead(state: ModelState, position: nat): nat {
    if state.resident then position + state.inFlight else position
  }

  /** The whole estimate: the wait for the device, and a mean for each batch up to and including its own. */
  predicate IsEstimate(
    state: ModelState, position: nat, hold: real, now: real, config: SchedulerConfig, mean: real, e: WaitEstimate)
    requires config.Valid()
  {
    && e.position == position && e.resident == state.resident && e.needsSwap == !state.resident
    && e.loadSeconds == (if state.resident then 0.0 else state.loadSeconds)
    && (e.dispatchWithin.Some? <==> !state.resident)
    && (e.dispatchWithin.Some? ==> e.dispatchWithin.value == CeilingLeftOf(state, now, config))
    && e.estimated ==
         DeviceWait(state, hold, now, config) + (Ahead(state, position) / config.maxConcurrent + 1) as real * mean
    && e.retryAfter ==
         if e.estimated / 4.0 < 0.5 then 0.5 else if 10.0 < e.estimated / 4.0 then 10.0 else e.estimated / 4.0
  }

  /** What a client of a known model is told, to the second; there is no answer about any other. */
  lemma EstimateIsRight(
    snapshot: Snapshot, k: nat, position: nat, hold: real, now: real, config: SchedulerConfig, mean: real)
    requires config.Valid() && snapshot.UniqueNames() && k < |snapshot.models| && IsHoldLeft(snapshot, now, config, hold)
    ensures var e := EstimateWait(snapshot, snapshot.models[k].name, position, now, config, mean);
      e.Some? && IsEstimate(snapshot.models[k], position, hold, now, config, mean, e.value)
  {
    var state := snapshot.models[k];
    NamedIsUnique(snapshot.models, state);
    GpuWaitIs(snapshot, state, hold, now, config);
    OneMoreMean(Ahead(state, position) / config.maxConcurrent, mean);
    EstimateAddsUp(snapshot, state, position, now, config, mean);
    FieldsSay(state, now);
  }

  lemma GpuWaitIs(snapshot: Snapshot, state: ModelState, hold: real, now: real, config: SchedulerConfig)
    requires snapshot.UniqueNames() && IsHoldLeft(snapshot, now, config, hold)
    ensures GpuWait(snapshot, state, now, config) == DeviceWait(state, hold, now, config)
  {
    HoldIsHoldLeft(snapshot, now, config, hold);
    FieldsSay(state, now);
  }

  lemma EstimateAddsUp(
    snapshot: Snapshot, state: ModelState, position: nat, now: real, config: SchedulerConfig, mean: real)
    requires config.Valid() && snapshot.ByName(state.name) == Some(state)
    ensures var e := EstimateWait(snapshot, state.name, position, now, config, mean);
      && e.Some? && e.value.position == position && e.value.resident == state.resident
      && e.value.needsSwap == !state.resident
      && e.value.loadSeconds == (if state.resident then 0.0 else state.loadSeconds)
      && (e.value.dispatchWithin.Some? <==> !state.resident)
      && (e.value.dispatchWithin.Some? ==> e.value.dispatchWithin.value == CeilingLeft(state, now, config))
      && e.value.estimated == GpuWait(snapshot, state, now, config)
           + ((Ahead(state, position) / config.maxConcurrent) as real * mean + mean)
      && e.value.retryAfter ==
           if e.value.estimated / 4.0 < 0.5 then 0.5
           else if 10.0 < e.value.estimated / 4.0 then 10.0 else e.value.estimated / 4.0
  {
  }

  lemma UnknownHasNoEstimate(
    snapshot: Snapshot, model: ModelName, position: nat, now: real, config: SchedulerConfig, mean: real)
    requires config.Valid()
    ensures EstimateWait(snapshot, model, position, now, config, mean).None? <==>
      forall k: nat :: k < |snapshot.models| ==> snapshot.models[k].name != model
  {
    var found := snapshot.ByName(model);
    if found.Some? {
      var k :| 0 <= k < |snapshot.models| && snapshot.models[k] == found.value;
    } else {
      forall k: nat | k < |snapshot.models| ensures snapshot.models[k].name != model {
        assert snapshot.models[k] in snapshot.models;
      }
    }
  }

  lemma OneMoreMean(batches: nat, mean: real)
    ensures (batches + 1) as real * mean == batches as real * mean + mean
  {
    assert (batches + 1) as real == batches as real + 1.0;
  }

  lemma HoldIsHoldLeft(snapshot: Snapshot, now: real, config: SchedulerConfig, hold: real)
    requires snapshot.UniqueNames() && IsHoldLeft(snapshot, now, config, hold)
    ensures HoldLeft(snapshot, now, config) == hold
  {
    if r: nat :| IsResidentAt(snapshot, r) {
      NamedIsUnique(snapshot.models, snapshot.models[r]);
    } else {
      NobodyIsResident(snapshot);
    }
  }
}
