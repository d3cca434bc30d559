/** What the loop sees and does in one pass, counted on the requests themselves: the snapshot's numbers, since
    when the resident is idle, and how many requests are handed over. */
module EngineSight {
  import opened Types
  import opened QueueSpec
  import opened EngineModel
  import opened EnginePools
  import opened EngineInvariant
  import opened EngineTheorems
  import opened EngineFairness
  import Policy

  /** Queued for `m`, with its client still there. */
  predicate IsWaiting(s: State, m: ModelName, i: nat) {
    i < |s.reqs| && s.reqs[i].model == m && s.reqs[i].state == Queued && !s.reqs[i].cancelled
  }

  /** Being generated by `m`. */
  predicate IsServedBy(s: State, m: ModelName, i: nat) {
    i < |s.reqs| && s.reqs[i].model == m && s.reqs[i].state == Running
  }

  function WaitingFor(s: State, m: ModelName): set<nat> {
    set i: nat | 0 <= i < |s.reqs| && IsWaiting(s, m, i)
  }

  function ServedBy(s: State, m: ModelName): set<nat> {
    set i: nat | 0 <= i < |s.reqs| && IsServedBy(s, m, i)
  }

  function AllServed(s: State): set<nat> {
    set i: nat | 0 <= i < |s.reqs| && s.reqs[i].state == Running
  }

  // ------------------------------------------------------------------ counting

  function Members(ids: seq<nat>): set<nat> {
    set k | 0 <= k < |ids| :: ids[k]
  }

  lemma {:induction false} DistinctCount(ids: seq<nat>)
    requires Distinct(ids)
    ensures |Members(ids)| == |ids|
    decreases ids
  {
    if ids != [] {
      DistinctCount(ids[1..]);
      assert Members(ids) == {ids[0]} + Members(ids[1..]) by {
        forall x | x in Members(ids) ensures x in {ids[0]} + Members(ids[1..]) {
          var k :| 0 <= k < |ids| && ids[k] == x;
          assert k > 0 ==> ids[1..][k - 1] == x;
        }
        forall x | x in Members(ids[1..]) ensures x in Members(ids) {
          var k :| 0 <= k < |ids[1..]| && ids[1..][k] == x;
          assert ids[k + 1] == x;
        }
      }
      assert ids[0] !in Members(ids[1..]);
    }
  }

  lemma IncreasingIsDistinct(ids: seq<nat>)
    requires Increasing(ids)
    ensures Distinct(ids)
  {
  }

  /** The live entries of a queue are the requests waiting for its model. */
  lemma LiveAreWaiting(c: AppConfig, s: State, m: ModelName)
    requires Pools(c, s) && m in s.queues
    ensures Members(Live(s.reqs, s.queues[m])) == WaitingFor(s, m)
    ensures Depth(s.reqs, s.queues[m]) == |WaitingFor(s, m)|
  {
    var live := Live(s.reqs, s.queues[m]);
    assert QueueOk(s, m);
    LiveMembers(s.reqs, s.queues[m]);
    LiveIsIncreasing(s.reqs, s.queues[m]);
    IncreasingIsDistinct(live);
    DistinctCount(live);
    forall i: nat ensures i in Members(live) <==> i in WaitingFor(s, m) {
      if i in Members(live) {
        var k :| 0 <= k < |live| && live[k] == i;
        assert i in live;
      }
      if i in WaitingFor(s, m) {
        assert Placed(s, i);
        assert i in live;
        var k :| 0 <= k < |live| && live[k] == i;
      }
    }
    assert Members(live) == WaitingFor(s, m);
  }

  /** After the sweep the table holds exactly what is generating. */
  lemma TableIsServed(c: AppConfig, s: State)
    requires Pools(c, s) && forall k :: 0 <= k < |s.inFlight| ==> IsRunning(s, s.inFlight[k])
    ensures Members(s.inFlight) == AllServed(s) && |s.inFlight| == |AllServed(s)|
    ensures forall m: ModelName :: ServedBy(s, m) == if s.resident == Some(m) then AllServed(s) else {}
  {
    DistinctCount(s.inFlight);
    forall i: nat ensures i in Members(s.inFlight) <==> i in AllServed(s) {
      if i in AllServed(s) {
        assert Placed(s, i);
        var k :| 0 <= k < |s.inFlight| && s.inFlight[k] == i;
      }
    }
    assert Members(s.inFlight) == AllServed(s);
    forall m: ModelName ensures ServedBy(s, m) == if s.resident == Some(m) then AllServed(s) else {} {
      forall i: nat | i in AllServed(s) ensures s.resident == Some(s.reqs[i].model) {
        assert Placed(s, i) && Flying(s, i);
      }
    }
  }

  // ------------------------------------------------------------------ the sweep is not seen

  /** The same requests wait for each model, and the same are being served by it. */
  ghost predicate SeenAlike(s: State, t: State) {
    |t.reqs| == |s.reqs| && t.resident == s.resident && forall i: nat, m: ModelName :: AlikeAt(s, t, m, i)
  }

  predicate AlikeAt(s: State, t: State, m: ModelName, i: nat) {
    && (IsWaiting(t, m, i) <==> IsWaiting(s, m, i)) && (IsServedBy(t, m, i) <==> IsServedBy(s, m, i))
    && (i < |s.reqs| && i < |t.reqs| ==> t.reqs[i].enqueuedAt == s.reqs[i].enqueuedAt)
  }

  /** A sweep changes neither who waits nor who is being served. */
  lemma SweepSeesSameRequests(c: AppConfig, s: State)
    requires Pools(c, s)
    ensures SeenAlike(s, Swept(c, s))
  {
    var t := Swept(c, s);
    forall i: nat | i < |s.reqs|
      ensures t.reqs[i].model == s.reqs[i].model && t.reqs[i].cancelled == s.reqs[i].cancelled
      ensures !s.reqs[i].cancelled ==> t.reqs[i].state == s.reqs[i].state
      ensures t.reqs[i].state == Running <==> s.reqs[i].state == Running {
      assert Placed(s, i) && QueueOk(s, s.reqs[i].model);
    }
  }

  lemma SweptSeesSameRequests(c: AppConfig, s: State)
    requires Pools(c, s)
    ensures SeenAlike(s, Swept(c, Woken(s)))
  {
    SameStates(c, s, Woken(s));
    SweepSeesSameRequests(c, Woken(s));
    SeenAlikeJoins(s, Woken(s), Swept(c, Woken(s)));
  }

  lemma SeenAlikeJoins(s: State, t: State, u: State)
    requires t.reqs == s.reqs && t.resident == s.resident && SeenAlike(t, u)
    ensures SeenAlike(s, u)
  {
    forall i: nat, m: ModelName ensures AlikeAt(s, u, m, i) {
      assert AlikeAt(t, u, m, i);
    }
  }

  // ------------------------------------------------------------------ what the policy is shown

  /** One model's state as the decision sees it, against the requests and the configuration. */
  ghost predicate Shows(s: State, model: ModelConfig, idleSince: Option<real>, seen: ModelState) {
    && seen.name == model.name && seen.priority == model.priority && seen.loadSeconds == model.loadSeconds
    && seen.depth == |WaitingFor(s, model.name)| && seen.inFlight == |ServedBy(s, model.name)|
    && (seen.resident <==> s.resident == Some(model.name))
    && seen.residentSince == (if seen.resident then s.residentSince else None)
    && seen.idleSince == (if seen.resident then idleSince else None)
    && (seen.unavailableUntil.Some? <==> model.name in s.unavailableUntil)
    && (seen.unavailableUntil.Some? ==> seen.unavailableUntil.value == s.unavailableUntil[model.name])
    && IsEarliest(s, model.name, seen.oldestEnqueuedAt)
  }

  /** The arrival of one that waits, before which none that waits arrived; nothing if none does. */
  ghost predicate IsEarliest(s: State, m: ModelName, arrival: Option<real>) {
    if arrival.None? then forall i: nat :: !IsWaiting(s, m, i)
    else
      && (exists i: nat :: IsWaiting(s, m, i) && s.reqs[i].enqueuedAt == arrival.value)
      && (forall i: nat :: IsWaiting(s, m, i) ==> arrival.value <= s.reqs[i].enqueuedAt)
  }

  /** In every reachable state in which the loop decides, the snapshot is the truth about the state it began
      with: each configured model in its place, with as many requests waiting and generating as there are, and
      the earliest arrival among those that wait. */
  lemma SnapshotIsTruth(c: AppConfig, s: State, k: nat)
    requires c.Valid() && Reachable(c, s) && IsDeciding(s) && k < |c.models|
    ensures WellFormed(c, Woken(s))
    ensures var t := Swept(c, Woken(s));
      var snapshot := SnapshotOf(c, t);
      && |snapshot.models| == |c.models| && snapshot.resident == s.resident
      && !snapshot.draining && !snapshot.switching
      && Shows(s, c.models[k], t.idleSince, snapshot.models[k])
  {
    ReachableInv(c, s);
    DecidingState(c, s);
    SweptSeesSameRequests(c, s);
    SweptAllRun(c, Woken(s));
    var model := c.models[k];
    assert model.name in c.Names();
    ModelIsShown(c, s, Swept(c, Woken(s)), model);
  }

  lemma ModelIsShown(c: AppConfig, s: State, t: State, model: ModelConfig)
    requires Pools(c, t) && model.name in t.queues && SeenAlike(s, t) && ArrivalsOk(s)
    requires t.residentSince == s.residentSince && t.unavailableUntil == s.unavailableUntil
    requires forall k :: 0 <= k < |t.inFlight| ==> IsRunning(t, t.inFlight[k])
    ensures Shows(s, model, t.idleSince, ModelStateOf(t, model))
  {
    CountsAreShown(c, s, t, model.name);
    EarliestIsShown(c, s, t, model.name);
  }

  lemma CountsAreShown(c: AppConfig, s: State, t: State, m: ModelName)
    requires Pools(c, t) && m in t.queues && SeenAlike(s, t)
    requires forall k :: 0 <= k < |t.inFlight| ==> IsRunning(t, t.inFlight[k])
    ensures Depth(t.reqs, t.queues[m]) == |WaitingFor(s, m)|
    ensures |ServedBy(s, m)| == if t.resident == Some(m) then |t.inFlight| else 0
  {
    LiveAreWaiting(c, t, m);
    TableIsServed(c, t);
    forall i: nat
      ensures (i in WaitingFor(t, m) <==> i in WaitingFor(s, m)) && (i in ServedBy(t, m) <==> i in ServedBy(s, m)) {
      assert AlikeAt(s, t, m, i);
    }
    assert WaitingFor(t, m) == WaitingFor(s, m) && ServedBy(t, m) == ServedBy(s, m);
  }

  lemma EarliestIsShown(c: AppConfig, s: State, t: State, m: ModelName)
    requires Pools(c, t) && m in t.queues && SeenAlike(s, t) && ArrivalsOk(s)
    ensures IsEarliest(s, m, Oldest(t.reqs, t.queues[m]))
  {
    var q := t.queues[m];
    assert QueueOk(t, m);
    SameArrivalOrder(s, t);
    OldestIsEarliest(t.reqs, q);
    forall i: nat | IsWaiting(s, m, i)
      ensures i in q && !t.reqs[i].cancelled && t.reqs[i].enqueuedAt == s.reqs[i].enqueuedAt {
      assert AlikeAt(s, t, m, i) && Placed(t, i);
    }
    if Oldest(t.reqs, q).Some? {
      var id :| id in q && !t.reqs[id].cancelled && t.reqs[id].enqueuedAt == Oldest(t.reqs, q).value;
      assert AlikeAt(s, t, m, id) && IsWaiting(s, m, id);
    }
  }

  lemma SameArrivalOrder(s: State, t: State)
    requires SeenAlike(s, t) && ArrivalsOk(s)
    ensures InArrivalOrder(t.reqs)
  {
    forall i: nat | i < |s.reqs| ensures t.reqs[i].enqueuedAt == s.reqs[i].enqueuedAt {
      assert AlikeAt(s, t, 0, i);
    }
  }

  // ------------------------------------------------------------------ idleness

  /** The resident has nothing to do: nobody waits for it and nothing generates. */
  ghost predicate HasNothingToDo(s: State) {
    s.resident.Some? && NobodyWaits(s, s.resident.value) && NobodyRuns(s)
  }

  ghost predicate NobodyWaits(s: State, m: ModelName) {
    forall i: nat :: !IsWaiting(s, m, i)
  }

  ghost predicate NobodyRuns(s: State) {
    forall i: nat :: !IsRunning(s, i)
  }

  /** What a pass makes of the mark: none unless the resident has nothing to do; then the mark there was, or the
      present. */
  ghost predicate IsMarked(s: State, mark: Option<real>) {
    && (mark.Some? <==> HasNothingToDo(s))
    && (mark.Some? ==> mark.value == if s.idleSince.Some? then s.idleSince.value else s.now)
  }

  lemma PassMarks(c: AppConfig, s: State)
    requires c.Valid() && Safe(c, s) && IsDeciding(s)
    ensures IsMarked(s, Swept(c, Woken(s)).idleSince)
  {
    DecidingState(c, s);
    SweptSeesSameRequests(c, s);
    SweptAllRun(c, Woken(s));
    SweptMark(c, Woken(s));
    MarkIsRight(c, s, Swept(c, Woken(s)));
  }

  /** What the sweep makes of the mark, by the swept pools. */
  ghost predicate MarkFollows(s: State, t: State)
    requires AllWithin(t.queues, t.reqs) && (t.resident.Some? ==> t.resident.value in t.queues)
  {
    && (t.idleSince.Some? <==>
          t.resident.Some? && Depth(t.reqs, t.queues[t.resident.value]) == 0 && t.inFlight == [])
    && (t.idleSince.Some? ==> t.idleSince.value == if s.idleSince.Some? then s.idleSince.value else s.now)
  }

  lemma SweptMark(c: AppConfig, s: State)
    requires WellFormed(c, s)
    ensures MarkFollows(s, Swept(c, s))
  {
  }

  lemma MarkIsRight(c: AppConfig, s: State, t: State)
    requires Pools(c, t) && forall k :: 0 <= k < |t.inFlight| ==> IsRunning(t, t.inFlight[k])
    requires SeenAlike(s, t) && MarkFollows(s, t)
    ensures IsMarked(s, t.idleSince)
  {
    NobodyRunsIff(c, s, t);
    if t.resident.Some? {
      NobodyWaitsIff(c, s, t, t.resident.value);
    }
  }

  lemma NobodyWaitsIff(c: AppConfig, s: State, t: State, m: ModelName)
    requires Pools(c, t) && m in t.queues && SeenAlike(s, t)
    ensures Depth(t.reqs, t.queues[m]) == 0 <==> NobodyWaits(s, m)
  {
    LiveAreWaiting(c, t, m);
    forall i: nat ensures i in WaitingFor(t, m) <==> IsWaiting(s, m, i) {
      assert AlikeAt(s, t, m, i);
    }
    if WaitingFor(t, m) != {} {
      var i :| i in WaitingFor(t, m);
      assert IsWaiting(s, m, i);
    }
  }

  lemma NobodyRunsIff(c: AppConfig, s: State, t: State)
    requires Pools(c, t) && forall k :: 0 <= k < |t.inFlight| ==> IsRunning(t, t.inFlight[k])
    requires SeenAlike(s, t)
    ensures t.inFlight == [] <==> NobodyRuns(s)
  {
    if t.inFlight == [] {
      forall i: nat ensures !IsRunning(s, i) {
        if i < |t.reqs| {
          assert Placed(t, i) && AlikeAt(s, t, s.reqs[i].model, i);
        }
      }
    } else {
      var i := t.inFlight[0];
      assert IsRunning(t, i) && AlikeAt(s, t, t.reqs[i].model, i);
      assert IsRunning(s, i);
    }
  }

  // ------------------------------------------------------------------ idleness over runs

  /** Every pass of the run found `m` resident with nothing to do. */
  ghost predicate IdleAtPasses(c: AppConfig, s: State, run: seq<Action>, m: ModelName)
    requires IsRun(c, s, run)
    decreases run
  {
    run != [] ==>
      && (run[0].Pass? ==> s.resident == Some(m) && HasNothingToDo(s))
      && IdleAtPasses(c, Step(c, s, run[0]), run[1..], m)
  }

  /** The run is `before` and then `rest`, which begins with a pass at the time `mark`, and from that pass on
      every pass found `m` resident with nothing to do. */
  ghost predicate IsIdleFrom(c: AppConfig, s: State, run: seq<Action>, m: ModelName, mark: real,
                             before: seq<Action>, rest: seq<Action>) {
    run == before + rest && IsRun(c, s, before) && MarksAndStaysIdle(c, After(c, s, before), rest, m, mark)
  }

  ghost predicate IsSetWithin(c: AppConfig, s: State, run: seq<Action>, m: ModelName, mark: real) {
    exists before, rest :: IsIdleFrom(c, s, run, m, mark, before, rest)
  }

  ghost predicate MarksAndStaysIdle(c: AppConfig, s: State, run: seq<Action>, m: ModelName, mark: real) {
    run != [] && run[0].Pass? && s.now == mark && IsRun(c, s, run) && IdleAtPasses(c, s, run, m)
  }

  /** The mark tells since when. In any run, if at its end `m` is resident and marked idle since a time, then a
      pass was made at that time, and in that pass and every later one `m` was resident with no live request
      waiting for it and nothing generating. */
  lemma IdleSinceMeans(c: AppConfig, start: real, run: seq<Action>, m: ModelName)
    requires c.Valid() && IsRun(c, Init(c, start), run)
    requires var e := After(c, Init(c, start), run); e.resident == Some(m) && e.idleSince.Some?
    ensures IsSetWithin(c, Init(c, start), run, m, After(c, Init(c, start), run).idleSince.value)
  {
    InitIsSafe(c, start);
    MarkIsKeptOrSet(c, Init(c, start), run, m, After(c, Init(c, start), run).idleSince.value);
  }

  /** `m` is resident and marked idle since `mark`. */
  ghost predicate HasMark(s: State, m: ModelName, mark: real) {
    s.resident == Some(m) && s.idleSince.Some? && s.idleSince.value == mark
  }

  /** The mark was there all along, or a pass of the run set it. */
  ghost predicate IsKeptOrSet(c: AppConfig, s: State, run: seq<Action>, m: ModelName, mark: real)
    requires IsRun(c, s, run)
  {
    || (HasMark(s, m, mark) && IdleAtPasses(c, s, run, m))
    || IsSetWithin(c, s, run, m, mark)
  }

  lemma {:induction false} MarkIsKeptOrSet(c: AppConfig, s: State, run: seq<Action>, m: ModelName, mark: real)
    requires c.Valid() && Safe(c, s) && IsRun(c, s, run) && HasMark(After(c, s, run), m, mark)
    ensures IsKeptOrSet(c, s, run, m, mark)
    decreases run
  {
    if run != [] {
      StepIsSafe(c, s, run[0]);
      MarkIsKeptOrSet(c, Step(c, s, run[0]), run[1..], m, mark);
      KeptOrSetEarlier(c, s, Step(c, s, run[0]), run, m, mark);
    }
  }

  lemma KeptOrSetEarlier(c: AppConfig, s: State, t: State, run: seq<Action>, m: ModelName, mark: real)
    requires c.Valid() && Safe(c, s) && run != [] && IsRun(c, s, run) && t == Step(c, s, run[0])
    requires IsKeptOrSet(c, t, run[1..], m, mark)
    ensures IsKeptOrSet(c, s, run, m, mark)
  {
    if HasMark(t, m, mark) && IdleAtPasses(c, t, run[1..], m) {
      KeptEarlier(c, s, run, m, mark);
    } else {
      SetEarlier(c, s, t, run, m, mark);
    }
  }

  lemma SetEarlier(c: AppConfig, s: State, t: State, run: seq<Action>, m: ModelName, mark: real)
    requires run != [] && WellFormed(c, s) && Enabled(c, s, run[0]) && t == Step(c, s, run[0])
    requires IsSetWithin(c, t, run[1..], m, mark)
    ensures IsSetWithin(c, s, run, m, mark)
  {
    var before, rest :| IsIdleFrom(c, t, run[1..], m, mark, before, rest);
    IdleFromEarlier(c, s, t, run, m, mark, before, rest);
  }

  lemma KeptEarlier(c: AppConfig, s: State, run: seq<Action>, m: ModelName, mark: real)
    requires c.Valid() && Safe(c, s) && run != [] && IsRun(c, s, run)
    requires HasMark(Step(c, s, run[0]), m, mark) && IdleAtPasses(c, Step(c, s, run[0]), run[1..], m)
    ensures IsKeptOrSet(c, s, run, m, mark)
  {
    MarkStep(c, s, run[0], m, mark);
    assert IdleAtPasses(c, s, run, m);
    if !HasMark(s, m, mark) {
      IdleFromHere(c, s, run, m, mark);
    }
  }

  lemma IdleFromHere(c: AppConfig, s: State, run: seq<Action>, m: ModelName, mark: real)
    requires MarksAndStaysIdle(c, s, run, m, mark)
    ensures IsIdleFrom(c, s, run, m, mark, [], run)
  {
    assert run == [] + run;
  }

  lemma IdleFromEarlier(c: AppConfig, s: State, t: State, run: seq<Action>, m: ModelName, mark: real,
                        before: seq<Action>, rest: seq<Action>)
    requires run != [] && WellFormed(c, s) && Enabled(c, s, run[0]) && t == Step(c, s, run[0])
    requires IsIdleFrom(c, t, run[1..], m, mark, before, rest)
    ensures IsIdleFrom(c, s, run, m, mark, [run[0]] + before, rest)
  {
    StepFirst(c, s, t, run[0], before);
    SplitLater(run, before, rest);
  }

  lemma SplitLater(run: seq<Action>, before: seq<Action>, rest: seq<Action>)
    requires run != [] && run[1..] == before + rest
    ensures run == ([run[0]] + before) + rest
  {
  }

  lemma StepFirst(c: AppConfig, s: State, t: State, a: Action, before: seq<Action>)
    requires WellFormed(c, s) && Enabled(c, s, a) && t == Step(c, s, a) && IsRun(c, t, before)
    ensures IsRun(c, s, [a] + before) && After(c, s, [a] + before) == After(c, t, before)
  {
    var longer := [a] + before;
    assert longer[0] == a && longer[1..] == before;
  }

  /** A mark is there before a step, or the step is the pass that sets it; no pass leaves one on a resident that
      has something to do. */
  lemma MarkStep(c: AppConfig, s: State, a: Action, m: ModelName, mark: real)
    requires c.Valid() && Safe(c, s) && Enabled(c, s, a) && HasMark(Step(c, s, a), m, mark)
    ensures HasMark(s, m, mark) || (a.Pass? && s.now == mark)
    ensures a.Pass? ==> s.resident == Some(m) && HasNothingToDo(s)
  {
    if a.IsTask() {
      TaskKeepsLoop(s, a);
    } else if a.Pass? {
      PassMarks(c, s);
      DecidingState(c, s);
      ObeyKeepsMark(c, Swept(c, Woken(s)), DecisionOf(c, Swept(c, Woken(s))));
    } else if a.Contain? {
      ContainKeepsLoop(c, s, a.model, s.phase.pending);
    } else {
      OtherKeepsMark(c, s, a);
    }
  }

  lemma ObeyKeepsMark(c: AppConfig, s: State, d: Decision)
    requires WellFormed(c, s)
    ensures var t := Obeyed(c, s, d); t.resident.Some? ==> t.resident == s.resident && t.idleSince == s.idleSince
  {
    if !(d.kind == Switch && d.target.Some?) && Policy.Dispatches(d) {
      DispatchKeepsMark(c, s);
    }
  }

  lemma DispatchKeepsMark(c: AppConfig, s: State)
    requires WellFormed(c, s)
    ensures var t := Dispatched(c, s); t.resident == s.resident && t.idleSince == s.idleSince
  {
  }

  lemma OtherKeepsMark(c: AppConfig, s: State, a: Action)
    requires WellFormed(c, s) && Enabled(c, s, a) && !a.IsTask() && !a.Pass? && !a.Contain?
    ensures var t := Step(c, s, a);
      t.resident.Some? && t.idleSince.Some? ==> t.resident == s.resident && t.idleSince == s.idleSince
  {
  }

  // ------------------------------------------------------------------ what a pass hands over

  /** What a pass hands over after the decision `d`: if it lets work go out, as many live requests from the head of
      the resident's queue as there are free places beside those being served, and they start now; otherwise
      nothing. */
  ghost predicate HandsOver(c: AppConfig, s: State, d: Decision, t: State)
    requires WellFormed(c, s)
  {
    if s.resident.Some? && (d.kind == Serve || d.kind == Hold) then
      var live := Live(s.reqs, s.queues[s.resident.value]);
      var free := c.scheduler.maxConcurrent - |AllServed(s)|;
      0 <= free && Starts(s, t, live[..if free < |live| then free else |live|], s.now)
    else Starts(s, t, [], s.now)
  }

  /** These are dispatched, in this order, and no others. */
  ghost predicate Starts(s: State, t: State, ids: seq<nat>, now: real) {
    t.dispatched == s.dispatched + ids && forall k :: 0 <= k < |ids| ==> IsStarted(t, ids[k], now)
  }

  predicate IsStarted(s: State, id: nat, now: real) {
    IsRunning(s, id) && id in s.inFlight && s.reqs[id].startedAt.Some? && s.reqs[id].startedAt.value == now
  }

  /** In every reachable state in which the loop decides, the pass hands over exactly so much. */
  lemma PassHandsOver(c: AppConfig, s: State)
    requires c.Valid() && Reachable(c, s) && IsDeciding(s)
    ensures WellFormed(c, s) && WellFormed(c, Woken(s))
    ensures HandsOver(c, s, DecisionOf(c, Swept(c, Woken(s))), Passed(c, s))
  {
    ReachableInv(c, s);
    DecidingState(c, s);
    SweptSeesSameRequests(c, s);
    SweptAllRun(c, Woken(s));
    if s.resident.Some? {
      SweptSeesSameLive(c, s, s.resident.value);
    }
    ObeyHandsOver(c, s, Swept(c, Woken(s)), DecisionOf(c, Swept(c, Woken(s))));
  }

  lemma ObeyHandsOver(c: AppConfig, s: State, t: State, d: Decision)
    requires Pools(c, s) && Pools(c, t) && SeenAlike(s, t) && t.dispatched == s.dispatched && t.now == s.now
    requires forall k :: 0 <= k < |t.inFlight| ==> IsRunning(t, t.inFlight[k])
    requires s.resident.Some? ==> SameLive(s, t, s.resident.value)
    ensures HandsOver(c, s, d, Obeyed(c, t, d))
  {
    TableIsServed(c, t);
    SameServed(s, t);
    if s.resident.Some? && Policy.Dispatches(d) {
      var live := Live(t.reqs, t.queues[s.resident.value]);
      var free := c.scheduler.maxConcurrent - |t.inFlight|;
      var ids := live[..if free < |live| then free else |live|];
      DispatchFills(c, t, s.resident.value, ids);
      AlsoStarts(t, Dispatched(c, t), s, Obeyed(c, t, d), ids, s.now);
    }
  }

  lemma AlsoStarts(s: State, t: State, earlier: State, later: State, ids: seq<nat>, now: real)
    requires Starts(s, t, ids, now) && earlier.dispatched == s.dispatched
    requires later.dispatched == t.dispatched && later.reqs == t.reqs && later.inFlight == t.inFlight
    ensures Starts(earlier, later, ids, now)
  {
    forall k | 0 <= k < |ids| ensures IsStarted(later, ids[k], now) {
      assert IsStarted(t, ids[k], now);
    }
  }

  lemma DispatchFills(c: AppConfig, s: State, m: ModelName, ids: seq<nat>)
    requires Pools(c, s) && s.resident == Some(m)
    requires var live := Live(s.reqs, s.queues[m]);
      var free := c.scheduler.maxConcurrent - |s.inFlight|;
      ids == live[..if free < |live| then free else |live|]
    ensures Starts(s, Dispatched(c, s), ids, s.now)
  {
    var free := c.scheduler.maxConcurrent - |s.inFlight|;
    assert QueueOk(s, m);
    if 0 < free {
      var b := TakeWhile(s.reqs, s.queues[m], s.now, free);
      TakeWhileServesPrefix(s.reqs, s.queues[m], s.now, free);
      DispatchIs(c, s, b);
      BatchStarts(c, s, m, b, free);
    }
  }

  lemma BatchStarts(c: AppConfig, s: State, m: ModelName, b: Batch, limit: int)
    requires Pools(c, s) && m in s.queues && b == TakeWhile(s.reqs, s.queues[m], s.now, limit)
    requires s.resident == Some(m) && |s.inFlight| + limit == c.scheduler.maxConcurrent && 0 < limit
    ensures forall k :: 0 <= k < |b.ids| ==> IsStarted(Dispatched(c, s), b.ids[k], s.now)
  {
    assert QueueOk(s, m);
    TakeWhileTouches(s.reqs, s.queues[m], s.now, limit);
    TakeWhileKeepsOrder(s.reqs, s.queues[m], s.now, limit);
    DispatchIs(c, s, b);
    forall k | 0 <= k < |b.ids| ensures IsStarted(Dispatched(c, s), b.ids[k], s.now) {
      assert b.ids[k] in b.ids && b.ids[k] in s.queues[m];
      assert Popped1(s.reqs, b.reqs, s.queues[m], b.rest, b.ids, s.now, b.ids[k]);
    }
  }

  lemma SameServed(s: State, t: State)
    requires SeenAlike(s, t)
    ensures AllServed(t) == AllServed(s)
  {
    forall i: nat ensures i in AllServed(t) <==> i in AllServed(s) {
      if i < |s.reqs| {
        assert AlikeAt(s, t, s.reqs[i].model, i) && AlikeAt(s, t, t.reqs[i].model, i);
      }
    }
  }

  // ------------------------------------------------------------------ where a pass leaves the loop

  /** Where the decision `d` leaves the loop. A switch waits for what is being served, or begins to unload the
      resident, or to load at once if there is none; anything else waits and keeps the resident. */
  ghost predicate Goes(s: State, d: Decision, t: State) {
    if d.kind != Switch || d.target.None? then t.phase == Waiting(s.now) && t.resident == s.resident
    else if AllServed(s) != {} then
      t.phase == Draining(d.target.value, d.reason, s.now) && t.draining && t.resident == s.resident
    else if s.resident.Some? then
      t.phase == Unloading(s.resident.value, d.target.value, d.reason, s.now) && t.switching && t.resident == None
    else t.phase == Loading(d.target.value, s.now, s.now) && t.switching && t.gpu == s.gpu + {d.target.value}
  }

  /** A pass tells exactly those being served whose clients have left to stop. */
  ghost predicate TellsDeparted(s: State, t: State) {
    |t.reqs| == |s.reqs| && forall i: nat :: IsRunning(s, i) ==>
      (t.reqs[i].cancelRequested <==> s.reqs[i].cancelRequested || s.reqs[i].cancelled)
  }

  lemma PassGoes(c: AppConfig, s: State)
    requires c.Valid() && Reachable(c, s) && IsDeciding(s)
    ensures WellFormed(c, Woken(s))
    ensures Goes(s, DecisionOf(c, Swept(c, Woken(s))), Passed(c, s)) && TellsDeparted(s, Passed(c, s))
  {
    ReachableInv(c, s);
    DecidingState(c, s);
    SweptSeesSameRequests(c, s);
    SweptAllRun(c, Woken(s));
    SweepKeepsLoop(c, Woken(s));
    SameStates(c, s, Woken(s));
    SweepTells(c, Woken(s));
    ObeyGoes(c, s, Swept(c, Woken(s)), DecisionOf(c, Swept(c, Woken(s))));
  }

  lemma SweepTells(c: AppConfig, s: State)
    requires Pools(c, s)
    ensures TellsDeparted(s, Swept(c, s)) && SameFlags(s, Swept(c, s))
  {
    forall i: nat | IsRunning(s, i)
      ensures Swept(c, s).reqs[i].cancelRequested <==> s.reqs[i].cancelRequested || s.reqs[i].cancelled {
      assert Placed(s, i) && QueueOk(s, s.reqs[i].model);
    }
  }

  ghost predicate SameFlags(s: State, t: State) {
    |t.reqs| == |s.reqs| && forall i: nat :: i < |s.reqs| ==> t.reqs[i].cancelled == s.reqs[i].cancelled
  }

  lemma ObeyGoes(c: AppConfig, s: State, t: State, d: Decision)
    requires Pools(c, t) && SeenAlike(s, t) && TellsDeparted(s, t) && SameFlags(s, t)
    requires t.now == s.now && t.gpu == s.gpu
    requires forall k :: 0 <= k < |t.inFlight| ==> IsRunning(t, t.inFlight[k])
    ensures Goes(s, d, Obeyed(c, t, d)) && TellsDeparted(s, Obeyed(c, t, d))
  {
    TableIsServed(c, t);
    SameServed(s, t);
    if d.kind == Switch && d.target.Some? {
      SwitchTells(c, s, t, d);
    } else if Policy.Dispatches(d) {
      DispatchTellsNobody(c, s, t);
    }
  }

  lemma SwitchTells(c: AppConfig, s: State, t: State, d: Decision)
    requires Pools(c, t) && SeenAlike(s, t) && TellsDeparted(s, t) && SameFlags(s, t)
    requires d.kind == Switch && d.target.Some?
    ensures TellsDeparted(s, Obeyed(c, t, d))
  {
  }

  lemma DispatchTellsNobody(c: AppConfig, s: State, t: State)
    requires Pools(c, t) && SeenAlike(s, t) && TellsDeparted(s, t)
    ensures TellsDeparted(s, Dispatched(c, t))
    ensures Dispatched(c, t).resident == t.resident
  {
    var free := c.scheduler.maxConcurrent - |t.inFlight|;
    if t.resident.Some? && 0 < free {
      var m := t.resident.value;
      var b := TakeWhile(t.reqs, t.queues[m], t.now, free);
      assert QueueOk(t, m);
      TakeWhileTouches(t.reqs, t.queues[m], t.now, free);
      DispatchIs(c, t, b);
      forall i: nat | IsRunning(s, i) ensures b.reqs[i].cancelRequested == t.reqs[i].cancelRequested {
        assert Popped1(t.reqs, b.reqs, t.queues[m], b.rest, b.ids, t.now, i);
      }
    }
  }
}
