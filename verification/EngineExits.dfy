/** What is put on a channel, word for word, and that it stays there. */
module EngineExits {
  import opened Types
  import opened Requests
  import opened EngineModel
  import opened EnginePools
  import opened EngineInvariant
  import opened EngineTheorems

  /** `later` is `r` with these events put on its channel. */
  predicate Hears(r: Request, later: Request, events: seq<StreamEvent>) {
    && later.channel == r.channel + events && later.model == r.model && later.enqueuedAt == r.enqueuedAt
    && later.cancelled == r.cancelled && later.startedAt == r.startedAt
  }

  /** It has ended so, at that time. */
  predicate EndsAs(later: Request, state: RequestState, now: real) {
    later.state == state && later.finishedAt.Some? && later.finishedAt.value == now
  }

  /** Each exit of a serving task, and each chunk, puts exactly this on the channel, and leaves every other
      request and every queue alone. A chunk, a stream's own end and an exhausted stream say nothing to a
      client that has gone. */
  lemma TaskSays(c: AppConfig, s: State, a: Action)
    requires WellFormed(c, s) && Enabled(c, s, a) && a.IsTask()
    ensures var t := Step(c, s, a);
      && |t.reqs| == |s.reqs| && t.queues == s.queues && t.inFlight == s.inFlight
      && (forall i :: 0 <= i < |s.reqs| && i != a.id ==> t.reqs[i] == s.reqs[i])
      && var r, later := s.reqs[a.id], t.reqs[a.id];
      && (a.TaskYields? && !r.cancelled ==> Hears(r, later, [Piece(a.chunk)]) && later.state == Running)
      && (a.TaskFinishes? && !r.cancelled ==>
            Hears(r, later, [StreamEnd(a.finishReason, a.usage)]) && EndsAs(later, Done, s.now))
      && (a.TaskExhausts? && !r.cancelled ==>
            Hears(r, later, [StreamEnd("stop", None)]) && EndsAs(later, Done, s.now))
      && ((a.TaskYields? || a.TaskFinishes? || a.TaskExhausts?) && r.cancelled ==>
            Hears(r, later, []) && EndsAs(later, Cancelled, s.now))
      && (a.TaskBackendFails? ==> Hears(r, later, [StreamError(a.message, 503)]) && EndsAs(later, Failed, s.now))
      && (a.TaskFaults? ==>
            Hears(r, later, [StreamError("internal error: " + a.message, 500)]) && EndsAs(later, Failed, s.now))
      && (a.TaskCancelled? ==> Hears(r, later, []) && EndsAs(later, Cancelled, s.now))
      && t.failed == (if a.TaskBackendFails? then s.failed + {r.model} else s.failed)
  {
    assert s.reqs[a.id].channel + [] == s.reqs[a.id].channel;
  }

  /** A submission adds one request and nothing else: queued, told nothing, arrived now, at the end of its own
      queue. A model that is not configured adds none. */
  lemma SubmitAddsOne(c: AppConfig, s: State, m: ModelName)
    requires WellFormed(c, s) && Enabled(c, s, Submit(m))
    ensures var t := Step(c, s, Submit(m));
      && (m !in c.Names() ==> t == s)
      && (m in c.Names() ==>
            && |t.reqs| == |s.reqs| + 1 && t.reqs[..|s.reqs|] == s.reqs && t.wakeup
            && t.queues.Keys == s.queues.Keys && t.queues[m] == s.queues[m] + [|s.reqs|]
            && (forall n :: n in s.queues && n != m ==> t.queues[n] == s.queues[n])
            && IsNew(t.reqs[|s.reqs|], m, s.now))
  {
  }

  predicate IsNew(r: Request, m: ModelName, now: real) {
    && r.model == m && r.enqueuedAt == now && r.state == Queued && !r.cancelled && !r.cancelRequested
    && r.channel == [] && r.produced == [] && r.startedAt.None? && r.finishedAt.None?
  }

  /** A client's departure marks its request and nothing else. */
  lemma DepartureMarksOne(c: AppConfig, s: State, id: nat)
    requires WellFormed(c, s) && Enabled(c, s, ClientCancel(id))
    ensures var t := Step(c, s, ClientCancel(id));
      && t == s.(reqs := t.reqs) && |t.reqs| == |s.reqs| && t.reqs[id].cancelled
      && t.reqs[id] == s.reqs[id].(cancelled := t.reqs[id].cancelled)
      && forall i :: 0 <= i < |s.reqs| && i != id ==> t.reqs[i] == s.reqs[i]
  {
  }

  /** The shutdown turns away exactly what is still queued, with exactly this notice. */
  lemma StopSays(c: AppConfig, s: State, i: nat)
    requires Pools(c, s) && RequestsOk(s) && Enabled(c, s, FinishStopDrain) && i < |s.reqs|
    ensures var t := Step(c, s, FinishStopDrain);
      && |t.reqs| == |s.reqs|
      && (s.reqs[i].state == Queued ==>
            t.reqs[i].state == Cancelled && t.reqs[i].channel == [StreamError("router shutting down", 503)])
      && (s.reqs[i].state != Queued ==> t.reqs[i] == s.reqs[i])
  {
    assert Placed(s, i) && Sound(s, i) && QueueOk(s, s.reqs[i].model);
  }

  /** What a request has been told stays: in every run a finished request keeps its outcome and its channel. */
  lemma {:induction false} OutcomeStays(c: AppConfig, s: State, run: seq<Action>, i: nat)
    requires c.Valid() && Inv(c, s) && IsRun(c, s, run) && i < |s.reqs| && s.reqs[i].state.IsTerminal()
    ensures var e := After(c, s, run);
      i < |e.reqs| && e.reqs[i].state == s.reqs[i].state && e.reqs[i].channel == s.reqs[i].channel
    decreases run
  {
    if run != [] {
      NothingStartedInQueue(s);
      StepPersists(c, s, run[0]);
      assert Persists(s.reqs[i], Step(c, s, run[0]).reqs[i]);
      StepKeepsInv(c, s, run[0]);
      OutcomeStays(c, Step(c, s, run[0]), run[1..], i);
    }
  }

  /** A backend's own end of stream reaches its client as it is: however the run goes on, what the channel ends
      with is the finish reason and the token counts the backend gave. */
  lemma EndIsForwarded(
    c: AppConfig, s: State, id: nat, finishReason: string, usage: Option<Usage>, run: seq<Action>)
    requires c.Valid() && Reachable(c, s) && Enabled(c, s, TaskFinishes(id, finishReason, usage))
    requires !s.reqs[id].cancelled
    ensures WellFormed(c, s)
    ensures var t := Step(c, s, TaskFinishes(id, finishReason, usage));
      IsRun(c, t, run) ==>
        && id < |After(c, t, run).reqs| && After(c, t, run).reqs[id].state == Done
        && After(c, t, run).reqs[id].channel == Pieces(s.reqs[id].produced) + [StreamEnd(finishReason, usage)]
  {
    var a := TaskFinishes(id, finishReason, usage);
    ReachableInv(c, s);
    assert Sound(s, id);
    TaskSays(c, s, a);
    StepKeepsInv(c, s, a);
    if IsRun(c, Step(c, s, a), run) {
      OutcomeStays(c, Step(c, s, a), run, id);
    }
  }
}
