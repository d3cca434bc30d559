# A verified model of the residency scheduler

`sir` is a router in front of one GPU: many models, one of them loaded at a time. This project models its
scheduler and the parts around it that decide whether a client gets its answer, and proves what they promise.

- **Policy** (`Policy.dfy`, `DecisionTable.dfy`): the pure decision — who is resident now, what a waiting client is
  told — and, over the fields of the snapshot alone, the one answer that is right in every case.
- **Queues** (`Requests.dfy`, `QueueSpec.dfy`, `QueueTransparency.dfy`, `Queues.dfy`): the request record, the
  per-model queues in which cancelled entries may linger, and the proof that they cannot be seen.
- **Engine** (`EngineModel.dfy`, the `Engine*.dfy` proofs, `Engine.dfy`): the control loop, the serving tasks and
  shutdown as a state machine whose steps lie between the code's suspension points; what every run of it keeps;
  and the engine object itself, each of whose methods is proved to be one step of that machine, so that every
  state the object is ever in is a reachable one and everything proved about runs holds of the object.
- **Jobs** (`JobModel.dfy`, the `Job*.dfy` proofs, `JobStore.dfy`): the store of polled jobs and its sweeper
  running beside the engine, in every interleaving; and the store object itself.
- **Clock** (`Clock.dfy`), **renderings** (`Renderings.dfy`, `RenderingLaws.dfy`, `OneAnswer.dfy`), **wire format**
  (`EventStream.dfy`), **backends** (`Backends.dfy`).

Times and weights are reals, an ineligible model's score is an explicit minus infinity, identifiers are positions
in the order of submission. `Valid` on the configurations states the validators of `src/sir/config.py:167-193`,
`196-239` and `250-276`.

What is assumed: a stretch of code between two awaits is atomic; putting an event on a channel never blocks; a
task takes its first step before it can be cancelled and a cancelled task ends as cancelled; callbacks do not raise;
the loop, when it can go on, goes on before time passes; `stop` frees the device, as the backend protocol says
(`src/sir/backend.py:40-42`); requests are not submitted once shutdown has begun; the sweeper runs at its
deadline at the latest, and where a history is called unattended exactly then.

## What the code does, where its prose says more

- *No model waits forever.* False with two overdue models: after a load the loop decides again before it dispatches,
  and the other overdue model takes the device away; with a minimum residency of zero a higher score does so too.
  `EngineFairness.ProgressAfterLoadIff` gives the exact condition for progress, `EngineStarvation.StarvationBound` and
  `EngineStarvation.OverdueBound` the bound under it, `EngineRescue.CeilingRescues` a run in which it is the ceiling
  alone that gets a request served, and `EngineLivelock` one, reachable in every configuration with two models, that
  swaps without end and serves nobody.
- *Only a client that leaves makes a request end without a terminator* (`src/sir/engine.py:239-240`). A task that
  was told to stop puts none, whoever told it: `EngineSilence.TerminatorIff` gives the condition at each exit, and
  `EngineTheorems.ChannelTellsOutcome` over whole runs. While the client is there, tasks are told to stop by the
  shutdown and by the handling of their own model's failure, and by nothing else (`EngineSilence.ToldIff`). The
  shutdown does it in every configuration (`EngineSilence.ShutdownSilences`: submit, pass, load, pass, stop); the
  handling of a failure in exactly those with room for two requests at once (`EngineSilence.SilencingTakesCompany`).
  A job whose request ends that way reads cancelled, but its pump waits on, it has no finishing time, and no sweep
  ever removes it: `JobAnswers.ContainmentMakesOrphans`, `JobSilence.OrphansTakeCompany`,
  `JobSilence.OrphansStayForGood`.
- *A job's state is the engine's.* It can read done while chunks are still on their way to the job, and the document
  rendered then lacks them: `JobAnswers.DoneIsWholeIff`. One job is enough for that, in every configuration:
  `JobSilence.DoneRunsAhead`.
- *Advice is always safe to follow.* True of polls (`JobLease.AdviceIsSafe`). A client that stays silent until some
  moment can lose its job by then if and only if more than a lease will have passed since its last poll
  (`JobAdvice.SilenceIsCutOffIff`), and two kinds of advice do not reckon with that. The answer to a repeated submission
  advises without renewing the lease (`JobAdvice.ResubmissionDoesNotRenew`): in every configuration with a lease a
  client that submits again late enough loses its job while it waits as told (`JobLost.AdviceLosesJob`). The rounded
  `Retry-After` header tells some client to stay away for longer than its lease if and only if the lease is shorter
  than a second (`JobLost.HeaderExceedsLeaseIff`), and then it costs the job (`JobLost.HeaderLosesJob`).
- *One job per idempotency key.* The empty key is stored but never looked up: `JobTheorems.PostKeepsKeysIff`,
  `JobTheorems.EmptyKeyBreaksIndex`.
- *A cancelled entry cannot be noticed.* One query can tell: the position of a request that is itself cancelled and
  still queued (`QueueSpec.PositionSeesOnlyLiveIff`, `QueueTransparency.CancelledCanSeeItself`). The API never asks it:
  it estimates waits only for jobs that are not terminal (`src/sir/api.py:244`).
- An error sent in band on an event stream is not seen by the vLLM backend's own parser, which reports such a stream as
  one that stopped: `EventStream.RoundTrip`.

## Model

| member | source | states |
|---|---|---|
| Types.NamedIsUnique | src/sir/types.py:177-185 | with the names the configuration validator keeps apart, looking a model up by name finds exactly it |
| Policy.LongestIsFirst | src/sir/policy.py:149-151 | the mandatory target is the first of those nobody in the list has waited longer than |
| Policy.BestIsFirst | src/sir/policy.py:162 | the chosen model is the first of the servable ones that none scores above |
| Policy.ScoreOfMember | src/sir/policy.py:43-102 | a decision's breakdown holds each model's own score, the switch cost left out for the resident only |
| Policy.StarvationIffOverdue | src/sir/policy.py:139-151 | the decision is a starvation switch if and only if some available non-resident model is past the ceiling, and its target is one that waited longest |
| Policy.StarvationIgnoresWeights | src/sir/policy.py:139-151 | two snapshots that differ in priorities and load times alone, under configurations that share no more than the ceiling, lead to the same mandatory switch |
| Policy.SwitchTargetIsServable | src/sir/policy.py:130-211 | every switch goes to a model with queued work that can be loaded now and is not already resident |
| Policy.BusyResidentDispatchesIff | src/sir/policy.py:139-211 | an available resident with queued work goes on if and only if no other model is overdue and it is within its minimum residency or not out-scored; otherwise it loses the device, to the ceiling or to a challenger |
| Policy.EarnedSwap | src/sir/policy.py:185-209 | a swap not forced by starvation finds its resident past the minimum residency or idle for at least the swap's cost; when such a resident does lose the device is DecisionTable.DecisionIsRight |
| Policy.EarnedWindow | src/sir/policy.py:185-209 | so the resident was resident or idle for the shorter of the two |
| Policy.UnavailableSwitchNeedsBackoff | src/sir/policy.py:130-133 | a transition is reported exactly while one is under way, and a resident is left as unavailable only while its backoff lasts |
| Policy.TiesGoToIncumbent | src/sir/policy.py:191-211 | an available resident loses the device, starvation aside, only to a best candidate with a strictly higher score |
| Policy.ColdStartLoads | src/sir/policy.py:164-166 | an empty device with loadable work waiting is never left empty |
| Policy.CeilingAgreesWithDecide | src/sir/policy.py:238-279 | the advertised ceiling reads zero exactly when the decision counts the model as overdue |
| Policy.HoldAgreesWithDecide | src/sir/policy.py:249-259 | while the advertised hold is positive, the incumbent up and busy and nobody overdue, no switch is decided |
| Policy.EstimateFallsGently | src/sir/policy.py:238-269 | for a fixed snapshot the estimate never rises and falls at most a second a second |
| Policy.EstimateStepsInBatches | src/sir/policy.py:266-279 | a full batch further back costs exactly one more mean, positions in one batch are told the same, and the polling interval stays between its limits |
| DecisionTable.DecisionIsRight | src/sir/policy.py:104-211 | over the snapshot's fields, in every case: the decision is the right one of a table whose cases are a transition, an overdue model, no work, nothing loadable, no resident, a resident that is down, a held one and a contest, target, reason and all |
| DecisionTable.OnlyOneIsRight | src/sir/policy.py:104-211 | the table leaves no choice: two decisions that are right agree in kind, reason and target |
| DecisionTable.EmptyResidentLosesIff | src/sir/policy.py:185-209 | an available resident with nothing queued, nobody overdue, loses the device to the first servable model that none out-scores if and only if that one scores above zero and the resident is past its minimum residency, or serves nothing and has been idle for the cost of the swap; the reason is idleness exactly in that case |
| DecisionTable.BreakdownAddsUp | src/sir/policy.py:43-102 | what a decision reports of a model's score is what the score is made of |
| DecisionTable.EstimateIsRight | src/sir/policy.py:214-279 | the estimate to the second: a mean for every batch up to and including its own, what is generating counted for a resident; for any other the lesser of hold and ceiling left, or the backoff left where that is later, and the load; and a quarter of it between the limits as the polling interval |
| DecisionTable.UnknownHasNoEstimate | src/sir/policy.py:236-237 | there is no estimate exactly for a model the snapshot does not know |
| Requests.QueuedRequest.Cancel | src/sir/types.py:117-118 | sets the flag of this request and touches nothing else |
| Requests.QueuedRequest.Receive | src/sir/engine.py:246-252 | a chunk is forwarded, or, if the client has gone, the request ends cancelled |
| Requests.QueuedRequest.Complete | src/sir/engine.py:254-259 | a finished stream ends done with one terminator, or cancelled with none if the client has gone |
| QueueSpec.NextForServesHead | src/sir/queues.py:71-82 | a pop returns the oldest live entry and leaves the other live entries in order |
| QueueSpec.NextForTouches | src/sir/queues.py:71-82 | it starts that request, marks the cancelled ones it dropped and changes no other |
| QueueSpec.TakeWhileServesPrefix | src/sir/queues.py:84-90 | a batch is exactly the first so many live entries, and exactly the rest stay |
| QueueSpec.TakeWhileTouches | src/sir/queues.py:84-90 | only the taken are started, only dropped cancelled entries are marked |
| QueueSpec.TakeWhileKeepsOrder | src/sir/queues.py:84-90 | what is taken and what is left are in order of submission, the former before the latter |
| QueueSpec.PurgeKeepsLive | src/sir/queues.py:92-106 | a purge changes no queue's live entries |
| QueueSpec.RemovedAreDead | src/sir/queues.py:92-106 | what a purge removes is exactly the cancelled entries, one queue's after another's |
| QueueSpec.PositionCountsLive | src/sir/queues.py:50-63 | the position of a live entry is its place among the live entries |
| QueueSpec.PositionSeesOnlyLiveIff | src/sir/queues.py:50-63 | a position query agrees with the live entries if and only if it is not about a cancelled entry of the queue |
| QueueSpec.OldestIsEarliest | src/sir/queues.py:44-48 | with arrivals in order of submission, the reported oldest arrival is a live entry's and no live entry came before it; none is reported exactly when none is live |
| QueueTransparency.CallAgrees | src/sir/queues.py:36-106 | each call answers as it would on queues that forget an entry the moment its client cancels, and keeps the two alike |
| QueueTransparency.CancelledAsIfNeverEnqueued | src/sir/queues.py:16-22 | no sequence of calls can tell the queues from ones that never held a cancelled request |
| QueueTransparency.CancelledCanSeeItself | src/sir/queues.py:50-63 | the one exception: after any calls, a request that is enqueued and cancelled is still told its place, where queues that never held it know of none |
| Queues.ModelQueues.constructor | src/sir/queues.py:24-27 | one empty queue for every configured model |
| Queues.ModelQueues.Enqueue | src/sir/queues.py:36-39 | appends to the model's own queue; an unknown model is refused and nothing changes |
| Queues.ModelQueues.Depth | src/sir/queues.py:41-42 | the number of live entries |
| Queues.ModelQueues.OldestEnqueuedAt | src/sir/queues.py:44-48 | the arrival of the first live entry |
| Queues.ModelQueues.PositionOf | src/sir/queues.py:50-63 | the live entries before a request, or nothing once it has left |
| Queues.ModelQueues.PopHead | src/sir/queues.py:74-81 | the head is started if its client is there and dropped as cancelled otherwise |
| Queues.ModelQueues.NextFor | src/sir/queues.py:71-82 | in place, what the specification's pop computes, on every request and every queue |
| Queues.ModelQueues.TakeWhile | src/sir/queues.py:84-90 | in place, what the specification's batch computes |
| Queues.ModelQueues.PurgeOne | src/sir/queues.py:95-105 | one queue rebuilt from its live entries, the others marked and returned |
| Queues.ModelQueues.PurgeCancelled | src/sir/queues.py:92-106 | every queue rebuilt; exactly the cancelled entries are marked and returned, queue by queue |
| Queues.ModelQueues.Drain | src/sir/queues.py:108-113 | everything queued for one model is returned and its queue left empty |
| EngineInvariant.StepIsSafe | src/sir/engine.py:8-15 | every step of loop, tasks, callers and shutdown keeps pools, device, time stamps, backoffs and channels in order |
| EngineInvariant.RunIsSafe | src/sir/engine.py:8-15 | and so does every run |
| EngineOrder.OrderStep | src/sir/engine.py:214-234 | every step keeps the order of dispatch the order of submission, model by model |
| EngineTheorems.ExclusiveResidency | src/sir/engine.py:10 | at most one backend is on the device, it is the resident's, and everything generating belongs to it |
| EngineTheorems.StartsAlone | src/sir/engine.py:324-360 | a backend is started only on an empty device, with nothing generating, and out of its backoff |
| EngineTheorems.Conservation | src/sir/engine.py:214-234 | every submitted request is in exactly one of its queue, the in-flight table and the finished, and the table never exceeds the concurrency cap |
| EngineTheorems.FirstInFirstOut | src/sir/engine.py:224-234 | nothing is dispatched twice and each model's requests are dispatched in order of submission |
| EngineTheorems.StopEmptiesPools | src/sir/engine.py:128-150 | after shutdown nothing is queued or in flight, every request has an outcome and the device is free |
| EngineTheorems.ChannelTellsOutcome | src/sir/engine.py:236-276 | a channel is chunks and at most one terminator, the terminator tells the outcome, and a dispatched request whose client stays ends with one if and only if its task was never told to stop |
| EngineExits.TaskSays | src/sir/engine.py:246-275 | each exit of a serving task puts exactly its own events on the channel and ends the request so, now: the backend's own finish reason and token counts, a stop for an exhausted stream, the backend's message with 503, the fault's with 500, nothing for a client that has left or a task that was told to stop |
| EngineExits.EndIsForwarded | src/sir/engine.py:244-258 | in every run a stream's own end reaches a client that stays as it is, after every chunk, and stays the last thing said |
| EngineExits.OutcomeStays | src/sir/engine.py:253-275 | in every run a finished request keeps its outcome and its channel |
| EngineExits.StopSays | src/sir/engine.py:142-145 | the shutdown turns away exactly what is queued, with exactly its notice |
| EngineExits.SubmitAddsOne | src/sir/engine.py:154-167 | a submission adds one request, arrived now, at the end of its own queue, and changes no other |
| EngineSilence.TerminatorIff | src/sir/engine.py:246-273 | an exit of a serving task puts a terminator if and only if the task was not told to stop and its client is there or its stream fails |
| EngineSilence.ToldIff | src/sir/engine.py:296-300 | while its client is there a task is told to stop by the shutdown and by the handling of its own model's failure, and by no other step |
| EngineSilence.ShutdownSilences | src/sir/engine.py:136-139 | in every configuration and for every model a run ends a request its client wants without a terminator |
| EngineSilence.ContainmentSilences | src/sir/engine.py:402-409 | where two requests may be generating at once, the failure of one ends the other so |
| EngineSilence.SilencingTakesCompany | src/sir/engine.py:388-414 | without a shutdown that happens in some run if and only if two requests may be generating at once |
| EngineWalk.ServingIsReachable | src/sir/engine.py:171-234 | in every configuration any number of requests up to the cap, for any model, can be generating at once |
| EngineTheorems.NoResponseIsCut | src/sir/engine.py:11 | an undisturbed request gets every chunk its backend produced, in order, and one terminator, however many swaps happen |
| EngineTheorems.FailureTouchesOnlyItsRequest | src/sir/engine.py:264-269 | a backend's failure in one request changes no other request and no queue |
| EngineTheorems.ContainmentIsContained | src/sir/engine.py:388-419 | handling a failed model leaves every queue, every other model's requests and its own undispatched ones untouched |
| EngineTheorems.DecisionsAreMadeAtRest | src/sir/engine.py:171-198 | whenever the loop decides, no transition is under way and the resident is not in backoff, so two of the policy's branches are never taken |
| EngineThrash.AntiThrash | src/sir/policy.py:172-189 | in every run, unforced swaps times the shorter of minimum residency and cheapest swap is at most the time that passed |
| EngineHistory.UnforcedSwapsAreFew | src/sir/policy.py:174-190 | the same over the run itself: the swaps decided while no model was overdue, counted step by step, times the window, fit into the time that passed |
| EngineHistory.LoadsFit | src/sir/engine.py:324-360 | the statistics report exactly the run's swaps, loads and time spent loading, and the loads fit into the time that passed |
| EngineHistory.ResidencyBegins | src/sir/engine.py:353-358 | whatever is resident after a step was so before, since the same time, or its load has just ended and it is resident since now, not idle and out of backoff |
| EngineBackoff.BackoffIsServed | src/sir/engine.py:395-419 | in every run a barred model stays barred, is not loaded and does not become resident until its backoff is over |
| EngineBackoff.LoadsNeverOverlap | src/sir/engine.py:336-360 | in every run the time recorded as spent loading is at most the time that passed, the load under way aside |
| EngineFairness.DecisionHeeds | src/sir/policy.py:139-151 | in the engine's own terms: a decision is forced exactly when some model's oldest live request is past the ceiling, and goes to such a model |
| EngineFairness.ReportedAgeIsLargest | src/sir/queues.py:44-48 | in every reachable state the age the policy sees for a model is that of a live request of its queue, and no live request there is older |
| EngineSight.SnapshotIsTruth | src/sir/engine.py:423-450 | in every reachable deciding state the snapshot tells, for each configured model, how many requests wait and how many generate, the earliest arrival among those that wait, and since when it is resident, idle or in backoff |
| EngineSight.PassMarks | src/sir/engine.py:306-320 | a pass marks the resident as idle if and only if nobody waits for it and nothing generates, since the earlier mark if there was one and since now otherwise |
| EngineSight.IdleSinceMeans | src/sir/engine.py:306-320 | over runs: whoever is resident and marked as idle was marked by a pass at that time, and in that pass and every later one it was resident with nobody waiting for it and nothing generating |
| EngineSight.PassHandsOver | src/sir/engine.py:214-234 | in every reachable deciding state a pass that lets work go out starts, now and in order, as many of the resident's waiting requests as there are places free, and any other starts none |
| EngineSight.PassGoes | src/sir/engine.py:189-196 | where each decision leaves the loop, drain, unload, load or wait, and that a pass tells exactly those departed clients' tasks to stop |
| EngineFairness.OverdueMeansSwitch | src/sir/engine.py:184-194 | while anyone is overdue a pass dispatches nothing and sets out to load someone overdue |
| EngineFairness.ProgressAfterLoadIff | src/sir/engine.py:184-194 | after a load, and the handling of failures reported meanwhile, the next pass dispatches the first so many live requests if and only if no other model is overdue and, where the minimum residency is zero, none out-scores the fresh resident; otherwise it gives the device away again |
| EngineFairness.ColdPassLoads | src/sir/policy.py:164-166 | a pass with an empty device and loadable work starts a load |
| EngineStarvation.StarvationBound | src/sir/policy.py:139-151 | in every quiet run, from any state in which a request heads its queue at or before the ceiling, for any weights and priorities, it is dispatched within the ceiling, one tick or swap, and one swap, unless its model holds the device at the ceiling; a quiet run has no other model overdue at any decision and, where the minimum residency is zero, none that out-scores this one while it is resident |
| EngineStarvation.OverdueBound | src/sir/policy.py:139-151 | past the ceiling, from any moment at which its model does not hold the device or is about to lose it, the request is dispatched within one tick or swap, and one swap |
| EngineRescue.CeilingRescues | src/sir/policy.py:143-151 | in every configuration with two models there is such a run, in which a swap forced by the ceiling alone gets a request dispatched at the moment it reaches it |
| EngineLivelock.TwoOverdueServeNobody | src/sir/engine.py:184-191 | with two models overdue and nobody cancelling, no run dispatches anything |
| EngineLivelock.SwapsForever | src/sir/engine.py:184-191 | such runs exist with any number of swaps |
| EngineLivelock.LivelockIsReachable | src/sir/engine.py:184-191 | and are reached from the start, in every configuration with two models, by one request for each and one slow load |
| Engines.Engine.constructor | src/sir/engine.py:74-118 | a new engine is in the machine's initial state |
| Engines.Engine.CancelDisconnected | src/sir/engine.py:296-300 | exactly the running tasks whose client has gone are told to stop |
| Engines.Engine.ReapFinished | src/sir/engine.py:302-304 | exactly the finished tasks leave the table |
| Engines.Engine.TrackIdleness | src/sir/engine.py:306-320 | exactly the specification's mark, whose meaning is EngineSight.PassMarks and EngineSight.IdleSinceMeans |
| Engines.Engine.Snapshot | src/sir/engine.py:423-450 | a consistent read of every configured model |
| Engines.Engine.EstimateWait | src/sir/engine.py:452-468 | the specification's estimate at the request's position, whose value is JobEstimate.EstimateIsOf; none once it has left its queue |
| Engines.Engine.Dispatch | src/sir/engine.py:214-234 | hands over as many of the resident's oldest live requests as the cap leaves room for |
| Engines.Engine.Pass | src/sir/engine.py:173-198 | one iteration of the loop is one pass of the machine, with the decision the policy gives on the swept state |
| Engines.Engine.Submit | src/sir/engine.py:154-167 | a new last entry of its model's queue, or a refusal that changes nothing if there is no such model |
| Engines.Engine.OnChunk | src/sir/engine.py:246-252 | a chunk's arrival is the machine's step |
| Engines.Engine.OnStreamEnd | src/sir/engine.py:249-259 | the machine's step for a stream's own end, which by EngineExits.TaskSays forwards finish reason and token counts untouched |
| Engines.Engine.OnExhausted | src/sir/engine.py:254-259 | a stream without one is given one |
| Engines.Engine.OnBackendError | src/sir/engine.py:264-269 | the request fails with a 503 and the model is reported to the loop |
| Engines.Engine.OnFault | src/sir/engine.py:270-273 | an unexpected error fails the request with a 500 and nothing else |
| Engines.Engine.OnCancelled | src/sir/engine.py:260-263 | a cancelled task puts nothing on the channel |
| Engines.Engine.BeginContaining | src/sir/engine.py:388-394 | the loop takes over the reported failures |
| Engines.Engine.Contain | src/sir/engine.py:395-412 | one failed model is marked unavailable; the resident's tasks are told to stop |
| Engines.Engine.OnCrashDrained | src/sir/engine.py:407-412 | the dead resident is given up once its tasks have ended |
| Engines.Engine.OnCrashStopped | src/sir/engine.py:413-414 | its stop frees the device |
| Engines.Engine.BeginSwitch | src/sir/engine.py:324-337 | a switch drains first, or hands over at once when nothing is in flight |
| Engines.Engine.OnDrained | src/sir/engine.py:378-386 | a completed drain clears the table and goes on to unload |
| Engines.Engine.OnUnloaded | src/sir/engine.py:334-342 | the unload is counted as a swap and the target started |
| Engines.Engine.OnLoaded | src/sir/engine.py:353-362 | the target becomes resident, with a fresh residency and no backoff |
| Engines.Engine.OnLoadFailed | src/sir/engine.py:343-349 | a failed load is timed and its backend stopped |
| Engines.Engine.OnCleanedUp | src/sir/engine.py:349-351 | and its model goes into backoff |
| Engines.Engine.BeginShutdown | src/sir/engine.py:128-139 | every running task is told to stop |
| Engines.Engine.OnStopDrained | src/sir/engine.py:140-147 | every queued request is turned away with a 503 and every queue emptied |
| Engines.Engine.OnStopUnloaded | src/sir/engine.py:147-150 | the resident's stop leaves nobody resident |
| JobModel.Evictable | src/sir/jobs.py:214-227 | the job evicted is terminal, goes first by the eviction time among those and is the first of equals; what that time is, JobTable.RoomIsMade says |
| JobTable.RoomIsMade | src/sir/jobs.py:214-232 | at the ceiling the job that goes, key and all, has ended and finished no later than any other that has and earlier than those before it, the time of creation standing in where there is no finishing time; nobody goes, and the submission is refused, exactly when none has ended |
| JobTable.OnlyOneMustGo | src/sir/jobs.py:219-227 | there is only one such job |
| JobTable.ReadsAs | src/sir/jobs.py:64-81 | what a job has recorded outlives everything that becomes of its request; before that a cancellation shows at once, and otherwise the request's own state does |
| JobTable.NewPostDoes | src/sir/api.py:141-164 | a submission that is no repetition adds a request, and a job for it behind those that stay, or cancels the request again where no room could be made |
| JobTable.RepeatedPostDoes | src/sir/api.py:141-147 | a repetition only finds its job again; a model that is not configured does nothing |
| JobTable.PollDoes | src/sir/jobs.py:166-175 | a poll renews the lease of that job alone and notes the first time it is found ended |
| JobTable.DeleteDoes | src/sir/jobs.py:177-212 | a deletion marks that request as cancelled, tells its pump and notes the time unless there is one |
| JobTable.PumpDoes | src/sir/jobs.py:186-204 | a pump moves the next event into its job, and its end notes the time |
| JobTable.SweepDoes | src/sir/jobs.py:243-267 | job by job, over its times: an outdated one is forgotten, a deserted one abandoned, any other left as it is with its request |
| JobTable.SweepOnlyTakes | src/sir/jobs.py:248-267 | a sweep brings in no job and touches no request without one |
| JobInvariant.PumpedIsOk | src/sir/jobs.py:186-204 | a pump that takes an event keeps the job a prefix of its request's channel |
| JobTheorems.HistoryKeepsWorld | src/sir/jobs.py:97-267 | every history of store and engine keeps each job in agreement with its request, the ceiling, and every lease |
| JobTheorems.StoreIsBounded | src/sir/jobs.py:214-227 | the store never grows past its ceiling, and no request has two jobs |
| JobTheorems.LeavesOnlyIfTerminal | src/sir/jobs.py:217-227 | no step forgets a job still in progress |
| JobTheorems.OneJobPerKey | src/sir/jobs.py:155-162 | an index in exact correspondence means one retained job per key, and that one is found |
| JobTheorems.PostKeepsKeysIff | src/sir/api.py:141-164 | a submission keeps index and jobs in exact correspondence if and only if it does not open a second job under the empty key |
| JobTheorems.KeysStayExact | src/sir/jobs.py:150-162 | without empty keys every history keeps it |
| JobTheorems.EmptyKeyBreaksIndex | src/sir/api.py:143-144 | two submissions with the empty key break it |
| JobSweep.SweepIsExact | src/sir/jobs.py:243-267 | the sweep's loop cancels exactly the stale jobs in progress and forgets exactly the expired finished ones |
| JobSweep.SweepTwiceIsSweepOnce | src/sir/jobs.py:243-267 | sweeping again at the same instant changes nothing |
| JobLease.LeaseBoundsSilence | src/sir/jobs.py:13-24 | a job in progress was polled within the last lease and sweep interval |
| JobTheorems.DeleteIsIdempotent | src/sir/jobs.py:206-212 | deleting a job ends its pump and its request's claim, and deleting it again changes nothing |
| JobLease.AbandonedNeverForcesSwap | src/sir/jobs.py:18-24 | with lease and sweep interval below the ceiling, no forced switch is for the sake of a job nobody polled |
| JobLease.AdviceIsSafe | src/sir/api.py:253-259 | who polls as advised, up to half a lease late, never has a job cancelled |
| JobEstimate.EstimateIsOf | src/sir/engine.py:452-469 | in every reachable state a request that waits is told the whole estimate for as many ahead as came before it for its model and still wait; once it has left its queue there is none |
| JobEstimate.AdviceIs | src/sir/api.py:242-259 | the advice is nothing for a job that has ended, the estimate's interval while its request waits and a second while it is served, and never more than half the lease |
| JobEstimate.RoundIsNearest | src/sir/api.py:237 | the header is the nearest whole second, the even one of two, and at least one |
| JobAdvice.SilenceIsCutOffIff | src/sir/jobs.py:248-255 | in any history a client that stays silent until some moment can have its job cancelled by then if and only if more than a lease will have passed since its last poll |
| JobAdvice.ResubmissionDoesNotRenew | src/sir/api.py:143-147 | a repeated submission is advised afresh but is no poll: acting on the advice can cost the job if and only if the time since the last real poll, the advice and the delay exceed the lease |
| JobLost.AdviceLosesJob | src/sir/api.py:143-147 | it does, in every configuration with a lease, for every model and key: a history from the start, with sweeps on schedule, cancels a job no later than its client was told to come back |
| JobLost.HeaderLosesIff | src/sir/api.py:237 | a client that goes by the rounded header can lose its job if and only if the time since its last poll and the header exceed the lease |
| JobLost.HeaderExceedsLeaseIff | src/sir/api.py:237 | the header of some job in progress exceeds the lease in some history if and only if the lease is shorter than a second |
| JobLost.HeaderLosesJob | src/sir/api.py:237 | and then a client that submits and waits for the second it was told loses its job to a sweep on schedule |
| JobAnswers.BufferConserves | src/sir/jobs.py:186-204 | what a job holds and what is still on the channel are, in order, everything ever put there |
| JobAnswers.RecordedIsComplete | src/sir/jobs.py:186-204 | a job that recorded a terminator holds the whole channel, and for a stream's end all its backend produced |
| JobAnswers.JobsOnlyGain | src/sir/jobs.py:51-54 | chunks are never lost and a recorded terminator never changes |
| JobAnswers.DoneIsWholeIff | src/sir/jobs.py:64-73 | a job that reads done holds the whole answer if and only if its pump has taken all but the terminator |
| JobAnswers.DoneBeforeComplete | src/sir/jobs.py:64-73 | from every situation in which a job's request is generating, one chunk and the stream's end make it read done without that chunk |
| JobSilence.DoneRunsAhead | src/sir/jobs.py:64-73 | such a situation arises from the start, in every configuration, for every model and with one job |
| JobAnswers.ContainmentMakesOrphans | src/sir/engine.py:404-409 | a job whose request is told to stop while its client is there becomes an orphan when its task ends: cancelled, unfinished and without a terminator |
| JobAnswers.OrphansStay | src/sir/jobs.py:257-258 | an orphan is one after every step but a request to delete it, and keeps its place unless a submission finds the store full |
| JobSilence.EngineIsReachable | src/sir/jobs.py:13-24 | whatever store, sweeper and pumps do, the engine beside them is in a state its own runs lead to |
| JobSilence.OrphansTakeCompany | src/sir/engine.py:404-409 | orphans arise in some history if and only if two requests may be generating at once |
| JobSilence.OrphansStayForGood | src/sir/jobs.py:243-267 | in every history in which nobody deletes it and the store is never full, an orphan is there at the end |
| JobStores.JobRecord.State | src/sir/jobs.py:64-73 | the record's state is the derived one |
| JobStores.JobStore.ToEvict | src/sir/jobs.py:219-227 | finds the job the specification evicts, by scanning; which one that is, JobTable.RoomIsMade says |
| JobStores.JobStore.Create | src/sir/jobs.py:133-153 | opens a job after making room, or refuses and changes nothing |
| JobStores.JobStore.FindByKey | src/sir/jobs.py:155-162 | finds the retained job the index names |
| JobStores.JobStore.Get | src/sir/jobs.py:166-175 | renews the lease, and starts the short clock on the first read of a finished job |
| JobStores.JobStore.Abandon | src/sir/jobs.py:206-212 | cancels the request, stops the pump and stamps the job, once |
| JobStores.JobStore.Cancel | src/sir/jobs.py:177-182 | abandons the job of that request, or reports that there is none |
| JobStores.JobStore.Forget | src/sir/jobs.py:229-232 | removes the job and its key |
| JobStores.JobStore.SweepOnce | src/sir/jobs.py:243-267 | in place, the specification's sweep, on jobs, index and requests |
| JobStores.JobStore.PumpTake | src/sir/jobs.py:194-204 | moves one event from channel to job |
| Clock.InsertSorts | src/sir/clock.py:73-74 | parking keeps the sleepers in order of deadline and registration |
| Clock.RemoveKeepsOrder | src/sir/clock.py:136-141 | a cancelled sleeper leaves the others as they were |
| Clock.WakeIsAccounted | src/sir/clock.py:97-100 | a sleeper fires once, at its own deadline, after all that are due before it |
| Clock.DueHaveWoken | src/sir/clock.py:49-56 | exactly the sleepers due and not cancelled have woken, each at its own deadline |
| Clock.VirtualClock.Sleep | src/sir/clock.py:66-80 | parks until now plus the duration; no duration parks nothing |
| Clock.VirtualClock.Discard | src/sir/clock.py:136-141 | removes that sleeper and no other |
| Clock.VirtualClock.AdvanceTo | src/sir/clock.py:91-103 | time ends at the target, everything due has woken at its own deadline and in order, whatever woken tasks register or cancel, and the call returns |
| Clock.VirtualClock.AdvanceToNext | src/sir/clock.py:105-111 | time jumps to the first deadline pending once the tasks have run, and stays if there is none |
| Renderings.Collect | src/sir/api.py:319-349 | the reply is determined by the first arrival that is not a chunk; the request is cancelled exactly when the client has left or the handler is torn down |
| Renderings.ReplyToFinished | src/sir/api.py:319-349 | a client that stays gets everything a finished channel holds |
| Renderings.HeardIsText | src/sir/api.py:359-384 | the deltas of an event stream put together are the text |
| RenderingLaws.ReplySays | src/sir/api.py:319-349 | what the collecting path replies after the chunks, field by field: text, finish reason, id and tokens, as reported with zero for a missing count or as counted; or the error; or that the client has left |
| RenderingLaws.DocumentSays | src/sir/api.py:261-274 | what a job document says by what the job has recorded and what became of its request |
| RenderingLaws.PayloadsSay | src/sir/api.py:359-384 | a finished stream greets, gives each chunk's text in order and then why it ended, all under one id and model; or what went wrong |
| RenderingLaws.CompletionIdTellsRequest | src/sir/api.py:212-214 | a completion's id is made of its request's and tells requests apart |
| OneAnswer.OneAnswerThreeRenderings | src/sir/schemas.py:94-134 | job document and collected reply are the same response, id and token counts included, and what is streamed from the request's channel reads back as the same text under the same finish reason; or all three give the same error |
| EventStream.Stream | src/sir/api.py:352-390 | the frames sent are those of the events up to the first terminator; when it ends, torn down or not, a request without a finishing time is cancelled, and so is one whose client has left |
| EventStream.Read | src/sir/backends/vllm.py:157-203 | the backend's loop yields what hearing the lines one by one gives |
| EventStream.FrameIsParsed | src/sir/backends/vllm.py:248-265 | a frame's line parses to what was encoded, its blank line to nothing |
| RenderingLaws.WireIsHeard | src/sir/backends/vllm.py:157-203 | whatever payloads a stream consists of, the reader ends with all of their text in non-empty chunks numbered from zero, the last finish reason given and the token counts reported last |
| RenderingLaws.NoiseIsIgnored | src/sir/backends/vllm.py:248-265 | blank lines, comments, other fields and unreadable data can stand anywhere without being noticed, and nothing after the terminator is |
| RenderingLaws.BlanksDoNotMatter | src/sir/backends/vllm.py:248-265 | blanks before a field, around its data and after it change nothing, and it needs none |
| RenderingLaws.LineEndsAgree | src/sir/backends/vllm.py:172-177 | a line feed, a carriage return or both: the reader hears the same |
| EventStream.RoundTrip | src/sir/backends/vllm.py:161-203 | reading back what was sent gives the non-empty texts, renumbered, and the finish reason; an error in band reads as a stop |
| EventStream.RoundTripIsExactIff | src/sir/backends/vllm.py:161-203 | chunk for chunk the same if and only if the stream ended properly, with a finish reason and no token counts, and its chunks are plain |
| Backends.AwaitHealth | src/sir/backends/vllm.py:129-136 | succeeds only on a wanted answer, gives up only at the deadline, and succeeds in time once the server is as wanted for good |
| Backends.MockBackend.Start | src/sir/backends/mock.py:48-62 | every n-th attempt fails and leaves the process as it was; any other is a fresh process |
| Backends.FailsOnEveryNth | src/sir/backends/mock.py:48-62 | of a new mock's attempts exactly every n-th fails; one that works leaves a fresh process, one that fails what was there |
| Backends.MockBackend.Stop | src/sir/backends/mock.py:64-69 | leaves nothing loaded and nothing crashed |
| Backends.MockBackend.Serve | src/sir/backends/mock.py:74-106 | a request is refused, dies after two tokens, or completes its budget, as the fault injection says |
| Backends.DiesOnCue | src/sir/backends/mock.py:80-102 | after a load exactly so many requests complete, the next dies and the rest are refused |

## Left out

- HTTP, FastAPI, Docker and httpx: they appear as steps that may or may not happen (a client leaves, a load fails, a chunk arrives).
- asyncio itself: see the assumptions above; `settle` runs woken tasks to their next park, whatever number of rounds that takes.
- Restarting an engine after `stop`, and a shutdown that interrupts a load or an unload halfway: the code loses track of the half-loaded backend there, so `BeginStop` is a step only where the loop waits, drains or contains.
- Submitting while shutdown is under way.
- Adopted vLLM servers (`manage_lifecycle: false`) in the exclusivity theorem: their `stop` frees nothing by design. Owned stops that time out are excluded for the same reason.
- The running average of request durations: it enters as the parameter `mean`.
- Decision and event histories, logging, `/status`, `format()` methods, registries, YAML and pydantic parsing, `Prefer` headers and served-name lookup: they decide nothing that is modelled.
- Closing the job store (`JobStore.stop`) and shutdown seen from the jobs' side.
- Token counts that are JSON booleans, which the source takes for integers.
- Float rounding and NaN: times and weights are reals. `created` timestamps and the random parts of identifiers.
- The inside of `heapq`: the sleepers are a sequence kept in the heap's order.
- JSON itself: a serialiser and a parser assumed to undo each other on one line of text; characters other than CR and LF that some line readers also break at fall under the same assumption.
- Word counting for prompts without token counts: the number is a parameter.
- Backends.MockBackend.Serve: the simulated waits between tokens and requests that overlap are not modelled, because the mock's own state does not depend on them before a crash.
- Engines.Engine.Contain: the set of failed models is handled in any order, because the source iterates over a set.
