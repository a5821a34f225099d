# Agent runtime: a verified model

This project models the stateful core of the agent runtime in Dafny and proves its guarantees over
every reachable state. `dafny verify dfyconfig.toml` checks all of it.

## What is modelled

**The run scheduler.** Submission with idempotency keys, the bounded queue, the worker pool, retry,
cancellation, shutdown, and eviction by age and by capacity.

- `Lifecycle` holds the run record, the seven-state machine and the logs it writes; `Eviction` the choice
  of the runs to remove.
- `Scheduler` is the system as a state machine over its atomic steps. asyncio is cooperative: a step is the
  code between two points where a coroutine can really suspend (`queue.get`, the start of a task, `shield`,
  `pattern.run`, an LLM or tool call, a wait for an event). With the in-memory queue and session store no
  lock body suspends and `emit` uses `put_nowait` only, so `submit`, `retry`, `cancel` and every transition
  are one step each. Steps interleave in any order. A worker is idle, has created a task that has not
  started, has one that executes (in a call or between calls), or has one that is over and has not yet been
  noticed by `shield`.
- `Ownership` and `SchedulerInvariant` carry the global invariant; `Guarantees`, `Accounts`, `Retries`, `Histories`,
  `QueueOrder` and `Quiescence` draw the conclusions: one token per run, conservation, counters and retries that
  tell the logs, exact completion events, the registry bound, idempotency, frozen final states, queue order,
  bounded work. `WorkerLoss` and `Handles` say exactly which steps cost a worker or the handle of a task.
- `Requests`, `Workers`, `Retention`, `Outcomes` and `Logs` state what a single step answers, moves, evicts,
  decides and records in plain terms of the state before it, apart from the functions of `Scheduler`; with
  `Replies` they say what logs, counters and outcomes are after any history.
- `AgentRuntime` is the class with the fields of the source. Each method does one step in place, and its
  postcondition equates the new abstract state with the step function applied to the old one.
  `Executions` drives such an object through any run of the system.
- `Patterns` runs the four agent patterns as methods against arbitrary replies and cancellations, says what they
  return and bounds their calls; the scheduler gives an attempt exactly that budget.

**The resilience stack.** `TokenBucket` and `CircuitBreaker` over real numbers, as classes and as functions of
their histories; `Resilience` with any number of concurrent `complete` calls over one bucket and one breaker,
attempts tagged with the half-open period they probe; `RetryLoop` with the attempt and backoff loop.

**Supporting protocols.** `Leases`, `EventBus` with `Delivery`, and `Sessions`.

## Behaviour the model keeps although it may surprise

- A task cancelled before its first step makes `shield` raise in the worker, and eviction of a cancelled run
  that still unwinds makes the lookup of its event fail; both end the worker. `Quiescence.LastWorkerCanBeLost` and
  `WorkerLoss.EvictionCanCostTheLastWorker` show that the whole pool can vanish, `WorkerLoss.StepBreaks` says which
  steps do it, and `WorkerLoss.RestExactly` what is then left.
- `_tasks` is popped by run id, so after a fast retry an old worker can remove the handle of the new task
  (`Handles.HandleCanBeLost`); `Handles.HandledExactly` says when every live task has its handle.
- Output, error and steps of a cancelled run may still change; its state and its log may not.
- `max_run_records` bounds the registry only if it covers the capacity of the queue in use; `validate` compares
  it with the configured capacity, which an injected queue need not have (`Guarantees.RegistryBoundExact`).
- A late success closes an open breaker at once, and a cancelled attempt from an older breaker state frees a
  probe place it did not take (`Resilience.ProbesCanExceedTheLimit`); `Resilience.LimitHoldsExactly` says when.
- `release` ignores expiry, and a repeated `acquire` does not extend a lease.
- A blank answer leaves its user message in the session and then raises.

## Model

| member | source | states |
|---|---|---|
| Lifecycle.FlowConservation | src/agent_runtime/fsm.py:12-25 | on every legal log every state is left as often as it is entered, save the state the log ends in (and Created, where it starts) |
| Lifecycle.AcquisitionsBounded | src/agent_runtime/fsm.py:12-25 | a legal log has at most one more Ready-to-Running edge than Failed-to-Ready edges: a run is acquired at most 1 + retries times |
| Lifecycle.OneFinalOutcome | src/agent_runtime/fsm.py:12-25 | a run succeeds at most once and is cancelled at most once, exactly when its log ends there |
| Lifecycle.FinalStatesEndTheLog | src/agent_runtime/fsm.py:12-25 | no legal log goes past Succeeded or Cancelled |
| Lifecycle.RunRecord.constructor | src/agent_runtime/models.py:79-98 | a new record is in state Created with an empty log, no output, error or finish time |
| Lifecycle.StateMachine.Apply | src/agent_runtime/fsm.py:91-114 | state, update time, first start time, finish time and one log entry are written, nothing else |
| Lifecycle.StateMachine.Move | src/agent_runtime/fsm.py:40-53 | moves exactly when the edge is legal, otherwise raises and leaves the record untouched |
| Lifecycle.StateMachine.MoveIfCurrent | src/agent_runtime/fsm.py:55-73 | skips exactly when the state is not the expected one; raises only when it is and the edge is illegal; changes the record only when it moves |
| Lifecycle.StateMachine.MoveIfAllowed | src/agent_runtime/fsm.py:75-89 | moves exactly when the edge is legal and never raises |
| Lifecycle.StateMachine.Discard | src/agent_runtime/fsm.py:120-126 | the lock entry of an evicted run is gone, the others stay |
| Lifecycle.EdgesExact | src/agent_runtime/fsm.py:12-25 | the legal moves are exactly these twelve pairs of states |
| Eviction.FinishedExact | src/agent_runtime/runtime.py:342-345 | the sorted list holds exactly the registered terminal runs, once each, by finish time with ties in insertion order |
| Eviction.ExpiredIsPrefix | src/agent_runtime/runtime.py:346-350 | the runs past their retention are a prefix of that list |
| Eviction.EvictionExact | src/agent_runtime/runtime.py:339-371 | only terminal runs go; every expired one goes; whatever goes is before whatever stays in finish order; and max(expired, min(terminal runs, registered + reserve - max_run_records)) of them go: not one more than must |
| Eviction.EvictionSuffices | src/agent_runtime/runtime.py:351-362 | after eviction the reserve fits under max_run_records, or no terminal run is left |
| Eviction.SortOrdered | src/agent_runtime/runtime.py:342-345 | the stable sort of ids in insertion order is ordered by (finish time, insertion) |
| Eviction.InsertAt | src/agent_runtime/runtime.py:342-345 | the place an insertion loop finds is the one the recursive insertion of the stable sort takes |
| Retention.CleanUpExact | src/agent_runtime/runtime.py:339-371 | the same in terms of finish times and limits only, for a state of the runtime: the runs finished before now - retention all go, earlier finished ones first, as many as are old or as many as must to make room, whichever is more; runs_evicted_total counts them |
| Retention.NoneGoesInVain | src/agent_runtime/runtime.py:351-362 | if anything goes that is not past its retention, the reserve only just fits or does not fit yet |
| SchedulerInvariant.NextKeepsInv | src/agent_runtime/runtime.py:106-337 | every step (submit, retry, cancel, close, each worker and task step) keeps the global invariant: one owner per run, exact events and finish times, inverse key dictionaries, balanced counters, exact gauge and handles, bounded queue, pool and registry |
| SchedulerInvariant.AfterKeepsInv | src/agent_runtime/runtime.py:106-337 | every sequence of steps keeps it |
| SchedulerInvariant.SubmitKeepsInv | src/agent_runtime/runtime.py:106-175 | submit keeps it, on every branch |
| SchedulerInvariant.RetryKeepsInv | src/agent_runtime/runtime.py:215-230 | retry keeps it: the run gets its only token back and its event is cleared |
| SchedulerInvariant.CancelKeepsInv | src/agent_runtime/runtime.py:198-213 | cancel keeps it, whether the run is queued, about to start or executing |
| SchedulerInvariant.CloseKeepsInv | src/agent_runtime/runtime.py:235-260 | close keeps it: tasks whose worker is stopped still own their runs |
| SchedulerInvariant.DequeueKeepsInv | src/agent_runtime/runtime.py:262-274 | taking an entry moves the token of the run from the queue to the new task, or drops the entry of a finished run |
| SchedulerInvariant.BegunKeepsInv | src/agent_runtime/runtime.py:283-300 | the first step of a task keeps it, also for a task cancelled before it started |
| SchedulerInvariant.EndedKeepsInv | src/agent_runtime/runtime.py:303-337 | every way out of the execution keeps it |
| SchedulerInvariant.CallEndedKeepsInv | src/agent_runtime/runtime.py:402-408 | a late finally block of a call keeps it |
| SchedulerInvariant.CleanUpKeepsInv | src/agent_runtime/runtime.py:339-371 | eviction keeps it: both key dictionaries and the events lose exactly the evicted runs |
| SchedulerInvariant.UnfinishedFit | src/agent_runtime/runtime.py:262-281 | unfinished registered runs map injectively into queue places and busy workers |
| Guarantees.OneToken | src/agent_runtime/runtime.py:172-173 | a run that is not finished has exactly one token (one queue place or one live task) and is registered; a succeeded or failed one has none; a cancelled one at most one |
| Guarantees.PhaseOfHolder | src/agent_runtime/runtime.py:283-300 | the state of a run tells the phase of its executor: Ready before the first step, Running between calls, Waiting in a call, or Cancelled |
| Guarantees.AcquireNeverRaises | src/agent_runtime/runtime.py:287-289 | a task that starts uncancelled finds its run Cancelled or legally acquirable: the worker-acquired move never raises |
| Guarantees.ReachableInv | src/agent_runtime/runtime.py:36-337 | the invariant holds in every reachable state |
| Guarantees.RunsAreConserved | src/agent_runtime/runtime.py:443-450 | submitted + retried = unfinished registered + succeeded + failed + all moves into Cancelled, in every reachable state, evictions included |
| Guarantees.CompletionIsExact | src/agent_runtime/runtime.py:333-336 | for every registered run: its event is set iff it is terminal, and finished_at is set iff it is terminal |
| Guarantees.LogTellsTheState | src/agent_runtime/fsm.py:91-114 | the log of every run ever made is legal, ends in its state, and has at most 1 + retries acquisitions |
| Guarantees.TimesAreLogged | src/agent_runtime/fsm.py:91-114 | for every run ever made: updated_at is the time of its last entry, started_at that of its first entry into Running, finished_at that of the last entry iff it is terminal |
| Guarantees.ConcurrencyBounded | src/agent_runtime/runtime.py:262-281 | at most max_concurrency tasks execute, and runs_active counts exactly them |
| Guarantees.PoolAndQueue | src/agent_runtime/runtime.py:95-101 | the pool has max_concurrency slots once started, the queue never exceeds its capacity |
| Guarantees.RegistryBound | src/agent_runtime/runtime.py:123-175 | the registry never exceeds max(max_run_records, max_concurrency + queue capacity) |
| Guarantees.RegistryBoundExact | src/agent_runtime/config.py:111-115 | max_run_records bounds the registry in every reachable state iff it covers max_concurrency and the capacity of the queue in use |
| Accounts.NextCounted | src/agent_runtime/runtime.py:443-450 | every step that writes a log entry bumps the counter of exactly that edge, and no other step touches either |
| Accounts.CountersTellTheLogs | src/agent_runtime/runtime.py:443-450 | in every reachable state each transition counter is the number of occurrences of its edge in the logs of all runs ever made; runs_retried_total counts the Failed-to-Ready edges, runs_succeeded_total the runs in state Succeeded, the cancellation counters the runs in state Cancelled |
| Logs.LogStep | src/agent_runtime/runtime.py:106-337 | what each step writes to the log of each run, told from the state before: the entry, its two states and its time, and nothing else |
| Logs.LogIsTheHistory | src/agent_runtime/fsm.py:91-114 | in every reachable state the log of every run is, entry by entry, what the steps of the history added |
| Outcomes.RunningEnds | src/agent_runtime/runtime.py:307-326 | a run not cancelled meanwhile: a pattern that returns leaves it Succeeded with that output and counts a success; an exception or a refused turn leaves it Failed with that error and counts a failure; a cancelled task leaves it Cancelled |
| Outcomes.CancelledEnds | src/agent_runtime/runtime.py:303-326 | a run cancelled meanwhile stays Cancelled and is not counted, whatever its pattern does; only output and error may be written |
| Outcomes.OthersUntouched | src/agent_runtime/runtime.py:303-337 | the end of an execution changes no other run |
| Outcomes.LogTellsTheOutcomes | src/agent_runtime/runtime.py:307-326 | run by run over any history: Running-to-Succeeded edges = returns of its pattern taken in Running, Running-to-Failed edges = exceptions taken in Running; it has succeeded iff such a return happened |
| Replies.CountersTellTheReplies | src/agent_runtime/runtime.py:139-230 | in every reachable state the counters of submitted, retried, rejected, replayed and cancelled requests are the numbers of such answers given, and runs_evicted_total is the number of runs made and no longer registered |
| Replies.StepsTellTheCalls | src/agent_runtime/runtime.py:391-401 | every run shows one step for each of its calls that came back, over all its attempts |
| Requests.SubmitDecides | src/agent_runtime/runtime.py:113-145 | which answer a submission gets: blank input, closed, bad key, replay or conflict exactly when the key means a run eviction keeps, full queue, else a new run |
| Requests.AcceptedEnters | src/agent_runtime/runtime.py:147-175 | the new run is last in the queue, registered with a clear event, owns its key, is Ready with one log entry, and has the given or a fresh session |
| Requests.SubmitBooks | src/agent_runtime/runtime.py:106-175 | every submission: when the workers start, what leaves the registry, and which counter its answer raises |
| Requests.RetryDecides | src/agent_runtime/runtime.py:215-221 | not found, then full queue, then illegal unless Failed; otherwise queued again |
| Requests.RetryRequeues | src/agent_runtime/runtime.py:221-230 | only that run changes: Ready, result fields and cancellation reset, start and steps kept, last in the queue, event clear |
| Requests.CancelDecides | src/agent_runtime/runtime.py:198-213 | not found iff unregistered; true iff the run is unfinished |
| Requests.CancelEnds | src/agent_runtime/runtime.py:202-213 | only that run changes: Cancelled now, flagged, event set; its task is stopped iff it is known and has not started |
| Requests.CloseEnds | src/agent_runtime/runtime.py:235-252 | exactly the registered unfinished runs become Cancelled with their events set; each worker goes, or leaves its task behind, cancelled iff known and not started |
| Workers.DequeueExact | src/agent_runtime/runtime.py:264-274 | a task and its handle for a registered unfinished run, otherwise the entry is dropped |
| Workers.BeginExact | src/agent_runtime/runtime.py:283-305 | a task cancelled before never enters its body and has crashed; one whose run was cancelled is over at once; otherwise it executes, is counted as active and may make exactly the calls of its kind |
| Workers.CallBeginExact | src/agent_runtime/runtime.py:383-390 | a Running run has a call out and one call fewer left; for a cancelled run the attempt is over and its event set |
| Workers.CallEndExact | src/agent_runtime/runtime.py:402-408 | the attempt goes on, whether or not the call returned and whatever became of the run |
| Workers.EndExact | src/agent_runtime/runtime.py:333-337 | the gauge falls, the event of a registered run is set, and the task has crashed iff its run was evicted |
| Workers.ResumeExact | src/agent_runtime/runtime.py:275-281 | the handle of the run is popped; the worker is idle again, or gone if the task crashed |
| Histories.NextGrows | src/agent_runtime/fsm.py:91-114 | every step only extends logs and only registers fresh runs: an evicted run never comes back |
| Histories.AfterGrows | src/agent_runtime/fsm.py:91-114 | so does every sequence of steps |
| Histories.FinishedForGood | src/agent_runtime/runtime.py:402-408 | once succeeded or cancelled, state and log of a run never change again, whatever late steps its old task takes |
| Histories.AfterKeepsEntry | src/agent_runtime/runtime.py:363-368 | a key keeps its entry as long as its run is registered |
| Histories.SubmitReply | src/agent_runtime/runtime.py:125-141 | a known key whose run is retained is answered with that run or with a conflict, and makes no run |
| Histories.IdempotentSubmit | src/agent_runtime/runtime.py:125-164 | after a submission with a key and any steps at all, a second one with that key finds the same run (same request) or a conflict (different request) and creates nothing, while the run is retained |
| Histories.RejectionAddsNothing | src/agent_runtime/runtime.py:143-145 | a submission that is not accepted adds no run, no queue entry and no key |
| Quiescence.InternalStepIsProgress | src/agent_runtime/runtime.py:262-337 | every step of a worker, task or pattern decreases the measure of remaining work |
| Quiescence.CancelAddsNothing | src/agent_runtime/runtime.py:198-213 | cancel does not increase it |
| Quiescence.CloseAddsNothing | src/agent_runtime/runtime.py:235-260 | close does not increase it |
| Quiescence.StepsAreBounded | src/agent_runtime/runtime.py:262-337 | without further submit or retry at most that many internal steps happen, however they interleave with cancel and close |
| Quiescence.RestMeansFinished | src/agent_runtime/runtime.py:262-281 | when no step is enabled and a worker is left, every run ever accepted is terminal |
| Quiescence.RestWithoutWorkers | src/agent_runtime/runtime.py:262-281 | when no step is enabled, the unfinished runs are exactly the queued Ready ones |
| Quiescence.NoRunIsLost | src/agent_runtime/runtime.py:262-337 | a special case needing no look at states: in a history without cancel and close every accepted run has finished at rest; the exact condition is WorkerLoss.RestExactly |
| Quiescence.LastWorkerCanBeLost | src/agent_runtime/runtime.py:270-278 | a run of the system in which a task cancelled before its first step takes the last worker with it and a later run stays Ready for ever |
| WorkerLoss.StepBreaks | src/agent_runtime/runtime.py:262-281 | a step breaks exactly the workers it dooms and mends none: cancel dooms the worker whose task for an unfinished registered run has not started, submit those whose live task holds a run it evicts, close all of them, nothing else any |
| WorkerLoss.WorkersLostExactly | src/agent_runtime/runtime.py:262-281 | in every reachable state the broken workers are exactly those some step has doomed |
| WorkerLoss.NoneDoomed | src/agent_runtime/runtime.py:262-281 | no worker is lost in a history iff no single step of it dooms one |
| WorkerLoss.RestExactly | src/agent_runtime/runtime.py:262-281 | at rest a worker is idle iff no step doomed it, and every run ever accepted has finished iff such a worker is left or no Ready run is queued |
| WorkerLoss.EvictionCanCostTheLastWorker | src/agent_runtime/runtime.py:333-336 | a run of the system in which no step dooms a worker until a submission evicts a cancelled run that still unwinds; its task misses the event, the only worker dies, and the new run stays Ready for ever |
| Handles.HandlesStep | src/agent_runtime/runtime.py:274-278 | after any step the live tasks that cannot be found in _tasks are exactly those that could not be before or whose handle another worker has just popped |
| Handles.HandledExactly | src/agent_runtime/runtime.py:274-278 | _tasks is complete throughout a history iff no resuming worker pops the handle of another live task |
| Handles.HandleCanBeLost | src/agent_runtime/runtime.py:274-278 | a run of the system with a fast retry after which a live task has no handle |
| QueueOrder.QueueStep | src/agent_runtime/adapters/memory.py:98-122 | every step puts entries in at the back and takes them off at the front, one at most |
| QueueOrder.FirstInFirstOut | src/agent_runtime/runtime.py:264-274 | the entries taken off are the first ones queued, in that order, the queue holds the rest, and tasks are created in the order of the entries taken off |
| Retries.NextEdges | src/agent_runtime/runtime.py:215-230 | a step adds a Failed-to-Ready edge to the log of a run iff it is an accepted retry of that run |
| Retries.LogTellsTheRetries | src/agent_runtime/runtime.py:215-230 | run by run, the Failed-to-Ready edges of the log are the accepted retries of the history, and acquisitions are at most one more |
| Text.StripExact | src/agent_runtime/runtime.py:113-115 | strip takes the longest blank prefix and suffix off and nothing else; nothing is left iff the text is blank |
| AgentRuntimes.InMemoryTaskQueue.PutNowait | src/agent_runtime/adapters/memory.py:115-116 | appends exactly when there is room, else raises and changes nothing |
| AgentRuntimes.InMemoryTaskQueue.Get | src/agent_runtime/adapters/memory.py:118-119 | removes and returns the oldest entry |
| AgentRuntimes.AgentRuntime.constructor | src/agent_runtime/runtime.py:50-86 | a new runtime is in the initial state of the model |
| AgentRuntimes.AgentRuntime.MoveRun | src/agent_runtime/runtime.py:443-450 | a legal transition with its counter, in place |
| AgentRuntimes.AgentRuntime.Start | src/agent_runtime/runtime.py:88-104 | raises when closed; otherwise the pool exists, created once |
| AgentRuntimes.AgentRuntime.SortedTerminal | src/agent_runtime/runtime.py:342-345 | the loop that sorts computes the list of finished runs characterised by Eviction.FinishedExact |
| AgentRuntimes.AgentRuntime.ExpiredOf | src/agent_runtime/runtime.py:346-350 | the comprehension computes the expired runs |
| AgentRuntimes.AgentRuntime.AddOldest | src/agent_runtime/runtime.py:356-362 | the overflow loop ends with the first min(all, expired + overflow) entries of the sorted list |
| AgentRuntimes.AgentRuntime.ChooseVictims | src/agent_runtime/runtime.py:340-362 | the chosen set is the one characterised by Eviction.EvictionExact |
| AgentRuntimes.AgentRuntime.CleanupRuns | src/agent_runtime/runtime.py:339-371 | the removal loop evicts exactly the victims, from all four dictionaries |
| AgentRuntimes.AgentRuntime.AdmitRun | src/agent_runtime/runtime.py:147-175 | registers, indexes, moves to Ready and queues one fresh run |
| AgentRuntimes.AgentRuntime.Submit | src/agent_runtime/runtime.py:106-175 | the whole of submit, error cases in the order of the code |
| AgentRuntimes.AgentRuntime.SubmitText | src/agent_runtime/runtime.py:113-175 | submit on the text as given: it is stripped first, and a blank one raises and changes nothing |
| AgentRuntimes.AgentRuntime.LookUp | src/agent_runtime/runtime.py:125-175 | replay, conflict, stale key, full queue or admission |
| AgentRuntimes.AgentRuntime.Get | src/agent_runtime/runtime.py:177-181 | finds a run exactly when it is registered |
| AgentRuntimes.AgentRuntime.Retry | src/agent_runtime/runtime.py:215-230 | not found, full queue, illegal transition or requeue, checked in that order |
| AgentRuntimes.AgentRuntime.Requeue | src/agent_runtime/runtime.py:221-229 | Failed to Ready, result fields reset, event cleared, entry queued, counted |
| AgentRuntimes.AgentRuntime.Cancel | src/agent_runtime/runtime.py:198-213 | false for a terminal run; otherwise Cancelled, its task cancelled, event set, counted |
| AgentRuntimes.AgentRuntime.Close | src/agent_runtime/runtime.py:235-252 | every unfinished registered run is cancelled and its event set, every worker stopped; nothing the second time |
| AgentRuntimes.AgentRuntime.WorkerGet | src/agent_runtime/runtime.py:264-274 | takes the oldest entry; skips finished or evicted runs, otherwise creates a task and remembers its handle |
| AgentRuntimes.AgentRuntime.ExecuteBegin | src/agent_runtime/runtime.py:283-300 | a task cancelled before its first step never enters the body; one whose run was cancelled ends at once; otherwise the run is Running |
| AgentRuntimes.AgentRuntime.CallBegin | src/agent_runtime/runtime.py:383-390 | the run is Waiting while the call is out; an illegal move ends the attempt |
| AgentRuntimes.AgentRuntime.CallEnd | src/agent_runtime/runtime.py:391-408 | a returned call adds a step; the run goes back to Running only if it is still Waiting |
| AgentRuntimes.AgentRuntime.WriteOutcome | src/agent_runtime/runtime.py:303-326 | which fields and which transition each ending of the pattern writes |
| AgentRuntimes.AgentRuntime.Settle | src/agent_runtime/runtime.py:303-326 | the same with the counters of succeeded and failed runs |
| AgentRuntimes.AgentRuntime.SetEvent | src/agent_runtime/runtime.py:335-336 | sets the event of a terminal run; a missing event raises |
| AgentRuntimes.AgentRuntime.Finally | src/agent_runtime/runtime.py:333-337 | gauge, event and end of the task |
| AgentRuntimes.AgentRuntime.ExecuteEnd | src/agent_runtime/runtime.py:303-337 | the end of an execution |
| AgentRuntimes.AgentRuntime.Resume | src/agent_runtime/runtime.py:275-281 | the handle is popped whatever it refers to now; a crashed task takes the worker with it |
| AgentRuntimes.AgentRuntime.Perform | src/agent_runtime/runtime.py:36-337 | any enabled step, in place, has the effect of the step relation |
| Executions.Drive | src/agent_runtime/runtime.py:36-337 | any possible sequence of steps, in place, reaches the state the model computes |
| Executions.DriveFromStart | src/agent_runtime/runtime.py:36-337 | after any run of the system over any queue the object has at most max(max_run_records, max_concurrency + queue capacity) runs, at most max_concurrency executing, and exact completion events |
| Patterns.CallBrackets | src/agent_runtime/runtime.py:377-408 | a call closes its own Running/Waiting bracket unless the run is cancelled before or inside it |
| Patterns.Attempt.Call | src/agent_runtime/runtime.py:377-441 | the call goes out iff the run is Running and not cancelled first; then it counts once, what comes back is what the surroundings replied, a step is added iff something came back, and the run is Running again unless cancelled meanwhile |
| Patterns.Attempt.RunSimple | src/agent_runtime/agents/patterns.py:30-40 | one LLM call; its reply is the output; without output the run was cancelled or the last call failed |
| Patterns.Attempt.RunReflection | src/agent_runtime/agents/patterns.py:95-134 | three LLM calls; the third reply is the output; without output the run was cancelled or the last call failed |
| Patterns.Attempt.RunPlanSolve | src/agent_runtime/agents/patterns.py:137-187 | min(plan, max_steps) + 2 LLM calls; the last reply is the output; without output the run was cancelled or the last call failed |
| Patterns.Attempt.RunReAct | src/agent_runtime/agents/patterns.py:43-92 | goes on exactly while tools are asked for and calls are left; the output is the final text of the last reply, or that reply; at most max_steps + 1 LLM and max_steps tool calls; without output the run was cancelled or the last call failed |
| Patterns.Attempt.Run | src/agent_runtime/agents/patterns.py:190-196 | on return and exception alike the run is Running or Cancelled, its log strictly bracketed, the calls within the budget the scheduler gives an attempt |
| TokenBuckets.RefillComposes | src/agent_runtime/llm/resilience.py:51-54 | lazy refilling composes |
| TokenBuckets.TokenBudget | src/agent_runtime/llm/resilience.py:49-59 | tokens handed out plus tokens left never exceed tokens present plus tokens earned |
| TokenBuckets.RateBound | src/agent_runtime/llm/resilience.py:49-59 | in every contiguous stretch of every poll history at most capacity + rate * duration is handed out |
| TokenBuckets.DeniedPollsAreInvisible | src/agent_runtime/llm/resilience.py:49-59 | dropping all denied polls leaves every grant granted, the same total, and the same bucket at any later time |
| TokenBuckets.PollExact | src/agent_runtime/llm/resilience.py:50-58 | a poll grants iff what was left and earned, up to the capacity, covers it, and leaves the rest; a clock that runs backwards earns nothing |
| TokenBuckets.WaitSuffices | src/agent_runtime/llm/resilience.py:55-59 | a denied caller that sleeps its computed wait is granted, if nobody was granted meanwhile |
| TokenBuckets.WaitExact | src/agent_runtime/llm/resilience.py:55-59 | a denied caller that comes back is granted iff its computed wait is over: any earlier poll is denied |
| TokenBuckets.BurstIsGranted | src/agent_runtime/llm/resilience.py:50-57 | polls that together want no more than what is there are all granted |
| TokenBuckets.NewBucketIsFull | src/agent_runtime/llm/resilience.py:35-38 | a new bucket grants any burst up to its capacity |
| TokenBuckets.WaiterWasOvertaken | src/agent_runtime/llm/resilience.py:55-59 | a caller that slept its wait and is denied again was overtaken by a grant to another |
| TokenBuckets.TokenBucket.TryAcquire | src/agent_runtime/llm/resilience.py:50-58 | one round under the lock, in place |
| TokenBuckets.TokenBucket.Acquire | src/agent_runtime/llm/resilience.py:46-59 | the loop ends after at most two polls when uncontended; ValueError exactly outside (0, capacity] |
| CircuitBreakers.StateIsHistory | src/agent_runtime/llm/resilience.py:77-113 | state, failure count, opening time and probe counter are functions of the reports and calls seen: CLOSED iff fewer failures than the threshold since the last success, HALF_OPEN iff a call came after the recovery timeout since the latest failure |
| CircuitBreakers.ProbesOutBounds | src/agent_runtime/llm/resilience.py:77-113 | the probe counter lies between min(limit, calls) - releases and min(limit, calls), counted since probing began, and is min(limit, calls) while nothing has been released |
| CircuitBreakers.AdmissionExact | src/agent_runtime/llm/resilience.py:77-88 | a call is admitted iff the threshold is not reached, or the recovery timeout has passed since the latest failure and a probe place is free |
| CircuitBreakers.CircuitBreaker.BeforeCall | src/agent_runtime/llm/resilience.py:77-88 | in place; rejects exactly as stated, and stays half-open when it rejects a busy probe |
| CircuitBreakers.CircuitBreaker.RecordSuccess | src/agent_runtime/llm/resilience.py:90-95 | in place; closes the breaker from any state |
| CircuitBreakers.CircuitBreaker.RecordFailure | src/agent_runtime/llm/resilience.py:97-106 | in place; opens from half-open or at the threshold |
| CircuitBreakers.CircuitBreaker.ReleaseProbe | src/agent_runtime/llm/resilience.py:108-113 | in place; frees a place only when half-open, never below zero |
| Resilience.AfterKeepsInv | src/agent_runtime/llm/resilience.py:137-176 | for any interleaving of concurrent calls the probes in flight of the current half-open period are exactly counter + surplus, the counter stays within its limit, and every provider call is reported once or in flight |
| Resilience.NeverWedged | src/agent_runtime/llm/resilience.py:85-88 | a call turned away outside the recovery timeout means a live probe, and any report of it makes room for the next call (after a transient error once the timeout has passed) |
| Resilience.IdleBreakerAdmits | src/agent_runtime/llm/resilience.py:77-88 | with nothing in flight a call is admitted iff the breaker is not waiting out its timeout |
| Resilience.ProbesExact | src/agent_runtime/llm/resilience.py:108-113 | in every reachable half-open state the probes in flight are the breaker counter plus the surplus of places freed by attempts that did not take them; so they exceed half_open_max_calls iff the surplus is larger than the places still free |
| Resilience.LimitBrokenExactly | src/agent_runtime/llm/resilience.py:85-88 | one action takes the probes over half_open_max_calls iff it is an admission in half-open with counter + surplus already at the limit |
| Resilience.LimitHoldsExactly | src/agent_runtime/llm/resilience.py:77-113 | over a whole history the probes stay within half_open_max_calls throughout iff no such admission occurs |
| Resilience.SurplusNeedsStray | src/agent_runtime/llm/resilience.py:108-113 | a surplus comes only from a cancelled attempt of an older breaker state that found the counter above zero; without one the counter is exact |
| Resilience.ProbesCanExceedTheLimit | src/agent_runtime/llm/resilience.py:108-113 | a run of the system in which they do exceed it |
| Resilience.ReportedOnce | src/agent_runtime/llm/resilience.py:147-174 | attempts = successes + failures + releases + in flight, after any history |
| Resilience.TryDecides | src/agent_runtime/llm/resilience.py:139-148 | one try: a token is taken or the call waits; with a token the call is in flight iff the breaker admits it and over otherwise; it counts as a probe iff the breaker is then half-open |
| Resilience.ReportEffect | src/agent_runtime/llm/resilience.py:149-174 | an answer or a permanent error closes the breaker; a transient error counts, and opens it from half-open or at the threshold; a cancellation only frees a place; only a transient error with attempts left is tried again |
| Resilience.AttemptsBounded | src/agent_runtime/llm/resilience.py:139-176 | no call makes more than max_attempts provider calls |
| Resilience.BucketSeesPolls | src/agent_runtime/llm/resilience.py:139-148 | each provider call costs one granted token of the shared bucket |
| Resilience.ProviderRateBound | src/agent_runtime/llm/resilience.py:139-148 | provider calls of all concurrent calls in any stretch of time: at most capacity + rate * duration |
| RetryLoop.ResilientLLMClient.Complete | src/agent_runtime/llm/resilience.py:137-176 | the loop stops at the first round that is not retriable or at the last attempt; outcome, breaker calls, breaker state and sleeps are those of the rounds, for every call on the same client |
| RetryLoop.ResilientLLMClient.Attempt | src/agent_runtime/llm/resilience.py:141-173 | one attempt asks the breaker, and reports exactly once iff it was admitted |
| RetryLoop.EarlierRoundsFailed | src/agent_runtime/llm/resilience.py:139-165 | all rounds before the last failed transiently, and the loop never stops early on a retriable one |
| RetryLoop.AttemptsExact | src/agent_runtime/llm/resilience.py:139-174 | at most max_attempts provider calls, each admission followed by exactly one report |
| RetryLoop.ReportsAreAnswers | src/agent_runtime/llm/resilience.py:146-174 | the reports of a call are, in order, those its admitted rounds ask for: failure at the time of each transient error, success for each response or permanent error, release for each cancellation |
| RetryLoop.OutcomeExact | src/agent_runtime/llm/resilience.py:139-174 | how a round ends: no token, circuit open, cancelled, the response, or the error, each exactly when |
| RetryLoop.SameReports | src/agent_runtime/llm/resilience.py:146-174 | the loop reports and retries exactly as the concurrent calls of Resilience do |
| RetryLoop.ExhaustedExactly | src/agent_runtime/llm/resilience.py:175-176 | the final raise is reached iff every attempt failed transiently, and then carries the error of the last one |
| RetryLoop.DelaysGrow | src/agent_runtime/llm/resilience.py:158-161 | un-jittered delays are non-negative, non-decreasing and capped |
| RetryLoop.DelaysDouble | src/agent_runtime/llm/resilience.py:158-161 | the first delay is the base, each further one twice the one before, capped |
| RetryLoop.PausesExact | src/agent_runtime/llm/resilience.py:158-164 | each sleep is the delay of its attempt and the random share of jitter_ratio times it |
| RetryLoop.PausesBounded | src/agent_runtime/llm/resilience.py:158-164 | the sleeps lie between the sum of delays and (1 + jitter_ratio) times it |
| RetryLoop.DelaySumBounded | src/agent_runtime/llm/resilience.py:158-161 | the sum of n delays is at most n * max_delay and at most base * (2^n - 1) |
| RetryLoop.SleepBounded | src/agent_runtime/llm/resilience.py:137-176 | total sleep <= (1 + jitter_ratio) * min((n-1) * max_delay, base * (2^(n-1) - 1)) |
| Leases.AcquireAnswers | src/agent_runtime/adapters/memory.py:143-150 | a valid acquire is answered True iff the caller then holds an unexpired lease, False iff another owner holds one; a new lease runs until now + ttl, a held one is not extended |
| Leases.RenewAnswers | src/agent_runtime/adapters/memory.py:159-169 | a valid renew is answered True iff the caller holds an unexpired lease, which then runs until now + ttl |
| Leases.ReleaseAnswers | src/agent_runtime/adapters/memory.py:171-177 | True iff the entry is the caller's own, which then goes |
| Leases.InvalidRaises | src/agent_runtime/adapters/memory.py:189-192 | an empty resource or owner or a ttl that is not positive raises and changes nothing |
| Leases.OwnerTellsTheHolder | src/agent_runtime/adapters/memory.py:179-187 | over any timed history the owner query names the owner of the last lease answered True that has neither expired nor been released |
| Leases.ExclusiveAnswers | src/agent_runtime/adapters/memory.py:137-177 | of two True answers to acquire or renew by different owners, the lease of the first has expired or been given up by its owner before the second |
| Leases.HeldUntilExpiry | src/agent_runtime/adapters/memory.py:137-169 | from a grant on the lease stays until it expires or its holder releases or renews it |
| Leases.MutualExclusion | src/agent_runtime/adapters/memory.py:137-177 | between grants of one resource to different owners the first has expired or its holder has released or renewed it |
| Leases.LeasePersists | src/agent_runtime/adapters/memory.py:137-187 | no request but the holder's own release or renewal touches a lease in force, and other owners are refused |
| Leases.ViewIsEnough | src/agent_runtime/adapters/memory.py:137-187 | expired entries influence no answer but that of release, over whole histories |
| Leases.OwnerQueryChangesRelease | src/agent_runtime/adapters/memory.py:171-187 | an earlier owner query changes the answer of release iff the entry is stale and the caller's own |
| Leases.InMemoryLeaseManager.Acquire | src/agent_runtime/adapters/memory.py:137-150 | in place; ValueError, refusal, repeated acquisition or new lease |
| Leases.InMemoryLeaseManager.Renew | src/agent_runtime/adapters/memory.py:152-169 | in place; only the holder of an unexpired lease |
| Leases.InMemoryLeaseManager.Release | src/agent_runtime/adapters/memory.py:171-177 | in place; ignores expiry |
| Leases.InMemoryLeaseManager.Owner | src/agent_runtime/adapters/memory.py:179-187 | in place; drops an expired entry |
| EventBuses.NextKeepsInv | src/agent_runtime/events.py:105-161 | every step of a subscription keeps first-in-first-out order, the exactly-once handling of what was taken, and the count of sentinels |
| EventBuses.EventsAreConserved | src/agent_runtime/events.py:129-161 | matching events = dropped + queued + in handling + delivered + errored, as counts and as multisets, for any history |
| EventBuses.ShutdownDrains | src/agent_runtime/events.py:132-146 | when all workers have exited, nothing that entered before the last sentinel remains, and every event taken has been handled exactly once |
| EventBuses.Isolation | src/agent_runtime/events.py:123-130 | the state of a subscription after any history of the bus is a function of what that subscription sees |
| EventBuses.AuditTrail.Record | src/agent_runtime/events.py:40-47 | the trail shows the last `capacity` of all recorded events |
| EventBuses.Subscription.Offer | src/agent_runtime/events.py:123-129 | queued if it matches and fits, dropped if it matches and does not, ignored otherwise |
| EventBuses.Subscription.PutOneSentinel | src/agent_runtime/events.py:135-137 | one sentinel behind everything queued so far |
| EventBuses.Subscription.WorkerGet | src/agent_runtime/events.py:143-148 | the oldest entry goes to the handler; a sentinel ends the worker |
| EventBuses.Subscription.HandlerDone | src/agent_runtime/events.py:149-161 | handled, with or without an exception; the worker goes on |
| EventBuses.EventBus.Subscribe | src/agent_runtime/events.py:70-90 | refused after start and for non-positive limits; otherwise appended |
| EventBuses.EventBus.Emit | src/agent_runtime/events.py:105-130 | recorded in the trail, then offered to every subscription |
| EventBuses.EventBus.Start | src/agent_runtime/events.py:92-103 | workers for every subscription, once |
| Deliveries.ActionExact | src/agent_runtime/events.py:123-161 | what each action puts into the queue, takes out, finishes and counts: an event is queued iff its topic is the subscription's or the subscription is to everything, and there is room; it is dropped iff addressed and there is none |
| Deliveries.WorkersExact | src/agent_runtime/events.py:143-161 | a worker changes only by taking an entry (to handling, or to its end at a sentinel) and by being done |
| Deliveries.DueExact | src/agent_runtime/events.py:132-137 | close owes one sentinel to each worker |
| Deliveries.DeliveryExact | src/agent_runtime/events.py:105-161 | over any history: the entries are the addressed events that found room, in order of emission, and the sentinels; dropped counts the addressed events that met a full queue; delivered and errored count the handlers that ended well and with an exception |
| Deliveries.ShutdownIsBounded | src/agent_runtime/events.py:132-161 | a closing subscription takes a bounded number of steps, two more for each event that still finds room |
| Deliveries.RestIsTheEnd | src/agent_runtime/events.py:132-161 | a closing subscription is at rest iff all its workers have exited, and then every event taken was handled exactly once |
| Deliveries.CloseIsNotStuck | src/agent_runtime/events.py:135-141 | while a worker of any subscription is left some step is possible, although close waits for room in one queue after another |
| Sessions.SessionStore.AppendTurn | src/agent_runtime/sessions.py:26-30 | the history is the last max_messages of all appended since the last clear; a blank answer leaves the user message behind and raises |
| Sessions.SessionStore.Get | src/agent_runtime/sessions.py:22-24 | returns exactly that history |
| Sessions.SessionStore.Clear | src/agent_runtime/sessions.py:32-34 | forgets one session only |
| Sessions.PairedExactly | src/agent_runtime/models.py:34-38 | a transcript strictly pairs user and assistant messages iff no turn since the last clear had a blank answer |
| Sessions.CallIsRecorded | src/agent_runtime/sessions.py:26-34 | a turn adds the user message and then the answer to its session, only the former if the answer is blank, nothing if the user text is; clear forgets that session; other sessions are as before |
| Common.LastOfExact | src/agent_runtime/sessions.py:17-19 | a bounded deque shows as many of the last elements as fit, in order |

## Left out

- HTTP, command line, provider client, metrics rendering, environment expansion: I/O plumbing.
- Contents of prompts and replies, JSON parsing: the replies and the two parsers are arbitrary functions.
- Clocks: a step reads the clock once. Readings are arbitrary in the scheduler, non-decreasing where a
  statement about time needs it. Floating point is modelled by real numbers.
- Ids: run ids are numbers in creation order, which is also the insertion order of the run dictionary.
  Fresh session ids are part of the request; trace ids are not modelled.
- AgentRuntimes.AgentRuntime.Submit: starts from the input already stripped (SubmitText strips it) and from a valid
  agent kind; the ValueError for an unknown kind is not modelled.
- AgentRuntimes.AgentRuntime.constructor: the queue handed in is empty; entries of another runtime would be skipped as
  unknown runs.
- Lifecycle.RunRecord.constructor: the ValueError for an empty id, blank input or empty session, which submit never
  meets, is not modelled.
- `close` is one step up to the point where it waits for the tasks it has cancelled; a stopped worker that has
  a live task becomes an orphan whose task runs on. Closing the bus, the tools and the thread pool is left out.
- `wait` and its waiters: only the events they wait for are modelled.
- `list_runs`, queue-depth and retained-runs gauges, latency sums, the emission of audit events by the scheduler.
- The lock table of the state machine appears in its class only; no lock is held at a step boundary.
- The scheduler's call budget abstracts a pattern's position to the number of calls it may still make; that the
  patterns stay within it is Patterns.Attempt.Run.
- Histories.RejectionAddsNothing: names what a rejected submission must not add; what eviction removes before the
  rejection is stated by Eviction.EvictionExact.
- TokenBuckets.TokenBucket.Acquire: the loop is run without grants to others in between; contention is covered by the
  histories of DeniedPollsAreInvisible and WaiterWasOvertaken.
- RetryLoop.ResilientLLMClient.Complete: whether the limiter hands out a token, and how other calls leave the breaker,
  is decided by the surroundings; cancellation during a sleep shows as no token in the next round.
- EventBuses: a bus is started and closed once; `close` may put its sentinels in any order over the subscriptions
  (`Deliveries.CloseIsNotStuck` keeps the order of the source).
- Sessions: message names and system or tool roles are not modelled.
- `InMemoryRunRepository`, checkpoints, `MetricsRegistry`, `safe_calculate`: they would only add easy members.
