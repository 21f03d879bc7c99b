# A verified model of the workflow replay engine

The worker SDK keeps a workflow body on a coroutine and can rebuild its state in two ways: **from
scratch**, by indexing the whole event history (`ScanHistory`) and re-executing the body (`Run`), or
**incrementally**, by feeding only the new events to a cached, parked body (`ApplyAndResume`). This
project models both and proves that they are the same workflow: same position, same answers, same
commands in the same order, each recorded once, and no completion lost. Everything is stated for an
arbitrary deterministic *blocking-only* body: it schedules activities, timers, auto-id children and Nexus
operations, cancels timers, signals other workflows, upserts search attributes, takes side effects and
local activities, registers update handlers, and waits with `Future::Get` and `ReceiveChannel::Receive`.

## How it is built

A body is a function from everything it has been told to its next operation, so the list of what it was
told is the whole state of the suspended coroutine. The layers, bottom up:

- `Machine.dfy` is the reference: a machine that answers a body from a fixed *knowledge* (resolutions and
  signals) and parks when the knowledge runs out. It has no history, no index and no cache.
- `HistoryScan.dfy`, `ScanFacts.dfy`: what a history says, read declaratively, and the one-pass prescan
  proved to agree with that reading.
- `Engine.dfy`, `Simulation.dfy`, `Feeding.dfy`: the runner's operations as functions on values, and the
  simulation between runner and machine, operation by operation and event by event.
- `Progress.dfy`, `Replay.dfy`, `Continuation.dfy`, `Guarantees.dfy`: where a history leads, full replay,
  sticky continuation, and what follows from them.
- `ChildEndings.dfy`: which endings of a child workflow reach the body.
- `Telling.dfy`, `Outcomes.dfy`, `Divergence.dfy`: readings from outside, which use none of the engine's or
  the machine's bookkeeping. A body's life is read off the log of what it was told: each answer is the true
  one for the operation asked, and the commands are those the operations call for. What it is told of an
  ended operation is read off the event that ended it. What the determinism check finds is said of the
  operations themselves.
- `TaskHandling.dfy`, `Cluster.dfy`, `Answers.dfy`, `ClusterSafety.dfy`, `ClusterRuns.dfy`,
  `ClusterGuarantees.dfy`: the task handler and its cache, and any number of workers serving a
  nondeterministic server; an invariant over every run. `TaskAnswers.dfy` says what each task and query is
  answered and what stays in the cache; `Scenario.dfy` is one run from the first task to the closed history.
- `Runner.dfy`, `Handler.dfy`, `Lru.dfy`: the classes `WorkflowRunner`, `WorkflowTaskHandler` and
  `LruCache` with their mutable fields, each method proved to do what the functions say.
- `Determinism.dfy`, `Coroutine.dfy`, `WorkerControls.dfy`, `PollLoops.dfy`, `Sessions.dfy`,
  `Heartbeat.dfy`, `Base64.dfy`, `MutableSideEffect.dfy`: the parts around the engine.

A server is assumed to number events from 1, to resolve only operations that it recorded and that are not
resolved yet, to append events that arrive during a task after that task's answer, and to record the
commands of an accepted answer in order, then its updates, then its terminal command. Losing an answer
makes it send the whole history next time. The deadlock timeout is a number of body operations per burst.
Histories built that way are called *lawful*; every history that a run of the cluster reaches is lawful
(`ClusterGuarantees.RecordedOnce`), so the theorems about lawful histories hold of all of them.

## Findings

Properties that turned out to need a condition, each with its exact condition:

- The destructor of a coroutine comes to its end if and only if the body does not yield once the abort is on
  its way to it (`CoroutineProtocol.TeardownExact`), so catching `CoroutineAbort` is harmless unless the body
  then waits again; then the destructor stays in `join` for ever (`SwallowingHangs`). `CompleteSession` in
  `include/temporal/workflow/context.h` catches everything: harmless before a return, not before another wait.
- The engine has no case for a child workflow that times out, is terminated or cannot be started. For every
  child: its ending makes the future ready if and only if it is one the engine has a case for
  (`ChildEndings.ChildArrives`), a history resolves the future if and only if it holds such an ending
  (`ChildKnown`), and until it does a body in `Get` waits, in every continuation
  (`WaitsExactlyUntilHeard`); `LostChild` gives the histories after which it waits for ever.
- A query answered by the cached runner agrees with one answered by a rebuilt runner exactly if the events
  the cached runner has not been given leave its body where it is (`TaskAnswers.QueriesAgree`, on the two
  responses); `ClusterGuarantees.StaleQuery` gives a history where they do not.
- The base64 codec restores exactly the payloads without a "codec" key of their own
  (`Base64.CodecRestores`); stacked on itself it restores only empty ones (`Base64.StackedCodecFails`).
- A rate of `n` starts per second is kept in every one-second window exactly if `n` divides 10^9
  (`WorkerControls.RateKept`); the truncated interval otherwise lets one more start in.
- A drained gate stays empty exactly if it is bounded (`WorkerControls.DrainIsFinalIffBounded`).
- A replayed `MutableSideEffect` call runs its function again if and only if no change of its id is recorded
  at it or later (`MutableSideEffects.RerunExactlyBeyond`), and produces a marker that history lacks if and
  only if, besides, the rerun's value differs from the current one under the caller's comparison
  (`ExtraMarkerExactly`); up to that point it is faithful (`ReplayFaithful`). `BeyondLastChange` is such a call.
- A heartbeat timeout of one nanosecond has no throttle headroom; every longer one has
  (`Heartbeat.Headroom`, `NoHeadroom`).

## Model

| member | source | states |
|---|---|---|
| Determinism.MatchReplayCommands | src/internal/determinism.h:117-131 | No divergence exactly when every recorded command is reproduced at its position; otherwise the message names the least position that is not |
| Determinism.MatchingIsEquivalence | src/internal/determinism.h:74-97 | Command matching is reflexive, symmetric and transitive, and never identifies two kinds, two activities or children that differ in id or type, or two ids of any commands but terminal ones |
| Determinism.TrailingCommandsAreFree | src/internal/determinism.h:112-117 | Extra trailing commands never cause a divergence and never repair one inside the produced stream |
| Divergence.MatchesExactlySame | src/internal/determinism.h:74-97 | A body's command matches a recorded one if and only if they are the same operation: same call kind and id, same activity or child type, same target workflow, same marker name, same way of ending |
| Divergence.PassesExactlyIfRepeated | src/internal/determinism.h:112-131 | For any history, body, live values and timeout: a full replay passes the check if and only if it went through the recorded operations in order, and otherwise the check stops at the first it did not repeat |
| Divergence.MessageNames | src/internal/determinism.h:117-131 | The message gives the diverging position, or the kind of the recorded command that the replay did not reach |
| Workflow.IdsDistinct | src/internal/workflow_task_handler.cpp:702-702 | The ids minted from call counters never collide within a kind, for every kind of operation |
| Machine.Confluence | src/internal/workflow_task_handler.cpp:1039-1060 | With less knowledge a prefix of the commands is produced, and two independent pieces of knowledge lead to the same resting place in either order |
| Machine.Absorption | src/internal/workflow_task_handler.cpp:591-596 | Resting on the way is harmless: resuming under less and then under more knowledge rests exactly where resuming under more at once does |
| Machine.SettlesUnique | src/internal/workflow_task_handler.cpp:1116-1124 | Under given knowledge a body has at most one resting place |
| Machine.NextHandleIsNew | src/internal/workflow_task_handler.cpp:855-860 | In every run the id of a new operation differs from those of all futures the body holds |
| Machine.IterateConsistent | src/internal/workflow_task_handler.cpp:699-897 | Along every run the counters equal the number of commands of their kind, futures and cancellations are those of the trace, marker values are the world's at their ordinal, and a terminal command is last and unique |
| Telling.ToldTruth | src/internal/workflow_task_handler.cpp:699-1060 | Wherever a history leads: operations are numbered in call order with the ids of their kind, signals are received once each in the order delivered, side effects and local activities give the value at their ordinal, a future gives what the event that ended its operation says, only registered handlers hear updates, and the commands are exactly those these operations call for |
| Telling.WaitsOnlyRightly | include/temporal/workflow/channel.h:24-30 | A body that has not ended waits only for a future it does not hold, an operation that has not ended, or a signal beyond those delivered |
| HistoryScan.ScanHistory | src/internal/workflow_task_handler.cpp:228-533 | For the modelled operations the single pass computes, facet by facet, what each part of the history says, holding back deferred events after the first update |
| ScanFacts.ScanFaithful | src/internal/workflow_task_handler.cpp:250-420 | The index entry of every future says scheduled exactly if the history created it, and resolved, with the right outcome, exactly if an event before the first update resolved it |
| Outcomes.KnownExactly | src/internal/workflow_task_handler.cpp:277-440 | A future is known to be resolved if and only if some event ends its operation, and with what that event says: success with the event's result, failure with its type and message, "TimeoutError" or "CanceledError" |
| Outcomes.ScanConveys | src/internal/workflow_task_handler.cpp:277-440 | The index record of an operation is resolved if and only if an event before the first update ended it, and carries what that event says |
| ScanFacts.ScanIndexes | src/internal/workflow_task_handler.cpp:381-390 | The scheduled-event maps hold exactly the scheduling events of the history, with the n-th Nexus event mapped to the id of the n-th call |
| ScanFacts.RecordedCreates | src/internal/workflow_task_handler.cpp:855-860 | The futures, cancellations and Nexus count of a history are those of the commands it recorded |
| ScanFacts.ScanRepeats | src/internal/workflow_task_handler.cpp:228-533 | The index repeats the recorded commands: their identities, their ordinal counts and the values of their markers |
| Simulation.Advance | src/internal/workflow_task_handler.cpp:699-1060 | Each operation of a body is one step of the reference machine, or both wait; the command is emitted exactly if history does not have it |
| Simulation.GuardDecides | src/internal/workflow_task_handler.cpp:739-745 | Whether a command is recorded is decided by its position in the run, whichever of the id-, flag- or count-keyed emit guards asks |
| Simulation.ResumeFollows | src/internal/workflow_task_handler.cpp:1116-1124 | A resume ends where the machine rests, and overruns the deadlock timeout exactly when the machine's burst is longer |
| Feeding.Feed | src/internal/workflow_task_handler.cpp:1233-1363 | Applying the next event of a lawful history makes the runner know exactly what the event says and changes nothing it has done |
| Feeding.CancellationApplies | src/internal/workflow_task_handler.cpp:1233-1363 | Applying a recorded timer cancellation makes that timer ready and cancelled and touches no other future |
| Replay.InertEvent | src/internal/workflow_task_handler.cpp:203-223 | Events that are neither updates nor held back by `IsDeferredOnReplay` teach nothing, so nothing else has to be replayed |
| Progress.ReachesBatch | src/internal/workflow_task_handler.cpp:585-587 | Taking events in one by one with a resume after each leads exactly where taking the update-free batch in at once leads |
| Progress.ReachesFromStart | src/internal/workflow_task_handler.cpp:585-596 | Before any update the whole history can be taken in before the first resume |
| Replay.FreshStart | src/internal/workflow_task_handler.cpp:544-586 | A new runner over the prescan stands where the machine starts and foresees every resolution and every recorded command |
| Replay.ReplayNext | src/internal/workflow_task_handler.cpp:613-634 | One step of the deferred timeline, update or event, brings the rebuilt state from one history event to the next |
| Replay.FullReplay | src/internal/workflow_task_handler.cpp:588-634 | For every lawful history `Run` either overruns the deadlock timeout, exactly if some burst does, or ends where the live workflow stood |
| Replay.LongEnough | src/internal/workflow_task_handler.cpp:1116-1124 | A workflow that came through its history has a timeout from which on no replay of it is taken for a deadlock |
| Continuation.Continue | src/internal/workflow_task_handler.cpp:639-646 | A parked runner given only the new events ends where the whole history leads, having consumed each event once |
| Continuation.RedeliveryIgnored | src/internal/workflow_task_handler.cpp:639-646 | A continuation that starts before the checkpoint does what one that starts at it does |
| Continuation.StickyEqualsFresh | src/internal/workflow_task_handler.cpp:588-646 | Split at a task boundary, `Run`, the update handlers of that task, `ApplyAndResume` and the update handlers of the second task end in the state of a fresh `Run` on the whole history; the produced streams concatenate, and if exactly the first task's commands are recorded then the second task answers with the same commands as the fresh run |
| Continuation.ManyContinuations | src/internal/workflow_task_handler.cpp:588-646 | The same for any number of continuations, each task accepting any updates: same final state, and all streams concatenate to the fresh one. Between two tasks of a chain history gains the record of the first one's answer and then only events from outside |
| Guarantees.NoFalseNondeterminism | src/internal/workflow_task_handler.cpp:669-671 | `CheckDeterminism` accepts every full replay of a lawful history |
| Guarantees.AnswersTheRest | src/internal/workflow_task_handler.cpp:1882-1965 | After a full replay the response continues the recorded commands exactly where they stop |
| Guarantees.IndexLeadsToFutures | src/internal/workflow_task_handler.cpp:1180-1216 | In every resident runner each scheduled-event id leads to a registered future whose id a call of the body minted, so the lookups of a resolution never fail |
| Guarantees.ResolutionArrives | src/internal/workflow_task_handler.cpp:1180-1216 | The next resolution makes exactly the future it names ready, with its outcome |
| Outcomes.ApplyConveys | src/internal/workflow_task_handler.cpp:1180-1363 | The next event that ends an operation makes its future, and no other, ready with what the event says |
| Outcomes.BodyHears | include/temporal/workflow/future.h:33-40 | A body in `Get` of that operation is told exactly that at once |
| Guarantees.QueryAgreement | src/internal/workflow_task_handler.cpp:1769-1790 | Cached and rebuilt runner stand in the same state if and only if the pending events leave the body where it is |
| TaskAnswers.ReplayAnswered | src/internal/workflow_task_handler.cpp:1798-1843 | Every full-history task, lawful or not: answered if and only if the replay went through the recorded operations in order, with the runner kept and only entries beyond the capacity evicted; otherwise failed by the panic policy with every lookup as before; removed and failed if it overran |
| TaskAnswers.ChangedWorkflowFails | src/internal/workflow_task_handler.cpp:1817-1839 | A history that recorded an activity of type "A" and a body that schedules type "B": the task fails by policy and nothing is cached |
| TaskAnswers.ContinuationAnswered | src/internal/workflow_task_handler.cpp:1759-1797 | Every partial-history task: continued if and only if the worker has a runner that stopped right before its first event, with updates told to the body in order; otherwise the whole history is asked for and every lookup is as before |
| TaskAnswers.UnknownTypeFails | src/internal/workflow_task_handler.cpp:1675-1695 | A task fails as not registered if and only if its workflow type is not |
| TaskAnswers.CachedQueryAnswered | src/internal/workflow_task_handler.cpp:1846-1868 | A query that finds a runner is shown exactly the state of its body, or fails if that has ended |
| TaskAnswers.RebuiltQueryAnswered | src/internal/workflow_task_handler.cpp:1785-1790 | Any other query is shown the state the whole history leads to; it fails if and only if that body has ended or the rebuild overran; nothing is cached |
| TaskAnswers.QueriesAgree | src/internal/workflow_task_handler.cpp:1769-1790 | The responses of a worker with a runner and of one without are equal if and only if the pending events leave the body where it is |
| ChildEndings.ChildKnown | src/internal/workflow_task_handler.cpp:337-380 | Over whole histories: a child's future is known to be resolved if and only if the history holds an ending that the engine has a case for |
| ChildEndings.ChildArrives | src/internal/workflow_task_handler.cpp:1318-1347 | In every resident runner the next ending of a held, unresolved child makes its future ready if and only if the engine has a case for it |
| ChildEndings.WaitsExactlyUntilHeard | src/internal/workflow_task_handler.cpp:1318-1347 | A body in `Get` of a child still waits there after any continuation of its history if and only if the continuation brings no such ending |
| ChildEndings.LostChild | src/internal/workflow_task_handler.cpp:1318-1347 | For a child that timed out, was terminated or could not be started: a lawful history after which the body waits for it in every continuation |
| Guarantees.ReachesInWorld | src/internal/workflow_task_handler.cpp:883-897 | Runs that agree on the marker values they consumed are the same run |
| Answers.AnswerRecorded | src/internal/workflow_task_handler.cpp:1882-1965 | Recording an answer, its updates and its end leaves a lawful history that contains everything the body has done |
| Answers.LawfulInWorld | src/internal/workflow_task_handler.cpp:1798-1806 | A history stays lawful under any values that unrecorded side effects of a new runner may produce |
| ClusterSafety.ContinueReady | src/internal/workflow_task_handler.cpp:1774-1784 | A continuation on the trusted runner answers with exactly what the history lacks |
| ClusterSafety.ReplayReady | src/internal/workflow_task_handler.cpp:1798-1816 | So does a full replay, and it passes the determinism check |
| ClusterRuns.AnyTask | src/internal/workflow_task_handler.cpp:1759-1988 | Whatever way a task goes (hit, miss, replay, deadlock, answer lost), record and cached runner keep standing together and other runs' entries stay or are evicted |
| ClusterRuns.AnyQuery | src/internal/workflow_task_handler.cpp:1785-1790 | Queries never advance, insert or replace a runner; what they are answered is `QueryAnswered` and `RebuiltQueryAnsweredHere` |
| ClusterRuns.AlwaysSafe | src/internal/workflow_task_handler.cpp:1734-1988 | The invariant holds in every state of every run with any number of workers, evictions, restarts and lost answers |
| ClusterGuarantees.RecordedOnce | src/internal/workflow_task_handler.cpp:1882-1965 | In every reachable state the recorded commands are, one for one and in order, all commands of one execution of the body |
| ClusterGuarantees.NeverNondeterministic | src/internal/workflow_task_handler.cpp:1817-1839 | No task of a reachable cluster fails for non-determinism |
| ClusterGuarantees.CachedRunnersSound | src/internal/workflow_task_handler.cpp:1759-1767 | Every cached runner has consumed exactly events 1..last_event_id of its run and is neither finished nor deadlocked |
| ClusterGuarantees.CachingIsTransparent | src/internal/workflow_task_handler.cpp:1759-1843 | The trusted worker answers a continuation exactly as any worker answers a full replay |
| ClusterGuarantees.FullTaskAnswered | src/internal/workflow_task_handler.cpp:1798-1965 | In every reachable cluster a full-history task of an open run is answered, with exactly what the body does beyond the recorded commands and with its updates, unless some burst of the replay overruns |
| ClusterGuarantees.RecordGains | src/internal/workflow_task_handler.cpp:1882-1965 | The server's part: an answer that arrives is recorded command by command, then update by update, then its end, and the worker trusted; any other task only leaves that it started and failed |
| ClusterGuarantees.QueryAnswered | src/internal/workflow_task_handler.cpp:1846-1868 | In every reachable cluster a query to the worker of a cached runner is answered, with the state after exactly the events that runner has taken in |
| ClusterGuarantees.RebuiltQueryAnsweredHere | src/internal/workflow_task_handler.cpp:1785-1790 | ... and a query to any other worker with the state after the whole history, unless the rebuild overruns or the body has ended |
| ClusterGuarantees.StaleQuery | src/internal/workflow_task_handler.cpp:1769-1790 | A lawful history and the two different responses to a query: from a cached runner that has not been given the last signal, and from a rebuilt one |
| ClusterGuarantees.LiveUpdatesReplayed | src/internal/workflow_task_handler.cpp:613-634 | The state after a live task that took its events in one batch and then ran its update handlers is what the replay of the resulting history rebuilds |
| Scenario.RunsToItsEnd | src/internal/workflow_task_handler.cpp:1675-1988 | A run of the cluster: first task, activity completed, continuation on the cached runner, closed history, with the literal events recorded |
| Runner.WorkflowRunner.Run | src/internal/workflow_task_handler.cpp:588-596 | The method does to the runner's fields what full replay is proved about |
| Runner.WorkflowRunner.ApplyAndResume | src/internal/workflow_task_handler.cpp:639-646 | The method does to the fields what sticky continuation is proved about |
| Runner.WorkflowRunner.ReapplyHistoricalUpdates | src/internal/workflow_task_handler.cpp:613-634 | The timeline loop, stopping when the body has ended or overrun its timeout |
| Runner.WorkflowRunner.ScheduleActivity | src/internal/workflow_task_handler.cpp:699-732 | Registers the future, resolved at once if history resolved it, and emits unless recorded |
| Runner.WorkflowRunner.StartTimer | src/internal/workflow_task_handler.cpp:734-748 | As above, for timers |
| Runner.WorkflowRunner.CancelTimer | src/internal/workflow_task_handler.cpp:750-764 | A timer is ready at once when cancelled; the command is produced once and emitted unless recorded |
| Runner.WorkflowRunner.Wait | include/temporal/workflow/channel.h:24-30 | `Receive` and `Get` yield exactly when nothing has arrived, and otherwise consume the next signal or the outcome |
| Runner.WorkflowRunner.ApplyEventToState | src/internal/workflow_task_handler.cpp:1233-1363 | Every case of the switch for the modelled operations, over four future maps seen as one |
| Runner.WorkflowRunner.ResumeCoroutine | src/internal/workflow_task_handler.cpp:1116-1124 | The loop over body operations refines the recursive burst |
| Runner.WorkflowRunner.CheckDeterminism | src/internal/workflow_task_handler.cpp:669-671 | Reports a divergence, with its first position, if and only if the produced stream does not reproduce the recorded one |
| Handler.WorkflowTaskHandler.Handle | src/internal/workflow_task_handler.cpp:1675-1988 | The handler, mutating cached runners in place, changes the cached states and answers as the function the cluster is proved with |
| Handler.WorkflowTaskHandler.AnswerTask | src/internal/workflow_task_handler.cpp:1882-1988 | Commands are taken before the update handlers run; a runner that has ended leaves the cache |
| Lru.Inclusion | src/internal/lru_cache.h:21-63 | After any uses the smaller cache's list is a sublist of the larger's with equal values, lacks at most the difference of the capacities, and never hits where the larger misses |
| Lru.AlwaysWithin | src/internal/lru_cache.h:50-56 | In every reachable cache keys are unique and the capacity is respected |
| Lru.OrderedByUse | src/internal/lru_cache.h:21-56 | In every reachable cache the entries stand in the order in which their keys were used last, each with the value last stored under its key |
| Lru.StoreKeepsFront | src/internal/lru_cache.h:32-63 | Storing evicts exactly the entries that no longer fit beside the new one |
| Lru.LinkedSize | src/internal/lru_cache.h:46-56 | List and index always have the same size, so evicting by the index's size trims the list |
| Lru.LruCache.Get | src/internal/lru_cache.h:21-28 | Returns what the move-to-front list holds and moves it to the front |
| Lru.LruCache.Put | src/internal/lru_cache.h:32-42 | Inserts or replaces at the front and drops the least recently used beyond the capacity |
| Lru.LruCache.Erase | src/internal/lru_cache.h:44-51 | Removes the entry from list and index, and nothing else |
| Lru.LruCache.EvictToCapacity | src/internal/lru_cache.h:57-63 | The loop keeps exactly the most recently used entries |
| CoroutineProtocol.Exclusion | src/internal/coroutine.cpp:29-58 | In every interleaving body and controller are never both in user code, each resume gives exactly one burst, and done is stable with the turn at the controller |
| CoroutineProtocol.NeverStuck | src/internal/coroutine.cpp:50-58 | While a resume or the destructor is pending some useful step other than a yield is possible: no wake-up is lost, unless the body has yielded to its own abort |
| CoroutineProtocol.TeardownEnds | src/internal/coroutine.cpp:11-27 | From every state the destructor can find, whether the abort unwinds or is caught, every useful step but a yield brings its end closer and no other moves it away |
| CoroutineProtocol.TeardownBounded | src/internal/coroutine.cpp:11-27 | Every continuation of a teardown in which the body does not yield takes at most `Distance` useful steps, and until the end another one is always possible |
| CoroutineProtocol.TeardownReachesEnd | src/internal/coroutine.cpp:11-27 | Useful steps alone, at most `Distance` of them, lead to the end |
| CoroutineProtocol.TeardownExact | src/internal/coroutine.cpp:11-27 | From every moment of a teardown and however the body behaves: the destructor can still end if and only if the body has not yielded since the abort was on its way to it |
| CoroutineProtocol.SwallowingHangs | src/internal/coroutine.cpp:96-104 | A reachable state in which the destructor waits in `join` for a body that caught the abort and yielded again |
| WorkerControls.ConcurrencyGate.Acquire | src/internal/worker_impl.h:37-49 | Takes a permit unless a bounded gate was released; an unlimited gate does not look |
| WorkerControls.PermitsConserved | src/internal/worker_impl.h:37-104 | For any uses by any threads the in-flight count is the number of held guards and stays within a positive limit |
| WorkerControls.ObtainGives | src/internal/worker_impl.h:37-49 | An unlimited gate, and a bounded open one with a permit left, gives one at once; a bounded gate that was shut answers at once and gives none |
| WorkerControls.FillsUp | src/internal/worker_impl.h:37-60 | A new bounded gate gives out exactly its limit in a row; then obtaining waits until a permit is back |
| WorkerControls.DrainIsFinalIffBounded | src/internal/worker_impl.h:37-78 | A shut and drained gate stays empty if and only if it is bounded |
| WorkerControls.ScalerBounded | src/internal/worker_impl.h:165-201 | In every reachable state target and active pollers stay within the configured maximum |
| WorkerControls.IdleLaw | src/internal/worker_impl.h:187-201 | From target t and streak s, k empty polls give target max(0, t - (s + k) / threshold) and streak (s + k) mod threshold |
| WorkerControls.BusyLaw | src/internal/worker_impl.h:187-194 | k polls in a row that return a task raise the target by k, up to the maximum, and start the count of empty polls over |
| WorkerControls.RateLimiter.Acquire | src/internal/worker_impl.h:119-131 | Grants the earliest free slot that is not in the past, or none to wait for when unlimited |
| WorkerControls.SlotsSpaced | src/internal/worker_impl.h:119-131 | For any clock readings, slots are at least an interval apart and each is the earliest that allows it |
| WorkerControls.WindowBound | src/internal/worker_impl.h:119-131 | A half-open window of length w holds at most ceil(w / interval) slots |
| WorkerControls.RateKept | src/internal/worker_impl.h:123-124 | n starts per second hold in every second if and only if n divides 10^9 |
| PollLoops.PollLoop.Iterate | src/internal/worker_impl.cpp:274-362 | One iteration's use of slot and permit and the way it ends, for a throw of the poll, of the handler or of any call into the user's metrics between and after them, and for every break |
| PollLoops.IterationBalanced | src/internal/worker_impl.cpp:274-362 | Whichever step throws or breaks, an iteration gives back the one slot and the one permit it took, or took none |
| PollLoops.HandledUnderPermit | src/internal/worker_impl.cpp:299-348 | When a handler runs exactly one permit is out and the scaler slot has been given back |
| PollLoops.HandledExactlyOnce | src/internal/worker_impl.cpp:274-362 | A task is handled exactly once if its poll returned it in time, no callback before the handler threw and a permit was granted, and otherwise never |
| PollLoops.EndsExactly | src/internal/worker_impl.cpp:274-362 | The loop is left if and only if the worker was seen to stop, at a check or while handling an error; an error that cannot be reported escapes; in every other case the loop goes on |
| PollLoops.SessionBalanced | src/internal/worker_impl.cpp:382-465 | Between the iterations of a poller's life it holds no scaler slot and no gate permit |
| Sessions.SlotsConserved | src/internal/worker_impl.cpp:79-105 | In every interleaving of the compare-and-swap loops slots are conserved and the capacity holds |
| Sessions.LeavesWithASlot | src/internal/worker_impl.cpp:79-105 | A creation ends by taking one slot, or refused having seen none left; a completion ends by giving one back, or having seen none to give back |
| Sessions.RepeatsOnlyIfBehind | src/internal/worker_impl.cpp:79-105 | A round is repeated only if the swap failed spuriously or another thread changed the counter, and then with the counter as it is now |
| Heartbeat.Context.RecordHeartbeat | include/temporal/activity/activity.h:65-76 | Reports if and only if there is a heartbeat callback and it is the first call or the interval has passed since the last actual report |
| Heartbeat.ThrottleInterval | src/internal/activity_task_handler.cpp:38-51 | The largest whole number of nanoseconds not above 8/10 of a positive timeout, 30 seconds without one; positive for every timeout but one nanosecond |
| Heartbeat.ReportsClose | include/temporal/activity/activity.h:65-76 | While the activity beats at gaps of at most g, actual reports are less than interval + g apart |
| Heartbeat.Headroom | src/internal/activity_task_handler.cpp:38-51 | With the 8/10 interval and gaps within the remaining time, every report arrives within the timeout |
| Base64.Base64Encode | src/converter/data_converter.cpp:187-207 | The accumulator loop, wrapping at 32 bits, computes the base 64 encoding of section 4 of RFC 4648 for every byte string |
| Base64.Base64Decode | src/converter/data_converter.cpp:209-229 | For every text, valid or not: the bytes of the digits before the first other character |
| Base64.RoundTrip | src/converter/data_converter.cpp:187-229 | Decoding undoes encoding for every byte string |
| Base64.EncodedSize | src/converter/data_converter.cpp:189-189 | The output has 4 * ceil(n / 3) characters |
| Base64.GroupIsNumber | src/converter/data_converter.cpp:187-207 | Three bytes and their four digits are the same 24-bit number, most significant bits first, as section 4 of RFC 4648 has it |
| Base64.BlockOf | src/converter/data_converter.cpp:187-229 | The alphabet of RFC 4648, digit by digit |
| Base64.CodecMarks | src/converter/data_converter.cpp:235-251 | The mark "base64" under the key "codec" is all the codec adds to the metadata and all that decoding looks for |
| Base64.CodecRestores | src/converter/data_converter.cpp:235-251 | The payload codec restores a payload if and only if it had no "codec" metadata key |
| Base64.StackedCodecFails | src/converter/data_converter.cpp:235-251 | Applied twice it restores a payload if and only if it had no such key and no data |
| Base64.ChainRoundTrip | src/converter/data_converter.cpp:325-337 | A chain of codecs that are each left-invertible round-trips |
| MutableSideEffects.MutableSideEffectEnv.MutableSideEffect | include/temporal/workflow/context.h:264-285 | One call against the four per-id maps |
| MutableSideEffects.LiveLaw | include/temporal/workflow/context.h:264-285 | A live call hands out and records what its function returns, with its ordinal among the calls of its id, unless that equals the last recorded value, which it then hands out, recording nothing |
| MutableSideEffects.ReplayFaithful | src/internal/workflow_task_handler.cpp:927-970 | For any interleaving of ids, any values and comparisons, every call up to the last recorded change of its id returns the live value without running its function and produces the same marker |
| MutableSideEffects.RerunExactlyBeyond | src/internal/workflow_task_handler.cpp:927-970 | For every run, every replay of it and every call: the function runs again if and only if no change of its id is recorded at that call or later |
| MutableSideEffects.ExtraMarkerExactly | src/internal/workflow_task_handler.cpp:950-958 | The replayed call produces a marker that history lacks if and only if it runs again and its value differs, as the caller compares them, from the current one |
| MutableSideEffects.BeyondLastChange | src/internal/workflow_task_handler.cpp:950-958 | Such a call: unchanged when live, and producing a marker that history lacks on replay |

## Left out

- Polling bodies (Selector, IsReady, ReceiveAsync, HasPending, IsCancelled): the prescan resolves all known futures before the first resume, so what a poll sees depends on timing.
- GetVersion: a repeated change id produces a marker without emitting one, and `is_replaying_` is fixed for a runner's life.
- Activity, child and external cancellation, AwaitCancellation, and explicit child ids: they depend on what history already shows or are keyed by a reusable id.
- Update handlers that send commands or throw, and validators: a handler changes body state only; rejected updates leave no trace; an accepted update without a registered handler changes nothing.
- Local activities that no worker has registered: they produce a marker without emitting one; the retries of a local activity are part of its outcome.
- The value carried by a timer future, headers, timeouts, retry policies and interceptors: not part of replay matching.
- Future aliasing: a future is found by kind and id instead of through a shared pointer.
- The signal cursor entry that an unsuccessful receive creates is kept, but cursors are compared by value, with a missing one counting as 0.
- HistoryScan.ScanHistory: leaves out Version and MutableSideEffect markers, the workflow's input and headers, and activity, child, external and workflow cancel requests, none of which the modelled operations read.
- Runner.WorkflowRunner.ApplyEventToState: leaves out the cancel-request cases (activity, external and workflow); they only set flags that polling bodies read, or belong to the cancellations above.
- Handler.WorkflowTaskHandler.Handle: the queries that come with a workflow task (answered from the runner as the task leaves it) and the assembly of a history from pages are left out; the deadlocked runner's detached thread and its deliberate leak are not modelled; a query that rebuilds its runner has no deadlock timeout in the program, and here fails when its burst exceeds the given number of operations; a history that cannot be fetched for a query is not modelled.
- Cluster.Accepted: the message text of a workflow failed by the panic policy is not recorded; such failures are proved never to happen.
- Events that arrive while a task is out enter the history directly after its answer; the server's buffer itself is not a separate component.
- ReplayHistory uses the workflow id "replay" and is not covered; the theorems are about `Run` with the real id.
- Coroutine timeouts: after `ResumeFor` gives up, exclusion is given up too, and the object is abandoned.
- WorkerControls.RateLimiter.Acquire: the sleep until the slot and its stop flag are not modelled; the conversion of a floating-point rate to an interval is modelled over real numbers; `RateKept` is about whole rates up to 10^9, where the interval is at least one nanosecond.
- Heartbeat.ThrottleInterval: 64-bit overflow of the timeout multiplied by 8 (timeouts over 36 years) is not modelled.
- Base64 text is modelled as characters; the payload codec converts to and from bytes. The gzip codec and JSON conversion are left out: compression and parsing are done by libraries outside this repository.
- PollLoops.PollLoop.Iterate: exceptions not derived from `std::exception` end the process, as does one thrown while an error is being reported (the `Escape` ending); what happens after that is not modelled.
- gRPC, protobuf, TLS, files, logging, metrics, client administration and schedules.
