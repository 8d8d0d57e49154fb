# Promises and awaitable tasks, modelled in Dafny

This project models the core of a small C# promise and awaitable-task
library. The model covers the following parts.

- **Three promise engines.**
  - `Promise<T>` (src/Promise/Impls/Promise.cs) pools its promises and its handler lists.
  - The non-generic `Promise` (src/Promise/Impls/Promise_NoGeneric.cs) recycles its handler lists through queues.
  - The older `Promise<T>` (src/Promise.cs) allocates fresh lists and nulls them after settlement.

  Each engine is a Pending/Resolved/Rejected state machine. Settlement happens only while the promise is pending. Resolve, reject and progress handlers are appended while pending and run in order on settlement. An exception thrown by a handler rejects that handler's downstream promise. The combinators (`All`, `Any`, `Race`, `First`, `Sequence`, `Then`, `Catch`) are built from these handlers, with counters, result slots and progress slots. All three engines run over one functional `World` record (module `PromiseWorld`), and `PromiseWorld.Engine` selects the engine's variant of each step. The engines run ClearHandlers as written, so a settled pooled promise keeps its progress field and a settled non-generic promise keeps all three list fields, each pointing at an emptied, pooled list. The corrected ClearHandlers appears only in the findings.
- **The completion-source core.** `PromiseTaskCompletionSourceCore` is a versioned slot. It is completed at most once per version and hands its result, error or cancellation to at most one awaiting continuation (module `CompletionCore`).
- **Pools.**
  - `ReusablePool` has a recycled flag.
  - `TaskPool` has a gate.
  - The single-threaded `TaskPool` has neither.

  All three are intrusive free lists (module `Pools`).
- **Awaitable tasks and their sources.**
  - `PromiseTask` and its awaiter;
  - `PromiseTaskSource`;
  - `ExceptionResultSource`;
  - the fan-in source behind `WhenAll` (modules `Tasks`, `TaskSources`, `FanIn`).
- **State-machine runners and the async method builder.** These live in the modules `Runners` and `Builders`.

Exceptions are opaque values (`Values.Exn`), and so are the results of generic code (`Values.Value`). An operation that can throw returns an `Outcome`. Objects that the source updates in place are classes:
- the pools;
- the completion core;
- the task sources;
- the runners;
- the builder;
- the `WhenAll` source.

The promise engines are written as functions over the world record. Handler callbacks are a small datatype of effects:
- resolve a downstream promise;
- reject one;
- report progress;
- run a user action that may throw;
- the combinators' closures.

A `gas` counter bounds how deeply handlers can nest.

## Model

| member | source | states |
|---|---|---|
| Values.IncShort | src/PromiseTask/CompilerServices/PromiseTaskCompletionSourceCore.cs:298-301 | The unchecked `short` increment of the version stays in the `short` range, adds one modulo 2^16 and wraps `short.MaxValue` to `short.MinValue`. |
| TaskStatus.Ordinal | src/PromiseTask/PromiseTaskStatus.cs:5-15 | The enum's ordinals lie in 0..3, and ordinal 0 is exactly `Pending`. |
| TaskStatus.FromOrdinal | src/PromiseTask/PromiseTaskStatus.cs:5-15 | Every ordinal 0..3 names the status whose ordinal it is. |
| TaskStatus.OrdinalRoundTrip | src/PromiseTask/PromiseTaskStatus.cs:5-15 | `FromOrdinal` undoes `Ordinal`, and distinct statuses have distinct ordinals. |
| TaskStatus.CompletedPartition | src/PromiseTask/PromiseTaskStatus.cs:21-45 | `IsCompleted` holds exactly when one of `IsCompletedSuccessfully`, `IsFaulted` and `IsCanceled` holds, and no two of those hold together. |
| CompletionCore.CoreReset | src/PromiseTask/CompilerServices/PromiseTaskCompletionSourceCore.cs:294-306 | Reset leaves a core that is not completed and has no continuation, under a different version, with the core invariant kept. |
| CompletionCore.OperationsKeepInv | src/PromiseTask/CompilerServices/PromiseTaskCompletionSourceCore.cs:294-514 | Every operation keeps the core invariant: the version is a `short`; before the first completion there is no sentinel, no error and no unhandled flag; after it there is always a continuation or the sentinel; the unhandled flag is set only alongside an error. |
| CompletionCore.LateAttemptsLose | src/PromiseTask/CompilerServices/PromiseTaskCompletionSourceCore.cs:334-399 | Once the core is completed, every further TrySetResult, TrySetException or TrySetCanceled returns false and changes nothing but the completion counter. |
| CompletionCore.OnlyFirstCompletionWins | src/PromiseTask/CompilerServices/PromiseTaskCompletionSourceCore.cs:334-399 | In any non-empty sequence of completion attempts on a pending core, exactly the first returns true, and the final state is the one that first attempt left, apart from the counter. |
| CompletionCore.StatusAfterCompletion | src/PromiseTask/CompilerServices/PromiseTaskCompletionSourceCore.cs:406-424 | Status is `Pending` before completion. After completion it is `Succeeded`, `Canceled` for an OperationCanceledException or a cancellation, and `Faulted` otherwise. |
| CompletionCore.AwaitThenComplete | src/PromiseTask/CompilerServices/PromiseTaskCompletionSourceCore.cs:334-504 | A continuation registered before completion is stored and not run. The completion then hands exactly that continuation back to run, and a later registration is refused. |
| CompletionCore.CompleteThenAwait | src/PromiseTask/CompilerServices/PromiseTaskCompletionSourceCore.cs:334-504 | A completion that finds no continuation runs nothing. A continuation registered afterwards is handed back to run at once. |
| CompletionCore.AwaitTwiceFails | src/PromiseTask/CompilerServices/PromiseTaskCompletionSourceCore.cs:487-500 | A second registration on a pending core throws "already continuation registered" and changes nothing. |
| CompletionCore.GetResultAfterCompletion | src/PromiseTask/CompilerServices/PromiseTaskCompletionSourceCore.cs:431-461 | GetResult before completion throws "not yet completed". Afterwards it returns the value, or rethrows the fault (marking it handled), or throws the cancellation. |
| CompletionCore.StaleTokenRefused | src/PromiseTask/CompilerServices/PromiseTaskCompletionSourceCore.cs:406-514 | GetStatus, GetResult and OnCompleted with a token other than the version throw the token-mismatch error and change nothing. |
| CompletionCore.Resets | src/PromiseTask/CompilerServices/PromiseTaskCompletionSourceCore.cs:294-306 | `n` resets keep the version a `short`. |
| CompletionCore.ResetsAdvanceVersion | src/PromiseTask/CompilerServices/PromiseTaskCompletionSourceCore.cs:298-301 | `n` resets advance the version by `n` modulo 2^16. |
| CompletionCore.StaleHandleAfterResets | src/PromiseTask/CompilerServices/PromiseTaskCompletionSourceCore.cs:298-514 | A handle from `n` resets ago is accepted again exactly when `n` is a multiple of 65536, because the 16-bit version wraps around. |
| CompletionCore.CompletionSourceCore.Reset | src/PromiseTask/CompilerServices/PromiseTaskCompletionSourceCore.cs:294-306 | The object's new state is `CoreReset` of its old state, and the invariant is kept. |
| CompletionCore.CompletionSourceCore.MarkHandled | src/PromiseTask/CompilerServices/PromiseTaskCompletionSourceCore.cs:326-329 | Only the unhandled-error flag changes, and it becomes false. |
| CompletionCore.CompletionSourceCore.Complete | src/PromiseTask/CompilerServices/PromiseTaskCompletionSourceCore.cs:334-399 | The shared completion step: the new state, the win flag and the continuation to run are those of `CoreComplete`. |
| CompletionCore.CompletionSourceCore.TrySetResult | src/PromiseTask/CompilerServices/PromiseTaskCompletionSourceCore.cs:334-349 | The new state, the result and the continuation to run are those of `CoreTrySetResult`. That function's properties are the lemmas above. |
| CompletionCore.CompletionSourceCore.TrySetException | src/PromiseTask/CompilerServices/PromiseTaskCompletionSourceCore.cs:354-381 | As `CoreTrySetException`: a cancellation is stored as such, and a fault is stored wrapped in a holder when the core wraps faults. |
| CompletionCore.CompletionSourceCore.TrySetCanceled | src/PromiseTask/CompilerServices/PromiseTaskCompletionSourceCore.cs:383-399 | As `CoreTrySetCanceled`: the stored error is an OperationCanceledException carrying the token. |
| CompletionCore.CompletionSourceCore.GetStatus | src/PromiseTask/CompilerServices/PromiseTaskCompletionSourceCore.cs:406-413 | The status is the one `CoreGetStatus` gives: a token check, then the status of the fields. |
| CompletionCore.CompletionSourceCore.UnsafeGetStatus | src/PromiseTask/CompilerServices/PromiseTaskCompletionSourceCore.cs:418-424 | On a valid core the status is `Pending` exactly when nothing has completed it. |
| CompletionCore.CompletionSourceCore.GetResult | src/PromiseTask/CompilerServices/PromiseTaskCompletionSourceCore.cs:431-461 | The outcome and the new state are those of `CoreGetResult`, and the invariant is kept. |
| CompletionCore.CompletionSourceCore.OnCompleted | src/PromiseTask/CompilerServices/PromiseTaskCompletionSourceCore.cs:468-504 | The outcome (a continuation to run at once, or an error) and the new state are those of `CoreOnCompleted`. |
| FanIn.EmptySucceeds | src/PromiseTask/TaskSource/WhenAllPromiseTaskSource.cs:123-128 | With no tasks the source is `Succeeded` at once, and its result is the empty array (generic) or nothing. |
| FanIn.SlotDoneWritesOnlyItsSlot | src/PromiseTask/TaskSource/WhenAllPromiseTaskSource.cs:160-176 | A task's success writes its value into its own slot only and counts once. A failure writes no slot and does not count. |
| FanIn.CompletesExactlyAtCount | src/PromiseTask/TaskSource/WhenAllPromiseTaskSource.cs:160-176 | A pending source completes on a task's result exactly when that task failed or was the last to succeed. A failure makes it `Faulted`, or `Canceled` for a cancellation. The last success makes it `Succeeded` with the slot array as its result. |
| FanIn.CompletedOutcomeIsKept | src/PromiseTask/TaskSource/WhenAllPromiseTaskSource.cs:160-176 | Once completed, the source keeps its error, result and version whatever the remaining tasks do. |
| FanIn.FirstFaultWins | src/PromiseTask/TaskSource/WhenAllPromiseTaskSource.cs:166-170 | The first failing task decides the outcome: later events do not change its status, and the core's GetResult throws that task's exception. |
| FanIn.ReplayKeepsContinuation | src/PromiseTask/TaskSource/WhenAllPromiseTaskSource.cs:160-176 | After completion, later task results never remove the registered continuation or the sentinel. |
| FanIn.SuccessesSoFar | src/PromiseTask/TaskSource/WhenAllPromiseTaskSource.cs:160-176 | After fewer than `n` distinct successes, the count equals the number of successes, the core is still fresh, and each slot holds its task's value or the default. |
| FanIn.AllSucceedInAnyOrder | src/PromiseTask/TaskSource/WhenAllPromiseTaskSource.cs:119-192 | When all `n` tasks succeed, in any order, the source succeeds, and both its result and GetResult are the values in input order. |
| FanIn.GetResultSwallows | src/PromiseTask/TaskSource/WhenAllPromiseTaskSource.cs:178-192 | GetResult never throws. A success returns the core's result. A stale token, a pending core or a failure returns the slot array as it stands, and reading a completed core marks its error handled. |
| Pools.PushKeeps | src/Utils/ReusablePool.cs:52-58 | Pushing an item that is not in the list puts it in front of the existing items. |
| Pools.PopTakesRoot | src/Utils/ReusablePool.cs:24-41 | Pop returns the first item (or nothing from an empty list) and leaves the rest, in order. |
| Pools.PushThenPop | src/Utils/ReusablePool.cs:24-58 | Pop after push returns the pushed item and restores the previous list. |
| Pools.TwoPopsDiffer | src/Utils/ReusablePool.cs:24-41 | Two pops from a list of at least two items return two different items. |
| Pools.DoublePushRepeats | src/PromiseTask/Utils/TaskPool.cs:46-57 | Pushing the same item twice, which `TaskPool` does not refuse, makes the next two pops return that item both times. |
| Pools.ReusablePool.Size | src/Utils/ReusablePool.cs:19 | The size is the number of pooled items. |
| Pools.ReusablePool.TryPop | src/Utils/ReusablePool.cs:24-42 | Pops the first pooled item exactly when the pool is non-empty and clears its recycled flag. Otherwise it returns false and changes nothing. |
| Pools.ReusablePool.TryPush | src/Utils/ReusablePool.cs:45-64 | Pushing an item already recycled throws. Below the cap the item is marked and goes in front. At the cap it returns false and changes nothing. |
| Pools.TaskPool.TryPop | src/PromiseTask/Utils/TaskPool.cs:23-43 | While the gate is taken it returns false and changes nothing. Otherwise it pops the first item, if any, and releases the gate. |
| Pools.TaskPool.TryPush | src/PromiseTask/Utils/TaskPool.cs:46-64 | Succeeds exactly when the gate is free and the pool is below its cap, and then puts the item in front. The pool stays well formed when the item was not already pooled. |
| Pools.LightTaskPool.TryPop | PromiseTask/Utils/TaskPool.cs:20-34 | Pops the first item exactly when the pool is non-empty. |
| Pools.LightTaskPool.TryPush | PromiseTask/Utils/TaskPool.cs:36-47 | Succeeds exactly below the cap, putting the item in front, and does not refuse an item already pooled. |
| TaskSources.ExceptionResultSource.constructor | src/PromiseTask/TaskSource/ExceptionResultSource.cs:16-23 | Stores the exception and starts with `calledGet` false. |
| TaskSources.ExceptionResultSource.GetResult | src/PromiseTask/TaskSource/ExceptionResultSource.cs:99-112 | Always throws the stored exception and records that it was read. |
| TaskSources.ExceptionResultSource.GetStatus | src/PromiseTask/TaskSource/ExceptionResultSource.cs:55-63 | The status is always `Faulted`: completed and not canceled. |
| TaskSources.ExceptionResultSource.OnCompleted | src/PromiseTask/TaskSource/ExceptionResultSource.cs:65-68 | The continuation, if any, runs at once. |
| TaskSources.GetResultTwice | src/PromiseTask/TaskSource/ExceptionResultSource.cs:27-39 | Reading twice throws the same exception both times. |
| TaskSources.PromiseTaskSource.constructor | src/PromiseTask/TaskSource/PromiseTaskSource.cs:18-21 | A new source holds the value, is `Pending` and has no continuation. |
| TaskSources.PromiseTaskSource.Create | src/PromiseTask/TaskSource/PromiseTaskSource.cs:23-33 | Reuses the popped source when the pool yields one and allocates a new one otherwise. Either way the result is the given value. |
| TaskSources.PromiseTaskSource.CreateVoid | src/PromiseTask/TaskSource/PromiseTaskSource_NoGeneric.cs:18-26 | Like `Create`, without a value. |
| TaskSources.PromiseTaskSource.TryReturn | src/PromiseTask/TaskSource/PromiseTaskSource.cs:63-69 | Pushes the source when the gate and the cap allow, then clears result, status and continuation. |
| TaskSources.PromiseTaskSource.GetResult | src/PromiseTask/TaskSource/PromiseTaskSource.cs:35-41 | Returns the value held before the call, and the source is cleared and back at the top of its pool. |
| TaskSources.PromiseTaskSource.GetResultVoid | src/PromiseTask/TaskSource/PromiseTaskSource_NoGeneric.cs:28-58 | Clears the source and pushes it back. |
| TaskSources.PromiseTaskSource.GetStatus | src/PromiseTask/TaskSource/PromiseTaskSource.cs:43-51 | Returns the status field. |
| TaskSources.PromiseTaskSource.OnCompleted | src/PromiseTask/TaskSource/PromiseTaskSource.cs:58-61 | Stores the continuation and nothing else. |
| TaskSources.CreateThenGet | src/PromiseTask/TaskSource/PromiseTaskSource.cs:23-41 | A value passed to Create is what the next GetResult returns, and the source then sits cleared at the top of its pool. |
| Tasks.PromiseTask.Status | src/PromiseTask/PromiseTask.cs:15-21 | An inline task (no source) is `Succeeded`. Otherwise the status is the source's answer for the task's token, which may be an error. |
| Tasks.RunnerTask | src/PromiseTask/CompilerServices/AsyncMethodBuilderCore.cs:113 | The multi-threaded runner's task is over the runner, with the core's version at the time it is read. |
| Tasks.CapturedLightRunnerTask | PromiseTask/CompilerServices/AsyncMethodBuilderCore.cs:18-26 | The single-threaded runner's task is over the runner, with the token captured when the runner was constructed. |
| Tasks.LightRunnerTask | PromiseTask/CompilerServices/AsyncMethodBuilderCore.cs:18-26 | Corrected: the single-threaded runner's task carries the core's current version. |
| Tasks.SourceGetResult | src/PromiseTask/TaskSource/IPromiseTaskSource.cs:12-24 | GetResult dispatched over every kind of source. An exception source throws its exception. A pooled source returns its value and is cleared. A runner returns its core's outcome and is reset and emptied. The `WhenAll` source returns what `FanGetResult` gives. |
| Tasks.SourceOnCompleted | src/PromiseTask/TaskSource/IPromiseTaskSource.cs:17 | OnCompleted dispatched over every kind of source. An exception source runs the continuation at once, a pooled source stores it, and the core-backed sources behave as `CoreOnCompleted`. Any continuation run at once is the one given. |
| Tasks.Awaiter.IsCompleted | src/PromiseTask/CompilerServices/PromiseTaskAwaiter.cs:10-16 | The awaiter is complete exactly when the task's status is not `Pending`, and it throws when the status query throws. |
| Tasks.AwaiterGetResult | src/PromiseTask/CompilerServices/PromiseTaskAwaiter.cs:28-39 | An inline task yields its result. Otherwise the source's GetResult is called with the task's token, per source kind: an exception source throws its stored exception; a runner or light runner yields its core's outcome for the token and is then reset and released; a pooled source yields the promise's result and is reset; a `WhenAll` source yields its results or its first fault. |
| Tasks.AwaiterOnCompleted | src/PromiseTask/CompilerServices/PromiseTaskAwaiter.cs:43-54 | An inline task runs the continuation at once, and a null continuation raises a null reference. Otherwise the continuation goes to the source with the task's token: an exception source runs it at once; a runner's, light runner's or `WhenAll` core registers it, runs it at once when already completed, or refuses a stale token or a second await; a pooled source stores it and changes nothing else. |
| Tasks.InlineTaskIsComplete | src/PromiseTask/PromiseTask.cs:15-28 | Tasks built from a value carry token 10 (0 in the single-threaded runtime) and are `Succeeded`. So is `CompletedTask`, with token 0, and their awaiters report completion. |
| Tasks.FromException | src/PromiseTask/PromiseTask.Factory.cs:9-18 | A task over a new exception source holding that exception, with token 0, whose status is `Faulted` even for a cancellation. |
| Tasks.FromResult | src/PromiseTask/PromiseTask.Factory.cs:20-23 | An inline, `Succeeded` task holding the value. |
| Tasks.FromPromise | PromiseTask/PromiseTask.Factory.cs:29-34 | A task over a pooled source holding the value, marked `Succeeded`, with token 0. |
| Tasks.WhenAll | src/PromiseTask/PromiseTask.Factory.cs:29-34 | The task has token 0 and is over a new `WhenAll` source. The source visited every input in index order, and its state is the replay of what each input did. |
| Tasks.WhenAllSource.Init | src/PromiseTask/TaskSource/WhenAllPromiseTaskSource.cs:119-130 | The source starts with no successes, one default slot per task and a fresh core. |
| Tasks.WhenAllSource.SlotDone | src/PromiseTask/TaskSource/WhenAllPromiseTaskSource.cs:160-176 | The object's new state and the continuation it runs are those of `FanIn.SlotDone`. That function's properties are the `FanIn` lemmas. |
| Tasks.WhenAllSource.TryInvokeContinuation | src/PromiseTask/TaskSource/WhenAllPromiseTaskSource.cs:160-176 | Reads task `i` through its awaiter and records the outcome in its slot as `FanIn.SlotDone` does. An inline task's outcome is its result. |
| Tasks.WhenAllSource.Visit | src/PromiseTask/TaskSource/WhenAllPromiseTaskSource.cs:132-157 | One turn of the constructor's loop. A complete task is processed at once. A pending task gets its slot's continuation registered, and is processed at once if its source runs the continuation at once. The trace gains one event for index `i`. |
| Tasks.WhenAllSource.Create | src/PromiseTask/TaskSource/WhenAllPromiseTaskSource.cs:119-158 | With no tasks the core is completed at once. Otherwise every task is visited in index order, and the final state is the `FanIn.Replay` of the trace. An exception from a task's status query or registration escapes. |
| Tasks.WhenAllSource.GetResult | src/PromiseTask/TaskSource/WhenAllPromiseTaskSource.cs:178-192 | The value and new state are those of `FanGetResult`, which never throws (see `FanIn.GetResultSwallows`). |
| Tasks.WhenAllSource.GetStatus | src/PromiseTask/TaskSource/WhenAllPromiseTaskSource.cs:194-197 | The core's status for the token. |
| Tasks.WhenAllSource.OnCompleted | src/PromiseTask/TaskSource/WhenAllPromiseTaskSource.cs:199-202 | The core's registration for the token. |
| Runners.Runner.SetStateMachine | src/PromiseTask/CompilerServices/AsyncMethodBuilderCore.cs:124-133 | Reuses the runner the pool yields, or else a new runner with a fresh core, and copies the machine into it. |
| Runners.Runner.TryReturn | src/PromiseTask/CompilerServices/AsyncMethodBuilderCore.cs:183-188 | Resets the core, drops the machine and pushes the runner whenever the gate and the cap allow, even if it is already pooled. |
| Runners.Runner.GetResult | src/PromiseTask/CompilerServices/AsyncMethodBuilderCore.cs:135-145 | Returns or throws the core's outcome, and then (finally) resets the core and pushes the runner back, even when the token was stale. |
| Runners.Runner.GetStatus | src/PromiseTask/CompilerServices/AsyncMethodBuilderCore.cs:147-150 | The core's status for the token. |
| Runners.Runner.UnsafeGetStatus | src/PromiseTask/CompilerServices/AsyncMethodBuilderCore.cs:173-176 | `Pending` exactly when the core has not completed. |
| Runners.Runner.SetResult | src/PromiseTask/CompilerServices/AsyncMethodBuilderCore.cs:157-160 | The core's TrySetResult, whose continuation is handed back to run. |
| Runners.Runner.SetException | src/PromiseTask/CompilerServices/AsyncMethodBuilderCore.cs:152-155 | The core's TrySetException. |
| Runners.Runner.OnCompleted | src/PromiseTask/CompilerServices/AsyncMethodBuilderCore.cs:178-181 | The core's OnCompleted. |
| Runners.Runner.Run | src/PromiseTask/CompilerServices/AsyncMethodBuilderCore.cs:191-194 | Steps the machine the runner holds. |
| Runners.LightRunner.constructor | PromiseTask/CompilerServices/AsyncMethodBuilderCore.cs:22-26 | A new runner has a fresh core, and its task's token is captured as version 0. |
| Runners.LightRunner.SetStateMachine | PromiseTask/CompilerServices/AsyncMethodBuilderCore.cs:29-38 | Reuses the runner the pool yields, or else a new runner, and copies the machine into it. |
| Runners.LightRunner.GetResult | PromiseTask/CompilerServices/AsyncMethodBuilderCore.cs:40-50 | Returns or throws the core's outcome, then resets the core and pushes the runner back when below the cap. |
| Runners.LightRunner.GetStatus | PromiseTask/CompilerServices/AsyncMethodBuilderCore.cs:52-55 | The core's status for the token. |
| Runners.LightRunner.SetResult | PromiseTask/CompilerServices/AsyncMethodBuilderCore.cs:62-65 | The core's TrySetResult. |
| Runners.LightRunner.SetException | PromiseTask/CompilerServices/AsyncMethodBuilderCore.cs:57-60 | The core's TrySetException. |
| Runners.LightRunner.OnCompleted | PromiseTask/CompilerServices/AsyncMethodBuilderCore.cs:83-86 | The core's OnCompleted. |
| Runners.LightRunner.Run | PromiseTask/CompilerServices/AsyncMethodBuilderCore.cs:96-99 | Steps the machine the runner holds. |
| Runners.RunnerRoundTrip | src/PromiseTask/CompilerServices/AsyncMethodBuilderCore.cs:135-145 | One use of a runner: a result set on a fresh version is what GetResult returns. After the reset that follows, the same token is refused. |
| Runners.StaleGetResultStillReturnsRunner | src/PromiseTask/CompilerServices/AsyncMethodBuilderCore.cs:135-145 | A GetResult with a stale token throws the mismatch error, yet still resets the core (advancing its version) and pushes the runner. A runner pushed twice this way is popped twice. |
| Runners.CapturedTokenGoesStale | PromiseTask/CompilerServices/AsyncMethodBuilderCore.cs:18-26 | A runner that has been used once and reset refuses token 0, the token captured in its task, both for status and for the next result. |
| Runners.CurrentTokenStaysValid | PromiseTask/CompilerServices/AsyncMethodBuilderCore.cs:18-26 | With the current version as the token, a reused runner reports `Pending` and then returns the next result. |
| Builders.PromiseTaskMethodBuilder.Create | src/PromiseTask/CompilerServices/PromiseTaskMethodBuilder.cs:36-37 | The default builder: no runner, no result, no exception. |
| Builders.PromiseTaskMethodBuilder.GetTask | src/PromiseTask/CompilerServices/PromiseTaskMethodBuilder.cs:14-32 | With a runner installed, the runner's task. Otherwise a faulted task over the recorded exception, or the recorded result inline (for the non-generic builder, the completed task). |
| Builders.PromiseTaskMethodBuilder.SetResult | src/PromiseTask/CompilerServices/PromiseTaskMethodBuilder.cs:48-58 | With a runner, the result goes to the runner's core. Without one, the generic builder records it and the non-generic builder ignores it. |
| Builders.PromiseTaskMethodBuilder.SetException | src/PromiseTask/CompilerServices/PromiseTaskMethodBuilder.cs:61-71 | With a runner, the exception goes to the runner's core. Without one, it is recorded. |
| Builders.PromiseTaskMethodBuilder.AwaitOnCompletedAsWritten | src/PromiseTask/CompilerServices/PromiseTaskMethodBuilder.cs:74-93 | As written: every suspension installs a runner from the pool (or a new one), replacing any earlier runner, and registers its MoveNext with the awaiter. |
| Builders.PromiseTaskMethodBuilder.AwaitOnCompleted | src/PromiseTask/CompilerServices/PromiseTaskMethodBuilder.cs:74-93 | Corrected: only the first suspension installs a runner. Later suspensions keep it and leave the pool untouched. |
| Builders.TwoSuspensionsAsWritten | src/PromiseTask/CompilerServices/PromiseTaskMethodBuilder.cs:74-93 | As written, an async method that suspends twice hands its caller the first runner's task. That task stays `Pending`, while the result goes to a second runner. |
| Builders.TwoSuspensions | src/PromiseTask/CompilerServices/PromiseTaskMethodBuilder.cs:74-93 | With the corrected builder, the caller's task is the one runner's task, and reading it yields the method's result. |
| Builders.NoSuspension | src/PromiseTask/CompilerServices/PromiseTaskMethodBuilder.cs:14-71 | A method that completes without suspending yields an inline `Succeeded` task carrying its result, or a `Faulted` task when it threw. |
| PromiseWorld.Initial | src/Promise/Impls/Promise_NoGeneric.cs:53 | A world starts with no promises, an empty log and the given gas. The non-generic engine starts with its one static promise, created already resolved. |
| PromiseWorld.MarkSettled | src/Promise/Impls/Promise.cs:635-651 | Settling a pending promise records its new state, value and exception, and runs nothing: the log and the gas are unchanged. |
| PromiseWorld.NewPromise | src/Promise/Impls/Promise.cs:52-61 | A new promise gets a fresh id and the requested state, value and exception. It has no handlers, no continuation and no recycled mark. Every other promise, list and closure environment stays as it was. |
| PromiseWorld.NewListed | src/Promise.cs:338-353 | The older engine's constructor makes three fresh empty handler lists for the new promise and touches no existing list. |
| PromiseWorld.NewBare | src/Promise/Impls/Promise.cs:52-61 | The pooled and non-generic constructors leave the new promise's list fields null. |
| PromiseWorld.NewGroup | src/Promise/Impls/Promise.cs:1070-1074 | The variables a combinator's closures capture form a new environment. It is added under a fresh id and changes no promise, list or log. |
| PromiseWorld.TakeList | src/Promise/Impls/Promise.cs:817-835 | A null handler field is filled with a list object: one taken from the engine's list pool, or a new empty one. Every existing list keeps its contents. |
| PromiseWorld.TakePooled | src/Promise/Impls/Promise.cs:821-828 | With a list pool that is not empty, the list taken is the pool's first one. |
| PromiseWorld.AddHandler | src/Promise/Impls/Promise.cs:817-835 | AddResolveHandler, AddRejectHandler and AddProgressHandler. Appending leaves every settlement and every other promise alone. When the field already held a list, that list gains exactly `h` at its end. Otherwise the new list ends with `h`. The other two fields are not touched. |
| PromiseWorld.AppendHandler | src/Promise/Impls/Promise.cs:830-834 | When the field holds a list, the handler is appended to it and no promise changes. |
| PromiseWorld.AttachHandler | src/Promise/Impls/Promise.cs:819-829 | When the field is null, it receives a list whose last handler is `h`, and the other fields and promises are not touched. |
| PromiseWorld.AddHandlerCalm | src/Promise/Impls/Promise.cs:817-835 | Adding a handler runs no callback, spends no gas and settles nothing, and every list only grows. |
| PromiseWorld.ProgressHandlers | src/Promise/Impls/Promise.cs:789-795 | A progress handler is added only while the promise is pending. Otherwise the world is unchanged, and either way nothing runs. |
| PromiseWorld.PushList | src/Promise/Impls/Promise.cs:907-918 | Pushing a handler list back into its pool throws "already recycled" exactly when the pooled engine finds the list already marked recycled. Otherwise the list is marked recycled in the pooled engine. |
| PromiseWorld.ClearList | src/Promise/Impls/Promise.cs:903-905 | `List.Clear` empties the given list and no other. |
| PromiseWorld.Clear | src/Promise/Impls/Promise.cs:901-923 | Emptying and pushing back a promise's lists keeps every settlement and the continuation, and only the pooled engine's push can throw. When the fields are nulled as well, the promise ends with no lists. |
| PromiseWorld.ClearAndPush | src/Promise/Impls/Promise_NoGeneric.cs:758-776 | The pooled and non-generic forms of ClearHandlers (empty the lists, push them back, then null the fields if asked) keep every settlement, and only the pooled engine's push can throw. |
| PromiseWorld.Unlisted | src/Promise.cs:420-429 | The older engine's ClearHandlers nulls all of a promise's lists and keeps its settlement and continuation. |
| PromiseWorld.ClearHandlers | src/Promise/Impls/Promise.cs:901-923 | Corrected ClearHandlers, used only by the corrected halves of the findings: after it returns normally the promise has no handler of any kind. It keeps every settlement and the continuation, and only the pooled engine can throw, and then only "already recycled". |
| PromiseWorld.ClearHandlersAsWritten | src/Promise/Impls/Promise.cs:901-923 | ClearHandlers as written, which every engine runs. Every list the promise holds is emptied, so it has no handler of any kind. The older engine nulls all fields. The non-generic engine keeps all three fields. After a normal return the pooled engine has nulled the resolve and reject fields and kept the progress field. Settlements and the continuation are kept, and only the pooled engine can throw, and then only "already recycled". |
| PromiseWorld.Resume | src/Promise/Impls/Promise.cs:898 | `_rejesterAction?.Invoke()`: the pooled engine logs one run of the stored continuation when there is one. Nothing else changes. |
| PromiseWorld.Put | src/Promise/Impls/Promise.cs:1081 | Writing slot `i` of a closure's array changes that slot only and keeps the length. |
| PromiseWorld.Max | src/Promise/Impls/Promise.cs:1206 | `progress.Max()` bounds every slot and, on a non-empty array, is one of them. |
| PromiseDispatch.Invoke | src/Promise/Impls/Promise.cs:925-935 | InvokeHandler: the callback runs, and an exception it throws goes to the handler's rejectable promise. No settled promise ever changes, the log only grows, and a normal return has spent gas. `PromiseProperties.ThrowRejectsRejectable` and `HarmlessInvoke` state the routing itself. |
| PromiseDispatch.RunActions | src/Promise/Impls/Promise.cs:925-935 | A callback's effects run in order and stop at the first exception. Settlements are kept. |
| PromiseDispatch.RunAction | src/Promise/Impls/Promise.cs:925-935 | One effect of a callback (a user call, a settlement, a progress report or a combinator's closure). Settlements are kept. |
| PromiseDispatch.RunChain | src/Promise/Impls/Promise_NoGeneric.cs:298-374 | The resolve handler of `Then(Func<IPromise>)` calls the factory and forwards the produced promise's progress and outcome to the promise Then returned. Settlements are kept. |
| PromiseDispatch.RunFirstRetry | src/Promise/Impls/Promise.cs:1263-1270 | First's retry reports `k / count`, calls factory `k` and forwards its outcome to the next link. Settlements are kept. |
| PromiseDispatch.ForwardTo | src/Promise/Impls/Promise.cs:1268-1270 | `fn().Then(newPromise.Resolve).Catch(newPromise.RejectWithoutDebug)`. Settlements are kept. |
| PromiseDispatch.GroupAction | src/Promise/Impls/Promise.cs:1076-1107 | The bodies of the combinators' closures. Settlements are kept. |
| PromiseDispatch.GroupProgress | src/Promise/Impls/Promise.cs:1203-1207 | The progress closures. All and Any store the slot and report the mean while the result is pending. Race reports the maximum without checking the result's state. First and Sequence report `(k + v) / count`. The contract states only that settlements are kept; `PromiseGroups` states what these closures compute. |
| PromiseDispatch.GroupSettle | src/Promise/Impls/Promise.cs:1087-1106 | The settle closures. All stores the value and resolves with the ordered results when the count reaches zero. Any resolves on the first success and rejects with the group exception when its count reaches zero. Race settles while pending. First's last link reports 1 and rejects. The contract states only that settlements are kept; `PromiseGroups` states what these closures compute. |
| PromiseDispatch.RunProducer | src/Promise/Impls/Promise_NoGeneric.cs:1025-1056 | The non-generic engine's promise-returning closures: AllInternal's countdown, and SequenceInternal's step that reports `k / count` and calls factory `k`. Settlements are kept. |
| PromiseDispatch.CallFactory | src/Promise/Impls/Promise_NoGeneric.cs:1038-1041 | Calling a factory changes no promise and spends no gas, and a normal return yields an existing promise (a null one throws instead). |
| PromiseDispatch.Resolve | src/Promise/Impls/Promise.cs:635-651 | A null promise throws. A promise that is not pending throws `Valid_RESOLVED_STATE` (`PromiseStateException` in the older engine) and nothing changes. A pending promise ends resolved with the value, or with no value in the non-generic engine; its handlers then run and ClearHandlers as written follows (`Settled`). |
| PromiseDispatch.Reject | src/Promise/Impls/Promise.cs:668-685 | A null promise throws. A promise that is not pending throws `Valid_REJECTED_STATE` (`PromiseStateException`) and nothing changes. A pending promise ends rejected with the exception; its handlers then run and ClearHandlers as written follows (`Settled`). |
| PromiseDispatch.Settled | src/Promise/Impls/Promise.cs:887-899 | The rest of a settlement: the handlers, then ClearHandlers as written, then the continuation. Settlements are kept. |
| PromiseDispatch.ReportProgress | src/Promise/Impls/Promise.cs:653-661 | A null promise throws. A promise that is not pending throws `Valid_PROGRESS_STATE` (`PromiseStateException`) and nothing changes. Otherwise the progress handlers run, and no settled promise changes. |
| PromiseDispatch.Finish | src/Promise/Impls/Promise.cs:897-898 | ClearHandlers as written, then the await continuation. Settlements are kept. |
| PromiseDispatch.Notify | src/Promise/Impls/Promise.cs:887-896 | InvokeResolveHandlers, InvokeRejectHandlers and InvokeProgressHandlers: nothing when the field is null, else the handler loop (the older engine reads the count once). Settlements are kept. |
| PromiseDispatch.RunHandlers | src/Promise/Impls/Promise.cs:891-895 | The handler loop re-reads the list at every step. Settlements are kept. |
| PromiseDispatch.RegisteredStays | src/Promise/Impls/Promise.cs:817-835 | Appending to lists keeps every handler a promise already had queued. |
| PromiseDispatch.Queue | src/Promise/Impls/Promise.cs:783-785 | On a pending promise, AddResolveHandler followed by AddRejectHandler queues both handlers, runs nothing and settles nothing. |
| PromiseDispatch.ProgressKeepsRegistered | src/Promise/Impls/Promise.cs:789-795 | Adding a progress handler runs nothing and keeps the queued resolve and reject handlers. |
| PromiseDispatch.ActionHandlers | src/Promise/Impls/Promise.cs:769-786 | On a pending promise, both handlers are queued, nothing runs, no gas is spent and the call returns normally. A settled promise runs the matching handler at once. Settlements are kept. |
| PromiseDispatch.Shortcut | src/Promise/Impls/Promise.cs:243-268 | A callback run at once by Then or Catch. A normal return yields a new resolved promise, or the given one in the non-generic engine. A throw yields a new promise rejected with that exception. |
| PromiseDispatch.Then | src/Promise/Impls/Promise.cs:241-315 | On a pending promise, Then returns a new pending promise, runs nothing, and queues a resolve handler that runs onResolved and then resolves the new promise. |
| PromiseDispatch.Catch | src/Promise/Impls/Promise.cs:146-189 | On a pending promise, Catch returns a new pending promise, runs nothing and queues the chained reject handler. On a resolved promise, in every engine, it returns normally with a resolved promise and logs nothing; the non-generic engine returns the same promise and changes nothing. |
| PromiseDispatch.RejectActs | src/Promise/Impls/Promise.cs:292-305 | The callback of the reject handler Then and Catch chain: onRejected, if given, and then one settling action. That action resolves the new promise exactly for Catch and for Then with onRejected outside the older engine. It rejects it with the same exception exactly in the other cases. |
| PromiseDispatch.QuietResolve | src/Promise/Impls/Promise.cs:635-651 | Resolving a pending promise with no lists and no continuation returns normally, logs nothing, and keeps the promise's exception and recycled mark. |
| PromiseDispatch.QuietReject | src/Promise/Impls/Promise.cs:668-685 | Rejecting such a promise returns normally, logs nothing and stores the exception. |
| PromiseDispatch.QuietProgress | src/Promise/Impls/Promise.cs:653-661 | Reporting progress to a pending promise without a progress list returns normally and changes nothing. |
| PromiseOutcomes.ResolveRunsFirstHandler | src/Promise/Impls/Promise.cs:635-651 | Resolve marks the promise resolved and invokes its first resolve handler before any other. Every settlement that invocation makes is kept. |
| PromiseOutcomes.RejectRunsFirstHandler | src/Promise/Impls/Promise.cs:668-685 | Reject marks the promise rejected and invokes its first reject handler before any other. Every settlement that invocation makes is kept. |
| PromiseOutcomes.ChainedResolveOutcome | src/Promise/Impls/Promise.cs:278-290 | The resolve handler Then chains: an exception from onResolved rejects the new promise with it. Otherwise the new promise is resolved, and onResolved ran with the value. |
| PromiseOutcomes.ChainedRejectOutcome | src/Promise/Impls/Promise.cs:292-305 | The reject handler Then and Catch chain: an exception from onRejected rejects the new promise with it. Otherwise Catch, and Then with onRejected outside the older engine, resolve it. Then without onRejected, and the older engine's Then, reject it with the same exception. |
| PromiseOutcomes.ThenQueuesFirst | src/Promise/Impls/Promise.cs:275-312 | Then on a pending promise with nothing queued: the two handlers it chains are the only ones queued. |
| PromiseOutcomes.ThenThenResolve | src/Promise/Impls/Promise.cs:241-315 | Then on a pending promise, then Resolve: an exception from onResolved rejects the promise Then returned. Otherwise that promise is resolved, after onResolved ran with the stored value. |
| PromiseOutcomes.ThenThenReject | src/Promise/Impls/Promise.cs:241-315 | Then on a pending promise, then Reject with `e`: an exception from onRejected rejects the returned promise with it. A harmless onRejected resolves it in the pooled and non-generic engines. Without onRejected, or in the older engine, it is rejected with `e`. |
| PromiseOutcomes.ThenOnResolved | src/Promise/Impls/Promise.cs:243-254 | Then on a resolved promise runs onResolved at once. A harmless callback gives a resolved promise (the same promise in the non-generic engine), a throwing one a promise rejected with its exception, and a missing one a promise rejected with a null reference. The log gains exactly that call. |
| PromiseOutcomes.ThenOnRejected | src/Promise/Impls/Promise.cs:255-273 | Then on a rejected promise in the pooled and non-generic engines: without onRejected, a new promise with the same exception. A throwing onRejected gives a promise rejected with its exception, and a harmless one a resolved promise (the shared one in the non-generic engine). |
| PromiseOutcomes.LegacyThenOnRejected | src/Promise.cs:865-930 | The older engine's Then on a rejected promise chains its handlers and the reject handler runs at once: the returned promise is rejected with the same exception after a harmless onRejected, or with the exception onRejected throws. |
| PromiseOutcomes.CatchOnRejected | src/Promise/Impls/Promise.cs:146-189 | Catch on a rejected promise, in every engine: the returned promise is new, resolved after a harmless onRejected and rejected with the exception a throwing one raises. |
| PromiseOutcomes.RaceResolveOutcome | src/Promise/Impls/Promise.cs:1208-1214 | Race's resolve closure resolves a pending result with the input's value and leaves a settled result exactly as it was. |
| PromiseOutcomes.FirstRejectionOutcome | src/Promise/Impls/Promise.cs:1215-1222 | The reject closure of All and Race rejects a pending result with the input's exception and leaves a settled result exactly as it was. |
| PromiseOutcomes.AnyResolveOutcome | src/Promise/Impls/Promise.cs:1151-1161 | Any's resolve closure resolves a pending result without progress handlers with the value. On a settled result it stores progress 1 and throws the progress-state error. |
| PromiseOutcomes.AnyRejectOutcome | src/Promise/Impls/Promise.cs:1162-1172 | Any's reject closure counts the rejection. The last one rejects a pending result with the group of exceptions, and any other only updates the closure variables. |
| PromiseOutcomes.AllResolveOutcome | src/Promise/Impls/Promise.cs:1087-1098 | All's resolve closure stores the value in slot `i`. The last resolution resolves a pending result with every slot, and any other only updates the closure variables. |
| PromiseOutcomes.RaceResolvedByFirst | src/Promise/Impls/Promise.cs:1191-1227 | When an input whose first resolve handler is Race's closure resolves, a pending result is resolved with its value, and a settled result keeps its outcome: the first input to settle decides. |
| PromiseOutcomes.FirstRejectionRejects | src/Promise/Impls/Promise.cs:1062-1110 | For All and Race, the rejection of an input whose first reject handler is the closure rejects a pending result with that exception, and a settled result keeps its outcome. |
| PromiseOutcomes.AnyResolvedByFirst | src/Promise/Impls/Promise.cs:1128-1176 | For Any, an input's resolution resolves a pending result without progress handlers. Once the result has settled, the result keeps its outcome, and the late success rejects the promise the input's Then returned with the progress-state error. |
| PromiseOutcomes.LateSuccessRejects | src/Promise/Impls/Promise.cs:1151-1161 | A handler that starts with Any's resolve closure, run once the result has settled, rejects its rejectable with the progress-state error. |
| PromiseOutcomes.AllResolvedByLast | src/Promise/Impls/Promise.cs:1087-1098 | For All in the pooled and older engines, the resolution of the last input still counted resolves a pending result with every slot, this input's value in slot `i`. |
| PromiseDispatch.Register | src/Promise/Impls/Promise.cs:275-314 | The chaining half of Then and Catch creates a fresh promise. When the source is pending, nothing runs and the resolve handler that settles the new promise is queued. |
| PromiseDispatch.Attach | src/Promise/Impls/Promise.cs:306-312 | ActionHandlers then ProgressHandlers: on a pending promise both handlers end up queued and nothing runs. |
| PromiseDispatch.Progress | src/Promise/Impls/Promise.cs:617-624 | A null promise throws. A promise that is not pending, or a null callback, leaves everything unchanged. A pending promise gains exactly one progress handler, with itself as rejectable, at the end of its list. Nothing runs. |
| PromiseDispatch.Cancel | src/Promise/Impls/Promise.cs:687-698 | Cancel sets the state back to Pending, resets the value in the pooled engine and keeps the exception. It runs ClearHandlers as written: on a normal return the promise has no handlers, since every list it holds was emptied, but its fields may still point at those lists. No handler runs, no gas is spent, and every other promise keeps its settlement. |
| PromiseCombinators.CalmKeepsAwaits | src/Promise/Impls/Promise.cs:1076-1107 | An input's queued resolve closure stays queued across any stretch in which nothing runs. |
| PromiseCombinators.AttachInput | src/Promise/Impls/Promise.cs:1078-1106 | One turn of the Each loop. A null input throws. A pending input gets its progress closure and its resolve and reject closures, nothing runs, and its resolve closure ends up queued. |
| PromiseCombinators.AttachThen | src/Promise/Impls/Promise.cs:1087-1106 | The pooled and non-generic `.Then(onResolved, onRejected)` on a pending input queues the input's closures, and nothing runs. |
| PromiseCombinators.AttachChain | src/Promise/Impls/Promise_NoGeneric.cs:1062-1112 | AllInternal's `.Then(Func<IPromise>, onRejected)` on a pending input queues its countdown closure, and nothing runs. |
| PromiseCombinators.AttachLegacy | src/Promise.cs:1055-1110 | The older engine's `.Then(onResolved).Catch(onRejected)` on a pending input queues the input's closures, and nothing runs. |
| PromiseCombinators.Combine | src/Promise/Impls/Promise.cs:1062-1110 | All, Any and Race. All over no inputs yields a resolved promise: a new one holding the empty collection, or the non-generic engine's shared one. The older Race over no inputs throws `InvalidOperationException`. Otherwise the result is a new promise. When every input is pending, the result is pending, nothing runs, no gas is spent, the closure variables are the initial ones (count n, default results, zero progress), and input `j` has closure `j` queued. |
| PromiseCombinators.CombineNew | src/Promise/Impls/Promise.cs:1070-1107 | Combine once it makes a result: a new result promise. When every input is pending it stays pending, with its fresh closure environment and every input's closure queued. |
| PromiseCombinators.AttachEach | src/Promise/Impls/Promise.cs:1076-1107 | The Each loop: when every input is pending, nothing runs and input `j` ends with closure `j` queued, for every `j`. |
| PromiseCombinators.First | src/Promise/Impls/Promise.cs:1242-1282 | First over factories yields a new result promise. In the pooled engine, when every factory returns a settled promise, a whole run completes normally and calls exactly the factories up to the first one whose promise resolves. The result is resolved with that promise's value. When none resolves, the result is rejected with the last factory's exception, or with the seed's plain exception over no factories. |
| PromiseCombinators.Count | src/Promise/Impls/Promise.cs:1253 | `++count` changes only the count the closures read. |
| PromiseCombinators.Link | src/Promise/Impls/Promise.cs:1255-1272 | One link of First behind a pending previous link: nothing runs, no gas is spent and nothing settles. |
| PromiseCombinators.LinkSettled | src/Promise/Impls/Promise.cs:1255-1272 | One link of First behind a settled link, in the pooled engine: a resolved link passes its settlement to the new promise and calls nothing. A rejected link calls factory `k`, logs that call, and the new promise takes on the settlement of the factory's promise. |
| PromiseCombinators.ForwardSettled | src/Promise/Impls/Promise.cs:1268-1270 | `q.Then(np.Resolve).Catch(np.Reject)` on a settled `q`: the quiet promise `np` ends settled the way `q` is, nothing is logged and every other promise is kept. |
| PromiseCombinators.FirstTurnSettled | src/Promise/Impls/Promise.cs:1253-1272 | One turn of First's loop behind a settled link: `++count`, and the new link is settled as LinkSettled says. |
| PromiseCombinators.FirstEnd | src/Promise/Impls/Promise.cs:1274-1279 | The end of First behind a settled last link: `Then(R.Resolve).Catch(give up)` settles the result the way the last link settled and logs nothing. |
| PromiseCombinators.FirstIn | src/Promise/Impls/Promise.cs:1238-1241 | The index of the first factory whose promise has the given state, or the number of factories when there is none. All earlier factories' promises have another state. |
| PromiseCombinators.Sequence | src/Promise/Impls/Promise_NoGeneric.cs:1025-1056 | SequenceInternal yields a new result promise. Over no factories it ends resolved. When every factory returns a settled promise, a whole run completes normally and calls exactly the factories up to the first one whose promise rejects. The result is then rejected with that exception, or resolved when none rejects. |
| PromiseCombinators.SequenceLinks | src/Promise/Impls/Promise_NoGeneric.cs:1030-1052 | The Aggregate loop over no factories changes nothing and leaves the seed as the last link. |
| PromiseCombinators.SequenceAfterResolved | src/Promise/Impls/Promise_NoGeneric.cs:1032-1042 | A turn of the Aggregate loop behind a resolved link: factory `k` is called and logged, the count becomes `k + 1`, and the factory's settled promise becomes the next link. |
| PromiseCombinators.SequenceAfterRejected | src/Promise/Impls/Promise_NoGeneric.cs:1036-1037 | A turn behind a rejected link calls no factory. The next link is a new promise rejected with the same exception. |
| PromiseCombinators.SequenceEnd | src/Promise/Impls/Promise_NoGeneric.cs:1053 | The final `Then(R.Resolve, R.Reject)` behind a settled last link settles the result the way that link settled, with its exception when rejected, and logs nothing. |
| PromiseCombinators.ThenOnResolvedRuns | src/Promise/Impls/Promise_NoGeneric.cs:211-224 | Then on a resolved non-generic promise runs onResolved at once, which here resolves the waiting promise, and Then returns normally. |
| PromiseCombinators.EmptyResolves | src/Promise/Impls/Promise_NoGeneric.cs:562-576 | Resolving a pending promise that has no handler lists returns normally. |
| PromiseGroups.CollectedSlots | src/Promise/Impls/Promise.cs:1087-1097 | After All's resolve closures ran for the distinct inputs in `order`, the count has dropped by one per closure. Result slot `j` holds input `j`'s value and progress slot `j` holds 1 exactly for the inputs that resolved. Every other slot is unchanged. |
| PromiseGroups.RejectedSlots | src/Promise/Impls/Promise.cs:1162-1171 | After Any's reject closures ran for `order`, the count has dropped by one per closure. Exception slot `j` holds input `j`'s exception for each rejected input when the engine fills the slots, and otherwise is unchanged. |
| PromiseGroups.Covers | src/Promise/Impls/Promise.cs:1070 | Distinct input indices below n number at most n, and n of them name every input. |
| PromiseGroups.AllCollectsInInputOrder | src/Promise/Impls/Promise.cs:1062-1110 | Starting from All's initial closure variables, with inputs resolving in any order, the count reaches zero exactly when every input has resolved. The results are then the inputs' values in input order, whatever the order of resolution, and every progress slot is 1. |
| PromiseGroups.AnyRejectsOnlyWhenAllHave | src/Promise/Impls/Promise.cs:1128-1176 | Starting from Any's initial closure variables, the count reaches zero exactly when every input has rejected. The group exception's slot `i` then holds input `i`'s exception in the pooled engine; the non-generic engine leaves every slot empty. |
| PromiseGroups.SumBounds | src/Promise/Impls/Promise.cs:1084 | The sum of progress values in [0, 1] lies in [0, n]. |
| PromiseGroups.MeanInUnit | src/Promise/Impls/Promise.cs:1084 | The mean progress that All and Any report stays in [0, 1] while every input's progress does. |
| PromiseWorld.CollectStep | src/Promise/Impls/Promise.cs:1087-1097 | One run of All's resolve closure on its variables: slot `i` holds the value, progress slot `i` is 1, the count drops by one, and every other slot is unchanged. |
| PromiseWorld.AnyRejectStep | src/Promise/Impls/Promise.cs:1162-1171 | One run of Any's reject closure on its variables: the count drops by one, and exception slot `i` holds the exception when the engine fills the slots. |
| PromiseWorld.Mean | src/Promise/Impls/Promise.cs:1084 | `progress.Average()`: the mean times the number of values is their sum, and the mean of none is 0. |
| PromiseWorld.Slice | src/Promise/Impls/Promise.cs:1259-1260 | `x / count`: the slice times `count` is `x`, and 0 when there is no count. Its bounds are `PromiseGroups.SliceWithin`. |
| PromiseCombinators.ResolveClosure | src/Promise/Impls/Promise.cs:1087-1098 | Which resolve closure input `i` gets: All's collecting one exactly for All, Any's exactly for Any, and the resolve-if-pending one exactly for Race. What each does is stated by the `PromiseOutcomes` lemmas. |
| PromiseCombinators.RejectClosure | src/Promise/Impls/Promise.cs:1162-1172 | Which reject closure input `i` gets: Any's counting one exactly for Any, and the reject-if-pending one exactly for All and Race. |
| PromiseCombinators.ProgressClosure | src/Promise/Impls/Promise.cs:1203-1207 | Which progress closure input `i` gets: the mean exactly for All and Any, the unguarded maximum exactly for the pooled and non-generic Race, and the guarded maximum exactly for the older Race or the corrected one. |
| Tasks.WhenAllSource.UnsafeGetStatus | src/PromiseTask/TaskSource/WhenAllPromiseTaskSource.cs:204-207 | The status without the token check is `Pending` exactly until the core has completed. |
| Tasks.WhenAllSource.VisitAll | src/PromiseTask/TaskSource/WhenAllPromiseTaskSource.cs:132-157 | The constructor's loop visits the tasks in index order. Unless an exception escapes, the trace holds one visit per index, in order, and the state is the `FanIn.Replay` of that trace from the initial state. |
| PromiseGroups.SliceWithin | src/Promise/Impls/Promise.cs:1257-1266 | First's and Sequence's scaled progress for step `k` of `count` lies between `k / count` and `(k + 1) / count`, and within [0, 1]. |
| PromiseProperties.SettlesOnce | src/Promise/Impls/Promise.cs:635-685 | After a successful Resolve, a second Resolve, a Reject and a ReportProgress each throw the engine's state error and change nothing. After a successful Reject, Resolve and Reject each throw and change nothing. |
| PromiseProperties.HarmlessActions | src/Promise/Impls/Promise.cs:925-935 | User actions that do not throw run in order, each logging its call, and spend no gas. |
| PromiseProperties.InvokeUnfold | src/Promise/Impls/Promise.cs:925-935 | InvokeHandler costs one unit of gas, and an exception the callback throws becomes a Reject of the handler's rejectable promise. |
| PromiseProperties.HarmlessInvoke | src/Promise/Impls/Promise.cs:925-935 | A handler whose callback does not throw costs one unit of gas, logs its calls and changes nothing else. |
| PromiseProperties.HarmlessLoop | src/Promise/Impls/Promise.cs:891-895 | The handler loop from index `i` over handlers that do not throw runs each remaining handler once, in list order, and logs exactly their calls. |
| PromiseProperties.NotifyHarmless | src/Promise/Impls/Promise.cs:887-896 | Running a promise's handlers that do not throw logs each handler's calls once, in registration order, and spends one unit of gas per handler. |
| PromiseProperties.NotifyRuns | src/Promise/Impls/Promise.cs:887-896 | With a list in place, invoking a kind's handlers is the handler loop from the first handler. The older engine bounds it by the count read at the start. |
| PromiseProperties.ResolveRunsHandlersInOrder | src/Promise/Impls/Promise.cs:635-651 | Resolving a pending promise whose resolve handlers do not throw logs exactly their calls with the stored value, in registration order. The pooled engine then runs the stored continuation. Only the pooled engine's list push can throw. |
| PromiseProperties.SettledFinishes | src/Promise/Impls/Promise.cs:887-899 | When the handlers return normally, settlement goes on with ClearHandlers and the continuation. |
| PromiseProperties.FinishLog | src/Promise/Impls/Promise.cs:897-898 | ClearHandlers as written, then the continuation: the log gains the continuation's run in the pooled engine and nothing else. Only the pooled engine's list push can throw. |
| PromiseProperties.ThrowRejectsRejectable | src/Promise/Impls/Promise.cs:925-935 | A callback that throws rejects its handler's rejectable promise with that exception, and the handler returns normally. If that promise is already settled, the state error escapes. |
| PromiseProperties.ClearNoLists | src/Promise/Impls/Promise.cs:901-923 | ClearHandlers, as written and corrected, on a promise without lists returns normally. |
| PooledPromises.Create | src/Promise/Impls/Promise.cs:82-89 | Create pops the pool's first promise, clearing its recycled mark and keeping whatever else Dispose left in it, or allocates a new pending promise when the pool is empty. |
| PooledPromises.DisposeWith | src/Promise/Impls/Promise.cs:107-121 | Dispose resets the value, the state to Pending and the continuation, marks the promise recycled and pushes it to the front of the pool. It throws "already recycled" exactly when the promise was already recycled. The exception is cleared only on request, and no other promise changes. |
| PooledPromises.DisposeAsWritten | src/Promise/Impls/Promise.cs:107-121 | As written, a disposed promise keeps its rejection exception. |
| PooledPromises.Dispose | src/Promise/Impls/Promise.cs:107-121 | Corrected: a disposed promise is pending and carries no exception. |
| PooledPromises.GetResultWith | src/Promise/Impls/Promise.cs:703-716 | GetResult rethrows the stored exception if there is one and otherwise returns the captured value. Either way the promise is disposed into the pool (pending, recycled). On an already recycled promise it throws "already recycled". |
| PooledPromises.GetResultAsWritten | src/Promise/Impls/Promise.cs:703-716 | GetResult over the as-written Dispose. `PromiseFindings.ReusedPromiseRethrowsAsWritten` states what it returns on reuse. |
| PooledPromises.GetResult | src/Promise/Impls/Promise.cs:703-716 | GetResult over the corrected Dispose. `PromiseFindings.ReusedPromiseReturnsValue` states what it returns on reuse. |
| PooledPromises.GetStatus | src/Promise/Impls/Promise.cs:718-721 | The status is `Pending`, `Succeeded` or `Faulted` exactly when the promise is pending, resolved or rejected. A null promise throws. |
| PooledPromises.OnCompleted | src/Promise/Impls/Promise.cs:742-745 | OnCompleted overwrites the stored continuation and changes nothing else. The token is ignored. |
| QueuedPromises.RejectedWithoutDebug | src/Promise/Impls/Promise_NoGeneric.cs:831-839 | A new promise, already rejected with the given exception, and nothing else changes. |
| QueuedPromises.ThenChain | src/Promise/Impls/Promise_NoGeneric.cs:298-374 | `Then(Func<IPromise>)`. A null promise throws. On a pending promise it returns a new pending promise, runs nothing, and queues the handler that chains the produced promise into it. On a resolved promise with a null callback it returns a promise rejected with a null-reference error. On a rejected promise without onRejected it returns a new promise carrying the same exception, and nothing runs. |
| QueuedPromises.Chain | src/Promise/Impls/Promise_NoGeneric.cs:330-373 | The pending half of `Then(Func<IPromise>)`: a new pending promise, nothing runs, and the chaining resolve handler is queued. |
| PromiseFindings.ReusedPromiseRethrowsAsWritten | src/Promise/Impls/Promise.cs:107-121 | As written: a rejected pooled promise is read (GetResult throws `e`), created again from the pool and resolved with `v`. Reading it again still throws `e`. |
| PromiseFindings.ReusedPromiseReturnsValue | src/Promise/Impls/Promise.cs:107-121 | Corrected: the same sequence returns `v` on the second read. |
| PromiseWorld.ClearWithoutLists | src/Promise/Impls/Promise.cs:901-923 | ClearHandlers, as written and corrected, on a promise without lists changes nothing. |
| PromiseFindings.ClearIdempotent | src/Promise/Impls/Promise.cs:901-923 | Corrected ClearHandlers is idempotent: a second call changes nothing. |
| PromiseFindings.StaleProgressListAsWritten | src/Promise/Impls/Promise.cs:901-923 | As written: a pooled promise with only a progress list is cleared, disposed and created again. It still points at the pushed list, and its next ClearHandlers throws "already recycled". |
| PromiseFindings.PushedAgain | src/Promise/Impls/Promise.cs:915-918 | Pushing a progress list that is already recycled throws "already recycled". |
| PromiseFindings.StaleProgressListCorrected | src/Promise/Impls/Promise.cs:901-923 | Corrected: the same sequence leaves the reused promise with no lists, and its next ClearHandlers changes nothing. |
| PromiseFindings.SharedListAsWritten | src/Promise/Impls/Promise_NoGeneric.cs:758-776 | As written: promise `p` enqueues its resolve list but keeps it, and promise `q` dequeues it and adds handler `h`. Now `p` and `q` share that list, and a second ClearHandlers of `p` empties `q`'s handlers. |
| PromiseFindings.TakesQueued | src/Promise/Impls/Promise_NoGeneric.cs:675-693 | A promise without a resolve list dequeues the pooled list and appends its handler to it. |
| PromiseFindings.SharedListCorrected | src/Promise/Impls/Promise_NoGeneric.cs:758-776 | Corrected: after the first ClearHandlers `p` has no handlers, and a second ClearHandlers of `p` leaves `q`'s handlers, including `h`, in place. |
| PromiseFindings.LateReportThrows | src/Promise/Impls/Promise.cs:1203-1207 | Race's progress closure, as written, throws `Valid_PROGRESS_STATE` once the result is settled, and changes no promise. |
| PromiseFindings.LateInvokeRejects | src/Promise/Impls/Promise.cs:925-935 | Run as the input's progress handler, that late closure rejects the input itself with the progress-state error. The input keeps its progress list, now empty. |
| PromiseFindings.RaceLateProgressAsWritten | src/Promise/Impls/Promise.cs:1191-1227 | As written: an input that reports progress after the race is decided ends rejected with `Valid_PROGRESS_STATE`, although nothing went wrong with the input itself. Its ReportProgress then returns normally. |
| PromiseFindings.GuardedRaceProgress | src/Promise.cs:1162-1169 | The guarded progress closure, as the older engine writes it: once the result is settled it does nothing; while the result is pending it stores the progress and reports the maximum. |
| PromiseFindings.RaceLateProgressGuarded | src/Promise/Impls/Promise.cs:1191-1227 | Corrected: the same late progress report only spends the handler's gas and returns normally. |
| PromiseFindings.GuardedQuiet | src/Promise.cs:1162-1169 | The guarded closure on a settled result changes nothing. |

## Left out

- CompletionCore.LateAttemptsLose: the completion counter is an unbounded integer. The C# `int` incremented by `Interlocked.Increment` wraps after 2^32 attempts, and an attempt that brings it back to 1 would win again. No program makes that many attempts on one core.
- CompletionCore.OnlyFirstCompletionWins: the same unbounded counter, so the lemma holds for any number of attempts, where the C# counter would wrap after 2^32.
- Threads and memory ordering. `Interlocked` and `Volatile` operations are plain reads and writes, since the model is single-threaded.
- Logging, diagnostics and tracking: names (`WithName`, `Name`), ids, `EnablePromiseTracking` and `PendingPromises`, and the unhandled-exception event (`Done`, `PropagateUnhandledException`). None of these affects a promise's state.
- `ReportUnhandledError` and the finalizers of `ExceptionHolder` and `ExceptionResultSource` are left out. They only report an error that nobody read.
- Floating point. Progress values are `real`, so `float` rounding is not modelled.
- The wrappers built on the modelled operations: `Done`, `Finally`, `ContinueWith`, `ThenAll`, `ThenAny`, `ThenRace`, `ThenFirst`, `ThenSequence`, `ResolveAsync`, `AsTask`, the `Then` overloads that convert values, `Catch(Func<Exception, T>)` and the resolver constructors. Each of them is a composition of Then, Catch, the combinators and Resolve/Reject.
- Generics are erased. Every promise carries a `Value`, and a non-generic promise, source or builder is the generic one with `Default` as its value.
- The older engine's two parallel resolve lists (callbacks and rejectables) are one list of handler pairs. It always appends to both together, so they cannot differ in length.
- The static `ResolvedPromise` of the non-generic engine belongs to its own world. When the pooled engine's Then and Catch, or the older engine's Catch and its Then on a resolved promise, return `Promise.Resolved()`, the model returns a new resolved promise, which behaves the same.
- Handler-list pools in the promise engines have no size cap. The source pools use the default `MaxPoolSize` of `int.MaxValue`, which nothing reaches. The `Pools` classes do model the cap, as a per-instance constant rather than a static setting. The engines' `Pool<T>` is not part of this model. The model gives it the behaviour of `ReusablePool` (src/Utils/ReusablePool.cs), whose node contract it shares: pushing a promise or list whose recycled mark is already set throws "already recycled", so that throw comes from this assumed behaviour.
- `ToTaskStatus` is not part of this model. `PooledPromises.GetStatus` maps Pending, Resolved and Rejected to `Pending`, `Succeeded` and `Faulted`.
- Gas: each handler invocation costs one unit, and running out is reported as `Exhausted`, which no catch block catches. This bounds chains of callbacks that in C# could recurse until the stack overflows.
- `progress.Max()` and `progress.Average()` of an empty array are 0 in the model, not an exception. No closure runs over an empty combinator, so this never matters.
- Builder `Start` and `SetStateMachine(IAsyncStateMachine)` are not modelled separately. The compiler's state machine is an opaque step, and the model starts a method's body directly.
- The compiler state machine is opaque (`Runners.StateMachine`). Its `MoveNext` is one step that ends in a result, an exception or a suspension on an awaiter.
- The `PromiseTaskSource` pool is modelled as the gated `TaskPool` it is declared with. Its `MaxPoolSize` comes from the constructor.
- The single-threaded runtime's copies (the files under PromiseTask/) are modelled where they differ: the core that always wraps faults, the ungated pool, the light runner and its captured task, `FromPromise`. Their other members are the same as the main runtime's.
- The multi-threaded `Runner` stores its `MoveNext` as a delegate. The model calls the step directly.
- WhenAll's awaiter: the try/catch around `GetAwaiter` in the constructor loop catches nothing that the model can raise. `IsCompleted` and `OnCompleted` on a task are total in the model.
- PromiseDispatch.Invoke, RunActions, RunAction, RunChain, RunFirstRetry, ForwardTo, GroupAction, GroupProgress, GroupSettle, RunProducer, Settled, Finish, Notify and RunHandlers: their contracts state only the engine invariant. No settled promise changes, the log only grows and gas only shrinks. What they do is stated by the lemmas in `PromiseProperties`, `PromiseGroups` and `PromiseFindings` for the cases those cover (callbacks that do not throw, one throwing callback, the closure arithmetic), not for every input.
- PromiseDispatch.Then: its own contract covers a pending promise (a new pending promise with the resolve handler queued). The settled cases and what the chained handlers do are stated by the `PromiseOutcomes` lemmas (`ThenOnResolved`, `ThenOnRejected`, `LegacyThenOnRejected`, `ThenThenResolve`, `ThenThenReject`). Those lemmas take callbacks that are user callbacks and a promise with nothing queued before Then.
- PromiseDispatch.Catch: its own contract covers a pending promise. A rejected promise is covered by `PromiseOutcomes.CatchOnRejected`, and a resolved one in the pooled engine by `PromiseCombinators.CatchResolvedPasses`. A resolved promise is covered by Catch's own contract in every engine.
- PromiseCombinators.Combine: the contract covers construction (no inputs, or all inputs pending). The closures' effects are stated per closure in `PromiseGroups` (results in input order, and Any rejecting only after every input has). Race settling with the first input to settle, All and Race rejecting with the first rejection, Any resolving with the first success and All resolving with the last are stated by the `PromiseOutcomes` lemmas, for an input whose first handler of that kind is the combinator's closure. No lemma follows a whole run in which several inputs settle one after another.
- PromiseCombinators.First: the whole-run outcome is stated only for the pooled engine, and only when every factory returns a promise that is already settled. The older engine's First, and factories whose promises settle later, are modelled in the body only. The progress First reports is not followed through a run; its bounds are stated by `PromiseGroups.SliceWithin`.
- PromiseCombinators.Sequence: the whole-run outcome is stated only when every factory returns a promise that is already settled. Factories whose promises settle later are modelled in the body only, and so is the progress Sequence reports.
- PooledPromises.GetResultAsWritten and PooledPromises.GetResult state only the world invariant. Their results are stated by `GetResultWith` and by the two `ReusedPromise` lemmas.
- PromiseWorld.ClearHandlersAsWritten states what the promise keeps and that its lists are empty, not which pool each list goes to. `PushList` states that per list.
- PromiseWorld.AttachHandler and PromiseWorld.AddHandler state that `h` becomes the last handler of the list the field ends up with. They do not state that a list taken from a pool was empty. The pooled engine's pools hold only lists that were cleared before being pushed.
- The older engine (src/Promise.cs) has no Cancel, so `PromiseDispatch.Cancel` requires one of the other two engines. The non-generic engine's `Dispose` (src/Promise/Impls/Promise_NoGeneric.cs:123-128) is not a member of its own. It does what `Cancel` does without resetting the value, and clears the name.

## Findings

| source | as written | input that shows it | evidently intended | confidence | as-written member | corrected member |
|---|---|---|---|---|---|---|
| PromiseTask/CompilerServices/AsyncMethodBuilderCore.cs:18-26 | The light runner's task is built in the constructor with the core's version at that time (0). After the runner has been used, reset and popped from the pool again, the core's version is 1, so the captured task's token no longer matches. | A runner used once, reset by GetResult and reused: its task's status read and result read with token 0 both throw the token-mismatch error. | The task handed out carries the core's current version. | not executed | Runners.CapturedTokenGoesStale | Runners.CurrentTokenStaysValid |
| src/PromiseTask/CompilerServices/PromiseTaskMethodBuilder.cs:74-93 | Every `AwaitOnCompleted` installs a runner from the pool, or a new one, replacing any runner the builder already has. | An async method that suspends twice: the caller holds the first runner's task, which stays `Pending`, while the result goes to the second runner. | Only the first suspension installs a runner, and later suspensions reuse it. | not executed | Builders.TwoSuspensionsAsWritten | Builders.TwoSuspensions |
| src/Promise/Impls/Promise.cs:1191-1227 | Race's progress closure reports to the result without checking that the result is still pending. | Race over two pending inputs. One resolves, deciding the race. Then the other reports progress: the closure hits the result's progress-state error, which rejects that input, a promise the caller owns, with `Valid_PROGRESS_STATE`. The input's ReportProgress then returns normally. | The closure skips the report once the result is settled, as the older engine's Race does. | not executed | PromiseFindings.RaceLateProgressAsWritten | PromiseFindings.RaceLateProgressGuarded |
| src/Promise/Impls/Promise_NoGeneric.cs:758-776 | ClearHandlers clears and enqueues the three lists but never sets the fields to null. | Promise `p` settles and enqueues its resolve list, and promise `q` dequeues that list and adds a handler. A second ClearHandlers of `p` (for example via Cancel) empties `q`'s handlers. | The fields are nulled after the lists are enqueued. | not executed | PromiseFindings.SharedListAsWritten | PromiseFindings.SharedListCorrected |
| src/Promise/Impls/Promise.cs:901-923 | ClearHandlers sets `_resolveHandlers` to null twice and `_progressHandlers` never. | A pooled promise with only a progress list is settled, disposed and created again. Its next ClearHandlers pushes the same list again, and the pool throws "already recycled". | The third assignment nulls `_progressHandlers`. | not executed | PromiseFindings.StaleProgressListAsWritten | PromiseFindings.StaleProgressListCorrected |
| src/Promise/Impls/Promise.cs:107-121 | Dispose resets the value, state and continuation but not `_rejectionException`. | A pooled promise is rejected with `e` and read (GetResult throws `e`), then created again from the pool and resolved with `v`. Reading it again throws `e` instead of returning `v`. | Dispose also clears `_rejectionException`. | not executed | PromiseFindings.ReusedPromiseRethrowsAsWritten | PromiseFindings.ReusedPromiseReturnsValue |
