/**
 * The async-method builders of `PromiseTask<T>` and `PromiseTask`.
 *
 * An async method's state machine holds a builder. Until the method first
 * suspends, the builder records the outcome itself; at a suspension it
 * installs a runner (popped from the runner pool or new), copies the state
 * machine into it and registers the runner's MoveNext with the awaiter.
 * From then on results and exceptions go to the runner, and `Task` is the
 * runner's task.
 *
 * The C# builder is a struct updated through `ref`; here it is a class.
 * One builder object stands for the builder the running copy of the state
 * machine uses; in a release build that copy is the one inside the runner,
 * whose `runnerPromise` was set before the copy was taken.
 */
module Builders {
  import opened Values
  import opened TaskStatus
  import opened Pools
  import opened CompletionCore
  import opened TaskSources
  import opened Runners
  import opened Tasks

  class PromiseTaskMethodBuilder {
    const generic: bool                                  // PromiseTaskMethodBuilder<T> or the non-generic one
    const pool: TaskPool<Runner<Continuation>>           // the runner pool of this state-machine type
    const debug: bool                                    // whether new runners' cores wrap faults
    var runnerPromise: Option<Runner<Continuation>>
    var result: Value                                    // generic builder only
    var ex: Option<Exn>

    /** Create: the default builder. */
    constructor Create(generic: bool, pool: TaskPool<Runner<Continuation>>, debug: bool)
      ensures this.generic == generic && this.pool == pool && this.debug == debug
      ensures runnerPromise == None && result == Default && ex == None
    {
      this.generic := generic;
      this.pool := pool;
      this.debug := debug;
      runnerPromise := None;
      result := Default;
      ex := None;
    }

    /**
     * Task: the runner's task once a runner is installed; before that, a
     * faulted task if an exception was recorded, else the recorded result
     * inline (generic) or the completed task (non-generic).
     */
    method GetTask() returns (t: PromiseTask)
      ensures runnerPromise.Some? ==> t == RunnerTask(runnerPromise.value)
      ensures runnerPromise.None? && ex.Some? ==>
                t.source.Some? && t.source.value.ExceptionSource? && t.source.value.exn.exception == ex.value
                && t.Status() == Return(Faulted) && t.token == 0
      ensures runnerPromise.None? && ex.None? ==>
                t.source.None? && t.result == (if generic then result else Default)
    {
      if runnerPromise.None? {
        if ex.Some? {
          t := FromException(ex.value);
        } else if generic {
          t := FromResult(result, false);
        } else {
          t := CompletedTask;
        }
      } else {
        t := RunnerTask(runnerPromise.value);
      }
    }

    /**
     * SetResult: to the runner if one is installed (returning the
     * continuation its core would run); otherwise the generic builder
     * records the value and the non-generic one does nothing.
     */
    method SetResult(v: Value) returns (run: Option<Continuation>)
      modifies this, if runnerPromise.Some? then {runnerPromise.value.core} else {}
      ensures runnerPromise == old(runnerPromise) && ex == old(ex)
      ensures runnerPromise.Some? ==>
                var c := runnerPromise.value.core;
                (c.State(), run) == (CoreTrySetResult(old(c.State()), v).0, CoreTrySetResult(old(c.State()), v).2)
      ensures runnerPromise.None? ==> run == None && result == (if generic then v else old(result))
    {
      if runnerPromise.Some? {
        run := runnerPromise.value.SetResult(v);
      } else {
        if generic {
          result := v;
        }
        run := None;
      }
    }

    /** SetException: to the runner if one is installed, otherwise recorded. */
    method SetException(e: Exn) returns (run: Option<Continuation>)
      modifies this, if runnerPromise.Some? then {runnerPromise.value.core} else {}
      ensures runnerPromise == old(runnerPromise) && result == old(result)
      ensures runnerPromise.Some? ==>
                var c := runnerPromise.value.core;
                run == CoreTrySetException(old(c.State()), e, c.wrapFaults).2
                && c.State() == CoreTrySetException(old(c.State()), e, c.wrapFaults).0
                && ex == old(ex)
      ensures runnerPromise.None? ==> run == None && ex == Some(e)
    {
      if runnerPromise.Some? {
        run := runnerPromise.value.SetException(e);
      } else {
        ex := Some(e);
        run := None;
      }
    }

    /**
     * AwaitOnCompleted and AwaitUnsafeOnCompleted as written: every
     * suspension installs a runner popped from the pool or new, replacing
     * any runner installed at an earlier suspension, and registers its
     * MoveNext with the awaiter.
     */
    method AwaitOnCompletedAsWritten(awaiter: Awaiter, machine: StateMachine) returns (r: Outcome<Option<Continuation>>)
      modifies this, pool, (if pool.root.Some? then {pool.root.value} else {}), awaiter.task.ListenerRepr()
      ensures runnerPromise.Some? && runnerPromise.value.stateMachine == Some(machine)
      ensures old(pool.gate) != 0 || old(pool.root).None? ==>
                fresh(runnerPromise.value) && fresh(runnerPromise.value.core) && runnerPromise.value.core.State() == Fresh()
                && runnerPromise.value.pool == pool
      ensures pool.gate == old(pool.gate)
      ensures old(pool.gate) == 0 ==> pool.Snapshot() == PopLinks(old(pool.Snapshot())).0
      ensures r.Return? && r.value.Some? ==> r.value == Some(MoveNextOf(runnerPromise.value))
    {
      var runner := Runner.SetStateMachine(pool, machine, debug);
      runnerPromise := Some(runner);
      r := AwaiterOnCompleted(awaiter, Some(MoveNextOf(runner)));
    }

    /**
     * AwaitOnCompleted and AwaitUnsafeOnCompleted, corrected: a runner is
     * installed at the first suspension only, so `Task`, once it names a
     * runner, names the one that later receives the result.
     */
    method AwaitOnCompleted(awaiter: Awaiter, machine: StateMachine) returns (r: Outcome<Option<Continuation>>)
      modifies this, pool, (if pool.root.Some? then {pool.root.value} else {}), awaiter.task.ListenerRepr()
      ensures runnerPromise.Some?
      ensures old(runnerPromise).Some? ==> runnerPromise == old(runnerPromise)
      ensures old(runnerPromise).None? ==> runnerPromise.value.stateMachine == Some(machine)
      ensures old(runnerPromise).None? && (old(pool.gate) != 0 || old(pool.root).None?) ==>
                fresh(runnerPromise.value) && fresh(runnerPromise.value.core) && runnerPromise.value.core.State() == Fresh()
                && runnerPromise.value.pool == pool
      ensures old(runnerPromise).Some? ==> unchanged(pool)
      ensures pool.gate == old(pool.gate)
      ensures old(pool.gate) == 0 ==> pool.Snapshot() == PopLinks(old(pool.Snapshot())).0 || old(runnerPromise).Some?
      ensures r.Return? && r.value.Some? ==> r.value == Some(MoveNextOf(runnerPromise.value))
    {
      if runnerPromise.None? {
        var runner := Runner.SetStateMachine(pool, machine, debug);
        runnerPromise := Some(runner);
      }
      r := AwaiterOnCompleted(awaiter, Some(MoveNextOf(runnerPromise.value)));
    }
  }

  /** A handle over a pending pooled source: awaiting it suspends. */
  method PendingTask() returns (t: PromiseTask)
    ensures t.source.Some? && t.source.value.PooledSource? && fresh(t.source.value.pooled) && fresh(t.source.value.pooled.pool)
    ensures t.Status() == Return(Pending)
  {
    var sourcePool := new TaskPool<PromiseTaskSource<Continuation>>(16);
    var s := new PromiseTaskSource(sourcePool, Default);
    t := OverSource(PooledSource(s), 0);
  }

  /**
   * An async method that suspends at two awaits and then returns `v`, run
   * against the builder as written. The task handed to the caller after
   * the first suspension belongs to the first runner; the second
   * suspension installs a second runner, and the result goes there. The
   * caller's task stays Pending for good: nothing ever completes the first
   * runner's core.
   */
  method TwoSuspensionsAsWritten(v: Value, debug: bool) returns (task: PromiseTask, second: Runner<Continuation>)
    ensures task.source.Some? && task.source.value.RunnerSource?
    ensures task.source.value.runner != second
    ensures task.Status() == Return(Pending)
    ensures StatusOf(second.core.State()) == Succeeded
  {
    var runners := new TaskPool<Runner<Continuation>>(16);
    var b := new PromiseTaskMethodBuilder.Create(true, runners, debug);
    var machine := StateMachine(0);
    // Start: the body runs up to its first await, which suspends.
    var first := PendingTask();
    var _ := b.AwaitOnCompletedAsWritten(first.GetAwaiter(), machine);
    var r1 := b.runnerPromise.value;
    task := b.GetTask();
    // The first awaited task completes and the first runner resumes the
    // body, which suspends again at its second await.
    var next := PendingTask();
    var _ := b.AwaitOnCompletedAsWritten(next.GetAwaiter(), machine);
    second := b.runnerPromise.value;
    // The second awaited task completes; the body returns v.
    var _ := b.SetResult(v);
  }

  /**
   * The same async method against the corrected builder: the caller's
   * task is the one runner's task, it has succeeded, and reading it
   * through its awaiter yields `v`.
   */
  method TwoSuspensions(v: Value, debug: bool) returns (task: PromiseTask, got: Outcome<Value>)
    ensures task.source.Some? && task.source.value.RunnerSource?
    ensures got == Return(v)
  {
    var runners := new TaskPool<Runner<Continuation>>(16);
    var b := new PromiseTaskMethodBuilder.Create(true, runners, debug);
    var machine := StateMachine(0);
    var first := PendingTask();
    var _ := b.AwaitOnCompleted(first.GetAwaiter(), machine);
    var runner := b.runnerPromise.value;
    assert runner.core.State() == Fresh();
    task := b.GetTask();
    var next := PendingTask();
    var _ := b.AwaitOnCompleted(next.GetAwaiter(), machine);
    assert b.runnerPromise == Some(runner) && runner.core.State() == Fresh();
    var _ := b.SetResult(v);
    assert runner.core.State() == CoreTrySetResult(Fresh(), v).0;
    got := AwaiterGetResult(task.GetAwaiter());
  }

  /**
   * An async method that completes without suspending: no runner is
   * installed, and the task carries the result inline (or the exception,
   * in a new faulted source).
   */
  method NoSuspension(v: Value, generic: bool, fault: Option<Exn>) returns (task: PromiseTask)
    ensures task.source.None? <==> fault.None?
    ensures fault.None? ==> task.Status() == Return(Succeeded) && task.result == (if generic then v else Default)
    ensures fault.Some? ==> task.Status() == Return(Faulted)
  {
    var runners := new TaskPool<Runner<Continuation>>(16);
    var b := new PromiseTaskMethodBuilder.Create(generic, runners, false);
    if fault.Some? {
      var _ := b.SetException(fault.value);
    } else {
      var _ := b.SetResult(v);
    }
    task := b.GetTask();
  }
}
