/**
 * Task handles, their awaiters, the factories and the WhenAll sources.
 *
 * A `PromiseTask` handle is either an inline value (no source) or a
 * `(source, token)` pair; every operation dispatches on which. The three
 * handle structs of the code base (generic and non-generic of the
 * multi-threaded runtime, generic of the single-threaded one) differ only
 * in their constructors' default tokens, so they share one datatype here.
 * The source interface is a datatype over the concrete source classes.
 *
 * Continuations are `Continuation` values; an operation that would invoke
 * one returns it instead.
 */
module Tasks {
  import opened Values
  import opened TaskStatus
  import opened Pools
  import opened CompletionCore
  import opened TaskSources
  import opened Runners
  import opened FanIn

  /** The delegates the library registers as continuations. */
  datatype Continuation =
    | MoveNextOf(runner: Runner<Continuation>)            // a runner's MoveNext
    | MoveNextOfLight(light: LightRunner<Continuation>)
    | WhenAllSlot(whenAll: WhenAllSource, index: nat)     // the closure WhenAll registers for task `index`
    | UserAction(id: nat)                                 // any other delegate

  /** An `IPromiseTaskSource` object. */
  datatype Source =
    | ExceptionSource(exn: ExceptionResultSource)
    | PooledSource(pooled: PromiseTaskSource<Continuation>)
    | RunnerSource(runner: Runner<Continuation>)
    | LightRunnerSource(light: LightRunner<Continuation>)
    | WhenAllOf(whenAll: WhenAllSource)
  {
    /** Every object an operation on this source may update. */
    function Repr(): set<object>
    {
      match this
      case ExceptionSource(e) => {e}
      case PooledSource(p) => {p, p.pool}
      case RunnerSource(r) => {r, r.core, r.pool}
      case LightRunnerSource(l) => {l, l.core, l.pool}
      case WhenAllOf(w) => {w, w.core, w.results}
    }

    /** The objects OnCompleted may update: the stored continuation's owner. */
    function ListenerRepr(): set<object>
    {
      match this
      case ExceptionSource(_) => {}
      case PooledSource(p) => {p}
      case RunnerSource(r) => {r.core}
      case LightRunnerSource(l) => {l.core}
      case WhenAllOf(w) => {w.core}
    }
  }

  /** GetStatus(token) on a source; the core-backed ones check the token. */
  function SourceStatus(s: Source, token: int): Outcome<PromiseTaskStatus>
    reads s.Repr()
  {
    match s
    case ExceptionSource(e) => Return(e.GetStatus(token))
    case PooledSource(p) => Return(p.GetStatus(token))
    case RunnerSource(r) => CoreGetStatus(r.core.State(), token)
    case LightRunnerSource(l) => CoreGetStatus(l.core.State(), token)
    case WhenAllOf(w) => CoreGetStatus(w.core.State(), token)
  }

  /** A task handle: a source and its token, or an inline result. */
  datatype PromiseTask = PromiseTask(source: Option<Source>, result: Value, token: int)
  {
    function Repr(): set<object>
    {
      if source.Some? then source.value.Repr() else {}
    }

    function ListenerRepr(): set<object>
    {
      if source.Some? then source.value.ListenerRepr() else {}
    }

    /** Status: Succeeded without a source, otherwise the source's status for this token. */
    function Status(): (r: Outcome<PromiseTaskStatus>)
      reads Repr()
      ensures source.None? ==> r == Return(Succeeded)
      ensures source.Some? ==> r == SourceStatus(source.value, token)
    {
      if source.None? then Return(Succeeded) else SourceStatus(source.value, token)
    }

    function GetAwaiter(): Awaiter
    {
      Awaiter(this)
    }
  }

  /** `new PromiseTask<T>(result)` of the multi-threaded runtime: no source, token 10 by default. */
  function FromValue(result: Value, token: int := 10): PromiseTask
  {
    PromiseTask(None, result, token)
  }

  /** `new PromiseTask(token)` (non-generic): no source, token 10 by default. */
  function Completed(token: int := 10): PromiseTask
  {
    PromiseTask(None, Default, token)
  }

  /** `PromiseTask.CompletedTask`: the zero-initialised struct. */
  const CompletedTask: PromiseTask := PromiseTask(None, Default, 0)

  /** `new PromiseTask<T>(result)` of the single-threaded runtime: token 0 by default. */
  function LightFromValue(result: Value, token: int := 0): PromiseTask
  {
    PromiseTask(None, result, token)
  }

  /** `new PromiseTask(source, token)`: the result is left at its default. */
  function OverSource(s: Source, token: int): PromiseTask
  {
    PromiseTask(Some(s), Default, token)
  }

  /** The multi-threaded runner's `Task`: the runner with its core's current version. */
  function RunnerTask(r: Runner<Continuation>): (t: PromiseTask)
    reads r.core
    ensures t.source == Some(RunnerSource(r)) && t.token == r.core.version
  {
    OverSource(RunnerSource(r), r.TaskToken())
  }

  /**
   * The single-threaded runner's `Task`, as the source captures it: the
   * token of version 0, fixed when the runner was constructed.
   */
  function CapturedLightRunnerTask(l: LightRunner<Continuation>): (t: PromiseTask)
    ensures t.source == Some(LightRunnerSource(l)) && t.token == l.capturedToken
  {
    OverSource(LightRunnerSource(l), l.capturedToken)
  }

  /** The single-threaded runner's `Task` with the current version, as the multi-threaded runner builds it. */
  function LightRunnerTask(l: LightRunner<Continuation>): (t: PromiseTask)
    reads l.core
    ensures t.source == Some(LightRunnerSource(l)) && t.token == l.core.version
  {
    OverSource(LightRunnerSource(l), l.CurrentToken())
  }

  // ---------------------------------------------------------------------
  // Dispatch to a source
  // ---------------------------------------------------------------------

  /** GetResult(token) on a source (generic or not; the non-generic callers ignore the value). */
  method SourceGetResult(s: Source, token: int) returns (r: Outcome<Value>)
    modifies s.Repr()
    ensures s.ExceptionSource? ==> r == Throw(s.exn.exception) && s.exn.calledGet
    ensures s.PooledSource? ==>
              && r == Return(old(s.pooled.result))
              && s.pooled.status == Pending && s.pooled.result == Default && s.pooled.registerAction == None
    ensures s.RunnerSource? ==>
              && r == CoreGetResult(old(s.runner.core.State()), token).1
              && s.runner.core.State() == CoreReset(CoreGetResult(old(s.runner.core.State()), token).0)
              && s.runner.stateMachine == None
    ensures s.LightRunnerSource? ==>
              && r == CoreGetResult(old(s.light.core.State()), token).1
              && s.light.core.State() == CoreReset(CoreGetResult(old(s.light.core.State()), token).0)
              && s.light.stateMachine == None
    ensures s.WhenAllOf? ==>
              && r == Return(FanGetResult(old(s.whenAll.State()), token, s.whenAll.generic).1)
              && s.whenAll.State() == FanGetResult(old(s.whenAll.State()), token, s.whenAll.generic).0
  {
    match s
    case ExceptionSource(e) =>
      r := e.GetResult(token);
    case PooledSource(p) =>
      var v := p.GetResult(token);
      r := Return(v);
    case RunnerSource(x) =>
      r := x.GetResult(token);
    case LightRunnerSource(l) =>
      r := l.GetResult(token);
    case WhenAllOf(w) =>
      var v := w.GetResult(token);
      r := Return(v);
  }

  /**
   * OnCompleted(continuation, token) on a source: `Some(k)` in the result
   * is a continuation the source runs at once.
   */
  method SourceOnCompleted(s: Source, k: Option<Continuation>, token: int) returns (r: Outcome<Option<Continuation>>)
    modifies s.ListenerRepr()
    ensures s.ExceptionSource? ==> r == Return(k)
    ensures s.PooledSource? ==>
              r == Return(None) && s.pooled.registerAction == k
              && s.pooled.status == old(s.pooled.status) && s.pooled.result == old(s.pooled.result)
    ensures s.RunnerSource? ==> (s.runner.core.State(), r) == CoreOnCompleted(old(s.runner.core.State()), k, token)
    ensures s.LightRunnerSource? ==> (s.light.core.State(), r) == CoreOnCompleted(old(s.light.core.State()), k, token)
    ensures s.WhenAllOf? ==>
              && (s.whenAll.core.State(), r) == CoreOnCompleted(old(s.whenAll.core.State()), k, token)
    ensures r.Return? && r.value.Some? ==> r.value == k
  {
    match s
    case ExceptionSource(e) =>
      var run := e.OnCompleted(k, token);
      r := Return(run);
    case PooledSource(p) =>
      p.OnCompleted(k, token);
      r := Return(None);
    case RunnerSource(x) =>
      r := x.OnCompleted(k, token);
    case LightRunnerSource(l) =>
      r := l.OnCompleted(k, token);
    case WhenAllOf(w) =>
      r := w.core.OnCompleted(k, token);
  }

  // ---------------------------------------------------------------------
  // The awaiter
  // ---------------------------------------------------------------------

  /** An awaiter: a read-only copy of the task it awaits. */
  datatype Awaiter = Awaiter(task: PromiseTask)
  {
    /** IsCompleted: the task's status is not Pending (a status query that throws, throws here too). */
    function IsCompleted(): (r: Outcome<bool>)
      reads task.Repr()
      ensures r.Return? <==> task.Status().Return?
      ensures r.Return? ==> (r.value <==> task.Status().value != Pending)
    {
      match task.Status()
      case Return(s) => Return(TaskStatus.IsCompleted(s))
      case Throw(e) => Throw(e)
    }
  }

  /**
   * GetResult: the inline result when there is no source (nothing for the
   * non-generic awaiter, whose inline result is always the default),
   * otherwise the source's GetResult with the task's token.
   */
  method AwaiterGetResult(a: Awaiter) returns (r: Outcome<Value>)
    modifies a.task.Repr()
    ensures a.task.source.None? ==> r == Return(a.task.result)
    ensures a.task.source.Some? && a.task.source.value.ExceptionSource? ==>
              var e := a.task.source.value.exn;
              r == Throw(e.exception) && e.calledGet
    ensures a.task.source.Some? && a.task.source.value.RunnerSource? ==>
              var c := a.task.source.value.runner.core;
              && r == CoreGetResult(old(c.State()), a.task.token).1
              && c.State() == CoreReset(CoreGetResult(old(c.State()), a.task.token).0)
              && a.task.source.value.runner.stateMachine == None
    ensures a.task.source.Some? && a.task.source.value.LightRunnerSource? ==>
              var c := a.task.source.value.light.core;
              && r == CoreGetResult(old(c.State()), a.task.token).1
              && c.State() == CoreReset(CoreGetResult(old(c.State()), a.task.token).0)
              && a.task.source.value.light.stateMachine == None
    ensures a.task.source.Some? && a.task.source.value.PooledSource? ==>
              var p := a.task.source.value.pooled;
              && r == Return(old(p.result))
              && p.status == Pending && p.result == Default && p.registerAction == None
    ensures a.task.source.Some? && a.task.source.value.WhenAllOf? ==>
              var w := a.task.source.value.whenAll;
              r == Return(FanGetResult(old(w.State()), a.task.token, w.generic).1)
              && w.State() == FanGetResult(old(w.State()), a.task.token, w.generic).0
  {
    if a.task.source.None? {
      r := Return(a.task.result);
    } else {
      r := SourceGetResult(a.task.source.value, a.task.token);
    }
  }

  /**
   * OnCompleted, UnsafeOnCompleted and SourceOnCompleted (identical): with
   * no source the continuation is invoked at once, and a null one throws
   * NullReferenceException; otherwise it is handed to the source with the
   * task's token.
   */
  method AwaiterOnCompleted(a: Awaiter, k: Option<Continuation>) returns (r: Outcome<Option<Continuation>>)
    modifies a.task.ListenerRepr()
    ensures a.task.source.None? ==> r == (if k.None? then Throw(NullReference) else Return(k))
    ensures a.task.source.Some? && a.task.source.value.ExceptionSource? ==> r == Return(k)
    ensures a.task.source.Some? && a.task.source.value.RunnerSource? ==>
              var c := a.task.source.value.runner.core;
              (c.State(), r) == CoreOnCompleted(old(c.State()), k, a.task.token)
    ensures a.task.source.Some? && a.task.source.value.LightRunnerSource? ==>
              var c := a.task.source.value.light.core;
              (c.State(), r) == CoreOnCompleted(old(c.State()), k, a.task.token)
    ensures a.task.source.Some? && a.task.source.value.WhenAllOf? ==>
              var c := a.task.source.value.whenAll.core;
              (c.State(), r) == CoreOnCompleted(old(c.State()), k, a.task.token)
    ensures a.task.source.Some? && a.task.source.value.PooledSource? ==>
              var p := a.task.source.value.pooled;
              && r == Return(None) && p.registerAction == k
              && p.status == old(p.status) && p.result == old(p.result)
    ensures r.Return? && r.value.Some? ==> r.value == k
  {
    if a.task.source.None? {
      if k.None? {
        r := Throw(NullReference);
      } else {
        r := Return(k);
      }
    } else {
      r := SourceOnCompleted(a.task.source.value, k, a.task.token);
    }
  }

  /**
   * A handle without a source is complete from the start and its awaiter
   * hands back its inline value; an awaiter registration on it runs the
   * continuation at once.
   */
  lemma InlineTaskIsComplete(v: Value, token: int)
    ensures FromValue(v).Status() == Return(Succeeded) && FromValue(v).token == 10
    ensures LightFromValue(v).Status() == Return(Succeeded) && LightFromValue(v).token == 0
    ensures Completed().Status() == Return(Succeeded) && CompletedTask.token == 0
    ensures FromValue(v, token).GetAwaiter().IsCompleted() == Return(true)
    ensures CompletedTask.GetAwaiter().IsCompleted() == Return(true)
  {
  }

  // ---------------------------------------------------------------------
  // Factories
  // ---------------------------------------------------------------------

  /**
   * FromException (generic and non-generic, both runtimes): a task over a
   * new always-faulted source, token 0. A cancellation is not treated
   * specially: the task is Faulted, not Canceled.
   */
  method FromException(ex: Exn) returns (t: PromiseTask)
    ensures t.source.Some? && t.source.value.ExceptionSource? && t.token == 0
    ensures fresh(t.source.value.exn) && t.source.value.exn.exception == ex
    ensures t.Status() == Return(Faulted)
  {
    var e := new ExceptionResultSource(ex);
    t := OverSource(ExceptionSource(e), 0);
  }

  /** FromResult: an inline task (token 10 in the multi-threaded runtime, 0 in the single-threaded one). */
  function FromResult(v: Value, light: bool): (t: PromiseTask)
    ensures t.source.None? && t.result == v && t.Status() == Return(Succeeded)
  {
    if light then LightFromValue(v) else FromValue(v)
  }

  /**
   * FromPromise (single-threaded runtime): a pooled source holding the
   * value, marked Succeeded, with token 0.
   */
  method FromPromise(pool: TaskPool<PromiseTaskSource<Continuation>>, v: Value) returns (t: PromiseTask)
    modifies pool, if pool.root.Some? then {pool.root.value} else {}
    ensures t.source.Some? && t.source.value.PooledSource? && t.token == 0
    ensures t.source.value.pooled.result == v && t.source.value.pooled.status == Succeeded
    ensures t.Status() == Return(Succeeded)
  {
    var s := PromiseTaskSource.Create(pool, v);
    s.status := Succeeded;
    t := OverSource(PooledSource(s), 0);
  }

  /** The objects of every source among `tasks`. */
  function TasksRepr(tasks: seq<PromiseTask>): set<object>
  {
    set i, o | 0 <= i < |tasks| && o in tasks[i].Repr() :: o
  }

  /**
   * WhenAll (generic and non-generic): snapshot the tasks, build the
   * WhenAll source over them, and return a task over it with token 0. An
   * exception raised while the source's constructor queries or registers
   * with a task escapes to the caller.
   */
  method WhenAll(tasks: seq<PromiseTask>, generic: bool, debug: bool) returns (r: Outcome<PromiseTask>)
    modifies TasksRepr(tasks)
    ensures r.Return? ==> r.value.source.Some? && r.value.source.value.WhenAllOf? && r.value.token == 0
    ensures r.Return? ==> var w := r.value.source.value.whenAll;
              fresh(w) && w.tasks == tasks && w.generic == generic
              && IndicesInOrder(w.trace, |tasks|)
              && w.State() == (if tasks == [] then StartEmpty(generic)
                               else Replay(Start(|tasks|, generic), |tasks|, w.trace, generic, debug))
  {
    var w := WhenAllSource.Create(tasks, generic, debug);
    match w
    case Throw(e) => r := Throw(e);
    case Return(src) => r := Return(OverSource(WhenAllOf(src), 0));
  }

  /** The constructor visited every task once, in index order. */
  predicate IndicesInOrder(trace: seq<SlotEvent>, n: int)
  {
    |trace| == n && forall k :: 0 <= k < |trace| ==> trace[k].index == k
  }

  // ---------------------------------------------------------------------
  // WhenAll
  // ---------------------------------------------------------------------

  /**
   * The WhenAll source: the generic one keeps one result slot per task;
   * the non-generic one has no slots (`results` is empty) and completes
   * with nothing.
   */
  class WhenAllSource {
    const generic: bool
    const tasksLength: int
    const results: array<Value>
    const core: CompletionSourceCore<Continuation>
    const tasks: seq<PromiseTask>            // the awaiters captured by the registered closures
    var completeCount: int
    ghost var trace: seq<SlotEvent>         // what the constructor did with each task

    function State(): FanState<Continuation>
      reads this, core, results
    {
      FanState(completeCount, results[..], core.State())
    }

    ghost predicate Valid()
      reads this, results
    {
      tasksLength == |tasks| && results.Length == (if generic then tasksLength else 0)
    }

    constructor Init(tasks: seq<PromiseTask>, generic: bool, debug: bool)
      ensures Valid() && this.tasks == tasks && this.generic == generic
      ensures fresh(core) && fresh(results) && core.wrapFaults == debug
      ensures State() == Start(|tasks|, generic) && trace == []
    {
      this.generic := generic;
      tasksLength := |tasks|;
      this.tasks := tasks;
      completeCount := 0;
      core := new CompletionSourceCore(debug);
      results := new Value[if generic then |tasks| else 0](_ => Default);
      trace := [];
      new;
      assert results[..] == Start<Continuation>(|tasks|, generic).slots;
    }

    /**
     * TryInvokeContinuation for task `i`, given what its awaiter's
     * GetResult produced.
     */
    method SlotDone(i: int, got: Outcome<Value>) returns (run: Option<Continuation>)
      requires Valid() && 0 <= i < tasksLength
      modifies this, core, results
      ensures Valid() && trace == old(trace)
      ensures (State(), run) == FanIn.SlotDone(old(State()), tasksLength, i, got, generic, core.wrapFaults)
    {
      match got {
        case Throw(e) =>
          var _, k := core.TrySetException(e);
          run := k;
        case Return(v) =>
          if generic {
            results[i] := v;
          }
          completeCount := completeCount + 1;
          if completeCount == tasksLength {
            var _, k := core.TrySetResult(Completion(results[..], generic));
            run := k;
          } else {
            run := None;
          }
      }
    }

    /**
     * The registered closure for task `i`: read the task's result through
     * its awaiter, then record it.
     */
    method TryInvokeContinuation(i: int) returns (run: Option<Continuation>, ghost got: Outcome<Value>)
      requires Valid() && 0 <= i < tasksLength
      requires this !in tasks[i].Repr() && core !in tasks[i].Repr() && results !in tasks[i].Repr()
      modifies this, core, results, tasks[i].Repr()
      ensures Valid() && trace == old(trace)
      ensures (State(), run) == FanIn.SlotDone(old(State()), tasksLength, i, got, generic, core.wrapFaults)
      ensures tasks[i].source.None? ==> got == Return(tasks[i].result)
    {
      var g := AwaiterGetResult(tasks[i].GetAwaiter());
      got := g;
      run := SlotDone(i, g);
    }

    /**
     * One turn of the constructor's loop, for task `i`: process it at once
     * if it is complete, otherwise register the slot's continuation with
     * its source and process it at once if the source says so. An
     * exception from the status query or the registration is returned.
     */
    method Visit(i: int) returns (failed: Option<Exn>)
      requires Valid() && 0 <= i < tasksLength && IndicesInOrder(trace, i)
      requires this !in tasks[i].Repr() && core !in tasks[i].Repr() && results !in tasks[i].Repr()
      modifies this, core, results, tasks[i].Repr()
      ensures Valid()
      ensures failed.None? ==> |trace| == i + 1 && trace[..i] == old(trace) && trace[i].index == i
      ensures failed.None? && trace[i].Later? ==> State() == old(State())
      ensures failed.None? && trace[i].Now? ==>
                State() == FanIn.SlotDone(old(State()), tasksLength, i, trace[i].got, generic, core.wrapFaults).0
    {
      var done := tasks[i].GetAwaiter().IsCompleted();
      if done.Throw? {
        return Some(done.exn);
      }
      failed := None;
      if done.value {
        var _, got := TryInvokeContinuation(i);
        trace := trace + [Now(i, got)];
      } else {
        var o := AwaiterOnCompleted(tasks[i].GetAwaiter(), Some(WhenAllSlot(this, i)));
        if o.Throw? {
          return Some(o.exn);
        }
        if o.value.Some? {
          var _, got := TryInvokeContinuation(i);
          trace := trace + [Now(i, got)];
        } else {
          trace := trace + [Later(i)];
        }
      }
    }

    /**
     * The constructor. With no tasks the core succeeds at once. Otherwise
     * each task in turn is processed at once if it is already complete,
     * or else gets a continuation for its own index registered with its
     * source (which may run it at once). A status query or registration
     * that throws aborts the construction.
     */
    static method Create(tasks: seq<PromiseTask>, generic: bool, debug: bool) returns (r: Outcome<WhenAllSource>)
      modifies TasksRepr(tasks)
      ensures r.Return? ==> var w := r.value;
                fresh(w) && fresh(w.core) && fresh(w.results) && w.Valid()
                && w.tasks == tasks && w.generic == generic && w.core.wrapFaults == debug
                && IndicesInOrder(w.trace, |tasks|)
                && w.State() == (if tasks == [] then StartEmpty(generic)
                                 else Replay(Start(|tasks|, generic), |tasks|, w.trace, generic, debug))
    {
      var w := new WhenAllSource.Init(tasks, generic, debug);
      if |tasks| == 0 {
        var _, _ := w.core.TrySetResult(Completion(w.results[..], generic));
        assert w.results[..] == [];
        return Return(w);
      }
      var failed := w.VisitAll();
      if failed.Some? {
        return Throw(failed.value);
      }
      r := Return(w);
    }

    /** The constructor's loop over the tasks, in order, stopping at the first exception. */
    method VisitAll() returns (failed: Option<Exn>)
      requires Valid() && trace == [] && State() == Start(tasksLength, generic)
      requires this !in TasksRepr(tasks) && core !in TasksRepr(tasks) && results !in TasksRepr(tasks)
      modifies this, core, results, TasksRepr(tasks)
      ensures Valid()
      ensures failed.None? ==> IndicesInOrder(trace, tasksLength)
                               && State() == Replay(Start(tasksLength, generic), tasksLength, trace, generic, core.wrapFaults)
    {
      var i := 0;
      while i < tasksLength
        invariant 0 <= i <= tasksLength && Valid()
        invariant IndicesInOrder(trace, i)
        invariant State() == Replay(Start(tasksLength, generic), tasksLength, trace, generic, core.wrapFaults)
      {
        assert tasks[i].Repr() <= TasksRepr(tasks);
        ghost var before := trace;
        failed := Visit(i);
        if failed.Some? {
          return;
        }
        assert trace[..i] == before;
        i := i + 1;
      }
      failed := None;
    }

    /** GetResult (both interfaces): never throws; see `FanGetResult`. */
    method GetResult(token: int) returns (v: Value)
      modifies core
      ensures (State(), v) == FanGetResult(old(State()), token, generic)
    {
      var o := core.GetResult(token);
      v := if o.Return? then o.value else Completion(results[..], generic);
    }

    method GetStatus(token: int) returns (r: Outcome<PromiseTaskStatus>)
      ensures r == CoreGetStatus(core.State(), token)
    {
      r := core.GetStatus(token);
    }

    method OnCompleted(k: Option<Continuation>, token: int) returns (r: Outcome<Option<Continuation>>)
      modifies core
      ensures (core.State(), r) == CoreOnCompleted(old(core.State()), k, token)
    {
      r := core.OnCompleted(k, token);
    }

    /** The status without the token check: Pending exactly until the core has completed. */
    function UnsafeGetStatus(): (s: PromiseTaskStatus)
      reads core
      ensures core.Valid() ==> (s == Pending <==> core.completedCount == 0)
    {
      StatusOf(core.State())
    }
  }
}
