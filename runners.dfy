/**
 * The state-machine runners behind the async-method builders. A runner
 * owns the compiler-generated state machine (an opaque step here) and a
 * completion-source core; it is popped from a static pool when an async
 * method first suspends and pushed back once its result has been read.
 *
 * `Runner` is the multi-threaded runtime's runner (generic and
 * non-generic alike: the non-generic one completes with `Default`); its
 * task handle is rebuilt from the core's current version on every read.
 * `LightRunner` is the single-threaded runtime's runner, whose task handle
 * was captured once, in the constructor.
 */
module Runners {
  import opened Values
  import opened TaskStatus
  import opened Pools
  import opened CompletionCore

  /** The compiler-generated state machine, reduced to its identity; running it is an opaque step. */
  datatype StateMachine = StateMachine(id: nat)

  class Runner<K> {
    var stateMachine: Option<StateMachine>      // None is `default(TStateMachine)`
    const core: CompletionSourceCore<K>
    const pool: TaskPool<Runner<K>>

    ghost predicate Valid()
      reads this, core
    {
      core.Valid()
    }

    /** A new runner: a fresh core (faults wrapped only in a debug build). */
    constructor(pool: TaskPool<Runner<K>>, debug: bool)
      ensures Valid() && fresh(core)
      ensures core.State() == Fresh() && stateMachine == None && this.pool == pool
    {
      stateMachine := None;
      core := new CompletionSourceCore(debug);
      this.pool := pool;
    }

    /** The token of `Task`: the core's version at the time it is read. */
    function TaskToken(): int
      reads core
    {
      core.Version()
    }

    /**
     * SetStateMachine: a pooled runner if one can be popped, a new one
     * otherwise; the caller's machine is copied into it.
     */
    static method SetStateMachine(pool: TaskPool<Runner<K>>, machine: StateMachine, debug: bool) returns (r: Runner<K>)
      modifies pool, if pool.root.Some? then {pool.root.value} else {}
      ensures r.stateMachine == Some(machine)
      ensures pool.gate == old(pool.gate)
      ensures old(pool.gate) == 0 ==> pool.Snapshot() == PopLinks(old(pool.Snapshot())).0
      ensures old(pool.gate) == 0 && old(pool.root).Some? ==> r == old(pool.root).value
      ensures old(pool.gate) != 0 || old(pool.root).None? ==>
                fresh(r) && fresh(r.core) && r.Valid() && r.core.State() == Fresh() && r.pool == pool
    {
      var ok, popped := pool.TryPop();
      if ok && popped.Some? {
        r := popped.value;
      } else {
        r := new Runner(pool, debug);
      }
      r.stateMachine := Some(machine);
    }

    /**
     * TryReturn: reset the core, drop the machine, push this runner (no
     * check that it is not pooled already).
     */
    method TryReturn()
      modifies this, core, pool
      ensures old(Valid()) ==> Valid()
      ensures core.State() == CoreReset(old(core.State()))
      ensures stateMachine == None
      ensures pool.gate == old(pool.gate)
      ensures old(pool.gate) == 0 && old(pool.size) < pool.maxPoolSize ==>
                pool.root == Some(this) && pool.Contents == [this] + old(pool.Contents)
      ensures old(pool.gate) != 0 || old(pool.size) >= pool.maxPoolSize ==> unchanged(pool)
    {
      core.Reset();
      stateMachine := None;
      var _ := pool.TryPush(this);
    }

    /**
     * GetResult (both interfaces): the core's outcome for this token,
     * and, whatever that outcome, TryReturn afterwards.
     */
    method GetResult(token: int) returns (r: Outcome<Value>)
      modifies this, core, pool
      ensures old(Valid()) ==> Valid()
      ensures r == CoreGetResult(old(core.State()), token).1
      ensures core.State() == CoreReset(CoreGetResult(old(core.State()), token).0)
      ensures stateMachine == None
      ensures old(pool.gate) == 0 && old(pool.size) < pool.maxPoolSize ==>
                pool.root == Some(this) && pool.Contents == [this] + old(pool.Contents)
      ensures old(pool.gate) != 0 || old(pool.size) >= pool.maxPoolSize ==> unchanged(pool)
    {
      r := core.GetResult(token);
      TryReturn();
    }

    method GetStatus(token: int) returns (r: Outcome<PromiseTaskStatus>)
      ensures r == CoreGetStatus(core.State(), token)
    {
      r := core.GetStatus(token);
    }

    function UnsafeGetStatus(): (s: PromiseTaskStatus)
      reads this, core
      ensures Valid() ==> (s == Pending <==> core.completedCount == 0)
    {
      core.UnsafeGetStatus()
    }

    /** SetResult: the core's TrySetResult; only the first completion counts. */
    method SetResult(v: Value) returns (run: Option<K>)
      modifies core
      ensures old(Valid()) ==> Valid()
      ensures (core.State(), run) == (CoreTrySetResult(old(core.State()), v).0, CoreTrySetResult(old(core.State()), v).2)
    {
      var _, k := core.TrySetResult(v);
      run := k;
    }

    /** SetException: the core's TrySetException. */
    method SetException(ex: Exn) returns (run: Option<K>)
      modifies core
      ensures old(Valid()) ==> Valid()
      ensures (core.State(), run) == (CoreTrySetException(old(core.State()), ex, core.wrapFaults).0,
                                      CoreTrySetException(old(core.State()), ex, core.wrapFaults).2)
    {
      var _, k := core.TrySetException(ex);
      run := k;
    }

    method OnCompleted(k: Option<K>, token: int) returns (r: Outcome<Option<K>>)
      modifies core
      ensures old(Valid()) ==> Valid()
      ensures (core.State(), r) == CoreOnCompleted(old(core.State()), k, token)
    {
      r := core.OnCompleted(k, token);
    }

    /** MoveNext: step the stored machine (which one is returned; the step itself is opaque). */
    method Run() returns (stepped: Option<StateMachine>)
      ensures stepped == stateMachine
    {
      stepped := stateMachine;
    }
  }

  /**
   * The single-threaded runtime's runner. Identical to `Runner` except
   * that its task handle's token was captured in the constructor (always
   * version 0) and its core always wraps faults.
   */
  class LightRunner<K> {
    var stateMachine: Option<StateMachine>
    const core: CompletionSourceCore<K>
    const pool: LightTaskPool<LightRunner<K>>
    const capturedToken: int

    ghost predicate Valid()
      reads this, core
    {
      core.Valid()
    }

    constructor(pool: LightTaskPool<LightRunner<K>>)
      ensures Valid() && fresh(core) && core.State() == Fresh() && stateMachine == None
      ensures this.pool == pool && capturedToken == core.version == 0
    {
      stateMachine := None;
      core := new CompletionSourceCore(true);
      this.pool := pool;
      capturedToken := 0;
    }

    static method SetStateMachine(pool: LightTaskPool<LightRunner<K>>, machine: StateMachine) returns (r: LightRunner<K>)
      modifies pool, if pool.root.Some? then {pool.root.value} else {}
      ensures r.stateMachine == Some(machine)
      ensures pool.Snapshot() == PopLinks(old(pool.Snapshot())).0
      ensures old(pool.root).Some? ==> r == old(pool.root).value
      ensures old(pool.root).None? ==>
                fresh(r) && fresh(r.core) && r.Valid() && r.core.State() == Fresh() && r.pool == pool
    {
      var ok, popped := pool.TryPop();
      if ok && popped.Some? {
        r := popped.value;
      } else {
        r := new LightRunner(pool);
      }
      r.stateMachine := Some(machine);
    }

    method GetResult(token: int) returns (r: Outcome<Value>)
      modifies this, core, pool
      ensures old(Valid()) ==> Valid()
      ensures r == CoreGetResult(old(core.State()), token).1
      ensures core.State() == CoreReset(CoreGetResult(old(core.State()), token).0)
      ensures stateMachine == None
      ensures old(pool.size) < pool.maxPoolSize ==> pool.root == Some(this) && pool.Contents == [this] + old(pool.Contents)
      ensures old(pool.size) >= pool.maxPoolSize ==> unchanged(pool)
    {
      r := core.GetResult(token);
      core.Reset();
      stateMachine := None;
      var _ := pool.TryPush(this);
    }

    method GetStatus(token: int) returns (r: Outcome<PromiseTaskStatus>)
      ensures r == CoreGetStatus(core.State(), token)
    {
      r := core.GetStatus(token);
    }

    method SetResult(v: Value) returns (run: Option<K>)
      modifies core
      ensures old(Valid()) ==> Valid()
      ensures (core.State(), run) == (CoreTrySetResult(old(core.State()), v).0, CoreTrySetResult(old(core.State()), v).2)
    {
      var _, k := core.TrySetResult(v);
      run := k;
    }

    method SetException(ex: Exn) returns (run: Option<K>)
      modifies core
      ensures old(Valid()) ==> Valid()
      ensures (core.State(), run) == (CoreTrySetException(old(core.State()), ex, core.wrapFaults).0,
                                      CoreTrySetException(old(core.State()), ex, core.wrapFaults).2)
    {
      var _, k := core.TrySetException(ex);
      run := k;
    }

    method OnCompleted(k: Option<K>, token: int) returns (r: Outcome<Option<K>>)
      modifies core
      ensures old(Valid()) ==> Valid()
      ensures (core.State(), r) == CoreOnCompleted(old(core.State()), k, token)
    {
      r := core.OnCompleted(k, token);
    }

    method Run() returns (stepped: Option<StateMachine>)
      ensures stepped == stateMachine
    {
      stepped := stateMachine;
    }

    /** The token a handle to this runner should carry: the core's current version. */
    function CurrentToken(): int
      reads core
    {
      core.Version()
    }
  }

  // ---------------------------------------------------------------------
  // Properties of a runner's life cycle, stated on its core
  // ---------------------------------------------------------------------

  /**
   * One use of a runner: the async method completes with `v`, the awaiter
   * reads the result with the token it was given, and TryReturn resets the
   * core. The reader gets `v`, and the token it used is stale afterwards.
   */
  lemma RunnerRoundTrip<K>(c: Core<K>, v: Value)
    requires Inv(c) && c.completedCount == 0
    ensures var done := CoreTrySetResult(c, v).0;
            var (read, r) := CoreGetResult(done, c.version);
            r == Return(v) && CoreReset(read).version != c.version
            && CoreGetResult(CoreReset(read), c.version).1 == Throw(InvalidOperation(TokenMismatch))
  {
  }

  /**
   * As written, GetResult resets the core and pushes the runner even when
   * the token is stale: a second GetResult on one handle fails the token
   * check and still pushes the runner a second time, so the free list
   * then hands the same runner out twice.
   */
  lemma StaleGetResultStillReturnsRunner<K>(c: Core<K>, token: int, r: K)
    requires Inv(c) && token != c.version
    ensures CoreGetResult(c, token).1 == Throw(InvalidOperation(TokenMismatch))
    ensures CoreReset(CoreGetResult(c, token).0).version != c.version
    ensures var s := PushLinks(PushLinks(Links(None, map[], 0), r), r);
            PopLinks(s).1 == Some(r) && PopLinks(PopLinks(s).0).1 == Some(r)
  {
    DoublePushRepeats(r);
  }

  /**
   * The single-threaded runner's captured handle goes stale once the
   * runner has been used: after one completion and one GetResult, the
   * version has moved on while the captured token is still 0, so every
   * later status query through that handle is refused.
   */
  lemma CapturedTokenGoesStale<K>(v: Value)
    ensures var c0 := Fresh<K>();
            var reused := CoreReset(CoreGetResult(CoreTrySetResult(c0, v).0, 0).0);
            && CoreGetStatus(reused, 0) == Throw(InvalidOperation(TokenMismatch))
            && CoreGetResult(CoreTrySetResult(reused, v).0, 0).1 == Throw(InvalidOperation(TokenMismatch))
  {
  }

  /**
   * A handle built from the core's current version (as the multi-threaded
   * runner does, and as `LightRunner.CurrentToken` does) passes the token
   * check at every version, so a reused runner's handle reads its result.
   */
  lemma CurrentTokenStaysValid<K>(c: Core<K>, v: Value)
    requires Inv(c)
    ensures var reused := CoreReset(c);
            && CoreGetStatus(reused, reused.version) == Return(Pending)
            && CoreGetResult(CoreTrySetResult(reused, v).0, reused.version).1 == Return(v)
  {
  }
}
