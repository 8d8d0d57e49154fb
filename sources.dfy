/**
 * The two simple task sources: a source that is faulted from the start
 * (`ExceptionResultSource`, identical in the multi-threaded and the
 * single-threaded runtime, generic and not), and the pooled
 * `PromiseTaskSource`, whose status is set by its user.
 *
 * Continuations are a type parameter `K`; an operation that would invoke a
 * continuation returns it instead, to be run by the caller.
 */
module TaskSources {
  import opened Values
  import opened TaskStatus
  import opened Pools

  /**
   * A source that holds one exception. Its status is Faulted whatever the
   * token, and every GetResult rethrows the exception.
   */
  class ExceptionResultSource {
    const exception: Exn
    var calledGet: bool

    constructor(exception: Exn)
      ensures this.exception == exception && !calledGet
    {
      this.exception := exception;
      calledGet := false;
    }

    /** GetResult (generic or not): remember the call, then throw. */
    method GetResult(token: int) returns (r: Outcome<Value>)
      modifies this
      ensures r == Throw(exception)
      ensures calledGet
    {
      if !calledGet {
        calledGet := true;
      }
      r := Throw(exception);
    }

    /** GetStatus and UnsafeGetStatus: the token is ignored. */
    function GetStatus(token: int): (s: PromiseTaskStatus)
      ensures IsFaulted(s) && IsCompleted(s) && !IsCanceled(s)
    {
      Faulted
    }

    /** OnCompleted runs the continuation at once; a null one runs nothing. */
    method OnCompleted<K>(k: Option<K>, token: int) returns (run: Option<K>)
      ensures run == k
    {
      run := k;
    }
  }

  /**
   * GetResult on an exception source never returns normally, and after
   * the first call it stays marked as observed: a second call throws the
   * same exception again.
   */
  method GetResultTwice(s: ExceptionResultSource, t1: int, t2: int) returns (r1: Outcome<Value>, r2: Outcome<Value>)
    modifies s
    ensures r1.Threw() && r1 == r2
    ensures s.calledGet
  {
    r1 := s.GetResult(t1);
    r2 := s.GetResult(t2);
  }

  /**
   * A pooled source whose status, result and pending continuation are
   * plain fields. All instances of one C# type share one static pool; in
   * the model the pool is an explicit object, passed to `Create` and kept
   * by each source.
   */
  class PromiseTaskSource<K> {
    var status: PromiseTaskStatus
    var result: Value
    var registerAction: Option<K>
    const pool: TaskPool<PromiseTaskSource<K>>

    constructor(pool: TaskPool<PromiseTaskSource<K>>, value: Value)
      ensures this.pool == pool
      ensures status == Pending && result == value && registerAction == None
    {
      this.pool := pool;
      status := Pending;
      result := value;
      registerAction := None;
    }

    /**
     * Create (generic): a pooled source if one can be popped, a new one
     * otherwise; either way its result is the given value.
     */
    static method Create(pool: TaskPool<PromiseTaskSource<K>>, value: Value) returns (s: PromiseTaskSource<K>)
      modifies pool, if pool.root.Some? then {pool.root.value} else {}
      ensures s.result == value
      ensures old(pool.gate) == 0 && old(pool.root).Some? ==> s == old(pool.root).value
      ensures old(pool.gate) != 0 || old(pool.root).None? ==> fresh(s) && s.pool == pool && s.status == Pending
      ensures pool.gate == old(pool.gate)
      ensures old(pool.gate) == 0 ==> pool.Snapshot() == PopLinks(old(pool.Snapshot())).0
      ensures old(pool.gate) != 0 ==> unchanged(pool)
    {
      var ok, popped := pool.TryPop();
      if ok && popped.Some? {
        s := popped.value;
        s.result := value;
      } else {
        s := new PromiseTaskSource(pool, value);
      }
    }

    /**
     * Create (non-generic): a pooled source if one can be popped, a new
     * one otherwise; nothing else is set.
     */
    static method CreateVoid(pool: TaskPool<PromiseTaskSource<K>>) returns (s: PromiseTaskSource<K>)
      modifies pool, if pool.root.Some? then {pool.root.value} else {}
      ensures old(pool.gate) == 0 && old(pool.root).Some? ==> s == old(pool.root).value
      ensures old(pool.gate) != 0 || old(pool.root).None? ==> fresh(s) && s.pool == pool && s.status == Pending
      ensures pool.gate == old(pool.gate)
      ensures old(pool.gate) == 0 ==> pool.Snapshot() == PopLinks(old(pool.Snapshot())).0
      ensures old(pool.gate) != 0 ==> unchanged(pool)
    {
      var ok, popped := pool.TryPop();
      if ok && popped.Some? {
        s := popped.value;
      } else {
        s := new PromiseTaskSource(pool, Default);
      }
    }

    /**
     * TryReturn: push this source back (whether or not it is already
     * pooled), then clear result, status and continuation.
     */
    method TryReturn()
      modifies this, pool
      ensures result == Default && status == Pending && registerAction == None
      ensures pool.gate == old(pool.gate)
      ensures old(pool.gate) == 0 && old(pool.size) < pool.maxPoolSize ==>
                pool.Snapshot() == PushLinks(old(pool.Snapshot()), this) && pool.Contents == [this] + old(pool.Contents)
      ensures old(pool.gate) != 0 || old(pool.size) >= pool.maxPoolSize ==> unchanged(pool)
    {
      var _ := pool.TryPush(this);
      result := Default;
      status := Pending;
      registerAction := None;
    }

    /**
     * GetResult (generic): the result as it was before TryReturn cleared
     * it. The token is not checked, so each call pushes the source again.
     */
    method GetResult(token: int) returns (r: Value)
      modifies this, pool
      ensures r == old(result)
      ensures result == Default && status == Pending && registerAction == None
      ensures old(pool.gate) == 0 && old(pool.size) < pool.maxPoolSize ==>
                pool.root == Some(this) && pool.Contents == [this] + old(pool.Contents)
      ensures old(pool.gate) != 0 || old(pool.size) >= pool.maxPoolSize ==> unchanged(pool)
    {
      r := result;
      TryReturn();
    }

    /** GetResult (non-generic, and the non-generic interface of the generic one): TryReturn only. */
    method GetResultVoid(token: int)
      modifies this, pool
      ensures result == Default && status == Pending && registerAction == None
      ensures old(pool.gate) == 0 && old(pool.size) < pool.maxPoolSize ==>
                pool.Contents == [this] + old(pool.Contents)
      ensures old(pool.gate) != 0 || old(pool.size) >= pool.maxPoolSize ==> unchanged(pool)
    {
      TryReturn();
    }

    /** GetStatus and UnsafeGetStatus: the status field; the token is ignored. */
    function GetStatus(token: int): (s: PromiseTaskStatus)
      reads this
      ensures s == status
    {
      status
    }

    /** OnCompleted only overwrites the stored continuation; this class never runs it. */
    method OnCompleted(k: Option<K>, token: int)
      modifies this
      ensures registerAction == k
      ensures status == old(status) && result == old(result)
    {
      registerAction := k;
    }
  }

  /**
   * A value handed to Create is what the next GetResult returns; the
   * source is then cleared and back at the top of its pool (when the gate
   * is free and the pool below its cap).
   */
  method CreateThenGet<K>(pool: TaskPool<PromiseTaskSource<K>>, value: Value) returns (s: PromiseTaskSource<K>, r: Value)
    requires pool.gate == 0 && pool.size < pool.maxPoolSize
    requires pool.root.Some? ==> pool.root.value.pool == pool   // one static pool per type
    modifies pool, if pool.root.Some? then {pool.root.value} else {}
    ensures r == value
    ensures pool.root == Some(s) && s.result == Default && s.status == Pending
  {
    s := PromiseTaskSource.Create(pool, value);
    r := s.GetResult(0);
  }
}
