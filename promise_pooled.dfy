/**
 * The pooled generic `Promise<T>` (src/Promise/Impls/Promise.cs): the
 * members that only this engine has. A promise obtained from Create is
 * taken from the promise pool when one is there; GetResult disposes it,
 * which resets it and pushes it back; OnCompleted stores the await
 * continuation that a settlement runs.
 */
module PooledPromises {
  import opened Values
  import opened PromiseWorld
  import opened PromiseDispatch
  import TaskStatus

  /**
   * Create: pop a promise from the pool (clearing IsRecycled; the popped
   * promise keeps whatever Dispose left in it), or allocate a new pending
   * one.
   */
  function Create(w: World): (r: (World, Pid))
    requires Good(w)
    ensures Good(r.0) && Keeps(w, r.0) && r.0.log == w.log
    ensures r.1 in r.0.promises && !r.0.promises[r.1].recycled
    ensures w.promisePool != [] && w.promisePool[0] in w.promises ==>
              r.1 == w.promisePool[0] && r.0.promisePool == w.promisePool[1..]
              && r.0.promises == w.promises[r.1 := w.promises[r.1].(recycled := false)]
    ensures w.promisePool == [] ==>
              r.1 !in w.promises && r.0.promises[r.1].state == Pending && r.0.promisePool == []
  {
    if w.promisePool != [] && w.promisePool[0] in w.promises then
      var p := w.promisePool[0];
      (w.(promisePool := w.promisePool[1..], promises := w.promises[p := w.promises[p].(recycled := false)]), p)
    else
      NewPromise(w.(promisePool := if w.promisePool == [] then [] else w.promisePool[1..]), Pending, Default, None)
  }

  /**
   * Dispose, with `clearException` telling whether the rejection exception
   * is cleared too: the value becomes default, the state Pending and the
   * continuation null, then the promise is pushed into the pool, which
   * throws if it is already recycled.
   */
  function DisposeWith(w: World, p: Pid, clearException: bool): (r: (World, Flow))
    requires Good(w) && p in w.promises
    ensures Good(r.0) && r.0.log == w.log && r.0.gas == w.gas && r.0.promises.Keys == w.promises.Keys
    ensures r.1 == Thrown(ItemAlreadyRecycled) <==> w.promises[p].recycled
    ensures r.1 == Normal || r.1 == Thrown(ItemAlreadyRecycled)
    ensures var rec := r.0.promises[p];
            rec.state == Pending && rec.value == Default && rec.continuation == None && rec.recycled
            && rec.exn == (if clearException then None else w.promises[p].exn)
    ensures r.1.Normal? ==> r.0.promisePool == [p] + w.promisePool
    ensures forall q :: q in w.promises && q != p ==> r.0.promises[q] == w.promises[q]
  {
    var old_ := w.promises[p];
    var rec := old_.(value := Default, state := Pending, continuation := None,
                     exn := if clearException then None else old_.exn);
    if old_.recycled then (w.(promises := w.promises[p := rec]), Thrown(ItemAlreadyRecycled))
    else (w.(promises := w.promises[p := rec.(recycled := true)], promisePool := [p] + w.promisePool), Normal)
  }

  /** Dispose as written: `_rejectionException` survives. */
  function DisposeAsWritten(w: World, p: Pid): (r: (World, Flow))
    requires Good(w) && p in w.promises
    ensures Good(r.0)
    ensures p in r.0.promises && r.0.promises[p].exn == w.promises[p].exn
  {
    DisposeWith(w, p, false)
  }

  /** Dispose, corrected: a disposed promise carries no exception into its next use. */
  function Dispose(w: World, p: Pid): (r: (World, Flow))
    requires Good(w) && p in w.promises
    ensures Good(r.0) && r.0.promises.Keys == w.promises.Keys
    ensures r.0.promises[p].exn == None && r.0.promises[p].state == Pending
  {
    DisposeWith(w, p, true)
  }

  /**
   * GetResult: capture the value; if an exception is stored, dispose and
   * throw it; otherwise dispose and return the value. An exception from
   * Dispose's push escapes first. `clearException` chooses the Dispose.
   */
  function GetResultWith(w: World, p: Pid, clearException: bool): (r: (World, Outcome<Value>))
    requires Good(w)
    ensures Good(r.0)
    ensures p !in w.promises ==> r == (w, Throw(NullReference))
    ensures p in w.promises && !w.promises[p].recycled ==>
              r.1 == (if w.promises[p].exn.Some? then Throw(w.promises[p].exn.value) else Return(w.promises[p].value))
              && r.0.promisePool == [p] + w.promisePool
    ensures p in w.promises && w.promises[p].recycled ==> r.1 == Throw(ItemAlreadyRecycled)
    ensures p in w.promises ==> p in r.0.promises && r.0.promises[p].state == Pending && r.0.promises[p].recycled
  {
    if p !in w.promises then (w, Throw(NullReference))
    else
      var value := w.promises[p].value;
      var ex := w.promises[p].exn;
      var (w1, f) := DisposeWith(w, p, clearException);
      if f.Thrown? then (w1, Throw(f.e))
      else if ex.Some? then (w1, Throw(ex.value))
      else (w1, Return(value))
  }

  function GetResultAsWritten(w: World, p: Pid): (r: (World, Outcome<Value>))
    requires Good(w)
    ensures Good(r.0)
  {
    GetResultWith(w, p, false)
  }

  function GetResult(w: World, p: Pid): (r: (World, Outcome<Value>))
    requires Good(w)
    ensures Good(r.0)
  {
    GetResultWith(w, p, true)
  }

  /**
   * GetStatus: the state mapped to a task status. The mapping
   * (ToTaskStatus) is not part of this model; the natural one (Pending, Succeeded, Faulted) is used.
   */
  function GetStatus(w: World, p: Pid): (r: Outcome<TaskStatus.PromiseTaskStatus>)
    ensures p !in w.promises ==> r == Throw(NullReference)
    ensures p in w.promises ==> r.Return? && (r.value == TaskStatus.Pending <==> w.promises[p].state == Pending)
    ensures p in w.promises ==> (r.value == TaskStatus.Succeeded <==> w.promises[p].state == Resolved)
    ensures p in w.promises ==> (r.value == TaskStatus.Faulted <==> w.promises[p].state == Rejected)
  {
    if p !in w.promises then Throw(NullReference)
    else match w.promises[p].state
      case Pending => Return(TaskStatus.Pending)
      case Resolved => Return(TaskStatus.Succeeded)
      case Rejected => Return(TaskStatus.Faulted)
  }

  /** OnCompleted: store (overwrite) the await continuation; the token is ignored. */
  function OnCompleted(w: World, p: Pid, k: nat): (r: World)
    requires Good(w)
    ensures Good(r) && Keeps(w, r) && r.log == w.log
    ensures p in w.promises ==> r.promises == w.promises[p := w.promises[p].(continuation := Some(k))]
    ensures p !in w.promises ==> r == w
  {
    if p in w.promises then w.(promises := w.promises[p := w.promises[p].(continuation := Some(k))]) else w
  }
}
