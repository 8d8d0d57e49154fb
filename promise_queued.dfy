/**
 * The non-generic `Promise` (src/Promise/Impls/Promise_NoGeneric.cs): the
 * members that only this engine has. Its statics hand out one shared
 * resolved promise, and `Then(Func<IPromise>)` chains a promise-returning
 * callback: the produced promise's progress and settlement are forwarded
 * to the promise Then returns.
 */
module QueuedPromises {
  import opened Values
  import opened PromiseWorld
  import opened PromiseDispatch

  /** RejectedWithoutDebug(ex) (and Rejected(ex)): a new promise, already rejected with `ex`. */
  function RejectedWithoutDebug(w: World, e: Exn): (r: (World, Pid))
    requires Good(w)
    ensures Good(r.0) && Keeps(w, r.0) && Calm(w, r.0)
    ensures r.1 !in w.promises && r.1 in r.0.promises
    ensures r.0.promises[r.1].state == Rejected && r.0.promises[r.1].exn == Some(e)
  {
    NewPromise(w, Rejected, Default, Some(e))
  }

  /**
   * Then(Func<IPromise> onResolved, onRejected, onProgress).
   *   - Resolved: the callback runs at once and its promise is returned
   *     as it is; an exception (a null callback included) gives a new
   *     rejected promise.
   *   - Rejected: as for Then(Action): onRejected runs and the shared
   *     resolved promise is returned, or a new rejected promise carries
   *     the exception on.
   *   - Pending: a new promise `t`; the resolve handler calls the callback
   *     and chains `t` behind the promise it produced (a null callback
   *     resolves `t`); the reject handler runs onRejected then resolves
   *     `t`, or rejects `t`; onProgress is queued on this promise.
   */
  function ThenChain(w: World, p: Pid, producer: Option<Producer>, onRejected: Option<Action>, onProgress: Option<Action>): (r: (World, Flow, Pid))
    requires Good(w) && w.engine == Queued
    ensures Good(r.0) && Keeps(w, r.0)
    ensures p !in w.promises ==> r.1 == Thrown(NullReference)
    ensures IsPending(w, p) ==> r.1 == Normal && Calm(w, r.0) && r.2 == w.next && IsPending(r.0, r.2)
    ensures IsPending(w, p) ==>
              Handler(if producer.Some? then [Action.Chain(producer.value, r.2)] else [ResolveEmpty(r.2)], r.2) in HandlersOf(r.0, p, OnResolve)
    ensures p in w.promises && w.promises[p].state == Resolved && producer.None? ==>
              r.1 == Normal && r.2 !in w.promises && r.2 in r.0.promises && r.0.promises[r.2].state == Rejected
              && r.0.promises[r.2].exn == Some(NullReference)
    ensures p in w.promises && w.promises[p].state == Rejected && onRejected.None? ==>
              r.1 == Normal && r.2 !in w.promises && r.2 in r.0.promises && r.0.promises[r.2].state == Rejected
              && r.0.promises[r.2].exn == w.promises[p].exn && r.0.log == w.log
  {
    if p !in w.promises then (w, Thrown(NullReference), 0)
    else
      var rec := w.promises[p];
      if rec.state == Resolved then
        if producer.None? then Shortcut(w, Thrown(NullReference), None)
        else
          var (w1, f, q) := RunProducer(w, producer.value);
          if f.Normal? then (w1, Normal, q) else Shortcut(w1, f, None)
      else if rec.state == Rejected then
        ThenRejectedBare(w, p);
        Then(w, p, None, onRejected, None)
      else Chain(w, p, producer, onRejected, onProgress)
  }

  /** The pending half of ThenChain. */
  function Chain(w: World, p: Pid, producer: Option<Producer>, onRejected: Option<Action>, onProgress: Option<Action>): (r: (World, Flow, Pid))
    requires Good(w) && w.engine == Queued && IsPending(w, p)
    ensures Good(r.0) && Keeps(w, r.0)
    ensures r.1 == Normal && Calm(w, r.0) && r.2 == w.next && IsPending(r.0, r.2)
    ensures Handler(if producer.Some? then [Action.Chain(producer.value, r.2)] else [ResolveEmpty(r.2)], r.2) in HandlersOf(r.0, p, OnResolve)
  {
    var (w1, t) := NewPromise(w, Pending, Default, None);
    NewPromiseCalm(w, Pending, Default, None);
    assert IsPending(w1, p) && IsPending(w1, t);
    var res := Handler(if producer.Some? then [Action.Chain(producer.value, t)] else [ResolveEmpty(t)], t);
    var rej := Handler(if onRejected.Some? then [onRejected.value, ResolveEmpty(t)] else [RejectWith(t)], t);
    var r := Attach(w1, p, res, rej, if onProgress.Some? then Some(Handler([onProgress.value], p)) else None);
    KeepsTrans(w, w1, r.0);
    CalmTrans(w, w1, r.0);
    (r.0, r.1, t)
  }
}
