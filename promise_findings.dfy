/**
 * Four places where the promise engines, as written, let a promise's past
 * or another promise's state leak into its later use. The engines run the
 * code as written; each finding is shown on a world where it happens, next
 * to the corrected definition and what it guarantees instead.
 *
 *   - The pooled engine's Dispose keeps the rejection exception, so a
 *     pooled promise that was rejected once rethrows that exception after
 *     its next, successful, use.
 *   - The pooled engine's ClearHandlers pushes the progress list but keeps
 *     pointing at it, so the next ClearHandlers of that promise pushes it
 *     again and the pool throws.
 *   - The non-generic engine's ClearHandlers enqueues its lists but keeps
 *     pointing at them, so once another promise has taken such a list a
 *     second ClearHandlers (Cancel, Dispose) empties that promise's
 *     handlers.
 *   - Race's progress handler in the pooled and non-generic engines reports
 *     to the result without checking it is still pending, so an input that
 *     reports progress after the race is decided is rejected.
 */
module PromiseFindings {
  import opened Values
  import opened PromiseWorld
  import opened PromiseDispatch
  import PooledPromises
  import PromiseProperties

  /** A pooled promise that was rejected with `e` and not yet read. */
  predicate RejectedUnread(w: World, p: Pid, e: Exn)
  {
    && w.engine == Pooled && p in w.promises && w.promisePool == []
    && w.promises[p].state == Rejected && w.promises[p].exn == Some(e)
    && !w.promises[p].recycled && NoLists(w.promises[p]) && w.promises[p].continuation == None
  }

  /**
   * As written: GetResult of the rejected promise throws `e` and pools
   * the promise with `e` still in it; Create hands the same promise out
   * again; it is resolved with `v`, and GetResult throws `e` once more.
   */
  lemma ReusedPromiseRethrowsAsWritten(w: World, p: Pid, e: Exn, v: Value)
    requires Good(w) && RejectedUnread(w, p, e)
    ensures var (w1, o1) := PooledPromises.GetResultAsWritten(w, p);
            var (w2, q) := PooledPromises.Create(w1);
            var (w3, f3) := Resolve(w2, q, v);
            && o1 == Throw(e) && q == p && f3 == Normal && w3.promises[p].state == Resolved
            && PooledPromises.GetResultAsWritten(w3, p).1 == Throw(e)
  {
    var (w1, o1) := PooledPromises.GetResultAsWritten(w, p);
    var (w2, q) := PooledPromises.Create(w1);
    assert q == p && IsPending(w2, p) && NoLists(w2.promises[p]) && w2.promises[p].exn == Some(e);
    QuietResolve(w2, p, v);
  }

  /**
   * Corrected: the same sequence reads back `v`. A disposed promise
   * carries no exception, so its next resolution is what GetResult returns.
   */
  lemma ReusedPromiseReturnsValue(w: World, p: Pid, e: Exn, v: Value)
    requires Good(w) && RejectedUnread(w, p, e)
    ensures var (w1, o1) := PooledPromises.GetResult(w, p);
            var (w2, q) := PooledPromises.Create(w1);
            var (w3, f3) := Resolve(w2, q, v);
            && o1 == Throw(e) && q == p && f3 == Normal
            && PooledPromises.GetResult(w3, p).1 == Return(v)
  {
    var (w1, o1) := PooledPromises.GetResult(w, p);
    var (w2, q) := PooledPromises.Create(w1);
    assert q == p && IsPending(w2, p) && NoLists(w2.promises[p]) && w2.promises[p].exn == None;
    QuietResolve(w2, p, v);
  }

  /**
   * Corrected ClearHandlers is idempotent: once it has completed, the
   * promise holds no list, and clearing it again changes nothing.
   */
  lemma ClearIdempotent(w: World, p: Pid)
    requires Good(w)
    ensures var (w1, f1) := ClearHandlers(w, p);
            f1 == Normal ==> ClearHandlers(w1, p) == (w1, Normal)
  {
    var (w1, f1) := ClearHandlers(w, p);
    if f1 == Normal && p in w.promises {
      ClearWithoutLists(w1, p);
    }
  }

  /** A pooled promise whose only list is a progress list `l` that is not in the pool. */
  predicate ProgressOnly(w: World, p: Pid, l: Lid)
  {
    && w.engine == Pooled && p in w.promises && w.promisePool == [] && !w.promises[p].recycled
    && w.promises[p].resolves == None && w.promises[p].rejects == None && w.promises[p].progresses == Some(l)
    && l !in w.recycledLists
  }

  /**
   * As written (pooled engine): ClearHandlers pushes the progress list and
   * keeps it; Dispose and Create hand the promise out again with the list
   * still attached, and its next ClearHandlers pushes the list a second
   * time, which the pool refuses.
   */
  lemma StaleProgressListAsWritten(w: World, p: Pid, l: Lid)
    requires Good(w) && ProgressOnly(w, p, l)
    ensures var (w1, f1) := ClearHandlersAsWritten(w, p);
            var (w2, f2) := PooledPromises.Dispose(w1, p);
            var (w3, q) := PooledPromises.Create(w2);
            && f1 == Normal && f2 == Normal && q == p && w3.promises[p].progresses == Some(l)
            && ClearHandlersAsWritten(w3, p).1 == Thrown(ItemAlreadyRecycled)
  {
    PushedAndKept(w, p, l);
    var (w1, f1) := ClearHandlersAsWritten(w, p);
    var (w2, f2) := PooledPromises.Dispose(w1, p);
    assert l in w2.recycledLists && w2.promises[p].progresses == Some(l) && w2.promisePool == [p];
    var (w3, q) := PooledPromises.Create(w2);
    assert l in w3.recycledLists && w3.promises[p] == w2.promises[p].(recycled := false);
    PushedAgain(w3, p, l);
  }

  /** The first ClearHandlers as written: `l` is pushed, and the field still holds it. */
  lemma PushedAndKept(w: World, p: Pid, l: Lid)
    requires Good(w) && ProgressOnly(w, p, l)
    ensures var (w1, f1) := ClearHandlersAsWritten(w, p);
            && f1 == Normal && l in w1.recycledLists && w1.promisePool == [] && p in w1.promises
            && w1.promises[p] == w.promises[p]
  {
    var rec := w.promises[p];
    var w0 := ClearLists(w, rec);
    assert PushAll(w0, rec) == PushList(w0, OnProgress, l);
  }

  /** A second ClearHandlers as written on a promise whose progress list is already pooled throws. */
  lemma PushedAgain(w: World, p: Pid, l: Lid)
    requires Good(w) && w.engine == Pooled && p in w.promises && l in w.recycledLists
    requires w.promises[p].resolves == None && w.promises[p].rejects == None && w.promises[p].progresses == Some(l)
    ensures ClearHandlersAsWritten(w, p).1 == Thrown(ItemAlreadyRecycled)
  {
    var rec := w.promises[p];
    var w0 := ClearLists(w, rec);
    assert PushAll(w0, rec) == PushList(w0, OnProgress, l);
  }

  /** Corrected: the same sequence ends with a second ClearHandlers that completes normally. */
  lemma StaleProgressListCorrected(w: World, p: Pid, l: Lid)
    requires Good(w) && ProgressOnly(w, p, l)
    ensures var (w1, f1) := ClearHandlers(w, p);
            var (w2, f2) := PooledPromises.Dispose(w1, p);
            var (w3, q) := PooledPromises.Create(w2);
            && f1 == Normal && f2 == Normal && q == p && NoLists(w3.promises[p])
            && ClearHandlers(w3, p) == (w3, Normal)
  {
    var rec := w.promises[p];
    var w0 := ClearLists(w, rec);
    assert w0.recycledLists == w.recycledLists;
    assert PushAll(w0, rec) == PushList(w0, OnProgress, l);
    var (w1, f1) := ClearHandlers(w, p);
    var (w2, f2) := PooledPromises.Dispose(w1, p);
    var (w3, q) := PooledPromises.Create(w2);
    ClearWithoutLists(w3, p);
  }

  /**
   * Two promises of the non-generic engine: `p` holds the resolve list `l`
   * and no other list; `q` holds no resolve list; the resolve queue is empty.
   */
  predicate SharesNext(w: World, p: Pid, q: Pid, l: Lid)
  {
    && w.engine == Queued && p in w.promises && q in w.promises && p != q && w.resolvePool == []
    && w.promises[p].resolves == Some(l) && w.promises[p].rejects == None && w.promises[p].progresses == None
    && w.promises[q].resolves == None
  }

  /**
   * As written (non-generic engine): ClearHandlers of `p` enqueues `l` and
   * keeps pointing at it; `q` takes `l` for its first resolve handler `h`,
   * so `p` now shows `h` too; a second ClearHandlers of `p` (Cancel,
   * Dispose) empties `l`, and `q` has lost `h`.
   */
  lemma SharedListAsWritten(w: World, p: Pid, q: Pid, l: Lid, h: Handler)
    requires Good(w) && SharesNext(w, p, q, l)
    ensures var (w1, f1) := ClearHandlersAsWritten(w, p);
            var w2 := AddHandler(w1, q, OnResolve, h);
            var (w3, f3) := ClearHandlersAsWritten(w2, p);
            && f1 == Normal && HandlersOf(w2, q, OnResolve) == [h] && HandlersOf(w2, p, OnResolve) == [h]
            && f3 == Normal && HandlersOf(w3, q, OnResolve) == []
  {
    EnqueuedAndKept(w, p, q, l);
    var (w1, f1) := ClearHandlersAsWritten(w, p);
    TakesQueued(w1, q, l, h);
    var w2 := AddHandler(w1, q, OnResolve, h);
    assert w2.promises[p] == w.promises[p];
    EmptiedAgain(w2, p, q, l);
  }

  /** The next resolve handler added to a promise without a resolve list goes into the list at the head of the queue. */
  lemma TakesQueued(w: World, q: Pid, l: Lid, h: Handler)
    requires Good(w) && w.engine == Queued && q in w.promises && w.promises[q].resolves == None
    requires w.resolvePool == [l] && ListAt(w, l) == []
    ensures var r := AddHandler(w, q, OnResolve, h);
            r.promises[q].resolves == Some(l) && ListAt(r, l) == [h]
  {
  }

  /** The first ClearHandlers as written: `l` is emptied and enqueued, and `p` still holds it. */
  lemma EnqueuedAndKept(w: World, p: Pid, q: Pid, l: Lid)
    requires Good(w) && SharesNext(w, p, q, l)
    ensures var (w1, f1) := ClearHandlersAsWritten(w, p);
            && f1 == Normal && w1.resolvePool == [l] && w1.promises == w.promises && ListAt(w1, l) == []
  {
    var rec := w.promises[p];
    var w0 := ClearLists(w, rec);
    assert PushAll(w0, rec) == PushList(w0, OnResolve, l);
  }

  /** ClearHandlers as written of `p` empties the list `q` shares with it. */
  lemma EmptiedAgain(w: World, p: Pid, q: Pid, l: Lid)
    requires Good(w) && w.engine == Queued && p in w.promises && q in w.promises
    requires w.promises[p].resolves == Some(l) && w.promises[q].resolves == Some(l)
    ensures var (w1, f1) := ClearHandlersAsWritten(w, p);
            f1 == Normal && HandlersOf(w1, q, OnResolve) == []
  {
    var rec := w.promises[p];
    assert ListAt(ClearLists(w, rec), l) == [];
  }

  /** Corrected: the second ClearHandlers of `p` leaves `q`'s handler in place. */
  lemma SharedListCorrected(w: World, p: Pid, q: Pid, l: Lid, h: Handler)
    requires Good(w) && SharesNext(w, p, q, l)
    ensures var (w1, f1) := ClearHandlers(w, p);
            var w2 := AddHandler(w1, q, OnResolve, h);
            var (w3, f3) := ClearHandlers(w2, p);
            && f1 == Normal && HandlersOf(w2, p, OnResolve) == [] && HandlersOf(w3, q, OnResolve) == HandlersOf(w2, q, OnResolve)
            && h in HandlersOf(w3, q, OnResolve)
  {
    var (w1, f1) := ClearHandlers(w, p);
    var w2 := AddHandler(w1, q, OnResolve, h);
    assert w2.promises[p] == w1.promises[p];
    ClearWithoutLists(w2, p);
  }

  /**
   * An input `q` of a race whose result is already settled: `q` is pending,
   * its only list is the progress list `l`, holding the race's progress
   * handler `a` with `q` as its rejectable. The scenario is reduced: the
   * resolve and reject handlers that Combine also attaches to a real input
   * are left out, so that rejecting `q` runs no handler of its own.
   */
  predicate LateRaceInput(w: World, q: Pid, g: Gid, l: Lid, a: Action)
  {
    && w.engine != Legacy && w.gas > 0 && g in w.groups
    && w.groups[g].result in w.promises && w.promises[w.groups[g].result].state != Pending
    && IsPending(w, q) && w.promises[q].resolves == None && w.promises[q].rejects == None
    && w.promises[q].progresses == Some(l) && ListAt(w, l) == [Handler([a], q)]
    && l !in w.recycledLists && w.promises[q].continuation == None
  }

  /** Race's unguarded progress closure, once the result is settled, throws the state error. */
  lemma LateReportThrows(w: World, g: Gid, i: nat, arg: Arg)
    requires Good(w) && g in w.groups && w.groups[g].result in w.promises
    requires w.promises[w.groups[g].result].state != Pending
    ensures RunActions(w, [ReportMax(g, i)], arg).1 == Thrown(StateError(w.engine, ProgressState))
    ensures var r := RunActions(w, [ReportMax(g, i)], arg);
            && r.0.promises == w.promises && r.0.lists == w.lists && r.0.recycledLists == w.recycledLists
            && r.0.gas == w.gas && r.0.log == w.log
  {
    var gr := w.groups[g];
    var gr1 := gr.(progress := Put(gr.progress, i, ProgressOf(arg)));
    var w1 := w.(groups := w.groups[g := gr1]);
    assert GroupProgress(w, ReportMax(g, i), arg) == (w1, Thrown(StateError(w.engine, ProgressState)));
    assert RunAction(w, ReportMax(g, i), arg) == GroupAction(w, ReportMax(g, i), arg);
  }

  /**
   * The promise `q` holds only the progress list `l`, which is empty and
   * still attached: what ClearHandlers as written leaves behind in the
   * pooled and non-generic engines.
   */
  predicate KeepsEmptyProgress(w: World, q: Pid, l: Lid)
  {
    && q in w.promises && w.promises[q].resolves == None && w.promises[q].rejects == None
    && w.promises[q].progresses == Some(l) && ListAt(w, l) == []
  }

  /**
   * Rejecting a pending promise whose only list is a progress list that is
   * not pooled yet: no handler runs, ClearHandlers completes, and the
   * promise ends rejected, still holding its emptied progress list.
   */
  lemma QuietReject(w: World, q: Pid, l: Lid, e: Exn)
    requires Good(w) && w.engine != Legacy && IsPending(w, q) && w.promises[q].resolves == None && w.promises[q].rejects == None
    requires w.promises[q].progresses == Some(l) && l !in w.recycledLists && w.promises[q].continuation == None
    ensures var r := Reject(w, q, Some(e));
            && r.1 == Normal && r.0.promises[q].state == Rejected
            && r.0.promises[q].exn == Some(e) && KeepsEmptyProgress(r.0, q, l)
  {
    var w1 := MarkSettled(w, q, Rejected, w.promises[q].value, Some(e));
    ProgressOnlySettled(w1, q, l, OfExn(Some(e)));
    assert Reject(w, q, Some(e)) == Settled(w1, q, OnReject, OfExn(Some(e)));
  }

  /** Rejecting a promise that holds only a progress list completes normally and keeps that list, emptied. */
  lemma ProgressOnlySettled(w: World, q: Pid, l: Lid, arg: Arg)
    requires Good(w) && w.engine != Legacy && q in w.promises && w.promises[q].resolves == None && w.promises[q].rejects == None
    requires w.promises[q].progresses == Some(l) && l !in w.recycledLists && w.promises[q].continuation == None
    ensures var r := Settled(w, q, OnReject, arg);
            r.1 == Normal && KeepsEmptyProgress(r.0, q, l)
  {
    assert Notify(w, q, OnReject, arg) == (w, Normal);
    ClearProgressOnly(w, q, l);
    var (w2, f2) := ClearHandlersAsWritten(w, q);
    assert Finish(w, q) == (Resume(w2, q), Normal);
    assert Resume(w2, q) == w2;
  }

  /** ClearHandlers as written, of a promise whose only list is a progress list not pooled yet, completes and keeps that list. */
  lemma ClearProgressOnly(w: World, q: Pid, l: Lid)
    requires Good(w) && w.engine != Legacy && q in w.promises && w.promises[q].resolves == None && w.promises[q].rejects == None
    requires w.promises[q].progresses == Some(l) && l !in w.recycledLists
    ensures var r := ClearHandlersAsWritten(w, q);
            r.1 == Normal && KeepsEmptyProgress(r.0, q, l) && r.0.promises[q].continuation == w.promises[q].continuation
  {
    var rec := w.promises[q];
    var w0 := ClearLists(w, rec);
    assert PushAll(w0, rec) == PushList(w0, OnProgress, l);
    assert HandlersOf(ClearHandlersAsWritten(w, q).0, q, OnProgress) == [];
  }

  /**
   * The race's progress handler runs on `q` and throws; the exception
   * rejects `q` itself, which keeps its progress list, now empty.
   */
  lemma LateInvokeRejects(w: World, q: Pid, g: Gid, i: nat, l: Lid, x: real)
    requires Good(w) && LateRaceInput(w, q, g, l, ReportMax(g, i))
    ensures var r := Invoke(w, Handler([ReportMax(g, i)], q), OfProgress(x));
            && r.1 == Normal && r.0.promises[q].state == Rejected
            && r.0.promises[q].exn == Some(InvalidState(ProgressState)) && KeepsEmptyProgress(r.0, q, l)
  {
    var w0 := w.(gas := w.gas - 1);
    LateReportThrows(w0, g, i, OfProgress(x));
    PromiseProperties.InvokeUnfold(w, Handler([ReportMax(g, i)], q), OfProgress(x));
    var w1 := RunActions(w0, [ReportMax(g, i)], OfProgress(x)).0;
    QuietReject(w1, q, l, InvalidState(ProgressState));
  }

  /**
   * As written (pooled and non-generic engines): an input that reports
   * progress after the race is decided is rejected with the result's
   * progress-state error, although nothing went wrong with the input
   * itself. Its own ReportProgress then completes normally: the loop finds
   * the progress list emptied and stops.
   */
  lemma RaceLateProgressAsWritten(w: World, q: Pid, g: Gid, i: nat, l: Lid, x: real)
    requires Good(w) && LateRaceInput(w, q, g, l, ReportMax(g, i))
    ensures var r := ReportProgress(w, q, x);
            && r.1 == Normal && q in r.0.promises && r.0.promises[q].state == Rejected
            && r.0.promises[q].exn == Some(InvalidState(ProgressState))
  {
    var arg := OfProgress(x);
    LateInvokeRejects(w, q, g, i, l, x);
    assert HandlersOf(w, q, OnProgress) == [Handler([ReportMax(g, i)], q)];
    RaceStep(w, q, x);
    var w1 := Invoke(w, Handler([ReportMax(g, i)], q), arg).0;
    LoopDone(w1, q, OnProgress, 1, arg);
  }

  /** The first turn of a progress loop that completes normally hands over to the second. */
  lemma RaceStep(w: World, q: Pid, x: real)
    requires Good(w) && w.engine != Legacy && IsPending(w, q) && ListOf(w.promises[q], OnProgress).Some?
    requires |HandlersOf(w, q, OnProgress)| == 1
    ensures var r := Invoke(w, HandlersOf(w, q, OnProgress)[0], OfProgress(x));
            r.1 == Normal ==> ReportProgress(w, q, x) == RunHandlers(r.0, q, OnProgress, 1, None, OfProgress(x))
  {
    assert ReportProgress(w, q, x) == RunHandlers(w, q, OnProgress, 0, None, OfProgress(x));
    PromiseProperties.RunHandlersStep(w, q, OnProgress, 0, None, OfProgress(x));
  }

  /**
   * Corrected: Race's progress closure does nothing once the result is
   * settled, and reports the maximum while it is pending.
   */
  lemma GuardedRaceProgress(w: World, g: Gid, i: nat, arg: Arg)
    requires Good(w) && g in w.groups
    ensures var R := w.groups[g].result;
            var gr1 := w.groups[g].(progress := Put(w.groups[g].progress, i, ProgressOf(arg)));
            && (!IsPending(w, R) ==> RunAction(w, ReportMaxGuarded(g, i), arg) == (w, Normal))
            && (IsPending(w, R) ==> RunAction(w, ReportMaxGuarded(g, i), arg)
                                    == ReportProgress(w.(groups := w.groups[g := gr1]), R, Max(gr1.progress)))
  {
    assert RunAction(w, ReportMaxGuarded(g, i), arg) == GroupAction(w, ReportMaxGuarded(g, i), arg)
        == GroupProgress(w, ReportMaxGuarded(g, i), arg);
  }

  /** Corrected: the same late report leaves the input pending; only the handler's gas is spent. */
  lemma RaceLateProgressGuarded(w: World, q: Pid, g: Gid, i: nat, l: Lid, x: real)
    requires Good(w) && LateRaceInput(w, q, g, l, ReportMaxGuarded(g, i))
    ensures ReportProgress(w, q, x) == (w.(gas := w.gas - 1), Normal)
  {
    var w0 := w.(gas := w.gas - 1);
    GuardedInvoke(w, q, g, i, l, x);
    assert HandlersOf(w, q, OnProgress) == [Handler([ReportMaxGuarded(g, i)], q)];
    RaceStep(w, q, x);
    LoopDone(w0, q, OnProgress, 1, OfProgress(x));
  }

  /** The guarded closure, run as the input's progress handler after the result has settled, only spends its gas. */
  lemma GuardedInvoke(w: World, q: Pid, g: Gid, i: nat, l: Lid, x: real)
    requires Good(w) && LateRaceInput(w, q, g, l, ReportMaxGuarded(g, i))
    ensures Invoke(w, Handler([ReportMaxGuarded(g, i)], q), OfProgress(x)) == (w.(gas := w.gas - 1), Normal)
  {
    GuardedQuiet(w.(gas := w.gas - 1), g, i, OfProgress(x));
    PromiseProperties.InvokeUnfold(w, Handler([ReportMaxGuarded(g, i)], q), OfProgress(x));
  }

  /** The guarded closure alone, once the result has settled, changes nothing. */
  lemma GuardedQuiet(w: World, g: Gid, i: nat, arg: Arg)
    requires Good(w) && g in w.groups && w.groups[g].result in w.promises
    requires w.promises[w.groups[g].result].state != Pending
    ensures RunActions(w, [ReportMaxGuarded(g, i)], arg) == (w, Normal)
  {
    GuardedRaceProgress(w, g, i, arg);
    assert RunActions(w, [ReportMaxGuarded(g, i)], arg) == RunAction(w, ReportMaxGuarded(g, i), arg);
  }

  /** The handler loop past the last handler ends normally. */
  lemma LoopDone(w: World, p: Pid, kind: HandlerKind, i: nat, arg: Arg)
    requires Good(w) && p in w.promises && ListOf(w.promises[p], kind).Some? && i >= |HandlersOf(w, p, kind)|
    ensures RunHandlers(w, p, kind, i, None, arg) == (w, Normal)
  {
  }
}
