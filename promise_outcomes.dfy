/**
 * What a settlement leads to. Settling a promise invokes the handler it
 * queued first before any other, and a settlement, once made, stays;
 * from these follow the outcomes of the handlers Then and Catch chain,
 * of the closures All, Any and Race attach to their inputs (the first
 * input to settle decides), and of the links First and Sequence build.
 */
module PromiseOutcomes {
  import opened Values
  import opened PromiseWorld
  import opened PromiseDispatch
  import opened PromiseCombinators
  import PromiseProperties

  /** What a promise resolved with `v` stores: the non-generic engine stores no value. */
  function Stored(e: Engine, v: Value): Value
  {
    if e == Queued then Default else v
  }

  /** The first handler queued on `p` for `kind` begins with action `a`. */
  predicate FirstAction(w: World, p: Pid, kind: HandlerKind, a: Action)
  {
    var hs := HandlersOf(w, p, kind);
    hs != [] && hs[0].callback != [] && hs[0].callback[0] == a
  }

  /** `p` is settled in `w'` exactly as it is in `w`. */
  predicate SettledAlike(w: World, w': World, p: Pid)
  {
    p in w.promises && p in w'.promises && SameSettlement(w.promises[p], w'.promises[p])
  }

  /** A callback runs its first action first; the rest keeps what that action settled. */
  lemma RunActionsFirst(w: World, acts: seq<Action>, arg: Arg)
    requires Good(w) && acts != []
    ensures Keeps(RunAction(w, acts[0], arg).0, RunActions(w, acts, arg).0)
  {
    var (w1, f) := RunAction(w, acts[0], arg);
    if f.Normal? {
      assert RunActions(w, acts, arg) == RunActions(w1, acts[1..], arg);
    }
  }

  /** Invoking a handler spends one unit of gas and runs the callback's first action before anything else. */
  lemma InvokeFirst(w: World, h: Handler, arg: Arg)
    requires Good(w) && w.gas > 0 && h.callback != []
    ensures Good(w.(gas := w.gas - 1))
    ensures Keeps(RunAction(w.(gas := w.gas - 1), h.callback[0], arg).0, Invoke(w, h, arg).0)
  {
    var w0 := w.(gas := w.gas - 1);
    var w1 := RunAction(w0, h.callback[0], arg).0;
    RunActionsFirst(w0, h.callback, arg);
    var (w2, f) := RunActions(w0, h.callback, arg);
    if f.Thrown? {
      KeepsTrans(w1, w2, Reject(w2, h.rejectable, Some(f.e)).0);
    }
  }

  /** The handler loop starts with the first handler, in every engine. */
  lemma NotifyFirst(w: World, p: Pid, kind: HandlerKind, arg: Arg)
    requires Good(w) && HandlersOf(w, p, kind) != []
    ensures Keeps(Invoke(w, HandlersOf(w, p, kind)[0], arg).0, Notify(w, p, kind, arg).0)
  {
    var hs := HandlersOf(w, p, kind);
    var limit := if w.engine == Legacy then Some(|hs|) else None;
    var a := Invoke(w, hs[0], arg);
    assert Notify(w, p, kind, arg) == RunHandlers(w, p, kind, 0, limit, arg);
    assert RunHandlers(w, p, kind, 0, limit, arg) == (if a.1.Normal? then RunHandlers(a.0, p, kind, 1, limit, arg) else a);
  }

  /** The rest of a settlement keeps what the handler loop settled. */
  lemma SettledAfterNotify(w: World, p: Pid, kind: HandlerKind, arg: Arg)
    requires Good(w)
    ensures Keeps(Notify(w, p, kind, arg).0, Settled(w, p, kind, arg).0)
  {
    var (w1, f) := Notify(w, p, kind, arg);
    if f.Normal? {
      assert Settled(w, p, kind, arg) == Finish(w1, p);
    }
  }

  /**
   * Resolve of a pending promise marks it resolved and then invokes its
   * first resolve handler before any other; the world Resolve returns
   * keeps every settlement that invocation made.
   */
  lemma ResolveRunsFirstHandler(w: World, p: Pid, v: Value)
    requires Good(w) && IsPending(w, p) && HandlersOf(w, p, OnResolve) != []
    ensures var w1 := MarkSettled(w, p, Resolved, Stored(w.engine, v), w.promises[p].exn);
            && HandlersOf(w1, p, OnResolve) == HandlersOf(w, p, OnResolve) && w1.gas == w.gas
            && Keeps(Invoke(w1, HandlersOf(w, p, OnResolve)[0], OfValue(Stored(w.engine, v))).0, Resolve(w, p, v).0)
  {
    var arg := OfValue(Stored(w.engine, v));
    var w1 := MarkSettled(w, p, Resolved, Stored(w.engine, v), w.promises[p].exn);
    assert HandlersOf(w1, p, OnResolve) == HandlersOf(w, p, OnResolve);
    NotifyFirst(w1, p, OnResolve, arg);
    SettledAfterNotify(w1, p, OnResolve, arg);
    KeepsTrans(Invoke(w1, HandlersOf(w, p, OnResolve)[0], arg).0, Notify(w1, p, OnResolve, arg).0, Settled(w1, p, OnResolve, arg).0);
    assert Resolve(w, p, v) == Settled(w1, p, OnResolve, arg);
  }

  /** Reject of a pending promise: the same, with its first reject handler. */
  lemma RejectRunsFirstHandler(w: World, p: Pid, e: Option<Exn>)
    requires Good(w) && IsPending(w, p) && HandlersOf(w, p, OnReject) != []
    ensures var w1 := MarkSettled(w, p, Rejected, w.promises[p].value, e);
            && HandlersOf(w1, p, OnReject) == HandlersOf(w, p, OnReject) && w1.gas == w.gas
            && Keeps(Invoke(w1, HandlersOf(w, p, OnReject)[0], OfExn(e)).0, Reject(w, p, e).0)
  {
    var w1 := MarkSettled(w, p, Rejected, w.promises[p].value, e);
    assert HandlersOf(w1, p, OnReject) == HandlersOf(w, p, OnReject);
    NotifyFirst(w1, p, OnReject, OfExn(e));
    SettledAfterNotify(w1, p, OnReject, OfExn(e));
    KeepsTrans(Invoke(w1, HandlersOf(w, p, OnReject)[0], OfExn(e)).0, Notify(w1, p, OnReject, OfExn(e)).0, Settled(w1, p, OnReject, OfExn(e)).0);
    assert Reject(w, p, e) == Settled(w1, p, OnReject, OfExn(e));
  }

  /**
   * Race's resolve closure: a pending result is resolved with this
   * input's value; a settled one is left exactly as it was, so the first
   * input to settle decides.
   */
  lemma RaceResolveOutcome(w: World, g: Gid, i: nat, arg: Arg)
    requires Good(w) && g in w.groups && w.groups[g].result in w.promises
    ensures var R := w.groups[g].result;
            var r := RunAction(w, ResolveClosure(Race, g, i), arg);
            && (IsPending(w, R) ==> R in r.0.promises && r.0.promises[R].state == Resolved
                                    && r.0.promises[R].value == Stored(w.engine, ValueOf(arg)))
            && (!IsPending(w, R) ==> r == (w, Normal))
  {
    assert RunAction(w, ResolveIfPending(g), arg) == GroupSettle(w, ResolveIfPending(g), arg);
  }

  /**
   * The reject closure of All and Race: a pending result is rejected with
   * this input's exception; a settled one is left exactly as it was, so
   * the first rejection decides unless the result already settled.
   */
  lemma FirstRejectionOutcome(w: World, fan: Fan, g: Gid, i: nat, arg: Arg)
    requires Good(w) && fan != Any && g in w.groups && w.groups[g].result in w.promises
    ensures var R := w.groups[g].result;
            var r := RunAction(w, RejectClosure(fan, g, i), arg);
            && (IsPending(w, R) ==> R in r.0.promises && r.0.promises[R].state == Rejected && r.0.promises[R].exn == ExnOf(arg))
            && (!IsPending(w, R) ==> r == (w, Normal))
  {
    assert RunAction(w, RejectIfPending(g), arg) == GroupSettle(w, RejectIfPending(g), arg);
  }

  /**
   * Any's resolve closure: it stores progress 1 for the input, reports
   * 1 to the result and resolves a pending result with the value (when
   * the result's progress handlers do not intervene). Because the report
   * is not guarded by the result's state, a success after the result has
   * settled throws the progress state error.
   */
  lemma AnyResolveOutcome(w: World, g: Gid, i: nat, arg: Arg)
    requires Good(w) && g in w.groups && w.groups[g].result in w.promises
    ensures var gr := w.groups[g];
            var R := gr.result;
            var r := RunAction(w, ResolveClosure(Any, g, i), arg);
            && (IsPending(w, R) && HandlersOf(w, R, OnProgress) == [] ==>
                  R in r.0.promises && r.0.promises[R].state == Resolved
                  && r.0.promises[R].value == Stored(w.engine, ValueOf(arg)))
            && (!IsPending(w, R) ==>
                  r == (w.(groups := w.groups[g := gr.(progress := Put(gr.progress, i, 1.0))]), Thrown(StateError(w.engine, ProgressState))))
  {
    var gr := w.groups[g];
    var R := gr.result;
    var w1 := w.(groups := w.groups[g := gr.(progress := Put(gr.progress, i, 1.0))]);
    AnyResolvedRuns(w, g, i, arg);
    if IsPending(w, R) && HandlersOf(w, R, OnProgress) == [] {
      assert HandlersOf(w1, R, OnProgress) == [];
      QuietProgress(w1, R, 1.0);
    }
  }

  /** Any's resolve closure, unfolded: record progress 1, report it, then resolve a result still pending. */
  lemma AnyResolvedRuns(w: World, g: Gid, i: nat, arg: Arg)
    requires Good(w) && g in w.groups
    ensures var gr := w.groups[g];
            var w1 := w.(groups := w.groups[g := gr.(progress := Put(gr.progress, i, 1.0))]);
            && Good(w1)
            && var rp := ReportProgress(w1, gr.result, 1.0);
               RunAction(w, AnyResolved(g, i), arg)
               == (if !rp.1.Normal? then rp else if IsPending(rp.0, gr.result) then Resolve(rp.0, gr.result, ValueOf(arg)) else (rp.0, Normal))
  {
    var gr := w.groups[g];
    GroupSetKeeps(w, g, gr.(progress := Put(gr.progress, i, 1.0)));
    assert RunAction(w, AnyResolved(g, i), arg) == GroupSettle(w, AnyResolved(g, i), arg);
  }

  /**
   * Any's reject closure: every rejection is counted (and its exception
   * stored by the pooled engine); the last one rejects a pending result
   * with the group of exceptions, and any other leaves it untouched.
   */
  lemma AnyRejectOutcome(w: World, g: Gid, i: nat, arg: Arg)
    requires Good(w) && g in w.groups && w.groups[g].result in w.promises
    ensures var gr := w.groups[g];
            var R := gr.result;
            var gr1 := AnyRejectStep(gr, i, ExnOf(arg), w.engine == Pooled);
            var r := RunAction(w, RejectClosure(Any, g, i), arg);
            && (gr.remaining <= 1 && IsPending(w, R) ==>
                  R in r.0.promises && r.0.promises[R].state == Rejected && r.0.promises[R].exn == Some(Exn.Group(gr1.slots)))
            && (gr.remaining > 1 || !IsPending(w, R) ==> r == (w.(groups := w.groups[g := gr1]), Normal))
  {
    assert RunAction(w, AnyRejected(g, i), arg) == GroupSettle(w, AnyRejected(g, i), arg);
  }

  /**
   * All's resolve closure in the pooled and older engines: the value is
   * stored in slot `i`; the last resolution resolves a pending result with
   * every slot, and any other leaves it untouched.
   */
  lemma AllResolveOutcome(w: World, g: Gid, i: nat, arg: Arg)
    requires Good(w) && g in w.groups && w.groups[g].result in w.promises
    ensures var gr := w.groups[g];
            var R := gr.result;
            var gr1 := CollectStep(gr, i, ValueOf(arg));
            var r := RunAction(w, ResolveClosure(All, g, i), arg);
            && (gr.remaining <= 1 && IsPending(w, R) ==>
                  R in r.0.promises && r.0.promises[R].state == Resolved
                  && r.0.promises[R].value == Stored(w.engine, Items(gr1.results)))
            && (gr.remaining > 1 || !IsPending(w, R) ==> r == (w.(groups := w.groups[g := gr1]), Normal))
  {
    assert RunAction(w, Collect(g, i), arg) == GroupSettle(w, Collect(g, i), arg);
  }

  /**
   * A handler whose callback is an optional user callback followed by
   * settling `t` (the handlers Then and Catch chain): run on a world where
   * `t` is pending, it settles `t`. An exception from the user callback
   * rejects `t` with that exception; otherwise `t` is resolved, or
   * rejected with the handler's own argument.
   */
  lemma UserThenSettle(w: World, cb: Option<Action>, last: Action, t: Pid, arg: Arg)
    requires Good(w) && w.gas > 0 && IsPending(w, t)
    requires cb.None? || cb.value.User?
    requires last == ResolveEmpty(t) || last == RejectWith(t)
    ensures var r := Invoke(w, Handler(Optional(cb) + [last], t), arg);
            var throws := cb.Some? && cb.value.id in w.env.throws;
            && t in r.0.promises
            && (throws ==> r.0.promises[t].state == Rejected && r.0.promises[t].exn == Some(w.env.throws[cb.value.id]))
            && (!throws && last == ResolveEmpty(t) ==> r.0.promises[t].state == Resolved && r.0.promises[t].value == Default)
            && (!throws && last == RejectWith(t) ==> r.0.promises[t].state == Rejected && r.0.promises[t].exn == ExnOf(arg))
            && (cb.Some? ==> w.log + [Called(cb.value.id, arg)] <= r.0.log)
  {
    var w0 := w.(gas := w.gas - 1);
    var acts := Optional(cb) + [last];
    var a := RunActions(w0, acts, arg);
    var r := Invoke(w, Handler(acts, t), arg);
    InvokeSettles(w, Handler(acts, t), arg);
    UserActions(w0, cb, last, t, arg);
    if !(cb.Some? && cb.value.id in w.env.throws) {
      KeptSettled(a.0, r.0, t);
    }
  }

  /**
   * Invoke keeps what the callback settled, and an exception the callback
   * throws rejects a rejectable it left pending.
   */
  lemma InvokeSettles(w: World, h: Handler, arg: Arg)
    requires Good(w) && w.gas > 0
    ensures var a := RunActions(w.(gas := w.gas - 1), h.callback, arg);
            var r := Invoke(w, h, arg);
            && Keeps(a.0, r.0)
            && (a.1.Thrown? && IsPending(a.0, h.rejectable) ==>
                  h.rejectable in r.0.promises && r.0.promises[h.rejectable].state == Rejected && r.0.promises[h.rejectable].exn == Some(a.1.e))
  {
    PromiseProperties.InvokeUnfold(w, h, arg);
  }

  /** The callback of such a handler, as it runs inside Invoke. */
  lemma UserActions(w: World, cb: Option<Action>, last: Action, t: Pid, arg: Arg)
    requires Good(w) && IsPending(w, t)
    requires cb.None? || cb.value.User?
    requires last == ResolveEmpty(t) || last == RejectWith(t)
    ensures var (wa, fa) := RunActions(w, Optional(cb) + [last], arg);
            var throws := cb.Some? && cb.value.id in w.env.throws;
            && t in wa.promises
            && (throws ==> IsPending(wa, t) && fa == Thrown(w.env.throws[cb.value.id]))
            && (!throws && last == ResolveEmpty(t) ==> wa.promises[t].state == Resolved && wa.promises[t].value == Default)
            && (!throws && last == RejectWith(t) ==> wa.promises[t].state == Rejected && wa.promises[t].exn == ExnOf(arg))
            && (cb.Some? ==> w.log + [Called(cb.value.id, arg)] <= wa.log)
  {
    var acts := Optional(cb) + [last];
    if cb.Some? {
      var ws := w.(log := w.log + [Called(cb.value.id, arg)]);
      var throws := cb.value.id in w.env.throws;
      assert RunAction(w, cb.value, arg) == (ws, if throws then Thrown(w.env.throws[cb.value.id]) else Normal);
      if !throws {
        assert acts[1..] == [last];
        LastAction(ws, last, t, arg);
      }
    } else {
      assert acts == [last];
      LastAction(w, last, t, arg);
    }
  }

  /** The settling action at the end of such a callback. */
  lemma LastAction(w: World, last: Action, t: Pid, arg: Arg)
    requires Good(w) && IsPending(w, t)
    requires last == ResolveEmpty(t) || last == RejectWith(t)
    ensures var (wa, fa) := RunActions(w, [last], arg);
            && t in wa.promises && w.log <= wa.log
            && (last == ResolveEmpty(t) ==> wa.promises[t].state == Resolved && wa.promises[t].value == Default)
            && (last == RejectWith(t) ==> wa.promises[t].state == Rejected && wa.promises[t].exn == ExnOf(arg))
  {
    var (wl, fl) := RunAction(w, last, arg);
    if fl.Normal? {
      assert RunActions(w, [last], arg) == RunActions(wl, [], arg);
    }
  }

  /**
   * The reject handler Then or Catch chains, run with the rejection `x`:
   *   - an exception from onRejected rejects `t` with it;
   *   - otherwise Catch, and Then with an onRejected in the pooled and
   *     non-generic engines, resolve `t`;
   *   - Then without onRejected, and the older engine's Then, reject `t`
   *     with `x`.
   */
  lemma ChainedRejectOutcome(w: World, onRejected: Option<Action>, t: Pid, catching: bool, x: Option<Exn>)
    requires Good(w) && w.gas > 0 && IsPending(w, t)
    requires onRejected.None? || onRejected.value.User?
    ensures var r := Invoke(w, Handler(RejectActs(w.engine, onRejected, t, catching), t), OfExn(x));
            var throws := onRejected.Some? && onRejected.value.id in w.env.throws;
            var passes := !catching && (w.engine == Legacy || onRejected.None?);
            && t in r.0.promises
            && (throws ==> r.0.promises[t].state == Rejected && r.0.promises[t].exn == Some(w.env.throws[onRejected.value.id]))
            && (!throws && passes ==> r.0.promises[t].state == Rejected && r.0.promises[t].exn == x)
            && (!throws && !passes ==> r.0.promises[t].state == Resolved)
  {
    var acts := RejectActs(w.engine, onRejected, t, catching);
    var last := acts[|acts| - 1];
    assert acts == Optional(onRejected) + [last];
    UserThenSettle(w, onRejected, last, t, OfExn(x));
  }

  /**
   * The resolve handler Then chains, run with the value: an exception
   * from onResolved rejects `t` with it; otherwise `t` is resolved.
   */
  lemma ChainedResolveOutcome(w: World, onResolved: Option<Action>, t: Pid, v: Value)
    requires Good(w) && w.gas > 0 && IsPending(w, t)
    requires onResolved.None? || onResolved.value.User?
    ensures var r := Invoke(w, Handler(Optional(onResolved) + [ResolveEmpty(t)], t), OfValue(v));
            var throws := onResolved.Some? && onResolved.value.id in w.env.throws;
            && t in r.0.promises
            && (throws ==> r.0.promises[t].state == Rejected && r.0.promises[t].exn == Some(w.env.throws[onResolved.value.id]))
            && (!throws ==> r.0.promises[t].state == Resolved)
            && (onResolved.Some? ==> w.log + [Called(onResolved.value.id, OfValue(v))] <= r.0.log)
  {
    UserThenSettle(w, onResolved, ResolveEmpty(t), t, OfValue(v));
  }

  /**
   * Nothing is queued on `p` yet, its list fields (where set) are three
   * different lists, and a list Then takes for it is a new one: the older
   * engine always makes one, the others when their pools are empty.
   */
  predicate Unqueued(w: World, p: Pid)
  {
    && p in w.promises
    && HandlersOf(w, p, OnResolve) == [] && HandlersOf(w, p, OnReject) == []
    && (w.promises[p].resolves.Some? ==> w.promises[p].resolves != w.promises[p].rejects)
    && (w.engine == Legacy || (w.resolvePool == [] && w.rejectPool == []))
  }

  /** Then on a pending promise with nothing queued: its two handlers are the only ones queued. */
  lemma ThenQueuesFirst(w: World, p: Pid, onResolved: Option<Action>, onRejected: Option<Action>)
    requires Good(w) && IsPending(w, p) && Unqueued(w, p)
    ensures var r := Then(w, p, onResolved, onRejected, None);
            && HandlersOf(r.0, p, OnResolve) == [Handler(Optional(onResolved) + [ResolveEmpty(r.2)], r.2)]
            && HandlersOf(r.0, p, OnReject) == [Handler(RejectActs(w.engine, onRejected, r.2, false), r.2)]
  {
    var n := NewPromise(w, Pending, Default, None);
    var w1, t := n.0, n.1;
    var res := Handler(Optional(onResolved) + [ResolveEmpty(t)], t);
    var rej := Handler(RejectActs(w.engine, onRejected, t, false), t);
    assert Unqueued(w1, p) && IsPending(w1, p) by {
      assert w1.promises[p] == w.promises[p];
    }
    ThenPendingQueues(w, p, onResolved, onRejected);
    QueueFirst(w1, p, res, rej);
  }

  /** Then on a pending promise queues its two handlers on the world with the new promise `t` added. */
  lemma ThenPendingQueues(w: World, p: Pid, onResolved: Option<Action>, onRejected: Option<Action>)
    requires Good(w) && IsPending(w, p)
    ensures var n := NewPromise(w, Pending, Default, None);
            var r := Then(w, p, onResolved, onRejected, None);
            && IsPending(n.0, p) && r.2 == n.1
            && r.0 == Queue(n.0, p, Handler(Optional(onResolved) + [ResolveEmpty(n.1)], n.1), Handler(RejectActs(w.engine, onRejected, n.1, false), n.1))
  {
    var n := NewPromise(w, Pending, Default, None);
    var res := Handler(Optional(onResolved) + [ResolveEmpty(n.1)], n.1);
    var rej := Handler(RejectActs(w.engine, onRejected, n.1, false), n.1);
    assert n.0.promises[p] == w.promises[p];
    assert Then(w, p, onResolved, onRejected, None) == Register(w, p, onResolved, onRejected, None, false);
    assert Attach(n.0, p, res, rej, None).0 == Queue(n.0, p, res, rej);
  }

  /** Queue on a promise with nothing queued: each handler is the only one of its kind. */
  lemma QueueFirst(w: World, p: Pid, res: Handler, rej: Handler)
    requires Good(w) && IsPending(w, p) && Unqueued(w, p)
    ensures HandlersOf(Queue(w, p, res, rej), p, OnResolve) == [res]
    ensures HandlersOf(Queue(w, p, res, rej), p, OnReject) == [rej]
  {
    var w1 := AddHandler(w, p, OnResolve, res);
    assert Queue(w, p, res, rej) == AddHandler(w1, p, OnReject, rej);
    QueuedResolveFirst(w, p, res);
    QueuedRejectNext(w1, p, rej);
  }

  /** The first half of Queue on a promise with nothing queued: `res` is its only resolve handler. */
  lemma QueuedResolveFirst(w: World, p: Pid, res: Handler)
    requires Good(w) && IsPending(w, p) && Unqueued(w, p)
    ensures var w1 := AddHandler(w, p, OnResolve, res);
            && IsPending(w1, p) && HandlersOf(w1, p, OnResolve) == [res] && HandlersOf(w1, p, OnReject) == []
            && (w1.engine == Legacy || w1.rejectPool == [])
            && w1.promises[p].resolves.Some? && w1.promises[p].resolves.value < w1.next
            && w1.promises[p].resolves != w1.promises[p].rejects
  {
    var w1 := AddHandler(w, p, OnResolve, res);
    var l1 := w1.promises[p].resolves.value;
    assert HandlersOf(w1, p, OnResolve) == [res];
    assert w1.promises[p].rejects == w.promises[p].rejects;
    if w.promises[p].rejects.Some? {
      var l2 := w.promises[p].rejects.value;
      assert l2 < w.next && l1 != l2;
      assert ListAt(w1, l2) == ListAt(w, l2);
    }
  }

  /** The second half: `rej` becomes the only reject handler, and the resolve list is left alone. */
  lemma QueuedRejectNext(w: World, p: Pid, rej: Handler)
    requires Good(w) && IsPending(w, p) && HandlersOf(w, p, OnReject) == []
    requires w.engine == Legacy || w.rejectPool == []
    requires w.promises[p].resolves.Some? && w.promises[p].resolves.value < w.next
    requires w.promises[p].resolves != w.promises[p].rejects
    ensures var w2 := AddHandler(w, p, OnReject, rej);
            HandlersOf(w2, p, OnReject) == [rej] && HandlersOf(w2, p, OnResolve) == HandlersOf(w, p, OnResolve)
  {
    var w2 := AddHandler(w, p, OnReject, rej);
    var l1 := w.promises[p].resolves.value;
    assert w2.promises[p].resolves == Some(l1);
    assert l1 != w2.promises[p].rejects.value;
    assert ListAt(w2, l1) == ListAt(w, l1);
  }


  /**
   * Then on a pending promise with nothing queued, then Reject(p, e), as
   * far as the promise `t` Then returned: an exception from onRejected
   * rejects `t` with it; a harmless onRejected resolves `t` in the pooled
   * and non-generic engines; without onRejected, or in the older engine,
   * `t` is rejected with `e`.
   */
  lemma ThenThenReject(w: World, p: Pid, onResolved: Option<Action>, onRejected: Option<Action>, e: Option<Exn>)
    requires Good(w) && IsPending(w, p) && Unqueued(w, p) && w.gas > 0
    requires onRejected.None? || onRejected.value.User?
    ensures var (w1, f1, t) := Then(w, p, onResolved, onRejected, None);
            var (w2, f2) := Reject(w1, p, e);
            var throws := onRejected.Some? && onRejected.value.id in w.env.throws;
            var passes := w.engine == Legacy || onRejected.None?;
            && f1 == Normal && t in w2.promises && w2.promises[p].state == Rejected
            && (throws ==> w2.promises[t].state == Rejected && w2.promises[t].exn == Some(w.env.throws[onRejected.value.id]))
            && (!throws && passes ==> w2.promises[t].state == Rejected && w2.promises[t].exn == e)
            && (!throws && !passes ==> w2.promises[t].state == Resolved)
  {
    var r := Then(w, p, onResolved, onRejected, None);
    assert r.1 == Normal && IsPending(r.0, p) && IsPending(r.0, r.2) && r.2 != p && r.0.gas == w.gas
        && r.0.env == w.env && r.0.engine == w.engine && Good(r.0)
        && HandlersOf(r.0, p, OnReject) == [Handler(RejectActs(w.engine, onRejected, r.2, false), r.2)] by {
      ThenQueuesFirst(w, p, onResolved, onRejected);
    }
    RejectThroughFirst(r.0, p, r.2, onRejected, e);
  }

  /** Reject(p, e) when `p`'s first reject handler is the one Then queued for `t`. */
  lemma RejectThroughFirst(w: World, p: Pid, t: Pid, onRejected: Option<Action>, e: Option<Exn>)
    requires Good(w) && IsPending(w, p) && IsPending(w, t) && t != p && w.gas > 0
    requires onRejected.None? || onRejected.value.User?
    requires HandlersOf(w, p, OnReject) == [Handler(RejectActs(w.engine, onRejected, t, false), t)]
    ensures var w2 := Reject(w, p, e).0;
            var throws := onRejected.Some? && onRejected.value.id in w.env.throws;
            var passes := w.engine == Legacy || onRejected.None?;
            && t in w2.promises && w2.promises[p].state == Rejected
            && (throws ==> w2.promises[t].state == Rejected && w2.promises[t].exn == Some(w.env.throws[onRejected.value.id]))
            && (!throws && passes ==> w2.promises[t].state == Rejected && w2.promises[t].exn == e)
            && (!throws && !passes ==> w2.promises[t].state == Resolved)
  {
    RejectRunsFirstHandler(w, p, e);
    var m := MarkSettled(w, p, Rejected, w.promises[p].value, e);
    ChainedRejectOutcome(m, onRejected, t, false, e);
  }

  /**
   * Then on a pending promise with nothing queued, then Resolve(p, v): an
   * exception from onResolved rejects `t` with it; otherwise `t` is
   * resolved, and onResolved ran with the value `p` stores.
   */
  lemma ThenThenResolve(w: World, p: Pid, onResolved: Option<Action>, onRejected: Option<Action>, v: Value)
    requires Good(w) && IsPending(w, p) && Unqueued(w, p) && w.gas > 0
    requires onResolved.None? || onResolved.value.User?
    ensures var (w1, f1, t) := Then(w, p, onResolved, onRejected, None);
            var (w2, f2) := Resolve(w1, p, v);
            var throws := onResolved.Some? && onResolved.value.id in w.env.throws;
            && f1 == Normal && t in w2.promises && w2.promises[p].state == Resolved
            && (throws ==> w2.promises[t].state == Rejected && w2.promises[t].exn == Some(w.env.throws[onResolved.value.id]))
            && (!throws ==> w2.promises[t].state == Resolved)
            && (onResolved.Some? ==> w.log + [Called(onResolved.value.id, OfValue(Stored(w.engine, v)))] <= w2.log)
  {
    var (w1, f1, t) := Then(w, p, onResolved, onRejected, None);
    ThenQueuesFirst(w, p, onResolved, onRejected);
    assert IsPending(w1, p) && IsPending(w1, t) && t != p && w1.gas == w.gas && w1.log == w.log;
    ResolveThroughChained(w1, p, onResolved, t, v);
  }

  /** Resolve(p, v) when the resolve handler Then chained to `t` is the first one queued on `p`. */
  lemma ResolveThroughChained(w: World, p: Pid, onResolved: Option<Action>, t: Pid, v: Value)
    requires Good(w) && IsPending(w, p) && IsPending(w, t) && t != p && w.gas > 0
    requires onResolved.None? || onResolved.value.User?
    requires HandlersOf(w, p, OnResolve) != [] && HandlersOf(w, p, OnResolve)[0] == Handler(Optional(onResolved) + [ResolveEmpty(t)], t)
    ensures var w2 := Resolve(w, p, v).0;
            var throws := onResolved.Some? && onResolved.value.id in w.env.throws;
            && t in w2.promises && p in w2.promises && w2.promises[p].state == Resolved
            && (throws ==> w2.promises[t].state == Rejected && w2.promises[t].exn == Some(w.env.throws[onResolved.value.id]))
            && (!throws ==> w2.promises[t].state == Resolved)
            && (onResolved.Some? ==> w.log + [Called(onResolved.value.id, OfValue(Stored(w.engine, v)))] <= w2.log)
  {
    var sv := Stored(w.engine, v);
    var m := MarkSettled(w, p, Resolved, sv, w.promises[p].exn);
    var i := Invoke(m, HandlersOf(w, p, OnResolve)[0], OfValue(sv)).0;
    var w2 := Resolve(w, p, v).0;
    assert m.gas == w.gas && Keeps(i, w2) by {
      ResolveRunsFirstHandler(w, p, v);
    }
    assert IsPending(m, t) by {
      OtherStillPending(w, p, t, Resolved, sv, w.promises[p].exn);
    }
    ChainedResolveOutcome(m, onResolved, t, sv);
    KeptSettled(i, w2, t);
  }

  /**
   * Then on a resolved promise runs onResolved at once, in every engine:
   * a harmless callback gives a resolved promise (in the non-generic
   * engine this very promise), a throwing one a new promise rejected with
   * its exception, and a missing one a promise rejected with a null
   * reference.
   */
  lemma ThenOnResolved(w: World, p: Pid, onResolved: Option<Action>, onRejected: Option<Action>, onProgress: Option<Action>)
    requires Good(w) && p in w.promises && w.promises[p].state == Resolved
    requires onResolved.None? || onResolved.value.User?
    ensures var r := Then(w, p, onResolved, onRejected, onProgress);
            var throws := onResolved.Some? && onResolved.value.id in w.env.throws;
            && r.1 == Normal && r.2 in r.0.promises
            && (onResolved.None? ==> r.0.promises[r.2].state == Rejected && r.0.promises[r.2].exn == Some(NullReference))
            && (throws ==> r.0.promises[r.2].state == Rejected && r.0.promises[r.2].exn == Some(w.env.throws[onResolved.value.id]))
            && (onResolved.Some? && !throws ==> r.0.promises[r.2].state == Resolved && (w.engine == Queued ==> r.2 == p))
            && r.0.log == w.log + (if onResolved.Some? then [Called(onResolved.value.id, OfValue(w.promises[p].value))] else [])
  {
  }

  /**
   * Then on a rejected promise in the pooled and non-generic engines runs
   * at once: without onRejected it gives a new promise rejected with the
   * same exception; a throwing onRejected a new promise rejected with its
   * exception; a harmless one a new resolved promise (pooled engine) or
   * the shared resolved promise (non-generic engine).
   */
  lemma ThenOnRejected(w: World, p: Pid, onResolved: Option<Action>, onRejected: Option<Action>, onProgress: Option<Action>)
    requires Good(w) && w.engine != Legacy && p in w.promises && w.promises[p].state == Rejected
    requires onRejected.None? || onRejected.value.User?
    ensures var r := Then(w, p, onResolved, onRejected, onProgress);
            var throws := onRejected.Some? && onRejected.value.id in w.env.throws;
            var harmless := onRejected.Some? && !throws;
            && r.1 == Normal
            && (onRejected.None? ==> r.2 in r.0.promises && r.0.promises[r.2].state == Rejected && r.0.promises[r.2].exn == w.promises[p].exn)
            && (throws ==> r.2 in r.0.promises && r.0.promises[r.2].state == Rejected && r.0.promises[r.2].exn == Some(w.env.throws[onRejected.value.id]))
            && (harmless && w.engine == Pooled ==> r.2 in r.0.promises && r.2 !in w.promises && r.0.promises[r.2].state == Resolved)
            && (harmless && w.engine == Queued ==> r.2 == w.sharedResolved)
            && r.0.log == w.log + (if onRejected.Some? then [Called(onRejected.value.id, OfExn(w.promises[p].exn))] else [])
  {
  }

  /**
   * The older engine's Then on a rejected promise chains its handlers as
   * for a pending one, and its reject handler runs at once: the promise
   * Then returns is rejected with the same exception after a harmless
   * onRejected, or with the exception onRejected throws.
   */
  lemma LegacyThenOnRejected(w: World, p: Pid, onResolved: Option<Action>, onRejected: Option<Action>)
    requires Good(w) && w.engine == Legacy && p in w.promises && w.promises[p].state == Rejected && w.gas > 0
    requires onRejected.None? || onRejected.value.User?
    ensures var r := Then(w, p, onResolved, onRejected, None);
            var throws := onRejected.Some? && onRejected.value.id in w.env.throws;
            && r.2 !in w.promises && r.2 in r.0.promises
            && (throws ==> r.0.promises[r.2].state == Rejected && r.0.promises[r.2].exn == Some(w.env.throws[onRejected.value.id]))
            && (!throws ==> r.0.promises[r.2].state == Rejected && r.0.promises[r.2].exn == w.promises[p].exn)
  {
    var (w1, t) := NewPromise(w, Pending, Default, None);
    var res := Handler(Optional(onResolved) + [ResolveEmpty(t)], t);
    var rej := Handler(RejectActs(w.engine, onRejected, t, false), t);
    var r := Then(w, p, onResolved, onRejected, None);
    ThenChains(w, p, onResolved, onRejected);
    RegisterAttaches(w, p, onResolved, onRejected, None, false);
    var i := Invoke(w1, rej, OfExn(w.promises[p].exn)).0;
    assert t in i.promises && i.promises[t].state == Rejected
        && (onRejected.Some? && onRejected.value.id in w.env.throws ==> i.promises[t].exn == Some(w.env.throws[onRejected.value.id]))
        && (!(onRejected.Some? && onRejected.value.id in w.env.throws) ==> i.promises[t].exn == w.promises[p].exn)
        && Keeps(i, r.0) by {
      assert w1.promises[p] == w.promises[p];
      ImmediateReject(w1, p, res, rej, onRejected, t, false);
    }
    KeptSettled(i, r.0, t);
  }

  /**
   * Catch on a rejected promise: the pooled engine runs onRejected at
   * once, the others through the handler they chain, which runs at once;
   * either way the promise Catch returns is resolved after a harmless
   * onRejected and rejected with the exception a throwing one raises.
   */
  lemma CatchOnRejected(w: World, p: Pid, onRejected: Action)
    requires Good(w) && p in w.promises && w.promises[p].state == Rejected && onRejected.User?
    requires w.engine == Pooled || w.gas > 0
    ensures var r := Catch(w, p, onRejected);
            var throws := onRejected.id in w.env.throws;
            && r.2 !in w.promises && r.2 in r.0.promises
            && (throws ==> r.0.promises[r.2].state == Rejected && r.0.promises[r.2].exn == Some(w.env.throws[onRejected.id]))
            && (!throws ==> r.0.promises[r.2].state == Resolved)
  {
    if w.engine != Pooled {
      CatchOnRejectedChained(w, p, onRejected);
    }
  }

  /** CatchOnRejected in the engines that chain a handler. */
  lemma CatchOnRejectedChained(w: World, p: Pid, onRejected: Action)
    requires Good(w) && p in w.promises && w.promises[p].state == Rejected && onRejected.User?
    requires w.engine != Pooled && w.gas > 0
    ensures var r := Catch(w, p, onRejected);
            var throws := onRejected.id in w.env.throws;
            && r.2 !in w.promises && r.2 in r.0.promises
            && (throws ==> r.0.promises[r.2].state == Rejected && r.0.promises[r.2].exn == Some(w.env.throws[onRejected.id]))
            && (!throws ==> r.0.promises[r.2].state == Resolved)
  {
    var (w1, t) := NewPromise(w, Pending, Default, None);
    var res := Handler(Optional(None) + [ResolveEmpty(t)], t);
    var rej := Handler(RejectActs(w.engine, Some(onRejected), t, true), t);
    var progress := Some(Handler([ProgressTo(t)], if w.engine == Legacy then t else p));
    var r := Catch(w, p, onRejected);
    CatchChains(w, p, onRejected);
    RegisterAttaches(w, p, None, Some(onRejected), None, true);
    var i := Invoke(w1, rej, OfExn(w.promises[p].exn)).0;
    assert t in i.promises && i.promises[t].state != Pending
        && (onRejected.id in w.env.throws ==> i.promises[t].state == Rejected && i.promises[t].exn == Some(w.env.throws[onRejected.id]))
        && (onRejected.id !in w.env.throws ==> i.promises[t].state == Resolved)
        && Keeps(i, r.0) by {
      assert w1.promises[p] == w.promises[p];
      ImmediateReject(w1, p, res, rej, Some(onRejected), t, true);
    }
    KeptSettled(i, r.0, t);
  }

  /** Then chains its handlers on a pending promise, and on any promise in the older engine unless it is resolved. */
  lemma ThenChains(w: World, p: Pid, onResolved: Option<Action>, onRejected: Option<Action>)
    requires Good(w) && p in w.promises
    requires w.promises[p].state == Pending || (w.promises[p].state == Rejected && w.engine == Legacy)
    ensures Then(w, p, onResolved, onRejected, None) == Register(w, p, onResolved, onRejected, None, false)
  {
  }

  /** Catch chains its handler on a rejected promise in the engines that do not run onRejected at once. */
  lemma CatchChains(w: World, p: Pid, onRejected: Action)
    requires Good(w) && p in w.promises && w.promises[p].state == Rejected && w.engine != Pooled
    ensures Catch(w, p, onRejected) == Register(w, p, None, Some(onRejected), None, true)
  {
  }

  /** Register, unfolded: a new pending promise, then Attach with the handlers that settle it. */
  lemma RegisterAttaches(w: World, p: Pid, onResolved: Option<Action>, onRejected: Option<Action>, onProgress: Option<Action>, catching: bool)
    requires Good(w) && p in w.promises
    ensures var n := NewPromise(w, Pending, Default, None);
            var progress :=
              if catching then Some(Handler([ProgressTo(n.1)], if w.engine == Legacy then n.1 else p))
              else if onProgress.Some? then Some(Handler([onProgress.value], p))
              else None;
            var r := Register(w, p, onResolved, onRejected, onProgress, catching);
            && n.0.promises[p] == w.promises[p] && r.2 == n.1 && n.1 !in w.promises
            && r.0 == Attach(n.0, p, Handler(Optional(onResolved) + [ResolveEmpty(n.1)], n.1), Handler(RejectActs(w.engine, onRejected, n.1, catching), n.1), progress).0
  {
  }

  /**
   * Attach on a rejected promise invokes the reject handler at once; the
   * promise `t` it settles keeps that settlement.
   */
  lemma ImmediateReject(w: World, p: Pid, res: Handler, rej: Handler, onRejected: Option<Action>, t: Pid, catching: bool)
    requires Good(w) && p in w.promises && w.promises[p].state == Rejected && w.gas > 0
    requires IsPending(w, t) && t != p && rej == Handler(RejectActs(w.engine, onRejected, t, catching), t)
    requires onRejected.None? || onRejected.value.User?
    ensures forall progress: Option<Handler> ::
              var r := Attach(w, p, res, rej, progress);
              var i := Invoke(w, rej, OfExn(w.promises[p].exn));
              Keeps(i.0, r.0)
    ensures var i := Invoke(w, rej, OfExn(w.promises[p].exn));
            var throws := onRejected.Some? && onRejected.value.id in w.env.throws;
            var passes := !catching && (w.engine == Legacy || onRejected.None?);
            && t in i.0.promises
            && (throws ==> i.0.promises[t].state == Rejected && i.0.promises[t].exn == Some(w.env.throws[onRejected.value.id]))
            && (!throws && passes ==> i.0.promises[t].state == Rejected && i.0.promises[t].exn == w.promises[p].exn)
            && (!throws && !passes ==> i.0.promises[t].state == Resolved)
  {
    ChainedRejectOutcome(w, onRejected, t, catching, w.promises[p].exn);
    RejectedAttachKeeps(w, p, res, rej);
  }

  /** Attach on a rejected promise keeps what invoking its reject handler settled, whatever the progress handler. */
  lemma RejectedAttachKeeps(w: World, p: Pid, res: Handler, rej: Handler)
    requires Good(w) && p in w.promises && w.promises[p].state == Rejected
    ensures forall progress: Option<Handler> ::
              Keeps(Invoke(w, rej, OfExn(w.promises[p].exn)).0, Attach(w, p, res, rej, progress).0)
  {
    var i := Invoke(w, rej, OfExn(w.promises[p].exn));
    var a := ActionHandlers(w, p, res, rej);
    assert a == (if i.1.Normal? then (Resume(i.0, p), Normal) else i);
    forall progress: Option<Handler>
      ensures Keeps(i.0, Attach(w, p, res, rej, progress).0)
    {
      if a.1.Normal? && progress.Some? {
        assert !IsPending(a.0, p);
        assert ProgressHandlers(a.0, p, progress.value) == a.0;
      }
    }
  }

  /** Input `i`'s resolve closure is the first handler queued on `p` (Awaits says only that it is queued). */
  predicate AwaitsFirst(w: World, p: Pid, fan: Fan, g: Gid, i: nat)
  {
    var hs := HandlersOf(w, p, OnResolve);
    hs != [] && StartsWith(hs[0], w.engine, fan, g, i)
  }

  /** `p`'s first reject handler begins with input `i`'s reject closure. */
  predicate RejectsFirst(w: World, p: Pid, fan: Fan, g: Gid, i: nat)
  {
    FirstAction(w, p, OnReject, RejectClosure(fan, g, i))
  }

  /** A pending promise other than `p` is still pending once `p` is marked settled. */
  lemma OtherStillPending(w: World, p: Pid, q: Pid, state: PromiseState, v: Value, e: Option<Exn>)
    requires Good(w) && IsPending(w, p) && IsPending(w, q) && q != p
    ensures IsPending(MarkSettled(w, p, state, v, e), q)
  {
  }

  /**
   * Race: when an input whose first resolve handler is the race's closure
   * resolves with `v`, a pending result is resolved with the value the
   * input stores, and a result already settled keeps its outcome, so the
   * first input to settle decides.
   */
  lemma RaceResolvedByFirst(w: World, p: Pid, g: Gid, i: nat, v: Value)
    requires Good(w) && IsPending(w, p) && w.gas > 0 && g in w.groups && w.groups[g].result in w.promises
    requires AwaitsFirst(w, p, Race, g, i)
    ensures var R := w.groups[g].result;
            var w2 := Resolve(w, p, v).0;
            && R in w2.promises
            && (IsPending(w, R) ==> w2.promises[R].state == Resolved && w2.promises[R].value == Stored(w.engine, v))
            && (!IsPending(w, R) ==> SameSettlement(w.promises[R], w2.promises[R]))
  {
    var R := w.groups[g].result;
    var sv := Stored(w.engine, v);
    var h := HandlersOf(w, p, OnResolve)[0];
    ResolveRunsFirstHandler(w, p, v);
    var m := MarkSettled(w, p, Resolved, sv, w.promises[p].exn);
    InvokeFirst(m, h, OfValue(sv));
    var m0 := m.(gas := m.gas - 1);
    RaceResolveOutcome(m0, g, i, OfValue(sv));
    var a := RunAction(m0, h.callback[0], OfValue(sv)).0;
    KeepsTrans(a, Invoke(m, h, OfValue(sv)).0, Resolve(w, p, v).0);
    if IsPending(w, R) && R != p {
      OtherStillPending(w, p, R, Resolved, sv, w.promises[p].exn);
    }
  }

  /**
   * All and Race: when a promise whose first reject handler is the
   * combinator's reject closure is rejected with `e`, a pending result is
   * rejected with `e`, and a result already settled keeps its outcome.
   * (In the older engine that promise is the one Then returned for the
   * input, which the input's rejection rejects.)
   */
  lemma FirstRejectionRejects(w: World, p: Pid, fan: Fan, g: Gid, i: nat, e: Option<Exn>)
    requires Good(w) && IsPending(w, p) && w.gas > 0 && fan != Any && g in w.groups && w.groups[g].result in w.promises
    requires RejectsFirst(w, p, fan, g, i)
    ensures var R := w.groups[g].result;
            var w2 := Reject(w, p, e).0;
            && R in w2.promises
            && (IsPending(w, R) ==> w2.promises[R].state == Rejected && w2.promises[R].exn == e)
            && (!IsPending(w, R) ==> SameSettlement(w.promises[R], w2.promises[R]))
  {
    var R := w.groups[g].result;
    var h := HandlersOf(w, p, OnReject)[0];
    RejectRunsFirstHandler(w, p, e);
    var m := MarkSettled(w, p, Rejected, w.promises[p].value, e);
    InvokeFirst(m, h, OfExn(e));
    var m0 := m.(gas := m.gas - 1);
    FirstRejectionOutcome(m0, fan, g, i, OfExn(e));
    var a := RunAction(m0, h.callback[0], OfExn(e)).0;
    KeepsTrans(a, Invoke(m, h, OfExn(e)).0, Reject(w, p, e).0);
    if IsPending(w, R) && R != p {
      OtherStillPending(w, p, R, Rejected, w.promises[p].value, e);
    }
  }

  /**
   * Any: when an input whose first resolve handler is Any's closure
   * resolves with `v`, a pending result without progress handlers is
   * resolved with that value. Once the result has settled, a later
   * success throws the progress state error from the closure, which
   * rejects the promise the input's Then returned.
   */
  lemma AnyResolvedByFirst(w: World, p: Pid, g: Gid, i: nat, v: Value)
    requires Good(w) && IsPending(w, p) && w.gas > 0 && g in w.groups && w.groups[g].result in w.promises
    requires w.engine != Legacy && AwaitsFirst(w, p, Any, g, i)
    ensures var R := w.groups[g].result;
            var t := HandlersOf(w, p, OnResolve)[0].rejectable;
            var w2 := Resolve(w, p, v).0;
            && R in w2.promises
            && (IsPending(w, R) && R != p && HandlersOf(w, R, OnProgress) == [] ==>
                  w2.promises[R].state == Resolved && w2.promises[R].value == Stored(w.engine, v))
            && (!IsPending(w, R) ==> SameSettlement(w.promises[R], w2.promises[R]))
            && (!IsPending(w, R) && IsPending(w, t) && t != p ==>
                  t in w2.promises && w2.promises[t].state == Rejected && w2.promises[t].exn == Some(StateError(w.engine, ProgressState)))
  {
    var R := w.groups[g].result;
    var h := HandlersOf(w, p, OnResolve)[0];
    if IsPending(w, R) && R != p && HandlersOf(w, R, OnProgress) == [] {
      AnyPendingResolved(w, p, g, i, v);
    }
    if !IsPending(w, R) && IsPending(w, h.rejectable) && h.rejectable != p {
      AnyLateRejected(w, p, g, i, v);
    }
  }

  /** AnyResolvedByFirst, while the result is pending. */
  lemma AnyPendingResolved(w: World, p: Pid, g: Gid, i: nat, v: Value)
    requires Good(w) && IsPending(w, p) && w.gas > 0 && g in w.groups
    requires w.engine != Legacy && AwaitsFirst(w, p, Any, g, i)
    requires IsPending(w, w.groups[g].result) && w.groups[g].result != p && HandlersOf(w, w.groups[g].result, OnProgress) == []
    ensures var R := w.groups[g].result;
            var w2 := Resolve(w, p, v).0;
            R in w2.promises && w2.promises[R].state == Resolved && w2.promises[R].value == Stored(w.engine, v)
  {
    var R := w.groups[g].result;
    var sv := Stored(w.engine, v);
    var h := HandlersOf(w, p, OnResolve)[0];
    var m := MarkSettled(w, p, Resolved, sv, w.promises[p].exn);
    assert m.gas == w.gas && Keeps(Invoke(m, h, OfValue(sv)).0, Resolve(w, p, v).0) by {
      ResolveRunsFirstHandler(w, p, v);
    }
    assert IsPending(m, R) && HandlersOf(m, R, OnProgress) == [] by {
      OtherStillPending(w, p, R, Resolved, sv, w.promises[p].exn);
    }
    AnyFirstResolves(m, h, g, i, OfValue(sv));
  }

  /** AnyResolvedByFirst, once the result has settled. */
  lemma AnyLateRejected(w: World, p: Pid, g: Gid, i: nat, v: Value)
    requires Good(w) && IsPending(w, p) && w.gas > 0 && g in w.groups && w.groups[g].result in w.promises
    requires w.engine != Legacy && AwaitsFirst(w, p, Any, g, i)
    requires !IsPending(w, w.groups[g].result)
    requires IsPending(w, HandlersOf(w, p, OnResolve)[0].rejectable) && HandlersOf(w, p, OnResolve)[0].rejectable != p
    ensures var t := HandlersOf(w, p, OnResolve)[0].rejectable;
            var w2 := Resolve(w, p, v).0;
            t in w2.promises && w2.promises[t].state == Rejected && w2.promises[t].exn == Some(StateError(w.engine, ProgressState))
  {
    var sv := Stored(w.engine, v);
    var h := HandlersOf(w, p, OnResolve)[0];
    var m := MarkSettled(w, p, Resolved, sv, w.promises[p].exn);
    var r := Invoke(m, h, OfValue(sv)).0;
    assert m.gas == w.gas && Keeps(r, Resolve(w, p, v).0) by {
      ResolveRunsFirstHandler(w, p, v);
    }
    var t := h.rejectable;
    assert t in r.promises && r.promises[t].state == Rejected && r.promises[t].exn == Some(StateError(w.engine, ProgressState)) by {
      assert IsPending(m, t) by {
        OtherStillPending(w, p, t, Resolved, sv, w.promises[p].exn);
      }
      LateSuccessRejects(m, h, g, i, OfValue(sv));
    }
    KeptSettled(r, Resolve(w, p, v).0, t);
  }

  /** What a world keeps, a later one has settled alike. */
  lemma KeptSettled(w: World, w': World, t: Pid)
    requires Keeps(w, w') && t in w.promises && w.promises[t].state != Pending
    ensures t in w'.promises && SameSettlement(w.promises[t], w'.promises[t])
  {
  }

  /** A handler whose first action is Any's resolve closure, while the result is pending and has no progress handlers. */
  lemma AnyFirstResolves(w: World, h: Handler, g: Gid, i: nat, arg: Arg)
    requires Good(w) && w.gas > 0 && g in w.groups && IsPending(w, w.groups[g].result)
    requires HandlersOf(w, w.groups[g].result, OnProgress) == []
    requires h.callback != [] && h.callback[0] == AnyResolved(g, i)
    ensures var R := w.groups[g].result;
            var r := Invoke(w, h, arg);
            R in r.0.promises && r.0.promises[R].state == Resolved && r.0.promises[R].value == Stored(w.engine, ValueOf(arg))
  {
    var w0 := w.(gas := w.gas - 1);
    var R := w.groups[g].result;
    var a := RunAction(w0, h.callback[0], arg).0;
    var r := Invoke(w, h, arg).0;
    assert Good(w0) && Keeps(a, r) by {
      InvokeFirst(w, h, arg);
    }
    assert R in a.promises && a.promises[R].state == Resolved && a.promises[R].value == Stored(w.engine, ValueOf(arg)) by {
      AnyResolveOutcome(w0, g, i, arg);
    }
    KeptSettled(a, r, R);
  }

  /** A handler whose first action is Any's resolve closure, once the result has settled. */
  lemma LateSuccessRejects(w: World, h: Handler, g: Gid, i: nat, arg: Arg)
    requires Good(w) && w.gas > 0 && g in w.groups && w.groups[g].result in w.promises && !IsPending(w, w.groups[g].result)
    requires h.callback != [] && h.callback[0] == AnyResolved(g, i) && IsPending(w, h.rejectable)
    ensures var r := Invoke(w, h, arg);
            h.rejectable in r.0.promises && r.0.promises[h.rejectable].state == Rejected
            && r.0.promises[h.rejectable].exn == Some(StateError(w.engine, ProgressState))
  {
    var w0 := w.(gas := w.gas - 1);
    var a := RunAction(w0, h.callback[0], arg);
    assert a.1 == Thrown(StateError(w.engine, ProgressState)) && IsPending(a.0, h.rejectable) by {
      AnyResolveOutcome(w0, g, i, arg);
    }
    InvokeThrowsFirst(w, h, arg);
  }

  /** A handler whose first action throws rejects its rejectable with that exception, and runs nothing more. */
  lemma InvokeThrowsFirst(w: World, h: Handler, arg: Arg)
    requires Good(w) && w.gas > 0 && h.callback != []
    ensures var a := RunAction(w.(gas := w.gas - 1), h.callback[0], arg);
            a.1.Thrown? ==> Invoke(w, h, arg) == Reject(a.0, h.rejectable, Some(a.1.e))
  {
    var w0 := w.(gas := w.gas - 1);
    PromiseProperties.InvokeUnfold(w, h, arg);
    RunActionsStops(w0, h.callback, arg);
  }

  /** A callback whose first action does not complete normally stops there. */
  lemma RunActionsStops(w: World, acts: seq<Action>, arg: Arg)
    requires Good(w) && acts != []
    ensures !RunAction(w, acts[0], arg).1.Normal? ==> RunActions(w, acts, arg) == RunAction(w, acts[0], arg)
  {
  }

  /**
   * All (pooled and older engines): when the last input still counted
   * resolves, and its first resolve handler is All's closure, a pending
   * result is resolved with every slot, this input's value in slot `i`.
   */
  lemma AllResolvedByLast(w: World, p: Pid, g: Gid, i: nat, v: Value)
    requires Good(w) && IsPending(w, p) && w.gas > 0 && g in w.groups && w.groups[g].result in w.promises
    requires w.engine != Queued && AwaitsFirst(w, p, All, g, i) && w.groups[g].remaining <= 1
    ensures var R := w.groups[g].result;
            var w2 := Resolve(w, p, v).0;
            && R in w2.promises
            && (IsPending(w, R) && R != p ==>
                  w2.promises[R].state == Resolved && w2.promises[R].value == Items(CollectStep(w.groups[g], i, v).results))
            && (!IsPending(w, R) ==> SameSettlement(w.promises[R], w2.promises[R]))
  {
    var R := w.groups[g].result;
    var h := HandlersOf(w, p, OnResolve)[0];
    ResolveRunsFirstHandler(w, p, v);
    var m := MarkSettled(w, p, Resolved, v, w.promises[p].exn);
    assert Stored(w.engine, v) == v;
    InvokeFirst(m, h, OfValue(v));
    var m0 := m.(gas := m.gas - 1);
    AllResolveOutcome(m0, g, i, OfValue(v));
    var a := RunAction(m0, h.callback[0], OfValue(v)).0;
    KeepsTrans(a, Invoke(m, h, OfValue(v)).0, Resolve(w, p, v).0);
    if IsPending(w, R) && R != p {
      OtherStillPending(w, p, R, Resolved, v, w.promises[p].exn);
    }
  }
}
