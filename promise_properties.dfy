/**
 * Properties of the promise engines that relate several operations:
 * a promise settles at most once, its handlers run in registration order,
 * an exception a callback throws rejects the handler's rejectable
 * promise, and what follows when that promise is the one reporting
 * progress.
 */
module PromiseProperties {
  import opened Values
  import opened PromiseWorld
  import opened PromiseDispatch

  /**
   * Once settled, a promise stays settled: a second Resolve, a Reject or
   * a ReportProgress throws the engine's state error and changes nothing.
   */
  lemma SettlesOnce(w: World, p: Pid, v: Value, v': Value, e: Option<Exn>, x: real)
    requires Good(w) && IsPending(w, p)
    ensures var w1 := Resolve(w, p, v).0;
            && Resolve(w1, p, v') == (w1, Thrown(StateError(w.engine, ResolveState)))
            && Reject(w1, p, e) == (w1, Thrown(StateError(w.engine, RejectState)))
            && ReportProgress(w1, p, x) == (w1, Thrown(StateError(w.engine, ProgressState)))
    ensures var w1 := Reject(w, p, e).0;
            && Resolve(w1, p, v') == (w1, Thrown(StateError(w.engine, ResolveState)))
            && Reject(w1, p, e) == (w1, Thrown(StateError(w.engine, RejectState)))
  {
  }

  /** A callback made only of user calls, none of which throws. */
  predicate Harmless(env: Env, h: Handler)
  {
    forall a :: a in h.callback ==> a.User? && a.id !in env.throws
  }

  /** The calls a sequence of user actions makes with `arg`. */
  function CallsOf(acts: seq<Action>, arg: Arg): seq<Event>
  {
    if acts == [] then [] else (if acts[0].User? then [Called(acts[0].id, arg)] else []) + CallsOf(acts[1..], arg)
  }

  /** The calls the handlers `hs` make, one handler after the other. */
  function Calls(hs: seq<Handler>, arg: Arg): seq<Event>
  {
    if hs == [] then [] else CallsOf(hs[0].callback, arg) + Calls(hs[1..], arg)
  }

  /** `w` after logging `evs` and spending `n` units of gas. */
  function Logged(w: World, evs: seq<Event>, n: nat): World
    requires n <= w.gas
  {
    w.(log := w.log + evs, gas := w.gas - n)
  }

  /** The actions `acts` run one by one, each user call logging itself; none of them throws. */
  lemma {:induction false} HarmlessActions(w: World, acts: seq<Action>, arg: Arg)
    requires Good(w) && forall a :: a in acts ==> a.User? && a.id !in w.env.throws
    ensures RunActions(w, acts, arg) == (Logged(w, CallsOf(acts, arg), 0), Normal)
    decreases |acts|
  {
    if acts != [] {
      var w1 := Logged(w, [Called(acts[0].id, arg)], 0);
      HarmlessFirst(w, acts, arg);
      HarmlessActions(w1, acts[1..], arg);
      Spent(w, [Called(acts[0].id, arg)], CallsOf(acts[1..], arg), 0, 0);
    } else {
      assert w.log + CallsOf(acts, arg) == w.log;
      assert Logged(w, CallsOf(acts, arg), 0) == w;
    }
  }

  /** The first of harmless actions logs its call, and the rest run after it. */
  lemma HarmlessFirst(w: World, acts: seq<Action>, arg: Arg)
    requires Good(w) && acts != [] && forall a :: a in acts ==> a.User? && a.id !in w.env.throws
    ensures var w1 := Logged(w, [Called(acts[0].id, arg)], 0);
            && Good(w1) && (forall a :: a in acts[1..] ==> a.User? && a.id !in w1.env.throws)
            && RunActions(w, acts, arg) == RunActions(w1, acts[1..], arg)
            && CallsOf(acts, arg) == [Called(acts[0].id, arg)] + CallsOf(acts[1..], arg)
  {
    assert acts[0] in acts;
    var w1 := Logged(w, [Called(acts[0].id, arg)], 0);
    assert RunAction(w, User(acts[0].id), arg) == (w1, Normal);
  }

  /** Invoke spends one unit of gas on the callback and routes what it throws to the rejectable. */
  lemma InvokeUnfold(w: World, h: Handler, arg: Arg)
    requires Good(w) && w.gas > 0
    ensures var r := RunActions(w.(gas := w.gas - 1), h.callback, arg);
            Invoke(w, h, arg) == (if r.1.Thrown? then Reject(r.0, h.rejectable, Some(r.1.e)) else r)
  {
  }

  /** A harmless handler costs one unit of gas and only logs its calls. */
  lemma HarmlessInvoke(w: World, h: Handler, arg: Arg)
    requires Good(w) && w.gas > 0 && Harmless(w.env, h)
    ensures Invoke(w, h, arg) == (Logged(w, CallsOf(h.callback, arg), 1), Normal)
  {
    var w0 := w.(gas := w.gas - 1);
    HarmlessActions(w0, h.callback, arg);
    InvokeUnfold(w, h, arg);
    assert Logged(w0, CallsOf(h.callback, arg), 0) == Logged(w, CallsOf(h.callback, arg), 1);
  }

  /** The handler loop of `p` is about to run the harmless handlers `hs`, up to their end. */
  ghost predicate LoopReady(w: World, p: Pid, kind: HandlerKind, hs: seq<Handler>, limit: Option<nat>)
  {
    && Good(w) && p in w.promises && ListOf(w.promises[p], kind).Some? && hs == HandlersOf(w, p, kind)
    && (forall h :: h in hs ==> Harmless(w.env, h))
    && (limit == None || limit == Some(|hs|))
  }

  /** The loop is ready at handler `i`, with gas enough for the handlers left. */
  ghost predicate LoopAt(w: World, p: Pid, kind: HandlerKind, hs: seq<Handler>, i: nat, limit: Option<nat>)
  {
    LoopReady(w, p, kind, hs, limit) && i <= |hs| && |hs| - i <= w.gas
  }

  /**
   * The handler loop over harmless handlers `hs` runs the handlers from
   * index `i` on, in order, each once.
   */
  lemma {:induction false} HarmlessLoop(w: World, p: Pid, kind: HandlerKind, hs: seq<Handler>, i: nat, limit: Option<nat>, arg: Arg)
    requires LoopAt(w, p, kind, hs, i, limit)
    ensures RunHandlers(w, p, kind, i, limit, arg) == (Logged(w, Calls(hs[i..], arg), |hs| - i), Normal)
    decreases |hs| - i, 2
  {
    if i < |hs| {
      HarmlessTurn(w, p, kind, hs, i, limit, arg);
    } else {
      assert RunHandlers(w, p, kind, i, limit, arg) == (w, Normal);
      assert hs[i..] == [];
      assert w.log + Calls(hs[i..], arg) == w.log;
      assert Logged(w, Calls(hs[i..], arg), |hs| - i) == w;
    }
  }

  /** One turn of HarmlessLoop: handler `i` logs its calls, then the loop goes on from `i + 1`. */
  lemma {:induction false} HarmlessTurn(w: World, p: Pid, kind: HandlerKind, hs: seq<Handler>, i: nat, limit: Option<nat>, arg: Arg)
    requires LoopAt(w, p, kind, hs, i, limit) && i < |hs|
    ensures RunHandlers(w, p, kind, i, limit, arg) == (Logged(w, Calls(hs[i..], arg), |hs| - i), Normal)
    decreases |hs| - i, 1
  {
    HarmlessStep(w, p, kind, hs, i, limit, arg);
    HarmlessRest(w, p, kind, hs, i, limit, arg);
    TurnLog(w, hs, i, arg);
  }

  /** The log and gas of one turn and of the turns after it add up to those of the loop from `i`. */
  lemma TurnLog(w: World, hs: seq<Handler>, i: nat, arg: Arg)
    requires i < |hs| && |hs| - i <= w.gas
    ensures Logged(Logged(w, CallsOf(hs[i].callback, arg), 1), Calls(hs[i + 1..], arg), |hs| - (i + 1))
            == Logged(w, Calls(hs[i..], arg), |hs| - i)
  {
    CallsFrom(hs, i, arg);
    Spent(w, CallsOf(hs[i].callback, arg), Calls(hs[i + 1..], arg), 1, |hs| - (i + 1));
  }

  /** Handler `i` logs its calls, and the handlers after it log theirs. */
  lemma {:induction false} HarmlessRest(w: World, p: Pid, kind: HandlerKind, hs: seq<Handler>, i: nat, limit: Option<nat>, arg: Arg)
    requires LoopAt(w, p, kind, hs, i, limit) && i < |hs|
    requires var w1 := Logged(w, CallsOf(hs[i].callback, arg), 1);
             LoopAt(w1, p, kind, hs, i + 1, limit)
             && RunHandlers(w, p, kind, i, limit, arg) == RunHandlers(w1, p, kind, i + 1, limit, arg)
    ensures var w1 := Logged(w, CallsOf(hs[i].callback, arg), 1);
            RunHandlers(w, p, kind, i, limit, arg) == (Logged(w1, Calls(hs[i + 1..], arg), |hs| - (i + 1)), Normal)
    decreases |hs| - i, 0
  {
    HarmlessLoop(Logged(w, CallsOf(hs[i].callback, arg), 1), p, kind, hs, i + 1, limit, arg);
  }

  /** Two rounds of logging and spending gas are one. */
  lemma Spent(w: World, a: seq<Event>, b: seq<Event>, n: nat, m: nat)
    requires n + m <= w.gas
    ensures Logged(Logged(w, a, n), b, m) == Logged(w, a + b, n + m)
  {
    assert w.log + a + b == w.log + (a + b);
  }

  /** Handler `i` of a harmless list logs its calls and hands over to handler `i + 1`. */
  lemma HarmlessStep(w: World, p: Pid, kind: HandlerKind, hs: seq<Handler>, i: nat, limit: Option<nat>, arg: Arg)
    requires LoopAt(w, p, kind, hs, i, limit) && i < |hs|
    ensures var w1 := Logged(w, CallsOf(hs[i].callback, arg), 1);
            && LoopAt(w1, p, kind, hs, i + 1, limit)
            && RunHandlers(w, p, kind, i, limit, arg) == RunHandlers(w1, p, kind, i + 1, limit, arg)
  {
    assert hs[i] in hs;
    HarmlessInvoke(w, hs[i], arg);
    RunHandlersStep(w, p, kind, i, limit, arg);
  }

  /** One turn of the handler loop, when the handler completes normally. */
  lemma RunHandlersStep(w: World, p: Pid, kind: HandlerKind, i: nat, limit: Option<nat>, arg: Arg)
    requires Good(w) && p in w.promises && ListOf(w.promises[p], kind).Some?
    requires i < |HandlersOf(w, p, kind)| && (limit == None || i < limit.value)
    ensures var r := Invoke(w, HandlersOf(w, p, kind)[i], arg);
            r.1.Normal? ==> RunHandlers(w, p, kind, i, limit, arg) == RunHandlers(r.0, p, kind, i + 1, limit, arg)
  {
  }

  lemma CallsFrom(hs: seq<Handler>, i: nat, arg: Arg)
    requires i < |hs|
    ensures Calls(hs[i..], arg) == CallsOf(hs[i].callback, arg) + Calls(hs[i + 1..], arg)
  {
    assert hs[i..][1..] == hs[i + 1..];
  }

  /** Notify over harmless handlers: each runs once, in order, and only logs its calls. */
  lemma NotifyHarmless(w: World, p: Pid, kind: HandlerKind, arg: Arg)
    requires Good(w) && p in w.promises
    requires forall h :: h in HandlersOf(w, p, kind) ==> Harmless(w.env, h)
    requires w.gas >= |HandlersOf(w, p, kind)|
    ensures var hs := HandlersOf(w, p, kind);
            Notify(w, p, kind, arg) == (Logged(w, Calls(hs, arg), |hs|), Normal)
  {
    var hs := HandlersOf(w, p, kind);
    if ListOf(w.promises[p], kind).Some? {
      NotifyListed(w, p, kind, arg);
    } else {
      assert hs == [] && w.log + Calls(hs, arg) == w.log;
      assert Logged(w, Calls(hs, arg), |hs|) == w;
    }
  }

  /** NotifyHarmless when the promise has its list. */
  lemma NotifyListed(w: World, p: Pid, kind: HandlerKind, arg: Arg)
    requires Good(w) && p in w.promises && ListOf(w.promises[p], kind).Some?
    requires forall h :: h in HandlersOf(w, p, kind) ==> Harmless(w.env, h)
    requires w.gas >= |HandlersOf(w, p, kind)|
    ensures var hs := HandlersOf(w, p, kind);
            Notify(w, p, kind, arg) == (Logged(w, Calls(hs, arg), |hs|), Normal)
  {
    var hs := HandlersOf(w, p, kind);
    var limit := if w.engine == Legacy then Some(|hs|) else None;
    NotifyRuns(w, p, kind, arg);
    HarmlessLoop(w, p, kind, hs, 0, limit, arg);
    assert hs[0..] == hs;
  }

  /** With a list in place, Notify is the handler loop from the first handler. */
  lemma NotifyRuns(w: World, p: Pid, kind: HandlerKind, arg: Arg)
    requires Good(w) && p in w.promises && ListOf(w.promises[p], kind).Some?
    requires forall h :: h in HandlersOf(w, p, kind) ==> Harmless(w.env, h)
    requires w.gas >= |HandlersOf(w, p, kind)|
    ensures var hs := HandlersOf(w, p, kind);
            var limit := if w.engine == Legacy then Some(|hs|) else None;
            && LoopAt(w, p, kind, hs, 0, limit)
            && Notify(w, p, kind, arg) == RunHandlers(w, p, kind, 0, limit, arg)
  {
  }

  /**
   * Resolve runs the resolve handlers queued at that moment, in the order
   * they were registered, each once with the value; then the handlers are
   * cleared and (pooled engine) the await continuation runs. Only the
   * pooled engine's pool push can throw.
   */
  lemma ResolveRunsHandlersInOrder(w: World, p: Pid, v: Value)
    requires Good(w) && IsPending(w, p)
    requires forall h :: h in HandlersOf(w, p, OnResolve) ==> Harmless(w.env, h)
    requires w.gas >= |HandlersOf(w, p, OnResolve)|
    ensures var stored := if w.engine == Queued then Default else v;
            var r := Resolve(w, p, v);
            && (r.1 == Normal || r.1 == Thrown(ItemAlreadyRecycled))
            && (w.engine != Pooled ==> r.1 == Normal)
            && r.0.log == w.log + Calls(HandlersOf(w, p, OnResolve), OfValue(stored))
                          + (if r.1.Normal? && w.engine == Pooled && w.promises[p].continuation.Some?
                             then [Resumed(w.promises[p].continuation.value)] else [])
  {
    var stored := if w.engine == Queued then Default else v;
    var w1 := MarkSettled(w, p, Resolved, stored, w.promises[p].exn);
    var hs := HandlersOf(w, p, OnResolve);
    assert HandlersOf(w1, p, OnResolve) == hs;
    NotifyHarmless(w1, p, OnResolve, OfValue(stored));
    var w2 := Notify(w1, p, OnResolve, OfValue(stored)).0;
    assert Resolve(w, p, v) == Settled(w1, p, OnResolve, OfValue(stored));
    SettledFinishes(w1, p, OnResolve, OfValue(stored));
    FinishLog(w2, p);
  }

  /** When the handlers complete normally, settlement goes on with Finish. */
  lemma SettledFinishes(w: World, p: Pid, kind: HandlerKind, arg: Arg)
    requires Good(w)
    ensures var n := Notify(w, p, kind, arg);
            n.1 == Normal ==> Settled(w, p, kind, arg) == Finish(n.0, p)
  {
  }

  /**
   * Finish after a settlement: ClearHandlers can only throw the pooled
   * engine's recycled error; the log gains the await continuation, if the
   * pooled promise had one.
   */
  lemma FinishLog(w: World, p: Pid)
    requires Good(w) && p in w.promises
    ensures var r := Finish(w, p);
            && (r.1 == Normal || r.1 == Thrown(ItemAlreadyRecycled))
            && (w.engine != Pooled ==> r.1 == Normal)
            && r.0.log == w.log + (if r.1.Normal? && w.engine == Pooled && w.promises[p].continuation.Some?
                                   then [Resumed(w.promises[p].continuation.value)] else [])
  {
    var (w3, f3) := ClearHandlersAsWritten(w, p);
    assert w3.promises[p].continuation == w.promises[p].continuation;
  }

  /**
   * A callback that throws rejects the handler's rejectable promise with
   * that exception, and the invocation completes normally. When the
   * rejectable is no longer pending, the state error of that second
   * rejection escapes instead.
   */
  lemma ThrowRejectsRejectable(w: World, id: nat, t: Pid, arg: Arg)
    requires Good(w) && w.gas > 0 && id in w.env.throws && t in w.promises
    requires NoLists(w.promises[t]) && w.promises[t].continuation == None
    ensures var r := Invoke(w, Handler([User(id)], t), arg);
            && (w.promises[t].state == Pending ==>
                  r.1 == Normal && r.0.promises[t].state == Rejected && r.0.promises[t].exn == Some(w.env.throws[id]))
            && (w.promises[t].state != Pending ==> r.1 == Thrown(StateError(w.engine, RejectState)))
  {
    var w1 := w.(gas := w.gas - 1, log := w.log + [Called(id, arg)]);
    assert RunActions(w.(gas := w.gas - 1), [User(id)], arg) == (w1, Thrown(w.env.throws[id])) by {
      assert RunAction(w.(gas := w.gas - 1), User(id), arg) == (w1, Thrown(w.env.throws[id]));
    }
    InvokeUnfold(w, Handler([User(id)], t), arg);
    if w.promises[t].state == Pending {
      assert Quiet(w1, t);
      QuietReject(w1, t, Some(w.env.throws[id]));
    }
  }

  /** ClearHandlers, as written or corrected, on a promise without lists completes normally. */
  lemma ClearNoLists(w: World, p: Pid)
    requires Good(w) && p in w.promises && NoLists(w.promises[p])
    ensures ClearHandlers(w, p).1 == Normal && ClearHandlersAsWritten(w, p).1 == Normal
  {
    if w.engine != Legacy {
      var rec := w.promises[p];
      assert PushAll(ClearLists(w, rec), rec).1 == Normal;
    }
  }
}
