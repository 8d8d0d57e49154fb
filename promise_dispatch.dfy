/**
 * Settling promises and running their handlers, shared by the three
 * engines and parameterised by `World.engine` where they differ.
 *
 * The functions here call each other the way the C# methods do: Resolve
 * runs the resolve handlers, a handler's callback may resolve, reject or
 * report progress on other promises or register handlers with Then and
 * Catch, and an exception a callback throws is routed to the handler's
 * rejectable promise. Each handler invocation costs one unit of gas, and
 * running out of gas is reported as `Exhausted`, which no catch block
 * catches.
 */
module PromiseDispatch {
  import opened Values
  import opened PromiseWorld

  function Optional(a: Option<Action>): seq<Action>
  {
    if a.Some? then [a.value] else []
  }

  function MaxRank(a: Option<Action>, b: Option<Action>, c: Option<Action>): nat
  {
    var m := if OptRank(a) < OptRank(b) then OptRank(b) else OptRank(a);
    if m < OptRank(c) then OptRank(c) else m
  }

  /**
   * InvokeHandler: run the callback; an exception it throws rejects the
   * handler's rejectable promise, and only an exception from that
   * rejection escapes.
   */
  function Invoke(w: World, h: Handler, arg: Arg): (r: (World, Flow))
    requires Good(w)
    ensures Good(r.0) && Keeps(w, r.0)
    ensures r.1.Normal? ==> r.0.gas < w.gas
    decreases w.gas, 0, 0
  {
    if w.gas == 0 then (w, Exhausted)
    else
      var w0 := w.(gas := w.gas - 1);
      assert Good(w0) && Keeps(w, w0);
      var (w1, f) := RunActions(w0, h.callback, arg);
      KeepsTrans(w, w0, w1);
      if f.Thrown? then
        var r := Reject(w1, h.rejectable, Some(f.e));
        KeepsTrans(w, w1, r.0);
        r
      else (w1, f)
  }

  /** A callback: its actions in order, stopping at the first that does not complete normally. */
  function RunActions(w: World, acts: seq<Action>, arg: Arg): (r: (World, Flow))
    requires Good(w)
    ensures Good(r.0) && Keeps(w, r.0)
    decreases w.gas, 5, |acts|
  {
    if acts == [] then (w, Normal)
    else
      var (w1, f) := RunAction(w, acts[0], arg);
      if !f.Normal? then (w1, f) else RunActions(w1, acts[1..], arg)
  }

  /** The closure variables of group `g`, with `R` the combinator's result promise. */
  function RunAction(w: World, a: Action, arg: Arg): (r: (World, Flow))
    requires Good(w)
    ensures Good(r.0) && Keeps(w, r.0)
    decreases w.gas, 4, 2 * Rank(a) + 1
  {
    match a
    case User(id) =>
      var w1 := w.(log := w.log + [Called(id, arg)]);
      if id in w.env.throws then (w1, Thrown(w.env.throws[id])) else (w1, Normal)
    case ResolveWith(t) => Resolve(w, t, ValueOf(arg))
    case ResolveEmpty(t) => Resolve(w, t, Default)
    case RejectWith(t) => Reject(w, t, ExnOf(arg))
    case ProgressTo(t) => ReportProgress(w, t, ProgressOf(arg))
    case Chain(producer, t) => RunChain(w, producer, t)
    case FirstRetry(g, k, np) => RunFirstRetry(w, g, k, np)
    case _ =>
      if a.g !in w.groups then (w, Thrown(NullReference))
      else GroupAction(w, a, arg)
  }

  /**
   * Then(Func<IPromise>)'s resolve handler in the non-generic engine: the
   * produced promise's progress and settlement are forwarded to `t`.
   */
  function RunChain(w: World, producer: Producer, t: Pid): (r: (World, Flow))
    requires Good(w)
    ensures Good(r.0) && Keeps(w, r.0)
    decreases w.gas, 4, 4
  {
    var (w1, f, q) := RunProducer(w, producer);
    if !f.Normal? then (w1, f)
    else if q !in w1.promises then (w1, Thrown(NullReference))
    else
      var w2 := ProgressHandlers(w1, q, Handler([ProgressTo(t)], q));
      var r := Then(w2, q, Some(ResolveEmpty(t)), Some(RejectWith(t)), None);
      KeepsTrans(w, w1, w2);
      KeepsTrans(w, w2, r.0);
      (r.0, r.1)
  }

  /**
   * First's reject handler for factory `k`: report k / count, call the
   * factory, and forward its promise's outcome to `np`.
   */
  function RunFirstRetry(w: World, g: Gid, k: nat, np: Pid): (r: (World, Flow))
    requires Good(w)
    ensures Good(r.0) && Keeps(w, r.0)
    decreases w.gas, 4, 4
  {
    if g !in w.groups then (w, Thrown(NullReference))
    else
      var gr := w.groups[g];
      var (w1, f) := ReportProgress(w, gr.result, Slice(k as real, gr.count));
      if !f.Normal? then (w1, f)
      else
        var (w2, f2, q) := CallFactory(w1, gr.factories, k);
        KeepsTrans(w, w1, w2);
        if !f2.Normal? then (w2, f2)
        else
          var r := ForwardTo(w2, q, np);
          KeepsTrans(w, w2, r.0);
          r
  }

  /** `q.Then(np.Resolve).Catch(np.Reject)`. */
  function ForwardTo(w: World, q: Pid, np: Pid): (r: (World, Flow))
    requires Good(w)
    ensures Good(r.0) && Keeps(w, r.0)
    decreases w.gas, 4, 3
  {
    var (w1, f1, t) := Then(w, q, Some(ResolveWith(np)), None, None);
    if !f1.Normal? then (w1, f1)
    else
      var r := Catch(w1, t, RejectWith(np));
      KeepsTrans(w, w1, r.0);
      (r.0, r.1)
  }

  /** The bodies of the combinators' closures. */
  function GroupAction(w: World, a: Action, arg: Arg): (r: (World, Flow))
    requires Good(w) && Rank(a) == 0 && !a.User? && !a.ResolveWith? && !a.ResolveEmpty? && !a.RejectWith? && !a.ProgressTo?
    requires a.g in w.groups
    ensures Good(r.0) && Keeps(w, r.0)
    decreases w.gas, 3, 2
  {
    if a.ReportMean? || a.ReportMax? || a.ReportMaxGuarded? || a.ReportSlice? then GroupProgress(w, a, arg)
    else GroupSettle(w, a, arg)
  }

  /** The progress closures of All, Any, Race, First and Sequence. */
  function GroupProgress(w: World, a: Action, arg: Arg): (r: (World, Flow))
    requires Good(w) && (a.ReportMean? || a.ReportMax? || a.ReportMaxGuarded? || a.ReportSlice?)
    requires a.g in w.groups
    ensures Good(r.0) && Keeps(w, r.0)
    decreases w.gas, 3, 1
  {
    var gr := w.groups[a.g];
    var R := gr.result;
    match a
    case ReportMean(g, i) =>
      var gr1 := gr.(progress := Put(gr.progress, i, ProgressOf(arg)));
      var w1 := w.(groups := w.groups[g := gr1]);
      if IsPending(w1, R) then ReportProgress(w1, R, Mean(gr1.progress)) else (w1, Normal)
    case ReportMax(g, i) =>
      var gr1 := gr.(progress := Put(gr.progress, i, ProgressOf(arg)));
      ReportProgress(w.(groups := w.groups[g := gr1]), R, Max(gr1.progress))
    case ReportMaxGuarded(g, i) =>
      if !IsPending(w, R) then (w, Normal)
      else
        var gr1 := gr.(progress := Put(gr.progress, i, ProgressOf(arg)));
        ReportProgress(w.(groups := w.groups[g := gr1]), R, Max(gr1.progress))
    case ReportSlice(g, k) =>
      ReportProgress(w, R, Slice(k as real + ProgressOf(arg), gr.count))
  }

  /** The resolve and reject closures of All, Any, Race and First. */
  function GroupSettle(w: World, a: Action, arg: Arg): (r: (World, Flow))
    requires Good(w) && (a.Collect? || a.AnyResolved? || a.AnyRejected? || a.ResolveIfPending? || a.RejectIfPending? || a.FirstGiveUp?)
    requires a.g in w.groups
    ensures Good(r.0) && Keeps(w, r.0)
    decreases w.gas, 3, 1
  {
    var gr := w.groups[a.g];
    var R := gr.result;
    match a
    case Collect(g, i) =>
      var gr1 := CollectStep(gr, i, ValueOf(arg));
      var w1 := w.(groups := w.groups[g := gr1]);
      GroupSetKeeps(w, g, gr1);
      if gr1.remaining <= 0 && IsPending(w1, R) then Resolve(w1, R, Items(gr1.results)) else (w1, Normal)
    case AnyResolved(g, i) =>
      var gr1 := gr.(progress := Put(gr.progress, i, 1.0));
      GroupSetKeeps(w, g, gr1);
      var (w1, f) := ReportProgress(w.(groups := w.groups[g := gr1]), R, 1.0);
      KeepsTrans(w, w.(groups := w.groups[g := gr1]), w1);
      if !f.Normal? then (w1, f)
      else if IsPending(w1, R) then
        var r := Resolve(w1, R, ValueOf(arg));
        KeepsTrans(w, w1, r.0);
        r
      else (w1, Normal)
    case AnyRejected(g, i) =>
      var gr1 := AnyRejectStep(gr, i, ExnOf(arg), w.engine == Pooled);
      var w1 := w.(groups := w.groups[g := gr1]);
      GroupSetKeeps(w, g, gr1);
      if gr1.remaining <= 0 && IsPending(w1, R) then Reject(w1, R, Some(Exn.Group(gr1.slots))) else (w1, Normal)
    case ResolveIfPending(g) =>
      if IsPending(w, R) then Resolve(w, R, ValueOf(arg)) else (w, Normal)
    case RejectIfPending(g) =>
      if IsPending(w, R) then Reject(w, R, ExnOf(arg)) else (w, Normal)
    case FirstGiveUp(g) =>
      var (w1, f) := ReportProgress(w, R, 1.0);
      if !f.Normal? then (w1, f)
      else
        var r := Reject(w1, R, ExnOf(arg));
        KeepsTrans(w, w1, r.0);
        r
  }

  /** Replacing a group's record keeps the world good and keeps everything a step must keep. */
  lemma GroupSetKeeps(w: World, g: Gid, gr: Captures)
    requires Good(w) && g in w.groups
    ensures Good(w.(groups := w.groups[g := gr])) && Keeps(w, w.(groups := w.groups[g := gr]))
  {
  }

  /** The non-generic engine's promise-returning closures. */
  function RunProducer(w: World, pr: Producer): (r: (World, Flow, Pid))
    requires Good(w)
    ensures Good(r.0) && Keeps(w, r.0)
    decreases w.gas, 4, 0
  {
    if pr.g !in w.groups then (w, Thrown(NullReference), 0)
    else
      var gr := w.groups[pr.g];
      var R := gr.result;
      match pr
      case CountDown(g, i) =>
        var gr1 := gr.(progress := Put(gr.progress, i, 1.0), remaining := gr.remaining - 1);
        var w1 := w.(groups := w.groups[g := gr1]);
        if gr1.remaining == 0 && IsPending(w1, R) then
          var (w2, f) := Resolve(w1, R, Default);
          (w2, f, R)
        else (w1, Normal, R)
      case SequenceStep(g, k) =>
        var (w1, f) := ReportProgress(w, R, Slice(k as real, gr.count));
        if !f.Normal? then (w1, f, 0) else CallFactory(w1, gr.factories, k)
  }

  /** Calls factory `k` of a First or Sequence: it throws, or yields a promise (or null). */
  function CallFactory(w: World, factories: seq<nat>, k: nat): (r: (World, Flow, Pid))
    requires Good(w)
    ensures Good(r.0) && Keeps(w, r.0)
    ensures r.0.promises == w.promises && r.0.gas == w.gas
    ensures r.1.Normal? ==> r.2 in w.promises
  {
    if k >= |factories| then (w, Thrown(NullReference), 0)
    else
      var fid := factories[k];
      var w1 := w.(log := w.log + [Produced(fid)]);
      if fid !in w.env.factories then (w1, Thrown(NullReference), 0)
      else match w.env.factories[fid]
        case Throw(e) => (w1, Thrown(e), 0)
        case Return(q) => if q in w.promises then (w1, Normal, q) else (w1, Thrown(NullReference), 0)
  }

  /**
   * Resolve: a promise that is not pending throws; otherwise it becomes
   * resolved (the non-generic engine has no value), its resolve handlers
   * run, its handlers are cleared and, in the pooled engine, the stored
   * await continuation runs.
   */
  function Resolve(w: World, p: Pid, v: Value): (r: (World, Flow))
    requires Good(w)
    ensures Good(r.0) && Keeps(w, r.0)
    ensures p !in w.promises ==> r == (w, Thrown(NullReference))
    ensures p in w.promises && w.promises[p].state != Pending ==> r == (w, Thrown(StateError(w.engine, ResolveState)))
    ensures IsPending(w, p) ==> p in r.0.promises && r.0.promises[p].state == Resolved
                                && r.0.promises[p].value == (if w.engine == Queued then Default else v)
    decreases w.gas, 2, 0
  {
    if p !in w.promises then (w, Thrown(NullReference))
    else if w.promises[p].state != Pending then (w, Thrown(StateError(w.engine, ResolveState)))
    else
      var stored := if w.engine == Queued then Default else v;
      var w1 := MarkSettled(w, p, Resolved, stored, w.promises[p].exn);
      var r := Settled(w1, p, OnResolve, OfValue(stored));
      KeepsTrans(w, w1, r.0);
      r
  }

  /** Reject: like Resolve, with the rejection exception and the reject handlers. */
  function Reject(w: World, p: Pid, e: Option<Exn>): (r: (World, Flow))
    requires Good(w)
    ensures Good(r.0) && Keeps(w, r.0)
    ensures p !in w.promises ==> r == (w, Thrown(NullReference))
    ensures p in w.promises && w.promises[p].state != Pending ==> r == (w, Thrown(StateError(w.engine, RejectState)))
    ensures IsPending(w, p) ==> p in r.0.promises && r.0.promises[p].state == Rejected && r.0.promises[p].exn == e
    decreases w.gas, 2, 0
  {
    if p !in w.promises then (w, Thrown(NullReference))
    else if w.promises[p].state != Pending then (w, Thrown(StateError(w.engine, RejectState)))
    else
      var w1 := MarkSettled(w, p, Rejected, w.promises[p].value, e);
      var r := Settled(w1, p, OnReject, OfExn(e));
      KeepsTrans(w, w1, r.0);
      r
  }

  /** The rest of a settlement: the handlers, then ClearHandlers and the continuation. */
  function Settled(w: World, p: Pid, kind: HandlerKind, arg: Arg): (r: (World, Flow))
    requires Good(w)
    ensures Good(r.0) && Keeps(w, r.0)
    decreases w.gas, 1, 2
  {
    var (w1, f) := Notify(w, p, kind, arg);
    if !f.Normal? then (w1, f)
    else
      var r := Finish(w1, p);
      KeepsTrans(w, w1, r.0);
      r
  }

  /** ReportProgress: only a pending promise takes progress; its progress handlers run. */
  function ReportProgress(w: World, p: Pid, x: real): (r: (World, Flow))
    requires Good(w)
    ensures Good(r.0) && Keeps(w, r.0)
    ensures p !in w.promises ==> r == (w, Thrown(NullReference))
    ensures p in w.promises && w.promises[p].state != Pending ==> r == (w, Thrown(StateError(w.engine, ProgressState)))
    decreases w.gas, 2, 0
  {
    if p !in w.promises then (w, Thrown(NullReference))
    else if w.promises[p].state != Pending then (w, Thrown(StateError(w.engine, ProgressState)))
    else Notify(w, p, OnProgress, OfProgress(x))
  }

  /** After settlement: ClearHandlers, then (pooled engine) the await continuation. */
  function Finish(w: World, p: Pid): (r: (World, Flow))
    requires Good(w)
    ensures Good(r.0) && Keeps(w, r.0)
  {
    var (w1, f) := ClearHandlersAsWritten(w, p);
    if !f.Normal? then (w1, f) else (Resume(w1, p), Normal)
  }

  /**
   * InvokeResolveHandlers / InvokeRejectHandlers / InvokeProgressHandlers:
   * nothing when the field is null; otherwise the handlers in order. The
   * pooled and non-generic engines read the list's Count before every
   * handler, so handlers added meanwhile run too; the older engine reads
   * the count once.
   */
  function Notify(w: World, p: Pid, kind: HandlerKind, arg: Arg): (r: (World, Flow))
    requires Good(w)
    ensures Good(r.0) && Keeps(w, r.0)
    decreases w.gas, 1, 1
  {
    if p !in w.promises || ListOf(w.promises[p], kind).None? then (w, Normal)
    else
      var limit := if w.engine == Legacy then Some(|HandlersOf(w, p, kind)|) else None;
      RunHandlers(w, p, kind, 0, limit, arg)
  }

  /**
   * The handler loop from index `i`. The field is read again at every
   * step: once ClearHandlers has set it to null (a handler settled the
   * promise), reading it throws.
   */
  function RunHandlers(w: World, p: Pid, kind: HandlerKind, i: nat, limit: Option<nat>, arg: Arg): (r: (World, Flow))
    requires Good(w)
    ensures Good(r.0) && Keeps(w, r.0)
    decreases w.gas, 1, 0
  {
    if limit.Some? && i >= limit.value then (w, Normal)
    else if p !in w.promises || ListOf(w.promises[p], kind).None? then (w, Thrown(NullReference))
    else
      var hs := HandlersOf(w, p, kind);
      if i >= |hs| then (w, Normal)
      else
        var (w1, f) := Invoke(w, hs[i], arg);
        if !f.Normal? then (w1, f) else RunHandlers(w1, p, kind, i + 1, limit, arg)
  }

  /** `res` is queued on `p` to run when it resolves, and `rej` to run when it is rejected. */
  ghost predicate Registered(w: World, p: Pid, res: Handler, rej: Handler)
  {
    res in HandlersOf(w, p, OnResolve) && rej in HandlersOf(w, p, OnReject)
  }

  /** Appending to lists keeps every handler a promise already has. */
  lemma RegisteredStays(w: World, w': World, p: Pid, res: Handler, rej: Handler)
    requires Registered(w, p, res, rej) && p in w'.promises
    requires w'.promises[p].resolves == w.promises[p].resolves && w'.promises[p].rejects == w.promises[p].rejects
    requires forall l :: l in w.lists ==> l in w'.lists && ListAt(w, l) <= ListAt(w', l)
    ensures Registered(w', p, res, rej)
  {
    var l1 := w.promises[p].resolves.value;
    var l2 := w.promises[p].rejects.value;
    assert ListOf(w'.promises[p], OnResolve) == Some(l1);
    assert ListOf(w'.promises[p], OnReject) == Some(l2);
    assert ListAt(w, l1) <= ListAt(w', l1);
    assert ListAt(w, l2) <= ListAt(w', l2);
  }

  /** AddResolveHandler, then AddRejectHandler. */
  function Queue(w: World, p: Pid, res: Handler, rej: Handler): (r: World)
    requires Good(w) && IsPending(w, p)
    ensures Good(r) && Keeps(w, r) && Calm(w, r) && Registered(r, p, res, rej)
  {
    var w1 := AddHandler(w, p, OnResolve, res);
    var w2 := AddHandler(w1, p, OnReject, rej);
    AddHandlerCalm(w, p, OnResolve, res);
    AddHandlerCalm(w1, p, OnReject, rej);
    CalmTrans(w, w1, w2);
    assert res in HandlersOf(w2, p, OnResolve) by {
      var l := w1.promises[p].resolves.value;
      assert l in w1.lists && ListAt(w1, l) <= ListAt(w2, l);
      assert ListOf(w2.promises[p], OnResolve) == Some(l);
    }
    w2
  }

  /** A progress handler added to a promise leaves its resolve and reject handlers in place. */
  lemma ProgressKeepsRegistered(w: World, p: Pid, h: Handler, res: Handler, rej: Handler)
    requires Good(w) && Registered(w, p, res, rej)
    ensures Calm(w, ProgressHandlers(w, p, h)) && Registered(ProgressHandlers(w, p, h), p, res, rej)
  {
    if IsPending(w, p) {
      var w' := AddHandler(w, p, OnProgress, h);
      assert ListOf(w'.promises[p], OnResolve) == ListOf(w.promises[p], OnResolve);
      assert ListOf(w'.promises[p], OnReject) == ListOf(w.promises[p], OnReject);
      RegisteredStays(w, w', p, res, rej);
    }
  }

  /**
   * ActionHandlers: a settled promise invokes the matching handler at
   * once (and, in the pooled engine, the await continuation); a pending
   * one queues both.
   */
  function ActionHandlers(w: World, p: Pid, res: Handler, rej: Handler): (r: (World, Flow))
    requires Good(w)
    ensures Good(r.0) && Keeps(w, r.0)
    ensures IsPending(w, p) ==> r.1 == Normal && Calm(w, r.0)
    ensures IsPending(w, p) ==> Registered(r.0, p, res, rej)
    decreases w.gas, 3, 0
  {
    if p !in w.promises then (w, Thrown(NullReference))
    else
      var rec := w.promises[p];
      match rec.state
      case Pending => (Queue(w, p, res, rej), Normal)
      case Resolved =>
        var (w1, f) := Invoke(w, res, OfValue(rec.value));
        if f.Normal? then (Resume(w1, p), Normal) else (w1, f)
      case Rejected =>
        var (w1, f) := Invoke(w, rej, OfExn(rec.exn));
        if f.Normal? then (Resume(w1, p), Normal) else (w1, f)
  }

  /**
   * The outcome of a callback run at once by Then or Catch: a new
   * resolved promise (or `keep`), a new rejected promise carrying the
   * exception, or exhaustion.
   */
  function Shortcut(w: World, f: Flow, keep: Option<Pid>): (r: (World, Flow, Pid))
    requires Good(w)
    ensures Good(r.0) && Keeps(w, r.0)
    ensures f.Normal? && keep.Some? ==> r == (w, Normal, keep.value)
    ensures f.Normal? && keep.None? ==> r.1 == Normal && r.2 !in w.promises && r.2 in r.0.promises && r.0.promises[r.2].state == Resolved
    ensures f.Thrown? ==> r.1 == Normal && r.2 !in w.promises && r.2 in r.0.promises && r.0.promises[r.2].state == Rejected
                          && r.0.promises[r.2].exn == Some(f.e)
    ensures f.Exhausted? ==> r.1 == Exhausted
    ensures !f.Exhausted? ==> r.0.log == w.log && r.0.gas == w.gas && r.0.groups == w.groups
    ensures f.Thrown? || (f.Normal? && keep.None?) ==> r.0.promises == w.promises[r.2 := r.0.promises[r.2]]
  {
    match f
    case Normal =>
      if keep.Some? then (w, Normal, keep.value)
      else var (w1, t) := NewPromise(w, Resolved, Default, None); (w1, Normal, t)
    case Thrown(e) =>
      var (w1, t) := NewPromise(w, Rejected, Default, Some(e));
      (w1, Normal, t)
    case Exhausted => (w, Exhausted, 0)
  }

  /**
   * Then(onResolved, onRejected, onProgress), returning a non-generic
   * promise. A resolved promise runs onResolved at once (a null one
   * throws); in the pooled and non-generic engines a rejected promise
   * runs onRejected at once, or yields a rejected promise without one.
   * Otherwise a new pending promise is chained behind this one.
   */
  function Then(w: World, p: Pid, onResolved: Option<Action>, onRejected: Option<Action>, onProgress: Option<Action>): (r: (World, Flow, Pid))
    requires Good(w)
    ensures Good(r.0) && Keeps(w, r.0)
    ensures IsPending(w, p) ==> r.1 == Normal && Calm(w, r.0) && r.2 == w.next && IsPending(r.0, r.2)
    ensures IsPending(w, p) ==> Handler(Optional(onResolved) + [ResolveEmpty(r.2)], r.2) in HandlersOf(r.0, p, OnResolve)
    ensures IsPending(w, p) ==> Handler(RejectActs(w.engine, onRejected, r.2, false), r.2) in HandlersOf(r.0, p, OnReject)
    decreases w.gas, 4, 2 * MaxRank(onResolved, onRejected, onProgress) + 2
  {
    if p !in w.promises then (w, Thrown(NullReference), 0)
    else
      var rec := w.promises[p];
      if rec.state == Resolved then
        var (w1, f) := if onResolved.None? then (w, Thrown(NullReference)) else RunAction(w, onResolved.value, OfValue(rec.value));
        var r := Shortcut(w1, f, if w.engine == Queued then Some(p) else None);
        KeepsTrans(w, w1, r.0);
        r
      else if rec.state == Rejected && w.engine != Legacy then
        if onRejected.None? then
          var (w1, t) := NewPromise(w, Rejected, Default, rec.exn);
          (w1, Normal, t)
        else
          var (w1, f) := RunAction(w, onRejected.value, OfExn(rec.exn));
          var r := Shortcut(w1, f, if w.engine == Queued then Some(w.sharedResolved) else None);
          KeepsTrans(w, w1, r.0);
          r
      else Register(w, p, onResolved, onRejected, onProgress, false)
  }

  /**
   * Catch(onRejected). A resolved promise yields a resolved promise (the
   * non-generic engine yields itself); the pooled engine runs onRejected
   * at once on a rejected promise; otherwise the handler is chained.
   */
  function Catch(w: World, p: Pid, onRejected: Action): (r: (World, Flow, Pid))
    requires Good(w)
    ensures Good(r.0) && Keeps(w, r.0)
    ensures IsPending(w, p) ==> r.1 == Normal && Calm(w, r.0) && r.2 == w.next && IsPending(r.0, r.2)
    ensures IsPending(w, p) ==> Handler(RejectActs(w.engine, Some(onRejected), r.2, true), r.2) in HandlersOf(r.0, p, OnReject)
    ensures p in w.promises && w.promises[p].state == Resolved ==>
              r.1 == Normal && r.0.log == w.log && (w.engine == Queued ==> r == (w, Normal, p))
              && r.2 in r.0.promises && r.0.promises[r.2].state == Resolved
    decreases w.gas, 4, 2 * Rank(onRejected) + 2
  {
    if p !in w.promises then (w, Thrown(NullReference), 0)
    else
      var rec := w.promises[p];
      if rec.state == Resolved then Shortcut(w, Normal, if w.engine == Queued then Some(p) else None)
      else if rec.state == Rejected && w.engine == Pooled then
        var (w1, f) := RunAction(w, onRejected, OfExn(rec.exn));
        Shortcut(w1, f, None)
      else Register(w, p, None, Some(onRejected), None, true)
  }

  /** Then without onRejected on a rejected promise, outside the older engine: a new promise rejected the same way. */
  lemma ThenRejectedBare(w: World, p: Pid)
    requires Good(w) && p in w.promises && w.promises[p].state == Rejected && w.engine != Legacy
    ensures var n := NewPromise(w, Rejected, Default, w.promises[p].exn);
            Then(w, p, None, None, None) == (n.0, Normal, n.1)
  {
  }

  /**
   * The chaining half of Then and Catch: a new pending promise `t`, a
   * resolve handler that runs onResolved and resolves `t`, a reject
   * handler, and a progress handler, all with `t` as rejectable except
   * the progress handler, whose exceptions go to this promise (to `t` in
   * the older engine's Catch). The reject handler of Then resolves `t`
   * after onRejected in the pooled and non-generic engines and rejects it
   * in the older one; Catch's resolves it.
   */
  function Register(w: World, p: Pid, onResolved: Option<Action>, onRejected: Option<Action>, onProgress: Option<Action>, catching: bool): (r: (World, Flow, Pid))
    requires Good(w) && p in w.promises
    ensures Good(r.0) && Keeps(w, r.0)
    ensures r.2 == w.next && r.2 !in w.promises
    ensures IsPending(w, p) ==> r.1 == Normal && Calm(w, r.0) && IsPending(r.0, r.2)
    ensures IsPending(w, p) ==> Handler(Optional(onResolved) + [ResolveEmpty(r.2)], r.2) in HandlersOf(r.0, p, OnResolve)
    ensures IsPending(w, p) ==> Handler(RejectActs(w.engine, onRejected, r.2, catching), r.2) in HandlersOf(r.0, p, OnReject)
    decreases w.gas, 3, 2
  {
    var (w1, t) := NewPromise(w, Pending, Default, None);
    var res := Handler(Optional(onResolved) + [ResolveEmpty(t)], t);
    var rejActs := RejectActs(w.engine, onRejected, t, catching);
    var progress :=
      if catching then Some(Handler([ProgressTo(t)], if w.engine == Legacy then t else p))
      else if onProgress.Some? then Some(Handler([onProgress.value], p))
      else None;
    var r := Attach(w1, p, res, Handler(rejActs, t), progress);
    KeepsTrans(w, w1, r.0);
    NewPromiseCalm(w, Pending, Default, None);
    if IsPending(w, p) then CalmTrans(w, w1, r.0); (r.0, r.1, t) else (r.0, r.1, t)
  }

  /**
   * The callback of the reject handler Then and Catch chain: onRejected
   * followed by resolving `t` (Catch, and Then with an onRejected in the
   * pooled and non-generic engines), onRejected followed by rejecting `t`
   * with the same exception (the older engine's Then), or only the
   * rejection of `t` (Then without onRejected).
   */
  function RejectActs(e: Engine, onRejected: Option<Action>, t: Pid, catching: bool): (r: seq<Action>)
    ensures |r| == |Optional(onRejected)| + 1 && r[..|r| - 1] == Optional(onRejected)
    ensures r[|r| - 1] == ResolveEmpty(t) <==> catching || (e != Legacy && onRejected.Some?)
    ensures r[|r| - 1] == RejectWith(t) <==> !catching && (e == Legacy || onRejected.None?)
  {
    var settle := if catching || (e != Legacy && onRejected.Some?) then ResolveEmpty(t) else RejectWith(t);
    assert (Optional(onRejected) + [settle])[..|Optional(onRejected)|] == Optional(onRejected);
    Optional(onRejected) + [settle]
  }

  /** ActionHandlers, then ProgressHandlers when that completed normally. */
  function Attach(w: World, p: Pid, res: Handler, rej: Handler, progress: Option<Handler>): (r: (World, Flow))
    requires Good(w)
    ensures Good(r.0) && Keeps(w, r.0)
    ensures IsPending(w, p) ==> r.1 == Normal && Calm(w, r.0) && Registered(r.0, p, res, rej)
    decreases w.gas, 3, 1
  {
    var (w1, f) := ActionHandlers(w, p, res, rej);
    if !f.Normal? || progress.None? then (w1, f)
    else
      var w2 := ProgressHandlers(w1, p, progress.value);
      KeepsTrans(w, w1, w2);
      if IsPending(w, p) then
        ProgressKeepsRegistered(w1, p, progress.value, res, rej);
        CalmTrans(w, w1, w2);
        (w2, Normal)
      else
      (w2, Normal)
  }

  /**
   * Progress(onProgress): a pending promise queues the callback with
   * itself as its rejectable, so an exception the callback throws rejects
   * this very promise; the promise itself is returned. On a null promise
   * the call throws.
   */
  function Progress(w: World, p: Pid, onProgress: Option<Action>): (r: (World, Flow))
    requires Good(w)
    ensures Good(r.0) && Keeps(w, r.0) && Calm(w, r.0) && r.0.promises.Keys == w.promises.Keys
    ensures p !in w.promises ==> r == (w, Thrown(NullReference))
    ensures p in w.promises ==> r.1 == Normal
    ensures !IsPending(w, p) || onProgress.None? ==> r.0 == w
    ensures IsPending(w, p) && onProgress.Some? && w.promises[p].progresses.Some? ==>
              HandlersOf(r.0, p, OnProgress) == HandlersOf(w, p, OnProgress) + [Handler([onProgress.value], p)]
  {
    if p !in w.promises then (w, Thrown(NullReference))
    else if onProgress.Some? then (ProgressHandlers(w, p, Handler([onProgress.value], p)), Normal)
    else (w, Normal)
  }

  /**
   * Cancel (pooled and non-generic engines): the state becomes Pending
   * (and the pooled engine's value default) and the handler lists are
   * cleared; no handler runs and the continuation is not resumed.
   */
  function Cancel(w: World, p: Pid): (r: (World, Flow))
    requires Good(w) && w.engine != Legacy
    ensures Good(r.0) && r.0.log == w.log && r.0.gas == w.gas && r.0.groups == w.groups
    ensures p !in w.promises ==> r == (w, Thrown(NullReference))
    ensures p in w.promises ==> p in r.0.promises && r.0.promises[p].state == Pending && r.0.promises[p].exn == w.promises[p].exn
                                && r.0.promises[p].value == (if w.engine == Pooled then Default else w.promises[p].value)
    ensures p in w.promises ==> (r.1.Normal? ==> forall k :: HandlersOf(r.0, p, k) == [])
    ensures forall q :: q in w.promises && q != p ==> q in r.0.promises && SameSettlement(w.promises[q], r.0.promises[q])
  {
    if p !in w.promises then (w, Thrown(NullReference))
    else
      var rec := w.promises[p];
      var w1 := w.(promises := w.promises[p := rec.(value := if w.engine == Pooled then Default else rec.value, state := Pending)]);
      ClearHandlersAsWritten(w1, p)
  }

  /** A pending promise that holds no handler list and no await continuation. */
  predicate Quiet(w: World, p: Pid)
  {
    IsPending(w, p) && NoLists(w.promises[p]) && w.promises[p].continuation == None
  }

  /** Settlement of a promise without lists or continuation changes nothing further. */
  lemma QuietSettled(w: World, p: Pid, kind: HandlerKind, arg: Arg)
    requires Good(w) && p in w.promises && NoLists(w.promises[p]) && w.promises[p].continuation == None
    ensures Settled(w, p, kind, arg) == (w, Normal)
  {
    assert Notify(w, p, kind, arg) == (w, Normal);
    ClearWithoutLists(w, p);
    assert Resume(w, p) == w;
  }

  /**
   * A quiet promise resolves without running anything: only its own
   * record changes, and Resolve returns normally.
   */
  lemma QuietResolve(w: World, p: Pid, v: Value)
    requires Good(w) && Quiet(w, p)
    ensures var r := Resolve(w, p, v);
            && r.1 == Normal && r.0.log == w.log && p in r.0.promises
            && r.0.promises[p].state == Resolved && r.0.promises[p].value == (if w.engine == Queued then Default else v)
            && r.0.promises[p].exn == w.promises[p].exn && r.0.promises[p].recycled == w.promises[p].recycled
    ensures Resolve(w, p, v) == (MarkSettled(w, p, Resolved, if w.engine == Queued then Default else v, w.promises[p].exn), Normal)
  {
    var stored := if w.engine == Queued then Default else v;
    var w1 := MarkSettled(w, p, Resolved, stored, w.promises[p].exn);
    QuietSettled(w1, p, OnResolve, OfValue(stored));
    assert Resolve(w, p, v) == Settled(w1, p, OnResolve, OfValue(stored));
  }

  /** A quiet promise rejects without running anything: only its own record changes. */
  lemma QuietReject(w: World, p: Pid, e: Option<Exn>)
    requires Good(w) && Quiet(w, p)
    ensures Reject(w, p, e) == (MarkSettled(w, p, Rejected, w.promises[p].value, e), Normal)
  {
    var w1 := MarkSettled(w, p, Rejected, w.promises[p].value, e);
    QuietSettled(w1, p, OnReject, OfExn(e));
    assert Reject(w, p, e) == Settled(w1, p, OnReject, OfExn(e));
  }

  /** Reporting progress to a pending promise that has no progress handler changes nothing. */
  lemma QuietProgress(w: World, p: Pid, x: real)
    requires Good(w) && IsPending(w, p) && HandlersOf(w, p, OnProgress) == []
    ensures ReportProgress(w, p, x) == (w, Normal)
  {
    if ListOf(w.promises[p], OnProgress).Some? {
      var limit := if w.engine == Legacy then Some(0) else None;
      assert Notify(w, p, OnProgress, OfProgress(x)) == RunHandlers(w, p, OnProgress, 0, limit, OfProgress(x));
    }
  }
}
