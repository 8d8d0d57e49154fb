/**
 * The combinators All, Any, Race (over input promises) and First,
 * Sequence (over promise factories), engine by engine.
 *
 * Each builds a result promise R and one closure environment (a
 * `Captures` in the world's `groups`), then walks its inputs in order,
 * attaching to each input a progress closure and resolve/reject closures
 * that update the shared variables and settle R. The closure bodies are
 * `PromiseDispatch.GroupAction` and `RunProducer`; what they compute step
 * by step is in `GroupSteps`.
 */
module PromiseCombinators {
  import opened Values
  import opened PromiseWorld
  import opened PromiseDispatch
  import QueuedPromises

  datatype Fan = All | Any | Race

  /** The older engine has no Any. */
  predicate Offers(e: Engine, fan: Fan)
  {
    !(e == Legacy && fan == Any)
  }

  /**
   * The progress closure of input `i`: the mean of the progress array
   * (All, Any), or its maximum (Race). The older engine's Race skips the
   * update once R is settled; the others do not, unless `guardRace`.
   */
  function ProgressClosure(e: Engine, fan: Fan, g: Gid, i: nat, guardRace: bool): (r: Action)
    ensures r == ReportMean(g, i) <==> fan != Race
    ensures r == ReportMax(g, i) <==> fan == Race && e != Legacy && !guardRace
    ensures r == ReportMaxGuarded(g, i) <==> fan == Race && (e == Legacy || guardRace)
  {
    match fan
    case Race => if e == Legacy || guardRace then ReportMaxGuarded(g, i) else ReportMax(g, i)
    case _ => ReportMean(g, i)
  }

  /** The resolve closure of input `i` (the non-generic All chains a CountDown instead). */
  function ResolveClosure(fan: Fan, g: Gid, i: nat): (r: Action)
    ensures r == Collect(g, i) <==> fan == All
    ensures r == AnyResolved(g, i) <==> fan == Any
    ensures r == ResolveIfPending(g) <==> fan == Race
  {
    match fan
    case All => Collect(g, i)
    case Any => AnyResolved(g, i)
    case Race => ResolveIfPending(g)
  }

  /** The reject closure of input `i`: Any counts the rejection; All and Race reject R if it is still pending. */
  function RejectClosure(fan: Fan, g: Gid, i: nat): (r: Action)
    ensures r == AnyRejected(g, i) <==> fan == Any
    ensures r == RejectIfPending(g) <==> fan != Any
  {
    if fan == Any then AnyRejected(g, i) else RejectIfPending(g)
  }

  /** The first action of a handler that input `i` of combinator `g` queued when it resolves. */
  predicate StartsWith(h: Handler, e: Engine, fan: Fan, g: Gid, i: nat)
  {
    |h.callback| > 0 &&
    if e == Queued && fan == All then h.callback[0].Chain? && h.callback[0].producer == CountDown(g, i)
    else h.callback[0] == ResolveClosure(fan, g, i)
  }

  /** Input `i`'s resolve closure is queued on `p`. */
  ghost predicate Awaits(w: World, p: Pid, fan: Fan, g: Gid, i: nat)
  {
    exists h :: h in HandlersOf(w, p, OnResolve) && StartsWith(h, w.engine, fan, g, i)
  }

  lemma CalmKeepsAwaits(w: World, w': World, p: Pid, fan: Fan, g: Gid, i: nat)
    requires Calm(w, w') && w'.engine == w.engine && Awaits(w, p, fan, g, i)
    ensures Awaits(w', p, fan, g, i)
  {
    var h :| h in HandlersOf(w, p, OnResolve) && StartsWith(h, w.engine, fan, g, i);
    CalmKeepsHandlers(w, w', p, OnResolve);
  }

  /** The closure variables right after construction over `n` inputs. */
  function Start(R: Pid, n: nat): Captures
  {
    Captures(R, n, seq(n, _ => Default), seq(n, _ => 0.0), seq(n, _ => None), 0, [])
  }

  /**
   * One step of the Each loop: `input.Progress(...)` then the engine's
   * Then (the older engine: Then(onResolved) and Catch(onRejected) on the
   * promise Then returns; the non-generic All: Then(Func<IPromise>)).
   */
  function AttachInput(w: World, fan: Fan, g: Gid, i: nat, input: Pid, guardRace: bool): (r: (World, Flow))
    requires Good(w) && Offers(w.engine, fan)
    ensures Good(r.0) && Keeps(w, r.0)
    ensures input !in w.promises ==> r.1 == Thrown(NullReference)
    ensures IsPending(w, input) ==> r.1 == Normal && Calm(w, r.0) && Awaits(r.0, input, fan, g, i)
  {
    var (w1, f1) := Progress(w, input, Some(ProgressClosure(w.engine, fan, g, i, guardRace)));
    if !f1.Normal? then (w1, f1)
    else if w.engine == Legacy then AttachLegacy(w, w1, fan, g, i, input)
    else AttachThen(w, w1, fan, g, i, input)
  }

  /**
   * The pooled and non-generic engines' `.Then(onResolved, onRejected)`
   * (the non-generic All: `.Then(Func<IPromise>, onRejected)`), after
   * `.Progress(...)` took `w` to `w1`.
   */
  function AttachThen(w: World, w1: World, fan: Fan, g: Gid, i: nat, input: Pid): (r: (World, Flow))
    requires Good(w) && Good(w1) && Keeps(w, w1) && w.engine != Legacy && Offers(w.engine, fan)
    requires IsPending(w, input) ==> IsPending(w1, input) && Calm(w, w1)
    ensures Good(r.0) && Keeps(w, r.0)
    ensures IsPending(w, input) ==> r.1 == Normal && Calm(w, r.0) && Awaits(r.0, input, fan, g, i)
  {
    if w.engine == Queued && fan == All then AttachChain(w, w1, g, i, input)
    else
      var r := Then(w1, input, Some(ResolveClosure(fan, g, i)), Some(RejectClosure(fan, g, i)), None);
      KeepsTrans(w, w1, r.0);
      if IsPending(w, input) then
        CalmTrans(w, w1, r.0);
        var h := Handler(Optional(Some(ResolveClosure(fan, g, i))) + [ResolveEmpty(r.2)], r.2);
        assert h in HandlersOf(r.0, input, OnResolve) && StartsWith(h, r.0.engine, fan, g, i);
        (r.0, r.1)
      else (r.0, r.1)
  }

  /** The non-generic All's `.Then(Func<IPromise>, onRejected)`, after `.Progress(...)` took `w` to `w1`. */
  function AttachChain(w: World, w1: World, g: Gid, i: nat, input: Pid): (r: (World, Flow))
    requires Good(w) && Good(w1) && Keeps(w, w1) && w.engine == Queued
    requires IsPending(w, input) ==> IsPending(w1, input) && Calm(w, w1)
    ensures Good(r.0) && Keeps(w, r.0)
    ensures IsPending(w, input) ==> r.1 == Normal && Calm(w, r.0) && Awaits(r.0, input, All, g, i)
  {
    var r := QueuedPromises.ThenChain(w1, input, Some(CountDown(g, i)), Some(RejectClosure(All, g, i)), None);
    KeepsTrans(w, w1, r.0);
    if IsPending(w, input) then
      CalmTrans(w, w1, r.0);
      var h := Handler([Action.Chain(CountDown(g, i), r.2)], r.2);
      assert h in HandlersOf(r.0, input, OnResolve) && StartsWith(h, r.0.engine, All, g, i);
      (r.0, r.1)
    else (r.0, r.1)
  }

  /** The older engine's `.Then(onResolved).Catch(onRejected)`, after `.Progress(...)` took `w` to `w1`. */
  function AttachLegacy(w: World, w1: World, fan: Fan, g: Gid, i: nat, input: Pid): (r: (World, Flow))
    requires Good(w) && Good(w1) && Keeps(w, w1) && w.engine == Legacy && input in w.promises
    requires IsPending(w, input) ==> Calm(w, w1)
    ensures Good(r.0) && Keeps(w, r.0)
    ensures IsPending(w, input) ==> r.1 == Normal && Calm(w, r.0) && Awaits(r.0, input, fan, g, i)
  {
    var (w2, f2, t) := Then(w1, input, Some(ResolveClosure(fan, g, i)), None, None);
    KeepsTrans(w, w1, w2);
    if !f2.Normal? then (w2, f2)
    else
      var r := Catch(w2, t, RejectClosure(fan, g, i));
      KeepsTrans(w, w2, r.0);
      if IsPending(w, input) then
        CalmTrans(w, w1, w2);
        CalmTrans(w, w2, r.0);
        assert Awaits(w2, input, fan, g, i) by {
          assert StartsWith(Handler([ResolveClosure(fan, g, i)] + [ResolveEmpty(t)], t), Legacy, fan, g, i);
        }
        CalmKeepsAwaits(w2, r.0, input, fan, g, i);
        (r.0, r.1)
      else (r.0, r.1)
  }

  /** No new promise is made: All over nothing in the non-generic engine, Race over nothing in the older one. */
  predicate NoResult(e: Engine, fan: Fan, n: nat)
  {
    n == 0 && ((fan == All && e == Queued) || (fan == Race && e == Legacy))
  }

  /**
   * All, Any and Race over `inputs`.
   *   - All over no inputs: a resolved promise (a new one holding the
   *     empty collection, or the non-generic engine's shared one).
   *   - The older engine's Race over no inputs throws.
   *   - Otherwise a new pending R, one closure environment, and each
   *     input in turn gets its closures; an exception from an input (a
   *     null one, say) escapes and ends the loop.
   * When every input is still pending, nothing runs during construction:
   * R is pending, the log and gas are untouched, and every input has its
   * resolve closure queued.
   */
  method Combine(w0: World, fan: Fan, inputs: seq<Pid>, guardRace: bool) returns (w: World, f: Flow, R: Pid, g: Gid)
    requires Good(w0) && Offers(w0.engine, fan)
    ensures Good(w) && Keeps(w0, w)
    ensures NoResult(w0.engine, fan, |inputs|) && fan == All ==> w == w0 && f == Normal && R == w0.sharedResolved
    ensures NoResult(w0.engine, fan, |inputs|) && fan == Race ==> w == w0 && f == Thrown(InvalidOperation(EmptyRace))
    ensures inputs == [] && fan == All && w0.engine != Queued ==>
              f == Normal && R !in w0.promises && R in w.promises && w.promises[R].state == Resolved && w.promises[R].value == Items([])
    ensures !NoResult(w0.engine, fan, |inputs|) ==> R !in w0.promises && R in w.promises
    ensures inputs != [] && (forall j :: 0 <= j < |inputs| ==> IsPending(w0, inputs[j])) ==>
              f == Normal && w.log == w0.log && w.gas == w0.gas && IsPending(w, R)
              && g in w.groups && w.groups[g] == Start(R, |inputs|)
              && (forall j :: 0 <= j < |inputs| ==> IsPending(w, inputs[j]) && Awaits(w, inputs[j], fan, g, j))
  {
    if NoResult(w0.engine, fan, |inputs|) {
      w, R, g := w0, w0.sharedResolved, 0;
      f := if fan == All then Normal else Thrown(InvalidOperation(EmptyRace));
      return;
    }
    if inputs == [] && fan == All {
      var r := NewPromise(w0, Resolved, Items([]), None);
      w, R, g, f := r.0, r.1, 0, Normal;
      return;
    }
    w, f, R, g := CombineNew(w0, fan, inputs, guardRace);
  }

  /** Combine once it makes a result: a new pending R and its closure environment, then each input's closures. */
  method CombineNew(w0: World, fan: Fan, inputs: seq<Pid>, guardRace: bool) returns (w: World, f: Flow, R: Pid, g: Gid)
    requires Good(w0) && Offers(w0.engine, fan)
    ensures Good(w) && Keeps(w0, w) && R !in w0.promises && R in w.promises
    ensures inputs != [] && (forall j :: 0 <= j < |inputs| ==> IsPending(w0, inputs[j])) ==>
              f == Normal && w.log == w0.log && w.gas == w0.gas && IsPending(w, R)
              && g in w.groups && w.groups[g] == Start(R, |inputs|)
              && (forall j :: 0 <= j < |inputs| ==> IsPending(w, inputs[j]) && Awaits(w, inputs[j], fan, g, j))
  {
    var (w1, R1) := NewPromise(w0, Pending, Default, None);
    NewPromiseCalm(w0, Pending, Default, None);
    var (w2, g2) := NewGroup(w1, Start(R1, |inputs|));
    KeepsTrans(w0, w1, w2);
    R, g := R1, g2;
    w, f := AttachEach(w2, fan, g, inputs, guardRace);
    KeepsTrans(w0, w2, w);
  }

  /** The Each loop: input `i` gets its closures, in order, until one step throws. */
  method AttachEach(w0: World, fan: Fan, g: Gid, inputs: seq<Pid>, guardRace: bool) returns (w: World, f: Flow)
    requires Good(w0) && Offers(w0.engine, fan)
    ensures Good(w) && Keeps(w0, w)
    ensures (forall j :: 0 <= j < |inputs| ==> IsPending(w0, inputs[j])) ==>
              f == Normal && Calm(w0, w) && (forall j :: 0 <= j < |inputs| ==> Awaits(w, inputs[j], fan, g, j))
  {
    w, f := w0, Normal;
    ghost var quiet := forall j :: 0 <= j < |inputs| ==> IsPending(w0, inputs[j]);
    var i := 0;
    while i < |inputs|
      invariant 0 <= i <= |inputs|
      invariant Good(w) && Keeps(w0, w) && f == Normal
      invariant quiet ==> Calm(w0, w) && forall j :: 0 <= j < i ==> Awaits(w, inputs[j], fan, g, j)
      decreases |inputs| - i
    {
      var r := AttachInput(w, fan, g, i, inputs[i], guardRace);
      KeepsTrans(w0, w, r.0);
      if quiet {
        QuietStep(w0, w, r.0, inputs, i, fan, g);
      }
      w := r.0;
      if !r.1.Normal? {
        f := r.1;
        return;
      }
      i := i + 1;
    }
  }

  /** Attaching a pending input keeps the loop's invariant. */
  lemma QuietStep(w0: World, w: World, w': World, inputs: seq<Pid>, i: nat, fan: Fan, g: Gid)
    requires i < |inputs| && w.engine == w0.engine && w'.engine == w.engine
    requires forall j :: 0 <= j < |inputs| ==> IsPending(w0, inputs[j])
    requires Calm(w0, w) && (forall j :: 0 <= j < i ==> Awaits(w, inputs[j], fan, g, j))
    requires IsPending(w, inputs[i]) ==> Calm(w, w') && Awaits(w', inputs[i], fan, g, i)
    ensures IsPending(w, inputs[i])
    ensures Calm(w0, w') && forall j :: 0 <= j < i + 1 ==> Awaits(w', inputs[j], fan, g, j)
  {
    assert IsPending(w0, inputs[i]);
    forall j | 0 <= j < i
      ensures Awaits(w', inputs[j], fan, g, j)
    {
      CalmKeepsAwaits(w, w', inputs[j], fan, g, j);
    }
    CalmTrans(w0, w, w');
  }

  /**
   * First over promise factories (pooled and older engines). The seed is
   * a promise already rejected (with a plain Exception in the pooled
   * engine, with null in the older one); for factory k a new pending
   * promise np_k is chained behind the previous one: progress is scaled
   * into slice k, a resolution is passed on, and a rejection calls
   * factory k and forwards its promise's outcome to np_k. The last link
   * resolves R, and a rejection there reports progress 1 and rejects R.
   */
  method First(w0: World, factories: seq<nat>) returns (w: World, f: Flow, R: Pid)
    requires Good(w0) && w0.engine != Queued
    ensures Good(w) && Keeps(w0, w)
    ensures R !in w0.promises && R in w.promises
    ensures w0.engine == Pooled && AllYieldSettled(w0, factories) ==>
              var m := FirstIn(w0, factories, Resolved);
              && f == Normal && w.log == w0.log + Produce(factories[..Calls(m, |factories|)])
              && (m < |factories| ==> w.promises[R].state == Resolved && w.promises[R].value == Yielded(w0, factories[m]).value)
              && (m == |factories| ==>
                    w.promises[R].state == Rejected
                    && w.promises[R].exn == if m == 0 then Some(Plain) else Yielded(w0, factories[m - 1]).exn)
  {
    var (w1, R1) := NewPromise(w0, Pending, Default, None);
    var (w2, g) := NewGroup(w1, Captures(R1, 0, [], [], [], 0, factories));
    var (w3, seed) := NewPromise(w2, Rejected, Default, if w0.engine == Pooled then Some(Plain) else None);
    KeepsTrans(w0, w1, w2);
    KeepsTrans(w0, w2, w3);
    R := R1;
    // The outcome is traced when every factory returns a settled promise.
    ghost var traced := w0.engine == Pooled && AllYieldSettled(w0, factories);
    if traced {
      FirstOpens(w0, factories);
    }
    var w4, f4, last := FirstLinks(w3, g, factories, seed);
    KeepsTrans(w0, w3, w4);
    w, f := w4, f4;
    if !f4.Normal? {
      return;
    }
    var w5, f5 := FirstSettle(w4, last, g, R);
    KeepsTrans(w0, w4, w5);
    w, f := w5, f5;
    if traced {
      FirstOutcome(w0, w3, w4, w5, g, factories, seed, last);
    }
  }

  /** First's opening in the pooled engine: a quiet result, its group, and a seed rejected with a plain Exception. */
  lemma FirstOpens(w0: World, factories: seq<nat>)
    requires Good(w0) && w0.engine == Pooled && AllYieldSettled(w0, factories)
    ensures var (w1, R1) := NewPromise(w0, Pending, Default, None);
            var (w2, g) := NewGroup(w1, Captures(R1, 0, [], [], [], 0, factories));
            var (w3, seed) := NewPromise(w2, Rejected, Default, Some(Plain));
            && FirstReady(w3, g, factories, seed) && w3.groups[g].result == R1
            && Keeps(w0, w3) && w3.log == w0.log && w3.promises[seed].exn == Some(Plain)
            && FirstIn(w3, factories, Resolved) == FirstIn(w0, factories, Resolved)
            && forall j :: 0 <= j < |factories| ==> SameSettlement(Yielded(w0, factories[j]), Yielded(w3, factories[j]))
  {
    var (w1, R1) := NewPromise(w0, Pending, Default, None);
    var (w2, g) := NewGroup(w1, Captures(R1, 0, [], [], [], 0, factories));
    var (w3, seed) := NewPromise(w2, Rejected, Default, Some(Plain));
    KeepsTrans(w0, w1, w2);
    KeepsTrans(w0, w2, w3);
    FirstInKept(w0, w3, factories, Resolved);
    assert Quiet(w3, R1);
  }

  /** First's outcome, from what its links and its end leave behind. */
  lemma FirstOutcome(w0: World, w3: World, w4: World, w5: World, g: Gid, factories: seq<nat>, seed: Pid, last: Pid)
    requires Keeps(w0, w3) && AllYieldSettled(w0, factories) && AllYieldSettled(w3, factories)
    requires FirstIn(w3, factories, Resolved) == FirstIn(w0, factories, Resolved)
    requires forall j :: 0 <= j < |factories| ==> SameSettlement(Yielded(w0, factories[j]), Yielded(w3, factories[j]))
    requires w3.log == w0.log && g in w3.groups && seed in w3.promises && w3.promises[seed].exn == Some(Plain)
    requires FirstLinked(w3, w4, g, factories, seed, last)
    requires w5.log == w4.log && Forwarded(w4, w5, last, w3.groups[g].result)
    ensures var m := FirstIn(w0, factories, Resolved);
            var R := w3.groups[g].result;
            && w5.log == w0.log + Produce(factories[..Calls(m, |factories|)])
            && (m < |factories| ==> w5.promises[R].state == Resolved && w5.promises[R].value == Yielded(w0, factories[m]).value)
            && (m == |factories| ==>
                  w5.promises[R].state == Rejected
                  && w5.promises[R].exn == if m == 0 then Some(Plain) else Yielded(w0, factories[m - 1]).exn)
  {
  }

  /** The end of First: `last.Then(R.Resolve)` and, when that completes, `Catch(give up)`. */
  method FirstSettle(w0: World, last: Pid, g: Gid, R: Pid) returns (w: World, f: Flow)
    requires Good(w0) && w0.engine != Queued
    ensures Good(w) && Keeps(w0, w)
    ensures w0.engine == Pooled && last in w0.promises && w0.promises[last].state != Pending
            && g in w0.groups && w0.groups[g].result == R && Quiet(w0, R) ==>
              f == Normal && w.log == w0.log && Forwarded(w0, w, last, R)
  {
    if w0.engine == Pooled && last in w0.promises && w0.promises[last].state != Pending && g in w0.groups && w0.groups[g].result == R && Quiet(w0, R) {
      FirstEnd(w0, last, g);
    }
    var (wt, ft, t) := Then(w0, last, Some(ResolveWith(R)), None, None);
    w, f := wt, ft;
    if ft.Normal? {
      var r := Catch(wt, t, FirstGiveUp(g));
      KeepsTrans(w0, wt, r.0);
      w, f := r.0, r.1;
    }
  }

  /** What First's run needs for its outcome to be traced: the pooled engine, a quiet result, a rejected seed, and factories that return settled promises. */
  predicate FirstReady(w: World, g: Gid, factories: seq<nat>, seed: Pid)
  {
    && w.engine == Pooled && g in w.groups && w.groups[g].factories == factories && Quiet(w, w.groups[g].result)
    && seed in w.promises && w.promises[seed].state == Rejected && AllYieldSettled(w, factories)
  }

  /** The links of First: one per factory, each chained behind the previous one, starting from `seed`. */
  method FirstLinks(w0: World, g: Gid, factories: seq<nat>, seed: Pid) returns (w: World, f: Flow, last: Pid)
    requires Good(w0) && w0.engine != Queued
    ensures Good(w) && Keeps(w0, w)
    ensures FirstReady(w0, g, factories, seed) ==> f == Normal && FirstLinked(w0, w, g, factories, seed, last)
  {
    w, f, last := w0, Normal, seed;
    var k := 0;
    ghost var traced := FirstReady(w0, g, factories, seed);
    ghost var R := if g in w0.groups then w0.groups[g].result else 0;
    ghost var m := if traced then FirstIn(w0, factories, Resolved) else 0;
    if traced {
      FirstStarts(w0, g, factories, seed);
    }
    while k < |factories|
      invariant k <= |factories|
      invariant Good(w) && Keeps(w0, w) && f == Normal
      invariant k == 0 ==> last == seed
      invariant traced ==> FirstOnTrack(w0, w, g, factories, m, R, last, k)
      decreases |factories| - k
    {
      var w', f', last' := FirstLink(w0, w, g, factories, m, R, last, k, traced);
      KeepsTrans(w0, w, w');
      w := w';
      if !f'.Normal? {
        f := f';
        return;
      }
      last := last';
      k := k + 1;
    }
    if traced {
      FirstDone(w0, w, g, factories, seed, m, last);
    }
  }

  /** One turn of First's loop: the link for factory `k`. */
  method FirstLink(ghost w0: World, w: World, g: Gid, ghost factories: seq<nat>, ghost m: nat, ghost R: Pid, last: Pid, k: nat, ghost traced: bool)
    returns (w': World, f': Flow, last': Pid)
    requires Good(w) && w.engine != Queued
    requires traced ==> k < |factories| && Keeps(w0, w) && w0.engine == Pooled && FirstOnTrack(w0, w, g, factories, m, R, last, k)
    ensures Good(w') && Keeps(w, w')
    ensures traced ==> f' == Normal && FirstOnTrack(w0, w', g, factories, m, R, last', k + 1)
  {
    if traced {
      FirstTurnTraced(w0, w, factories, m, R, last, g, k);
    }
    var r := FirstTurn(w, last, g, k);
    w', f', last' := r.0, r.1, r.2;
  }

  /**
   * The invariant of First's loop before link `k` when its outcome is
   * traced: the result is still quiet, and the last link is rejected
   * until factory `m` (the first to succeed) has been called, resolved
   * with its value after; exactly the factories up to `m` have been called.
   */
  ghost predicate FirstOnTrack(w0: World, w: World, g: Gid, factories: seq<nat>, m: nat, R: Pid, last: Pid, k: nat)
  {
    && AllYieldSettled(w0, factories) && m == FirstIn(w0, factories, Resolved) && k <= |factories|
    && g in w.groups && w.groups[g].result == R && w.groups[g].factories == factories && Quiet(w, R)
    && last in w.promises && w.promises[last].state != Pending
    && (k <= m ==> w.promises[last].state == Rejected)
    && (0 < k <= m ==> w.promises[last].exn == Yielded(w0, factories[k - 1]).exn)
    && (m < k ==> w.promises[last].state == Resolved && w.promises[last].value == Yielded(w0, factories[m]).value)
    && w.log == w0.log + Produce(factories[..Calls(m, k)])
  }

  /**
   * What First's links leave behind when every factory yields a settled
   * promise: the result is still quiet, the last link is resolved with the
   * first success, or else rejected with the last failure (with the seed's
   * exception when there are no factories), and exactly the factories up
   * to the first success have been called.
   */
  ghost predicate FirstLinked(w0: World, w: World, g: Gid, factories: seq<nat>, seed: Pid, last: Pid)
    requires g in w0.groups && seed in w0.promises && AllYieldSettled(w0, factories)
  {
    var m := FirstIn(w0, factories, Resolved);
    && g in w.groups && w.groups[g].result == w0.groups[g].result && Quiet(w, w0.groups[g].result)
    && last in w.promises && w.log == w0.log + Produce(factories[..Calls(m, |factories|)])
    && (m < |factories| ==> w.promises[last].state == Resolved && w.promises[last].value == Yielded(w0, factories[m]).value)
    && (m == |factories| ==>
          w.promises[last].state == Rejected
          && w.promises[last].exn == if m == 0 then w0.promises[seed].exn else Yielded(w0, factories[m - 1]).exn)
  }

  lemma FirstStarts(w0: World, g: Gid, factories: seq<nat>, seed: Pid)
    requires FirstReady(w0, g, factories, seed)
    ensures FirstOnTrack(w0, w0, g, factories, FirstIn(w0, factories, Resolved), w0.groups[g].result, seed, 0)
  {
    assert Produce(factories[..0]) == [];
  }

  lemma FirstDone(w0: World, w: World, g: Gid, factories: seq<nat>, seed: Pid, m: nat, last: Pid)
    requires g in w0.groups && seed in w0.promises && AllYieldSettled(w0, factories) && m == FirstIn(w0, factories, Resolved)
    requires FirstOnTrack(w0, w, g, factories, m, w0.groups[g].result, last, |factories|)
    requires Keeps(w0, w) && w0.promises[seed].state != Pending && (|factories| == 0 ==> last == seed)
    ensures FirstLinked(w0, w, g, factories, seed, last)
  {
    if |factories| == 0 {
      assert SameSettlement(w0.promises[seed], w.promises[seed]);
    }
  }

  /** One turn of First's loop: `++count`, a new pending promise `np`, and the link from `prev` to it. */
  function FirstTurn(w: World, prev: Pid, g: Gid, k: nat): (r: (World, Flow, Pid))
    requires Good(w) && w.engine != Queued
    ensures Good(r.0) && Keeps(w, r.0) && r.2 !in w.promises
  {
    var wc := Count(w, g, k + 1);
    var (wn, np) := NewPromise(wc, Pending, Default, None);
    var r := Link(wn, prev, g, k, np);
    KeepsTrans(w, wc, wn);
    KeepsTrans(w, wn, r.0);
    (r.0, r.1, np)
  }

  /** Factory `fid` returns a promise of `w` that has already settled. */
  predicate YieldsSettled(w: World, fid: nat)
  {
    && fid in w.env.factories && w.env.factories[fid].Return?
    && w.env.factories[fid].value in w.promises && w.promises[w.env.factories[fid].value].state != Pending
  }

  /** Every factory returns a settled promise. */
  predicate AllYieldSettled(w: World, factories: seq<nat>)
  {
    forall j :: 0 <= j < |factories| ==> YieldsSettled(w, factories[j])
  }

  /** The promise factory `fid` returns. */
  function Yielded(w: World, fid: nat): PromiseRec
    requires YieldsSettled(w, fid)
  {
    w.promises[w.env.factories[fid].value]
  }

  /**
   * The index of the first factory whose promise is in state `s`, or the
   * number of factories when there is none: the factory that ends a run
   * of First (a success) or of Sequence (a failure).
   */
  function FirstIn(w: World, factories: seq<nat>, s: PromiseState): (r: nat)
    requires AllYieldSettled(w, factories)
    ensures r <= |factories|
    ensures forall j :: 0 <= j < r ==> Yielded(w, factories[j]).state != s
    ensures r < |factories| ==> Yielded(w, factories[r]).state == s
  {
    if factories == [] then 0
    else if Yielded(w, factories[0]).state == s then 0
    else 1 + FirstIn(w, factories[1..], s)
  }

  /** The log entries of calls to the given factories, in order. */
  function Produce(factories: seq<nat>): seq<Event>
  {
    seq(|factories|, j requires 0 <= j < |factories| => Produced(factories[j]))
  }

  /** How many of the first `k` factories a run calls when factory `m` ends it. */
  function Calls(m: nat, k: nat): nat
  {
    if m < k then m + 1 else k
  }

  /** Every promise of `w` outside `except` keeps its whole record in `w'`. */
  ghost predicate Retains(w: World, w': World, except: set<Pid>)
  {
    forall x :: x in w.promises && x !in except ==> x in w'.promises && w'.promises[x] == w.promises[x]
  }

  /** `np` has taken on the settlement of `q`. */
  ghost predicate Forwarded(w: World, w': World, q: Pid, np: Pid)
    requires q in w.promises
  {
    && np in w'.promises && w'.promises[np].state == w.promises[q].state
    && (w.promises[q].state == Resolved ==> w'.promises[np].value == w.promises[q].value)
    && (w.promises[q].state == Rejected ==> w'.promises[np].exn == w.promises[q].exn)
  }

  /** Later worlds agree on which factories yield what, as far as FirstIn reads. */
  lemma {:induction false} FirstInKept(w: World, w': World, factories: seq<nat>, s: PromiseState)
    requires Keeps(w, w') && AllYieldSettled(w, factories)
    ensures AllYieldSettled(w', factories)
    ensures forall j :: 0 <= j < |factories| ==> SameSettlement(Yielded(w, factories[j]), Yielded(w', factories[j]))
    ensures FirstIn(w', factories, s) == FirstIn(w, factories, s)
  {
    if factories != [] {
      FirstInKept(w, w', factories[1..], s);
    }
  }

  /** The resolve closure `np.Resolve` on a quiet `np`: only `np` changes. */
  lemma RunsResolveWith(w: World, np: Pid, v: Value)
    requires Good(w) && Quiet(w, np)
    ensures RunAction(w, ResolveWith(np), OfValue(v))
            == (MarkSettled(w, np, Resolved, if w.engine == Queued then Default else v, w.promises[np].exn), Normal)
  {
    ResolveWithRuns(w, np, OfValue(v));
    assert ValueOf(OfValue(v)) == v;
    QuietResolve(w, np, v);
  }

  lemma ResolveWithRuns(w: World, np: Pid, arg: Arg)
    requires Good(w)
    ensures RunAction(w, ResolveWith(np), arg) == Resolve(w, np, ValueOf(arg))
  {
  }

  /** The reject closure `np.Reject` on a quiet `np`: only `np` changes. */
  lemma RunsRejectWith(w: World, np: Pid, e: Option<Exn>)
    requires Good(w) && Quiet(w, np)
    ensures RunAction(w, RejectWith(np), OfExn(e)) == (MarkSettled(w, np, Rejected, w.promises[np].value, e), Normal)
  {
    RejectWithRuns(w, np, OfExn(e));
    assert ExnOf(OfExn(e)) == e;
    QuietReject(w, np, e);
  }

  lemma RejectWithRuns(w: World, np: Pid, arg: Arg)
    requires Good(w)
    ensures RunAction(w, RejectWith(np), arg) == Reject(w, np, ExnOf(arg))
  {
  }

  /** First's give-up closure on a quiet result: progress 1, then the rejection. */
  lemma RunsGiveUp(w: World, g: Gid, e: Option<Exn>)
    requires Good(w) && g in w.groups && Quiet(w, w.groups[g].result)
    ensures var R := w.groups[g].result;
            RunAction(w, FirstGiveUp(g), OfExn(e)) == (MarkSettled(w, R, Rejected, w.promises[R].value, e), Normal)
  {
    var R := w.groups[g].result;
    GiveUpSettles(w, g, OfExn(e));
    QuietProgress(w, R, 1.0);
    QuietReject(w, R, e);
    assert GroupSettle(w, FirstGiveUp(g), OfExn(e)) == Reject(w, R, e);
  }

  lemma GiveUpSettles(w: World, g: Gid, arg: Arg)
    requires Good(w) && g in w.groups
    ensures RunAction(w, FirstGiveUp(g), arg) == GroupSettle(w, FirstGiveUp(g), arg)
  {
    assert RunAction(w, FirstGiveUp(g), arg) == GroupAction(w, FirstGiveUp(g), arg);
  }

  /** Then in the pooled engine on a resolved promise runs onResolved at once. */
  lemma ThenResolvedRuns(w: World, p: Pid, a: Action, onRejected: Option<Action>)
    requires Good(w) && p in w.promises && w.promises[p].state == Resolved
    ensures var r := RunAction(w, a, OfValue(w.promises[p].value));
            Then(w, p, Some(a), onRejected, None) == Shortcut(r.0, r.1, if w.engine == Queued then Some(p) else None)
  {
  }

  /** Then without onRejected in the pooled engine on a rejected promise yields a new rejected promise. */
  lemma ThenRejectedPasses(w: World, p: Pid, a: Action)
    requires Good(w) && w.engine == Pooled && p in w.promises && w.promises[p].state == Rejected
    ensures var (w1, t) := NewPromise(w, Rejected, Default, w.promises[p].exn);
            Then(w, p, Some(a), None, None) == (w1, Normal, t)
  {
  }

  /** Then with onRejected, outside the older engine, on a rejected promise runs onRejected at once. */
  lemma ThenRejectedRuns(w: World, p: Pid, a: Action, b: Action)
    requires Good(w) && w.engine != Legacy && p in w.promises && w.promises[p].state == Rejected
    ensures var r := RunAction(w, b, OfExn(w.promises[p].exn));
            Then(w, p, Some(a), Some(b), None) == Shortcut(r.0, r.1, if w.engine == Queued then Some(w.sharedResolved) else None)
  {
    assert w.promises[p].state != Resolved;
  }

  /** Catch in the pooled engine on a resolved promise yields a new resolved promise. */
  lemma CatchResolvedPasses(w: World, p: Pid, a: Action)
    requires Good(w) && w.engine == Pooled && p in w.promises && w.promises[p].state == Resolved
    ensures Catch(w, p, a) == Shortcut(w, Normal, None)
  {
  }

  /** Catch in the pooled engine on a rejected promise runs onRejected at once. */
  lemma CatchRejectedRuns(w: World, p: Pid, a: Action)
    requires Good(w) && w.engine == Pooled && p in w.promises && w.promises[p].state == Rejected
    ensures var (w1, f) := RunAction(w, a, OfExn(w.promises[p].exn));
            Catch(w, p, a) == Shortcut(w1, f, None)
  {
  }

  /**
   * `q.Then(np.Resolve).Catch(np.Reject)` in the pooled engine on a
   * settled `q` runs at once: `np` takes on `q`'s settlement, and nothing
   * else that existed changes.
   */
  lemma ForwardSettled(w: World, q: Pid, np: Pid)
    requires Good(w) && w.engine == Pooled && q in w.promises && w.promises[q].state != Pending && Quiet(w, np)
    ensures var r := ForwardTo(w, q, np);
            && r.1 == Normal && r.0.log == w.log && r.0.groups == w.groups
            && Retains(w, r.0, {np}) && Forwarded(w, r.0, q, np)
  {
    if w.promises[q].state == Resolved {
      ForwardResolved(w, q, np);
    } else {
      ForwardRejected(w, q, np);
    }
  }

  lemma ForwardResolved(w: World, q: Pid, np: Pid)
    requires Good(w) && w.engine == Pooled && q in w.promises && w.promises[q].state == Resolved && Quiet(w, np)
    ensures var r := ForwardTo(w, q, np);
            && r.1 == Normal && r.0.log == w.log && r.0.groups == w.groups
            && Retains(w, r.0, {np}) && Forwarded(w, r.0, q, np)
  {
    var v := w.promises[q].value;
    var w1 := MarkSettled(w, np, Resolved, v, w.promises[np].exn);
    var s2 := Shortcut(w1, Normal, None);
    var s3 := Shortcut(s2.0, Normal, None);
    assert ForwardTo(w, q, np) == (s3.0, s3.1) by {
      RunsResolveWith(w, np, v);
      ThenResolvedRuns(w, q, ResolveWith(np), None);
      CatchResolvedPasses(s2.0, s2.2, RejectWith(np));
      ForwardSteps(w, q, np);
    }
    SettledAside(w, np, Resolved, v, w.promises[np].exn);
    ForwardedAside(w, s2.0, q, np);
  }

  lemma ForwardRejected(w: World, q: Pid, np: Pid)
    requires Good(w) && w.engine == Pooled && q in w.promises && w.promises[q].state == Rejected && Quiet(w, np)
    ensures var r := ForwardTo(w, q, np);
            && r.1 == Normal && r.0.log == w.log && r.0.groups == w.groups
            && Retains(w, r.0, {np}) && Forwarded(w, r.0, q, np)
  {
    var e := w.promises[q].exn;
    var n1 := NewPromise(w, Rejected, Default, e);
    var w2 := MarkSettled(n1.0, np, Rejected, n1.0.promises[np].value, e);
    var s3 := Shortcut(w2, Normal, None);
    assert ForwardTo(w, q, np) == (s3.0, s3.1) by {
      ThenRejectedPasses(w, q, ResolveWith(np));
      CatchRejectedRuns(n1.0, n1.1, RejectWith(np));
      RunsRejectWith(n1.0, np, e);
      ForwardSteps(w, q, np);
    }
    assert Retains(w, n1.0, {}) && IsPending(n1.0, np) && n1.0.groups == w.groups && n1.0.log == w.log && Good(n1.0) by {
      NewRetains(w, Rejected, Default, e);
    }
    SettledAside(n1.0, np, Rejected, n1.0.promises[np].value, e);
    RetainsTrans(w, n1.0, s3.0, np);
  }

  lemma NewRetains(w: World, state: PromiseState, v: Value, e: Option<Exn>)
    requires Good(w)
    ensures var n := NewPromise(w, state, v, e);
            Good(n.0) && Retains(w, n.0, {}) && n.0.groups == w.groups && n.0.log == w.log
  {
  }

  lemma RetainsTrans(w: World, w1: World, w2: World, np: Pid)
    requires Retains(w, w1, {}) && Retains(w1, w2, {np})
    ensures Retains(w, w2, {np})
  {
  }

  /** `q.Then(np.Resolve).Catch(np.Reject)`, one call after the other. */
  lemma ForwardSteps(w: World, q: Pid, np: Pid)
    requires Good(w)
    ensures var t := Then(w, q, Some(ResolveWith(np)), None, None);
            ForwardTo(w, q, np) == if !t.1.Normal? then (t.0, t.1) else var r := Catch(t.0, t.2, RejectWith(np)); (r.0, r.1)
  {
  }

  /**
   * First's retry for factory `k` in the pooled engine, when the factory
   * returns a settled promise: the (quiet) result takes progress k / count,
   * the call is logged, and `np` takes on the promise's settlement.
   */
  lemma RetrySettled(w: World, g: Gid, k: nat, np: Pid, e: Option<Exn>)
    requires Good(w) && w.engine == Pooled && Quiet(w, np)
    requires g in w.groups && k < |w.groups[g].factories| && Quiet(w, w.groups[g].result)
    requires YieldsSettled(w, w.groups[g].factories[k])
    ensures var fid := w.groups[g].factories[k];
            var r := RunAction(w, FirstRetry(g, k, np), OfExn(e));
            && r.1 == Normal && r.0.log == w.log + [Produced(fid)] && r.0.groups == w.groups
            && Retains(w, r.0, {np}) && Forwarded(w, r.0, w.env.factories[fid].value, np)
  {
    var fid := w.groups[g].factories[k];
    var w1 := w.(log := w.log + [Produced(fid)]);
    RetryCalls(w, g, k, np);
    ForwardSettled(w1, w.env.factories[fid].value, np);
    RunsFirstRetry(w, g, k, np, OfExn(e));
    assert w1.promises == w.promises && w1.groups == w.groups;
  }

  lemma RunsFirstRetry(w: World, g: Gid, k: nat, np: Pid, arg: Arg)
    requires Good(w)
    ensures RunAction(w, FirstRetry(g, k, np), arg) == RunFirstRetry(w, g, k, np)
  {
  }

  /** The retry's first two steps: quiet progress, then the logged call of a factory that returns its promise. */
  lemma RetryCalls(w: World, g: Gid, k: nat, np: Pid)
    requires Good(w) && g in w.groups && k < |w.groups[g].factories| && Quiet(w, w.groups[g].result)
    requires YieldsSettled(w, w.groups[g].factories[k])
    ensures var fid := w.groups[g].factories[k];
            RunFirstRetry(w, g, k, np) == ForwardTo(w.(log := w.log + [Produced(fid)]), w.env.factories[fid].value, np)
  {
    var gr := w.groups[g];
    var fid := gr.factories[k];
    QuietProgress(w, gr.result, Slice(k as real, gr.count));
    assert CallFactory(w, gr.factories, k) == (w.(log := w.log + [Produced(fid)]), Normal, w.env.factories[fid].value);
  }

  /**
   * One link of First in the pooled engine behind a settled promise: a
   * resolved `prev` passes its value on to `np`; a rejected one calls
   * factory `k`, whose settled promise `np` then follows.
   */
  lemma LinkSettled(w: World, prev: Pid, g: Gid, k: nat, np: Pid)
    requires Good(w) && w.engine == Pooled && prev in w.promises && w.promises[prev].state != Pending && Quiet(w, np)
    requires g in w.groups && k < |w.groups[g].factories| && Quiet(w, w.groups[g].result)
    requires w.promises[prev].state == Rejected ==> YieldsSettled(w, w.groups[g].factories[k])
    ensures var r := Link(w, prev, g, k, np);
            && r.1 == Normal && r.0.groups == w.groups && Retains(w, r.0, {np})
            && (w.promises[prev].state == Resolved ==> r.0.log == w.log && Forwarded(w, r.0, prev, np))
            && (w.promises[prev].state == Rejected ==>
                  r.0.log == w.log + [Produced(w.groups[g].factories[k])]
                  && Forwarded(w, r.0, w.env.factories[w.groups[g].factories[k]].value, np))
  {
    if w.promises[prev].state == Resolved {
      LinkResolved(w, prev, g, k, np);
    } else {
      LinkRejected(w, prev, g, k, np);
    }
  }

  lemma LinkResolved(w: World, prev: Pid, g: Gid, k: nat, np: Pid)
    requires Good(w) && w.engine == Pooled && prev in w.promises && w.promises[prev].state == Resolved && Quiet(w, np)
    ensures var r := Link(w, prev, g, k, np);
            && r.1 == Normal && r.0.groups == w.groups && Retains(w, r.0, {np})
            && r.0.log == w.log && Forwarded(w, r.0, prev, np)
  {
    var v := w.promises[prev].value;
    var w1 := MarkSettled(w, np, Resolved, v, w.promises[np].exn);
    var s := Shortcut(w1, Normal, None);
    assert Link(w, prev, g, k, np) == (s.0, s.1) by {
      LinkPooled(w, prev, g, k, np);
      RunsResolveWith(w, np, v);
      ThenResolvedRuns(w, prev, ResolveWith(np), Some(FirstRetry(g, k, np)));
    }
    SettledAside(w, np, Resolved, v, w.promises[np].exn);
  }

  /** Settling a quiet `np` and then creating a settled promise leaves every other promise as it was. */
  lemma SettledAside(w: World, np: Pid, state: PromiseState, v: Value, e: Option<Exn>)
    requires Good(w) && IsPending(w, np)
    ensures var s := Shortcut(MarkSettled(w, np, state, v, e), Normal, None);
            && s.1 == Normal && s.0.groups == w.groups && s.0.log == w.log && Retains(w, s.0, {np})
            && np in s.0.promises && s.0.promises[np].state == state && s.0.promises[np].value == v && s.0.promises[np].exn == e
  {
  }

  lemma LinkRejected(w: World, prev: Pid, g: Gid, k: nat, np: Pid)
    requires Good(w) && w.engine == Pooled && prev in w.promises && w.promises[prev].state == Rejected && Quiet(w, np)
    requires g in w.groups && k < |w.groups[g].factories| && Quiet(w, w.groups[g].result)
    requires YieldsSettled(w, w.groups[g].factories[k])
    ensures var r := Link(w, prev, g, k, np);
            && r.1 == Normal && r.0.groups == w.groups && Retains(w, r.0, {np})
            && r.0.log == w.log + [Produced(w.groups[g].factories[k])]
            && Forwarded(w, r.0, w.env.factories[w.groups[g].factories[k]].value, np)
  {
    var e := w.promises[prev].exn;
    var r1 := RunAction(w, FirstRetry(g, k, np), OfExn(e));
    var s := Shortcut(r1.0, r1.1, None);
    assert Link(w, prev, g, k, np) == (s.0, s.1) by {
      LinkPooled(w, prev, g, k, np);
      ThenRejectedRuns(w, prev, ResolveWith(np), FirstRetry(g, k, np));
    }
    RetrySettled(w, g, k, np, e);
    ForwardedAside(w, r1.0, w.env.factories[w.groups[g].factories[k]].value, np);
  }

  /** Creating a settled promise after `np` took on `q`'s settlement leaves that, and every other promise, as it was. */
  lemma ForwardedAside(w: World, w1: World, q: Pid, np: Pid)
    requires Good(w1) && q in w.promises && Retains(w, w1, {np}) && Forwarded(w, w1, q, np)
    ensures var s := Shortcut(w1, Normal, None);
            && s.1 == Normal && s.0.groups == w1.groups && s.0.log == w1.log
            && Retains(w, s.0, {np}) && Forwarded(w, s.0, q, np)
  {
  }

  /** A link behind a settled promise in the pooled engine is the Then call alone (no progress handler runs). */
  lemma LinkPooled(w: World, prev: Pid, g: Gid, k: nat, np: Pid)
    requires Good(w) && w.engine == Pooled && prev in w.promises && w.promises[prev].state != Pending
    ensures var t := Then(w, prev, Some(ResolveWith(np)), Some(FirstRetry(g, k, np)), None);
            Link(w, prev, g, k, np) == (t.0, t.1)
  {
    assert Progress(w, prev, Some(ReportSlice(g, k))) == (w, Normal);
  }

  /** The invariant of First's loop when its outcome is traced, carried across one turn. */
  lemma FirstTurnTraced(w0: World, w: World, factories: seq<nat>, m: nat, R: Pid, last: Pid, g: Gid, k: nat)
    requires Good(w) && Keeps(w0, w) && w0.engine == Pooled && k < |factories|
    requires FirstOnTrack(w0, w, g, factories, m, R, last, k)
    ensures var r := FirstTurn(w, last, g, k);
            r.1 == Normal && FirstOnTrack(w0, r.0, g, factories, m, R, r.2, k + 1)
  {
    FirstInKept(w0, w, factories, Resolved);
    FirstTurnSettled(w, last, g, k);
    var r := FirstTurn(w, last, g, k);
    FirstStep(w0, w, r.0, factories, m, last, r.2, k);
    assert R in w.promises;
  }

  /**
   * One turn of First's loop in the pooled engine when every factory
   * returns a settled promise, from the state `w` before link `k` to the
   * state `w'` after it (as FirstLink describes it): factory `k` is called
   * exactly when no earlier factory succeeded, and the new link `np`
   * carries the first success or the latest failure.
   */
  lemma FirstStep(w0: World, w: World, w': World, factories: seq<nat>, m: nat, prev: Pid, np: Pid, k: nat)
    requires Keeps(w0, w) && AllYieldSettled(w0, factories) && AllYieldSettled(w, factories)
    requires m == FirstIn(w0, factories, Resolved) && k < |factories|
    requires prev in w.promises && w.promises[prev].state != Pending
    requires k <= m ==> w.promises[prev].state == Rejected
    requires m < k ==> w.promises[prev].state == Resolved && w.promises[prev].value == Yielded(w0, factories[m]).value
    requires w.log == w0.log + Produce(factories[..Calls(m, k)])
    requires w.promises[prev].state == Resolved ==> w'.log == w.log && Forwarded(w, w', prev, np)
    requires w.promises[prev].state == Rejected ==>
               w'.log == w.log + [Produced(factories[k])] && Forwarded(w, w', w.env.factories[factories[k]].value, np)
    ensures np in w'.promises && w'.promises[np].state != Pending
    ensures k + 1 <= m ==> w'.promises[np].state == Rejected && w'.promises[np].exn == Yielded(w0, factories[k]).exn
    ensures m < k + 1 ==> w'.promises[np].state == Resolved && w'.promises[np].value == Yielded(w0, factories[m]).value
    ensures w'.log == w0.log + Produce(factories[..Calls(m, k + 1)])
  {
    FirstInKept(w0, w, factories, Resolved);
    if k <= m {
      assert SameSettlement(Yielded(w0, factories[k]), Yielded(w, factories[k]));
      ProduceNext(factories, k);
    }
  }

  lemma ProduceNext(factories: seq<nat>, k: nat)
    requires k < |factories|
    ensures Produce(factories[..k + 1]) == Produce(factories[..k]) + [Produced(factories[k])]
  {
  }

  /** A turn of First's loop behind a settled promise, in the pooled engine. */
  lemma FirstTurnSettled(w: World, prev: Pid, g: Gid, k: nat)
    requires Good(w) && w.engine == Pooled && prev in w.promises && w.promises[prev].state != Pending
    requires g in w.groups && k < |w.groups[g].factories| && Quiet(w, w.groups[g].result)
    requires w.promises[prev].state == Rejected ==> YieldsSettled(w, w.groups[g].factories[k])
    ensures var (w', f', np) := FirstTurn(w, prev, g, k);
            && f' == Normal && w'.groups == w.groups[g := w.groups[g].(count := k + 1)] && Retains(w, w', {})
            && (w.promises[prev].state == Resolved ==> w'.log == w.log && Forwarded(w, w', prev, np))
            && (w.promises[prev].state == Rejected ==>
                  w'.log == w.log + [Produced(w.groups[g].factories[k])]
                  && Forwarded(w, w', w.env.factories[w.groups[g].factories[k]].value, np))
  {
    var wc := Count(w, g, k + 1);
    var (wn, np) := NewPromise(wc, Pending, Default, None);
    assert wn.groups[g].factories == w.groups[g].factories && wn.groups[g].result == w.groups[g].result;
    assert Quiet(wn, wn.groups[g].result) && Quiet(wn, np);
    assert Retains(w, wn, {});
    LinkSettled(wn, prev, g, k, np);
  }

  /**
   * The end of First in the pooled engine: behind a settled last link,
   * `Then(R.Resolve)` and `Catch(give up)` settle the quiet result the way
   * the last link settled, and complete normally.
   */
  lemma FirstEnd(w: World, prev: Pid, g: Gid)
    requires Good(w) && w.engine == Pooled && prev in w.promises && w.promises[prev].state != Pending
    requires g in w.groups && Quiet(w, w.groups[g].result)
    ensures var R := w.groups[g].result;
            var (wt, ft, t) := Then(w, prev, Some(ResolveWith(R)), None, None);
            && ft == Normal
            && var r := Catch(wt, t, FirstGiveUp(g));
            && r.1 == Normal && r.0.log == w.log && Forwarded(w, r.0, prev, R)
  {
    var R := w.groups[g].result;
    var rec := w.promises[prev];
    if rec.state == Resolved {
      RunsResolveWith(w, R, rec.value);
      var w1 := MarkSettled(w, R, Resolved, rec.value, w.promises[R].exn);
      ThenResolvedRuns(w, prev, ResolveWith(R), None);
      var (w2, f2, t) := Shortcut(w1, Normal, None);
      CatchResolvedPasses(w2, t, FirstGiveUp(g));
    } else {
      ThenRejectedPasses(w, prev, ResolveWith(R));
      var (w1, t) := NewPromise(w, Rejected, Default, rec.exn);
      assert Quiet(w1, R) && w1.groups == w.groups;
      CatchRejectedRuns(w1, t, FirstGiveUp(g));
      RunsGiveUp(w1, g, rec.exn);
    }
  }

  /** `++count`: the count the closures of group `g` read when they run. */
  function Count(w: World, g: Gid, n: nat): (r: World)
    requires Good(w)
    ensures Good(r) && Keeps(w, r) && r.promises == w.promises && r.log == w.log
    ensures g in w.groups ==> r.groups == w.groups[g := w.groups[g].(count := n)]
  {
    if g in w.groups then w.(groups := w.groups[g := w.groups[g].(count := n)]) else w
  }

  /** One link of First: `prev.Progress(slice k).Then(np.Resolve, retry k)`, the older engine's retry through Catch. */
  function Link(w: World, prev: Pid, g: Gid, k: nat, np: Pid): (r: (World, Flow))
    requires Good(w) && w.engine != Queued
    ensures Good(r.0) && Keeps(w, r.0)
    ensures IsPending(w, prev) ==> r.1 == Normal && Calm(w, r.0)
  {
    var (w1, f1) := Progress(w, prev, Some(ReportSlice(g, k)));
    if !f1.Normal? then (w1, f1)
    else if w.engine == Pooled then
      var r := Then(w1, prev, Some(ResolveWith(np)), Some(FirstRetry(g, k, np)), None);
      KeepsTrans(w, w1, r.0);
      if IsPending(w, prev) then CalmTrans(w, w1, r.0); (r.0, r.1) else (r.0, r.1)
    else
      var (w2, f2, t) := Then(w1, prev, Some(ResolveWith(np)), None, None);
      KeepsTrans(w, w1, w2);
      if !f2.Normal? then (w2, f2)
      else
        var r := Catch(w2, t, FirstRetry(g, k, np));
        KeepsTrans(w, w2, r.0);
        if IsPending(w, prev) then CalmTrans(w, w1, w2); CalmTrans(w, w2, r.0); (r.0, r.1) else (r.0, r.1)
  }

  /**
   * Sequence over promise factories (non-generic engine). The seed is the
   * shared resolved promise; for factory k the previous link is followed
   * by Then(Func<IPromise>) with a closure that reports progress k/count
   * and calls factory k, and that link's progress is scaled into slice k.
   * The last link resolves R or rejects it with its exception.
   */
  method Sequence(w0: World, factories: seq<nat>) returns (w: World, f: Flow, R: Pid)
    requires Good(w0) && w0.engine == Queued
    ensures Good(w) && Keeps(w0, w)
    ensures R !in w0.promises && R in w.promises
    ensures factories == [] && w0.sharedResolved in w0.promises && w0.promises[w0.sharedResolved].state == Resolved ==>
              f == Normal && w.promises[R].state == Resolved
    ensures AllYieldSettled(w0, factories) && w0.sharedResolved in w0.promises && w0.promises[w0.sharedResolved].state == Resolved ==>
              var m := FirstIn(w0, factories, Rejected);
              && f == Normal && w.log == w0.log + Produce(factories[..Calls(m, |factories|)])
              && (m == |factories| ==> w.promises[R].state == Resolved)
              && (m < |factories| ==> w.promises[R].state == Rejected && w.promises[R].exn == Yielded(w0, factories[m]).exn)
  {
    var (w1, R1) := NewPromise(w0, Pending, Default, None);
    var (w2, g) := NewGroup(w1, Captures(R1, 0, [], [], [], 0, factories));
    KeepsTrans(w0, w1, w2);
    R := R1;
    // The outcome is traced when every factory returns a settled promise.
    ghost var traced := AllYieldSettled(w0, factories) && w0.sharedResolved in w0.promises
                        && w0.promises[w0.sharedResolved].state == Resolved;
    if traced {
      SequenceOpens(w0, factories);
    }
    var w3, f3, last := SequenceLinks(w2, g, factories, w0.sharedResolved);
    KeepsTrans(w0, w2, w3);
    w, f := w3, f3;
    if f3.Normal? {
      var wt, ft := SequenceSettle(w3, last, R);
      KeepsTrans(w0, w3, wt);
      w, f := wt, ft;
    }
  }

  /** The final `Then(() => R.Resolve(), R.Reject)` of Sequence on the last link. */
  method SequenceSettle(w0: World, last: Pid, R: Pid) returns (w: World, f: Flow)
    requires Good(w0) && w0.engine == Queued
    ensures Good(w) && Keeps(w0, w)
    ensures last in w0.promises && w0.promises[last].state != Pending && Quiet(w0, R) ==>
              && f == Normal && w.log == w0.log && R in w.promises
              && w.promises[R].state == w0.promises[last].state
              && (w0.promises[last].state == Rejected ==> w.promises[R].exn == w0.promises[last].exn)
  {
    if last in w0.promises && w0.promises[last].state != Pending && Quiet(w0, R) {
      SequenceEnd(w0, last, R);
    }
    var (wt, ft, _) := Then(w0, last, Some(ResolveEmpty(R)), Some(RejectWith(R)), None);
    w, f := wt, ft;
  }

  /** Sequence's opening: a quiet result and its group. */
  lemma SequenceOpens(w0: World, factories: seq<nat>)
    requires Good(w0) && w0.engine == Queued && AllYieldSettled(w0, factories)
    requires w0.sharedResolved in w0.promises && w0.promises[w0.sharedResolved].state == Resolved
    ensures var (w1, R1) := NewPromise(w0, Pending, Default, None);
            var (w2, g) := NewGroup(w1, Captures(R1, 0, [], [], [], 0, factories));
            && SequenceReady(w2, g, factories, w0.sharedResolved) && w2.groups[g].result == R1
            && Keeps(w0, w2) && w2.log == w0.log
            && FirstIn(w2, factories, Rejected) == FirstIn(w0, factories, Rejected)
            && forall j :: 0 <= j < |factories| ==> SameSettlement(Yielded(w0, factories[j]), Yielded(w2, factories[j]))
  {
    var (w1, R1) := NewPromise(w0, Pending, Default, None);
    var (w2, g) := NewGroup(w1, Captures(R1, 0, [], [], [], 0, factories));
    KeepsTrans(w0, w1, w2);
    FirstInKept(w0, w2, factories, Rejected);
    assert Quiet(w2, R1);
  }

  /** What Sequence's run needs for its outcome to be traced: a quiet result, a resolved seed, and factories that return settled promises. */
  predicate SequenceReady(w: World, g: Gid, factories: seq<nat>, seed: Pid)
  {
    && w.engine == Queued && g in w.groups && w.groups[g].factories == factories && Quiet(w, w.groups[g].result)
    && seed in w.promises && w.promises[seed].state == Resolved && AllYieldSettled(w, factories)
  }

  /** The Aggregate loop of Sequence: the links, and the last one. */
  method SequenceLinks(w0: World, g: Gid, factories: seq<nat>, seed: Pid) returns (w: World, f: Flow, last: Pid)
    requires Good(w0) && w0.engine == Queued
    ensures Good(w) && Keeps(w0, w)
    ensures factories == [] ==> w == w0 && f == Normal && last == seed
    ensures SequenceReady(w0, g, factories, seed) ==> f == Normal && SequenceLinked(w0, w, g, factories, last)
  {
    w, f, last := w0, Normal, seed;
    var k := 0;
    ghost var traced := SequenceReady(w0, g, factories, seed);
    ghost var R := if g in w0.groups then w0.groups[g].result else 0;
    ghost var m := if traced then FirstIn(w0, factories, Rejected) else 0;
    if traced {
      SequenceStarts(w0, g, factories, seed);
    }
    while k < |factories|
      invariant k <= |factories|
      invariant Good(w) && Keeps(w0, w) && f == Normal
      invariant factories == [] ==> w == w0 && last == seed
      invariant traced ==> SequenceOnTrack(w0, w, g, factories, m, R, last, k)
      decreases |factories| - k
    {
      var w', f', last' := SequenceLink(w0, w, g, factories, m, R, last, k, traced);
      KeepsTrans(w0, w, w');
      w := w';
      if !f'.Normal? {
        f := f';
        return;
      }
      last := last';
      k := k + 1;
    }
    if traced {
      SequenceDone(w0, w, g, factories, m, last);
    }
  }

  /** One turn of Sequence's loop: the link for factory `k`. */
  method SequenceLink(ghost w0: World, w: World, g: Gid, ghost factories: seq<nat>, ghost m: nat, ghost R: Pid, last: Pid, k: nat, ghost traced: bool)
    returns (w': World, f': Flow, last': Pid)
    requires Good(w) && w.engine == Queued
    requires traced ==> k < |factories| && Keeps(w0, w) && SequenceOnTrack(w0, w, g, factories, m, R, last, k)
    ensures Good(w') && Keeps(w, w')
    ensures traced ==> f' == Normal && SequenceOnTrack(w0, w', g, factories, m, R, last', k + 1)
  {
    if traced {
      SequenceTurnTraced(w0, w, factories, m, R, last, g, k);
    }
    var r := SequenceTurn(w, last, g, k);
    w', f', last' := r.0, r.1, r.2;
  }

  /**
   * The invariant of Sequence's loop before link `k` when its outcome is
   * traced: the result is still quiet, and the last link is resolved
   * until factory `m` (the first to fail) has been called, rejected with
   * its exception after; exactly the factories up to `m` have been called.
   */
  ghost predicate SequenceOnTrack(w0: World, w: World, g: Gid, factories: seq<nat>, m: nat, R: Pid, last: Pid, k: nat)
  {
    && AllYieldSettled(w0, factories) && m == FirstIn(w0, factories, Rejected) && k <= |factories|
    && g in w.groups && w.groups[g].result == R && w.groups[g].factories == factories && Quiet(w, R)
    && last in w.promises && w.promises[last].state != Pending
    && (k <= m ==> w.promises[last].state == Resolved)
    && (m < k ==> w.promises[last].state == Rejected && w.promises[last].exn == Yielded(w0, factories[m]).exn)
    && w.log == w0.log + Produce(factories[..Calls(m, k)])
  }

  /**
   * One turn of Sequence's loop: `++count`, the link `t` that
   * Then(Func<IPromise>) chains behind `last`, and its progress slice.
   */
  function SequenceTurn(w: World, last: Pid, g: Gid, k: nat): (r: (World, Flow, Pid))
    requires Good(w) && w.engine == Queued
    ensures Good(r.0) && Keeps(w, r.0)
  {
    var wc := Count(w, g, k + 1);
    var (wt, ft, t) := QueuedPromises.ThenChain(wc, last, Some(SequenceStep(g, k)), None, None);
    KeepsTrans(w, wc, wt);
    if !ft.Normal? then (wt, ft, t)
    else
      var (wp, fp) := Progress(wt, t, Some(ReportSlice(g, k)));
      KeepsTrans(w, wt, wp);
      (wp, fp, t)
  }

  /**
   * A turn of Sequence behind a resolved link, when factory `k` returns a
   * settled promise `q`: progress k / count goes to the quiet result, the
   * call is logged, and `q` itself becomes the next link.
   */
  lemma SequenceAfterResolved(w: World, last: Pid, g: Gid, k: nat)
    requires Good(w) && w.engine == Queued && last in w.promises && w.promises[last].state == Resolved
    requires g in w.groups && k < |w.groups[g].factories| && Quiet(w, w.groups[g].result)
    requires YieldsSettled(w, w.groups[g].factories[k])
    ensures var fid := w.groups[g].factories[k];
            SequenceTurn(w, last, g, k) == (Count(w, g, k + 1).(log := w.log + [Produced(fid)]), Normal, w.env.factories[fid].value)
  {
    var wc := Count(w, g, k + 1);
    var gr := wc.groups[g];
    var fid := gr.factories[k];
    QuietProgress(wc, gr.result, Slice(k as real, gr.count));
    var w1 := wc.(log := wc.log + [Produced(fid)]);
    assert CallFactory(wc, gr.factories, k) == (w1, Normal, w.env.factories[fid].value);
    assert RunProducer(wc, SequenceStep(g, k)) == (w1, Normal, w.env.factories[fid].value);
    assert QueuedPromises.ThenChain(wc, last, Some(SequenceStep(g, k)), None, None) == (w1, Normal, w.env.factories[fid].value);
  }

  /**
   * A turn of Sequence behind a rejected link calls no factory: the new
   * link is a new promise rejected with the same exception.
   */
  lemma SequenceAfterRejected(w: World, last: Pid, g: Gid, k: nat)
    requires Good(w) && w.engine == Queued && last in w.promises && w.promises[last].state == Rejected
    ensures var r := SequenceTurn(w, last, g, k);
            && r.1 == Normal && r.0.log == w.log && r.0.groups == Count(w, g, k + 1).groups && Retains(w, r.0, {})
            && r.2 in r.0.promises && r.0.promises[r.2].state == Rejected && r.0.promises[r.2].exn == w.promises[last].exn
  {
    var wc := Count(w, g, k + 1);
    var (w1, t) := NewPromise(wc, Rejected, Default, w.promises[last].exn);
    assert Then(wc, last, None, None, None) == (w1, Normal, t);
    assert QueuedPromises.ThenChain(wc, last, Some(SequenceStep(g, k)), None, None) == (w1, Normal, t);
    assert Progress(w1, t, Some(ReportSlice(g, k))) == (w1, Normal);
  }

  /**
   * What Sequence's links leave behind when every factory yields a settled
   * promise: the result is still quiet, the last link is resolved when no
   * factory failed and rejected with the first failure's exception
   * otherwise, and exactly the factories up to that failure have been called.
   */
  ghost predicate SequenceLinked(w0: World, w: World, g: Gid, factories: seq<nat>, last: Pid)
    requires g in w0.groups && AllYieldSettled(w0, factories)
  {
    var m := FirstIn(w0, factories, Rejected);
    && g in w.groups && w.groups[g].result == w0.groups[g].result && Quiet(w, w0.groups[g].result)
    && last in w.promises
    && w.log == w0.log + Produce(factories[..Calls(m, |factories|)])
    && (m == |factories| ==> w.promises[last].state == Resolved)
    && (m < |factories| ==> w.promises[last].state == Rejected && w.promises[last].exn == Yielded(w0, factories[m]).exn)
  }

  lemma SequenceDone(w0: World, w: World, g: Gid, factories: seq<nat>, m: nat, last: Pid)
    requires g in w0.groups && AllYieldSettled(w0, factories) && m == FirstIn(w0, factories, Rejected)
    requires SequenceOnTrack(w0, w, g, factories, m, w0.groups[g].result, last, |factories|)
    ensures SequenceLinked(w0, w, g, factories, last)
  {
  }

  lemma SequenceStarts(w0: World, g: Gid, factories: seq<nat>, seed: Pid)
    requires SequenceReady(w0, g, factories, seed)
    ensures SequenceOnTrack(w0, w0, g, factories, FirstIn(w0, factories, Rejected), w0.groups[g].result, seed, 0)
  {
    assert Produce(factories[..0]) == [];
  }

  /** The invariant of Sequence's loop when its outcome is traced, carried across one turn. */
  lemma SequenceTurnTraced(w0: World, w: World, factories: seq<nat>, m: nat, R: Pid, last: Pid, g: Gid, k: nat)
    requires Good(w) && Keeps(w0, w) && w0.engine == Queued && k < |factories|
    requires SequenceOnTrack(w0, w, g, factories, m, R, last, k)
    ensures var r := SequenceTurn(w, last, g, k);
            r.1 == Normal && SequenceOnTrack(w0, r.0, g, factories, m, R, r.2, k + 1)
  {
    FirstInKept(w0, w, factories, Rejected);
    SequenceTurnSettled(w, last, g, k);
    var r := SequenceTurn(w, last, g, k);
    SequenceAdvance(w0, w, r.0, factories, m, last, r.2, k);
    assert R in w.promises;
  }

  /** A turn of Sequence behind a settled link, when factory `k` returns a settled promise. */
  lemma SequenceTurnSettled(w: World, last: Pid, g: Gid, k: nat)
    requires Good(w) && w.engine == Queued && last in w.promises && w.promises[last].state != Pending
    requires g in w.groups && k < |w.groups[g].factories| && Quiet(w, w.groups[g].result)
    requires YieldsSettled(w, w.groups[g].factories[k])
    ensures var r := SequenceTurn(w, last, g, k);
            && r.1 == Normal && r.0.groups == w.groups[g := w.groups[g].(count := k + 1)] && Retains(w, r.0, {})
            && (w.promises[last].state == Resolved ==>
                  r.0.log == w.log + [Produced(w.groups[g].factories[k])]
                  && Forwarded(w, r.0, w.env.factories[w.groups[g].factories[k]].value, r.2))
            && (w.promises[last].state == Rejected ==> r.0.log == w.log && Forwarded(w, r.0, last, r.2))
  {
    if w.promises[last].state == Resolved {
      SequenceAfterResolved(w, last, g, k);
    } else {
      SequenceAfterRejected(w, last, g, k);
    }
  }

  /**
   * One turn of Sequence's loop when every factory returns a settled
   * promise, from the state `w` before link `k` to the state `w'` after it
   * (as SequenceTurnSettled describes it): factory `k` is called exactly
   * when no earlier factory failed, and the new link carries the first
   * failure, or success so far.
   */
  lemma SequenceAdvance(w0: World, w: World, w': World, factories: seq<nat>, m: nat, last: Pid, t: Pid, k: nat)
    requires Keeps(w0, w) && AllYieldSettled(w0, factories) && AllYieldSettled(w, factories)
    requires m == FirstIn(w0, factories, Rejected) && k < |factories|
    requires last in w.promises && w.promises[last].state != Pending
    requires k <= m ==> w.promises[last].state == Resolved
    requires m < k ==> w.promises[last].state == Rejected && w.promises[last].exn == Yielded(w0, factories[m]).exn
    requires w.log == w0.log + Produce(factories[..Calls(m, k)])
    requires w.promises[last].state == Resolved ==>
               w'.log == w.log + [Produced(factories[k])] && Forwarded(w, w', w.env.factories[factories[k]].value, t)
    requires w.promises[last].state == Rejected ==> w'.log == w.log && Forwarded(w, w', last, t)
    ensures t in w'.promises && w'.promises[t].state != Pending
    ensures k + 1 <= m ==> w'.promises[t].state == Resolved
    ensures m < k + 1 ==> w'.promises[t].state == Rejected && w'.promises[t].exn == Yielded(w0, factories[m]).exn
    ensures w'.log == w0.log + Produce(factories[..Calls(m, k + 1)])
  {
    FirstInKept(w0, w, factories, Rejected);
    if k <= m {
      assert SameSettlement(Yielded(w0, factories[k]), Yielded(w, factories[k]));
      ProduceNext(factories, k);
    }
  }

  /**
   * The end of Sequence: behind a settled last link, Then(R.Resolve,
   * R.Reject) settles the quiet result the way the link settled, logs
   * nothing, and completes normally.
   */
  lemma SequenceEnd(w: World, last: Pid, R: Pid)
    requires Good(w) && w.engine == Queued && last in w.promises && w.promises[last].state != Pending && Quiet(w, R)
    ensures var r := Then(w, last, Some(ResolveEmpty(R)), Some(RejectWith(R)), None);
            && r.1 == Normal && r.0.log == w.log && R in r.0.promises
            && r.0.promises[R].state == w.promises[last].state
            && (w.promises[last].state == Rejected ==> r.0.promises[R].exn == w.promises[last].exn)
  {
    if w.promises[last].state == Resolved {
      SequenceEndResolved(w, last, R);
    } else {
      SequenceEndRejected(w, last, R);
    }
  }

  /** The final Then of Sequence on a resolved link resolves the quiet result and hands back the link. */
  lemma SequenceEndResolved(w: World, last: Pid, R: Pid)
    requires Good(w) && w.engine == Queued && last in w.promises && w.promises[last].state == Resolved && Quiet(w, R)
    ensures Then(w, last, Some(ResolveEmpty(R)), Some(RejectWith(R)), None)
            == (MarkSettled(w, R, Resolved, Default, w.promises[R].exn), Normal, last)
  {
    ResolveEmptyRuns(w, R, OfValue(w.promises[last].value));
    QuietResolve(w, R, Default);
    ThenResolvedRuns(w, last, ResolveEmpty(R), Some(RejectWith(R)));
  }

  lemma ResolveEmptyRuns(w: World, t: Pid, arg: Arg)
    requires Good(w)
    ensures RunAction(w, ResolveEmpty(t), arg) == Resolve(w, t, Default)
  {
  }

  /** The final Then of Sequence on a rejected link rejects the quiet result with the link's exception. */
  lemma SequenceEndRejected(w: World, last: Pid, R: Pid)
    requires Good(w) && w.engine == Queued && last in w.promises && w.promises[last].state == Rejected && Quiet(w, R)
    ensures Then(w, last, Some(ResolveEmpty(R)), Some(RejectWith(R)), None)
            == (MarkSettled(w, R, Rejected, w.promises[R].value, w.promises[last].exn), Normal, w.sharedResolved)
  {
    var e := w.promises[last].exn;
    RunsRejectWith(w, R, e);
    ThenRejectedRuns(w, last, ResolveEmpty(R), RejectWith(R));
  }


  /**
   * Then on a resolved promise in the non-generic engine runs the
   * callback at once: `ResolveEmpty(t)` resolves a pending `t` that has
   * no handlers, and Then completes normally.
   */
  lemma ThenOnResolvedRuns(w: World, p: Pid, t: Pid)
    requires Good(w) && w.engine == Queued && p in w.promises && w.promises[p].state == Resolved
    requires IsPending(w, t) && NoLists(w.promises[t])
    ensures var r := Then(w, p, Some(ResolveEmpty(t)), Some(RejectWith(t)), None);
            r.1 == Normal && t in r.0.promises && r.0.promises[t].state == Resolved
  {
    EmptyResolves(w, t);
    assert RunAction(w, ResolveEmpty(t), OfValue(w.promises[p].value)) == Resolve(w, t, Default);
  }

  /** Resolving a pending promise that has no lists completes normally. */
  lemma EmptyResolves(w: World, t: Pid)
    requires Good(w) && w.engine == Queued && IsPending(w, t) && NoLists(w.promises[t])
    ensures Resolve(w, t, Default).1 == Normal
  {
    var w1 := MarkSettled(w, t, Resolved, Default, w.promises[t].exn);
    assert Notify(w1, t, OnResolve, OfValue(Default)) == (w1, Normal);
    assert Finish(w1, t).1 == Normal;
    assert Settled(w1, t, OnResolve, OfValue(Default)).1 == Normal;
  }
}
