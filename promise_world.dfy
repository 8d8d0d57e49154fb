/**
 * The state shared by the three promise engines: the pooled generic
 * `Promise<T>` (src/Promise/Impls/Promise.cs), the non-generic `Promise`
 * (src/Promise/Impls/Promise_NoGeneric.cs) and the older `Promise<T>`
 * (src/Promise.cs).
 *
 * All promises, handler lists and combinator closures of one program live
 * in a `World`, keyed by id, so that two promises can hold the same list
 * object and a closure can be shared by several handlers, as in C#.
 * Callbacks are not arbitrary code: a callback is a sequence of `Action`s,
 * each a known effect (resolve, reject or report progress on a promise, a
 * combinator's closure body) or a user callback that may throw. Generics
 * are erased: every promise carries a `Value`, and the non-generic
 * promises carry `Default`.
 */
module PromiseWorld {
  import opened Values

  type Pid = nat   // a promise
  type Lid = nat   // a handler list object
  type Gid = nat   // the variables one combinator's closures capture

  /** Which engine a world runs. */
  datatype Engine =
    | Pooled   // src/Promise/Impls/Promise.cs: pooled promises and pooled handler lists
    | Queued    // src/Promise/Impls/Promise_NoGeneric.cs: handler lists recycled through queues
    | Legacy   // src/Promise.cs: fresh lists, nulled after settlement

  datatype PromiseState = Pending | Resolved | Rejected

  datatype HandlerKind = OnResolve | OnReject | OnProgress

  /** The argument a handler is invoked with. A rejection may carry a null exception. */
  datatype Arg = OfValue(v: Value) | OfExn(e: Option<Exn>) | OfProgress(x: real)

  function ValueOf(a: Arg): Value { if a.OfValue? then a.v else Default }
  function ExnOf(a: Arg): Option<Exn> { if a.OfExn? then a.e else None }
  function ProgressOf(a: Arg): real { if a.OfProgress? then a.x else 0.0 }

  /** A closure that returns a promise (the non-generic engine's `Func<IPromise>`). */
  datatype Producer =
    | CountDown(g: Gid, index: nat)       // AllInternal: count input `index` as resolved, yield the result promise
    | SequenceStep(g: Gid, index: nat)    // SequenceInternal: report progress, call factory `index`

  /** One effect of a callback. */
  datatype Action =
    | User(id: nat)                        // user code: logged, and it throws if the environment says so
    | ResolveWith(target: Pid)             // target.Resolve(value)
    | ResolveEmpty(target: Pid)            // target.Resolve() of a non-generic promise
    | RejectWith(target: Pid)              // target.Reject(exception)
    | ProgressTo(target: Pid)              // target.ReportProgress(progress)
    | Chain(producer: Producer, target: Pid)
                                           // Then(Func<IPromise>): chain the produced promise into target
    | ReportMean(g: Gid, index: nat)       // All/Any progress: store, report the mean while pending
    | ReportMax(g: Gid, index: nat)        // Race progress as written in the pooled and non-generic engines
    | ReportMaxGuarded(g: Gid, index: nat) // Race progress guarded by the result's state
    | Collect(g: Gid, index: nat)          // All: store the value, count down, resolve with the array
    | AnyResolved(g: Gid, index: nat)      // Any: report 1, resolve while pending
    | AnyRejected(g: Gid, index: nat)      // Any: count down, reject with the group exception at zero
    | ResolveIfPending(g: Gid)             // Race: resolve while pending
    | RejectIfPending(g: Gid)              // All/Race: reject while pending
    | ReportSlice(g: Gid, index: nat)      // First/Sequence: report (index + progress) / count
    | FirstRetry(g: Gid, index: nat, next: Pid)
                                           // First: report, call factory `index`, chain it into `next`
    | FirstGiveUp(g: Gid)                  // First: report 1 and reject

  /** Actions that register further handlers rank above those that only settle or report. */
  function Rank(a: Action): nat
  {
    if a.Chain? || a.FirstRetry? then 2 else 0
  }

  function OptRank(a: Option<Action>): nat
  {
    if a.Some? then Rank(a.value) else 0
  }

  /** A queued handler: its callback and the promise its exceptions are routed to. */
  datatype Handler = Handler(callback: seq<Action>, rejectable: Pid)

  /**
   * One promise: its state, value and exception, its three handler list
   * fields (null or a list object), the await continuation stored by
   * OnCompleted (pooled engine), and its IsRecycled flag (pooled engine).
   */
  datatype PromiseRec = PromiseRec(
    state: PromiseState,
    value: Value,
    exn: Option<Exn>,
    resolves: Option<Lid>,
    rejects: Option<Lid>,
    progresses: Option<Lid>,
    continuation: Option<nat>,
    recycled: bool)

  /**
   * The variables a combinator's closures capture: the result promise, the
   * remaining count, the result, progress and exception arrays, and for
   * First and Sequence the running count of factories and the factories.
   */
  datatype Captures = Captures(
    result: Pid,
    remaining: int,
    results: seq<Value>,
    progress: seq<real>,
    slots: seq<Option<Exn>>,
    count: nat,
    factories: seq<nat>)

  /** What user code does: which callbacks throw, and what each promise factory yields. */
  datatype Env = Env(throws: map<nat, Exn>, factories: map<nat, Outcome<Pid>>)

  /** Observable effects, in order: user callbacks run, continuations run, factories called. */
  datatype Event = Called(id: nat, arg: Arg) | Resumed(k: nat) | Produced(factory: nat)

  /**
   * The heap of one engine. `next` is the next fresh id (promises, lists
   * and groups share it); `gas` bounds the number of handler invocations,
   * so that every chain of callbacks terminates.
   */
  datatype World = World(
    engine: Engine,
    env: Env,
    promises: map<Pid, PromiseRec>,
    lists: map<Lid, seq<Handler>>,
    resolvePool: seq<Lid>,
    rejectPool: seq<Lid>,
    progressPool: seq<Lid>,
    recycledLists: set<Lid>,
    promisePool: seq<Pid>,
    groups: map<Gid, Captures>,
    sharedResolved: Pid,
    log: seq<Event>,
    next: nat,
    gas: nat)

  /** How an operation ended: normally, with an exception, or out of gas (caught by nothing). */
  datatype Flow = Normal | Thrown(e: Exn) | Exhausted

  /**
   * A world with no promises yet, except for the non-generic engine's
   * static `ResolvedPromise`, created resolved.
   */
  function Initial(engine: Engine, env: Env, gas: nat): (w: World)
    ensures Good(w) && w.engine == engine && w.env == env && w.gas == gas && w.log == []
    ensures engine == Queued ==> w.promises == map[w.sharedResolved := PromiseRec(Resolved, Default, None, None, None, None, None, false)]
    ensures engine != Queued ==> w.promises == map[]
  {
    var statics := if engine == Queued then map[0 := PromiseRec(Resolved, Default, None, None, None, None, None, false)] else map[];
    World(engine, env, statics, map[], [], [], [], {}, [], map[], 0, [], 1, gas)
  }

  /** The exception a call on a promise in the wrong state throws. */
  function StateError(e: Engine, code: StateCode): Exn
  {
    if e == Legacy then PromiseStateError(code) else InvalidState(code)
  }

  /** Every id in use is below `next`. */
  ghost predicate Good(w: World)
  {
    && (forall p :: p in w.promises ==> p < w.next && ListsBelow(w.promises[p], w.next))
    && (forall l :: l in w.lists ==> l < w.next)
    && (forall g :: g in w.groups ==> g < w.next)
  }

  /** The list objects a promise's fields hold are ids in use. */
  predicate ListsBelow(r: PromiseRec, next: nat)
  {
    && (r.resolves.Some? ==> r.resolves.value < next)
    && (r.rejects.Some? ==> r.rejects.value < next)
    && (r.progresses.Some? ==> r.progresses.value < next)
  }

  predicate SameSettlement(a: PromiseRec, b: PromiseRec)
  {
    a.state == b.state && a.value == b.value && a.exn == b.exn
  }

  /**
   * What every step of an engine preserves: the engine and environment,
   * no id is forgotten, the log only grows, gas only shrinks, and a
   * settled promise keeps its state, value and exception.
   */
  ghost predicate Keeps(w: World, w': World)
  {
    && w'.engine == w.engine && w'.env == w.env && w'.sharedResolved == w.sharedResolved
    && w'.gas <= w.gas && w.next <= w'.next
    && w.log <= w'.log
    && w.promises.Keys <= w'.promises.Keys
    && w.groups.Keys <= w'.groups.Keys
    && (forall p :: p in w.promises && w.promises[p].state != Pending ==>
          p in w'.promises && SameSettlement(w.promises[p], w'.promises[p]))
  }

  lemma KeepsTrans(a: World, b: World, c: World)
    requires Keeps(a, b) && Keeps(b, c)
    ensures Keeps(a, c)
  {
  }

  /**
   * Nothing observable happened between two worlds: no callback ran, no
   * gas was spent, no promise changed its settlement and no closure
   * variable changed; handlers were only added.
   */
  ghost predicate Calm(w: World, w': World)
  {
    && w'.log == w.log && w'.gas == w.gas && w'.groups == w.groups
    && (forall q :: q in w.promises ==> q in w'.promises && SameSettlement(w.promises[q], w'.promises[q]))
    && (forall l :: l in w.lists ==> l in w'.lists && ListAt(w, l) <= ListAt(w', l))
    && (forall q, k :: q in w.promises && ListOf(w.promises[q], k).Some? ==> ListOf(w'.promises[q], k) == ListOf(w.promises[q], k))
  }

  lemma CalmTrans(a: World, b: World, c: World)
    requires Calm(a, b) && Calm(b, c)
    ensures Calm(a, c)
  {
    forall l | l in a.lists
      ensures l in c.lists && ListAt(a, l) <= ListAt(c, l)
    {
      assert ListAt(a, l) <= ListAt(b, l) <= ListAt(c, l);
    }
  }

  /** Between calm worlds, the handlers queued on a promise are only ever extended. */
  lemma CalmKeepsHandlers(w: World, w': World, p: Pid, k: HandlerKind)
    requires Calm(w, w')
    ensures HandlersOf(w, p, k) <= HandlersOf(w', p, k)
  {
    if p in w.promises && ListOf(w.promises[p], k).Some? {
      var l := ListOf(w.promises[p], k).value;
      assert ListOf(w'.promises[p], k) == Some(l);
      if l in w.lists {
        assert ListAt(w, l) <= ListAt(w', l);
      }
    }
  }

  /** Settles a pending promise: its state, and its value or exception. */
  function MarkSettled(w: World, p: Pid, state: PromiseState, v: Value, e: Option<Exn>): (r: World)
    requires Good(w) && IsPending(w, p)
    ensures Good(r) && Keeps(w, r)
    ensures p in r.promises && r.promises[p].state == state && r.promises[p].value == v && r.promises[p].exn == e
    ensures r.log == w.log && r.gas == w.gas
  {
    w.(promises := w.promises[p := w.promises[p].(state := state, value := v, exn := e)])
  }

  predicate IsPending(w: World, p: Pid)
  {
    p in w.promises && w.promises[p].state == Pending
  }

  function ListOf(r: PromiseRec, kind: HandlerKind): Option<Lid>
  {
    match kind
    case OnResolve => r.resolves
    case OnReject => r.rejects
    case OnProgress => r.progresses
  }

  function WithList(r: PromiseRec, kind: HandlerKind, l: Option<Lid>): (r': PromiseRec)
    ensures ListOf(r', kind) == l && SameSettlement(r, r')
    ensures forall k :: k != kind ==> ListOf(r', k) == ListOf(r, k)
  {
    match kind
    case OnResolve => r.(resolves := l)
    case OnReject => r.(rejects := l)
    case OnProgress => r.(progresses := l)
  }

  function ListAt(w: World, l: Lid): seq<Handler>
  {
    if l in w.lists then w.lists[l] else []
  }

  /** The handlers queued on `p` for `kind`, as its list field currently shows them. */
  function HandlersOf(w: World, p: Pid, kind: HandlerKind): seq<Handler>
  {
    if p in w.promises && ListOf(w.promises[p], kind).Some? then ListAt(w, ListOf(w.promises[p], kind).value) else []
  }

  function PoolOf(w: World, kind: HandlerKind): seq<Lid>
  {
    match kind
    case OnResolve => w.resolvePool
    case OnReject => w.rejectPool
    case OnProgress => w.progressPool
  }

  function WithPool(w: World, kind: HandlerKind, s: seq<Lid>): (r: World)
    ensures PoolOf(r, kind) == s
    ensures r == w.(resolvePool := r.resolvePool, rejectPool := r.rejectPool, progressPool := r.progressPool)
    ensures forall k :: k != kind ==> PoolOf(r, k) == PoolOf(w, k)
  {
    match kind
    case OnResolve => w.(resolvePool := s)
    case OnReject => w.(rejectPool := s)
    case OnProgress => w.(progressPool := s)
  }

  /**
   * A new promise in the given state. The older engine's constructor also
   * creates its (empty) handler lists.
   */
  function NewPromise(w: World, state: PromiseState, value: Value, exn: Option<Exn>): (r: (World, Pid))
    requires Good(w)
    ensures Good(r.0) && Keeps(w, r.0)
    ensures r.1 == w.next && r.1 !in w.promises && r.1 in r.0.promises
    ensures var rec := r.0.promises[r.1];
            rec.state == state && rec.value == value && rec.exn == exn && rec.continuation == None && !rec.recycled
    ensures forall k :: HandlersOf(r.0, r.1, k) == []
    ensures r.0.promises == w.promises[r.1 := r.0.promises[r.1]] && r.0.log == w.log && r.0.gas == w.gas
    ensures r.0.groups == w.groups
    ensures forall q, k :: q in w.promises ==> HandlersOf(r.0, q, k) == HandlersOf(w, q, k)
    ensures forall l :: l in w.lists ==> l in r.0.lists && r.0.lists[l] == w.lists[l]
    ensures r.0.resolvePool == w.resolvePool && r.0.rejectPool == w.rejectPool && r.0.progressPool == w.progressPool
    ensures w.engine != Legacy ==> NoLists(r.0.promises[r.1])
  {
    if w.engine == Legacy then NewListed(w, state, value, exn) else NewBare(w, state, value, exn)
  }

  /** The older engine's new promise, with its three fresh lists. */
  function NewListed(w: World, state: PromiseState, value: Value, exn: Option<Exn>): (r: (World, Pid))
    requires Good(w)
    ensures Good(r.0) && Keeps(w, r.0)
    ensures r.1 == w.next && r.1 !in w.promises && r.1 in r.0.promises
    ensures var rec := r.0.promises[r.1];
            rec.state == state && rec.value == value && rec.exn == exn && rec.continuation == None && !rec.recycled
    ensures forall k :: HandlersOf(r.0, r.1, k) == []
    ensures r.0.promises == w.promises[r.1 := r.0.promises[r.1]] && r.0.log == w.log && r.0.gas == w.gas
    ensures r.0.groups == w.groups
    ensures forall q, k :: q in w.promises ==> HandlersOf(r.0, q, k) == HandlersOf(w, q, k)
    ensures forall l :: l in w.lists ==> l in r.0.lists && r.0.lists[l] == w.lists[l]
    ensures r.0.resolvePool == w.resolvePool && r.0.rejectPool == w.rejectPool && r.0.progressPool == w.progressPool
  {
    var id := w.next;
    var rec := PromiseRec(state, value, exn, Some(id + 1), Some(id + 2), Some(id + 3), None, false);
    (w.(promises := w.promises[id := rec], lists := w.lists[id + 1 := []][id + 2 := []][id + 3 := []], next := id + 4), id)
  }

  /** A new promise of the pooled engines, whose list fields start null. */
  function NewBare(w: World, state: PromiseState, value: Value, exn: Option<Exn>): (r: (World, Pid))
    requires Good(w)
    ensures Good(r.0) && Keeps(w, r.0)
    ensures r.1 == w.next && r.1 !in w.promises && r.1 in r.0.promises
    ensures var rec := r.0.promises[r.1];
            rec.state == state && rec.value == value && rec.exn == exn && rec.continuation == None && !rec.recycled
    ensures forall k :: HandlersOf(r.0, r.1, k) == []
    ensures r.0.promises == w.promises[r.1 := r.0.promises[r.1]] && r.0.log == w.log && r.0.gas == w.gas
    ensures r.0.groups == w.groups
    ensures forall q, k :: q in w.promises ==> HandlersOf(r.0, q, k) == HandlersOf(w, q, k)
    ensures forall l :: l in w.lists ==> l in r.0.lists && r.0.lists[l] == w.lists[l]
    ensures r.0.resolvePool == w.resolvePool && r.0.rejectPool == w.rejectPool && r.0.progressPool == w.progressPool
    ensures NoLists(r.0.promises[r.1])
  {
    var id := w.next;
    var rec := PromiseRec(state, value, exn, None, None, None, None, false);
    (w.(promises := w.promises[id := rec], next := id + 1), id)
  }

  lemma NewPromiseCalm(w: World, state: PromiseState, value: Value, exn: Option<Exn>)
    requires Good(w)
    ensures Calm(w, NewPromise(w, state, value, exn).0)
  {
    var r := NewPromise(w, state, value, exn);
    forall l | l in w.lists
      ensures l in r.0.lists && ListAt(w, l) <= ListAt(r.0, l)
    {
      assert r.0.lists[l] == w.lists[l];
    }
  }

  /** A new combinator closure environment. */
  function NewGroup(w: World, gr: Captures): (r: (World, Gid))
    requires Good(w)
    ensures Good(r.0) && Keeps(w, r.0)
    ensures r.1 !in w.groups && r.0.groups == w.groups[r.1 := gr]
    ensures r.0.promises == w.promises && r.0.lists == w.lists && r.0.log == w.log && r.0.gas == w.gas
  {
    (w.(groups := w.groups[w.next := gr], next := w.next + 1), w.next)
  }

  /**
   * A list object for a promise whose field is null: the pooled engine
   * pops one from its ReusablePool (clearing IsRecycled), the non-generic
   * one dequeues one from its Queue, and otherwise a new list is made.
   */
  function TakeList(w: World, kind: HandlerKind): (r: (World, Lid))
    requires Good(w)
    ensures Good(r.0) && Keeps(w, r.0)
    ensures r.0.promises == w.promises && r.0.log == w.log && r.0.gas == w.gas && r.0.groups == w.groups
    ensures forall l :: l in w.lists ==> l in r.0.lists && r.0.lists[l] == w.lists[l]
    ensures r.1 in r.0.lists
    ensures w.engine == Legacy || PoolOf(w, kind) == [] ==>
              r.1 == w.next && r.0.lists == w.lists[w.next := []] && r.0.next == w.next + 1
              && r.0.resolvePool == w.resolvePool && r.0.rejectPool == w.rejectPool && r.0.progressPool == w.progressPool
    ensures forall l :: l in w.lists && l != r.1 ==> l in r.0.lists && r.0.lists[l] == w.lists[l]
  {
    if w.engine != Legacy && |PoolOf(w, kind)| > 0 then TakePooled(w, kind)
    else (w.(lists := w.lists[w.next := []], next := w.next + 1), w.next)
  }

  /** TakeList when the pool has a list: its first one, which (pooled engine) is no longer marked recycled. */
  function TakePooled(w: World, kind: HandlerKind): (r: (World, Lid))
    requires Good(w) && |PoolOf(w, kind)| > 0
    ensures Good(r.0) && Keeps(w, r.0)
    ensures r.0.promises == w.promises && r.0.log == w.log && r.0.gas == w.gas && r.0.groups == w.groups
    ensures forall l :: l in w.lists ==> l in r.0.lists && r.0.lists[l] == w.lists[l]
    ensures r.1 == PoolOf(w, kind)[0] && r.1 in r.0.lists
  {
    var pool := PoolOf(w, kind);
    var l := pool[0];
    var w1 := WithPool(w, kind, pool[1..]);
    var w2 := if w.engine == Pooled then w1.(recycledLists := w1.recycledLists - {l}) else w1;
    if l in w2.lists then (w2, l) else (w2.(lists := w2.lists[l := []], next := if l < w2.next then w2.next else l + 1), l)
  }

  /**
   * AddResolveHandler / AddRejectHandler / AddProgressHandler: append to
   * the list object the field holds, taking one first if it is null. (The
   * older engine's resolve list stands for its two parallel lists of
   * callbacks and rejectables, which it always appends to together.)
   */
  function AddHandler(w: World, p: Pid, kind: HandlerKind, h: Handler): (r: World)
    requires Good(w) && p in w.promises
    ensures Good(r) && Keeps(w, r)
    ensures r.promises.Keys == w.promises.Keys && r.log == w.log && r.gas == w.gas && r.groups == w.groups
    ensures forall q :: q in w.promises ==> SameSettlement(w.promises[q], r.promises[q])
    ensures ListOf(w.promises[p], kind).Some? ==> HandlersOf(r, p, kind) == HandlersOf(w, p, kind) + [h]
    ensures ListOf(r.promises[p], kind).Some? && |HandlersOf(r, p, kind)| > 0 && HandlersOf(r, p, kind)[|HandlersOf(r, p, kind)| - 1] == h
    ensures forall k :: k != kind ==> ListOf(r.promises[p], k) == ListOf(w.promises[p], k)
    ensures forall q :: q in w.promises && q != p ==> r.promises[q] == w.promises[q]
    ensures forall l :: l in w.lists ==> l in r.lists && ListAt(w, l) <= ListAt(r, l)
    ensures ListOf(w.promises[p], kind).Some? ==> r.promises[p] == w.promises[p]
    ensures w.engine == Legacy || PoolOf(w, kind) == [] ==>
              r.resolvePool == w.resolvePool && r.rejectPool == w.rejectPool && r.progressPool == w.progressPool
    ensures ListOf(w.promises[p], kind).None? && (w.engine == Legacy || PoolOf(w, kind) == []) ==>
              ListOf(r.promises[p], kind) == Some(w.next) && HandlersOf(r, p, kind) == [h]
    ensures forall l :: l in w.lists && Some(l) != ListOf(r.promises[p], kind) ==> l in r.lists && ListAt(r, l) == ListAt(w, l)
  {
    if ListOf(w.promises[p], kind).Some? then AppendHandler(w, p, kind, h) else AttachHandler(w, p, kind, h)
  }

  /** AddHandler when the field already holds a list: the handler is appended to it. */
  function AppendHandler(w: World, p: Pid, kind: HandlerKind, h: Handler): (r: World)
    requires Good(w) && p in w.promises && ListOf(w.promises[p], kind).Some?
    ensures Good(r) && Keeps(w, r)
    ensures r.promises == w.promises && r.log == w.log && r.gas == w.gas && r.groups == w.groups
    ensures HandlersOf(r, p, kind) == HandlersOf(w, p, kind) + [h]
    ensures forall l :: l in w.lists ==> l in r.lists && ListAt(w, l) <= ListAt(r, l)
  {
    var l := ListOf(w.promises[p], kind).value;
    w.(lists := w.lists[l := ListAt(w, l) + [h]])
  }

  /** AddHandler when the field is null: a list is taken (from the pool or new), stored in the field, and given the handler. */
  function AttachHandler(w: World, p: Pid, kind: HandlerKind, h: Handler): (r: World)
    requires Good(w) && p in w.promises && ListOf(w.promises[p], kind).None?
    ensures Good(r) && Keeps(w, r)
    ensures r.promises.Keys == w.promises.Keys && r.log == w.log && r.gas == w.gas && r.groups == w.groups
    ensures forall q :: q in w.promises ==> SameSettlement(w.promises[q], r.promises[q])
    ensures ListOf(r.promises[p], kind).Some? && |HandlersOf(r, p, kind)| > 0 && HandlersOf(r, p, kind)[|HandlersOf(r, p, kind)| - 1] == h
    ensures forall k :: k != kind ==> ListOf(r.promises[p], k) == ListOf(w.promises[p], k)
    ensures forall q :: q in w.promises && q != p ==> r.promises[q] == w.promises[q]
    ensures forall l :: l in w.lists ==> l in r.lists && ListAt(w, l) <= ListAt(r, l)
    ensures w.engine == Legacy || PoolOf(w, kind) == [] ==>
              r.resolvePool == w.resolvePool && r.rejectPool == w.rejectPool && r.progressPool == w.progressPool
              && ListOf(r.promises[p], kind) == Some(w.next) && HandlersOf(r, p, kind) == [h]
    ensures forall l :: l in w.lists && Some(l) != ListOf(r.promises[p], kind) ==> l in r.lists && ListAt(r, l) == ListAt(w, l)
  {
    AttachedKeeps(w, p, kind, h);
    AttachedLists(w, p, kind, h);
    Attached(w, p, kind, h)
  }

  /** The world AttachHandler returns: the list TakeList hands out goes into `p`'s field and gets `h`. */
  function Attached(w: World, p: Pid, kind: HandlerKind, h: Handler): World
    requires Good(w) && p in w.promises
  {
    var (w1, l) := TakeList(w, kind);
    w1.(promises := w1.promises[p := WithList(w.promises[p], kind, Some(l))], lists := w1.lists[l := ListAt(w1, l) + [h]])
  }

  /** Attaching keeps every promise's settlement and changes only `p`'s `kind` field. */
  lemma AttachedKeeps(w: World, p: Pid, kind: HandlerKind, h: Handler)
    requires Good(w) && p in w.promises && ListOf(w.promises[p], kind).None?
    ensures var r := Attached(w, p, kind, h);
            && Good(r) && Keeps(w, r)
            && r.promises.Keys == w.promises.Keys && r.log == w.log && r.gas == w.gas && r.groups == w.groups
            && (forall q :: q in w.promises ==> SameSettlement(w.promises[q], r.promises[q]))
            && (forall k :: k != kind ==> ListOf(r.promises[p], k) == ListOf(w.promises[p], k))
            && (forall q :: q in w.promises && q != p ==> r.promises[q] == w.promises[q])
  {
  }

  /** Attaching puts `h` last on the list now in `p`'s field and leaves every other list as it was. */
  lemma AttachedLists(w: World, p: Pid, kind: HandlerKind, h: Handler)
    requires Good(w) && p in w.promises && ListOf(w.promises[p], kind).None?
    ensures var r := Attached(w, p, kind, h);
            && ListOf(r.promises[p], kind).Some? && |HandlersOf(r, p, kind)| > 0 && HandlersOf(r, p, kind)[|HandlersOf(r, p, kind)| - 1] == h
            && (forall l :: l in w.lists ==> l in r.lists && ListAt(w, l) <= ListAt(r, l))
            && (w.engine == Legacy || PoolOf(w, kind) == [] ==>
                  r.resolvePool == w.resolvePool && r.rejectPool == w.rejectPool && r.progressPool == w.progressPool
                  && ListOf(r.promises[p], kind) == Some(w.next) && HandlersOf(r, p, kind) == [h])
            && (forall l :: l in w.lists && Some(l) != ListOf(r.promises[p], kind) ==> l in r.lists && ListAt(r, l) == ListAt(w, l))
  {
  }

  lemma AddHandlerCalm(w: World, p: Pid, kind: HandlerKind, h: Handler)
    requires Good(w) && p in w.promises
    ensures Calm(w, AddHandler(w, p, kind, h))
  {
    var r := AddHandler(w, p, kind, h);
    forall q, k | q in w.promises && ListOf(w.promises[q], k).Some?
      ensures ListOf(r.promises[q], k) == ListOf(w.promises[q], k)
    {
      if q == p && k == kind {
        assert r.promises[p] == w.promises[p];
      }
    }
  }

  /** ProgressHandlers: a progress handler is added only while the promise is pending. */
  function ProgressHandlers(w: World, p: Pid, h: Handler): (r: World)
    requires Good(w)
    ensures Good(r) && Keeps(w, r)
    ensures r.promises.Keys == w.promises.Keys && r.log == w.log && r.gas == w.gas && r.groups == w.groups
    ensures forall q :: q in w.promises ==> SameSettlement(w.promises[q], r.promises[q])
    ensures !IsPending(w, p) ==> r == w
    ensures Calm(w, r)
  {
    if IsPending(w, p) then AddHandlerCalm(w, p, OnProgress, h); AddHandler(w, p, OnProgress, h) else w
  }

  /**
   * TryPush of a handler list into its pool: the pooled engine's
   * ReusablePool throws if the list is already recycled and otherwise
   * pushes it on top; the non-generic engine's Queue enqueues it at the
   * back without any check.
   */
  function PushList(w: World, kind: HandlerKind, l: Lid): (r: (World, Flow))
    requires Good(w)
    ensures Good(r.0) && Keeps(w, r.0)
    ensures r.0.promises == w.promises && r.0.lists == w.lists && r.0.log == w.log && r.0.gas == w.gas && r.0.groups == w.groups
    ensures r.0.next == w.next
    ensures r.1 == Normal || r.1 == Thrown(ItemAlreadyRecycled)
    ensures r.1 == Thrown(ItemAlreadyRecycled) <==> w.engine == Pooled && l in w.recycledLists
    ensures r.0.promisePool == w.promisePool
    ensures r.1 == Normal && w.engine == Pooled ==> r.0.recycledLists == w.recycledLists + {l}
  {
    if w.engine == Pooled then
      if l in w.recycledLists then (w, Thrown(ItemAlreadyRecycled))
      else (WithPool(w, kind, [l] + PoolOf(w, kind)).(recycledLists := w.recycledLists + {l}), Normal)
    else
      (WithPool(w, kind, PoolOf(w, kind) + [l]), Normal)
  }

  function ClearList(w: World, l: Option<Lid>): (r: World)
    requires Good(w)
    ensures Good(r) && Keeps(w, r)
    ensures r.promises == w.promises && r.log == w.log && r.gas == w.gas && r.groups == w.groups && r.next == w.next
    ensures l.Some? ==> ListAt(r, l.value) == []
    ensures r.recycledLists == w.recycledLists && r.promisePool == w.promisePool
    ensures r.resolvePool == w.resolvePool && r.rejectPool == w.rejectPool && r.progressPool == w.progressPool
    ensures forall m :: m in w.lists && Some(m) != l ==> m in r.lists && r.lists[m] == w.lists[m]
  {
    if l.Some? && l.value in w.lists then w.(lists := w.lists[l.value := []]) else w
  }

  function PushIfSome(w: World, kind: HandlerKind, l: Option<Lid>): (r: (World, Flow))
    requires Good(w)
    ensures Good(r.0) && Keeps(w, r.0)
    ensures r.0.promises == w.promises && r.0.lists == w.lists && r.0.log == w.log && r.0.gas == w.gas && r.0.groups == w.groups
    ensures r.0.next == w.next
    ensures r.1 == Normal || r.1 == Thrown(ItemAlreadyRecycled)
  {
    if l.Some? then PushList(w, kind, l.value) else (w, Normal)
  }

  /**
   * ClearHandlers, with `nullAll` telling whether every list field is set
   * to null afterwards.
   *   - Older engine: all four fields become null.
   *   - Non-generic engine: the three lists are emptied and enqueued; as
   *     written the fields keep pointing at them (`nullAll` false).
   *   - Pooled engine: the lists are emptied and pushed one by one (a push
   *     of a recycled list throws, and the rest is skipped); then the
   *     reject and resolve fields become null, and as written the progress
   *     field does not (`nullAll` false).
   */
  function Clear(w: World, p: Pid, nullAll: bool): (r: (World, Flow))
    requires Good(w)
    ensures Good(r.0) && Keeps(w, r.0)
    ensures r.0.promises.Keys == w.promises.Keys && r.0.log == w.log && r.0.gas == w.gas && r.0.groups == w.groups
    ensures forall q :: q in w.promises ==> SameSettlement(w.promises[q], r.0.promises[q])
    ensures r.1 == Normal || r.1 == Thrown(ItemAlreadyRecycled)
    ensures w.engine != Pooled ==> r.1 == Normal
    ensures r.1.Normal? && p in w.promises && (nullAll || w.engine == Legacy) ==> NoLists(r.0.promises[p])
    ensures p in w.promises ==> r.0.promises[p].continuation == w.promises[p].continuation
  {
    if p !in w.promises then (w, Normal)
    else if w.engine == Legacy then (SetRec(w, p, Unlisted(w.promises[p])), Normal)
    else ClearAndPush(w, p, nullAll)
  }

  function Unlisted(rec: PromiseRec): (r: PromiseRec)
    ensures NoLists(r) && SameSettlement(rec, r) && ListsBelow(r, 0) && r.continuation == rec.continuation
  {
    rec.(resolves := None, rejects := None, progresses := None)
  }

  function ClearAndPush(w: World, p: Pid, nullAll: bool): (r: (World, Flow))
    requires Good(w) && p in w.promises && w.engine != Legacy
    ensures Good(r.0) && Keeps(w, r.0)
    ensures r.0.promises.Keys == w.promises.Keys && r.0.log == w.log && r.0.gas == w.gas && r.0.groups == w.groups
    ensures forall q :: q in w.promises ==> SameSettlement(w.promises[q], r.0.promises[q])
    ensures r.1 == Normal || r.1 == Thrown(ItemAlreadyRecycled)
    ensures w.engine != Pooled ==> r.1 == Normal
    ensures r.1.Normal? && nullAll ==> NoLists(r.0.promises[p])
    ensures r.0.promises[p].continuation == w.promises[p].continuation
  {
    var rec := w.promises[p];
    var (w1, f) := PushAll(ClearLists(w, rec), rec);
    if !f.Normal? then (w1, f)
    else if nullAll then (SetRec(w1, p, Unlisted(rec)), Normal)
    else if w.engine == Pooled then (SetRec(w1, p, rec.(resolves := None, rejects := None)), Normal)
    else (w1, Normal)
  }

  /** Replaces a promise's list fields, keeping its settlement. */
  function SetRec(w: World, p: Pid, rec: PromiseRec): (r: World)
    requires Good(w) && p in w.promises && SameSettlement(w.promises[p], rec) && ListsBelow(rec, w.next)
    ensures Good(r) && Keeps(w, r)
    ensures r.promises == w.promises[p := rec] && r.log == w.log && r.gas == w.gas && r.groups == w.groups
    ensures forall q :: q in w.promises ==> SameSettlement(w.promises[q], r.promises[q])
  {
    w.(promises := w.promises[p := rec])
  }

  /** Empties the three lists a promise holds. */
  function ClearLists(w: World, rec: PromiseRec): (r: World)
    requires Good(w)
    ensures Good(r) && Keeps(w, r) && r.next == w.next
    ensures r.promises == w.promises && r.log == w.log && r.gas == w.gas && r.groups == w.groups
    ensures r.recycledLists == w.recycledLists && r.promisePool == w.promisePool
    ensures r.resolvePool == w.resolvePool && r.rejectPool == w.rejectPool && r.progressPool == w.progressPool
    ensures forall k :: ListOf(rec, k).Some? ==> ListAt(r, ListOf(rec, k).value) == []
  {
    ClearList(ClearList(ClearList(w, rec.rejects), rec.resolves), rec.progresses)
  }

  predicate NoLists(r: PromiseRec)
  {
    r.resolves.None? && r.rejects.None? && r.progresses.None?
  }

  /** Pushes a promise's three lists in order, stopping at the first throw. */
  function PushAll(w: World, rec: PromiseRec): (r: (World, Flow))
    requires Good(w)
    ensures Good(r.0) && Keeps(w, r.0)
    ensures r.0.promises == w.promises && r.0.lists == w.lists && r.0.log == w.log && r.0.gas == w.gas && r.0.groups == w.groups
    ensures r.0.next == w.next
    ensures r.1 == Normal || r.1 == Thrown(ItemAlreadyRecycled)
    ensures w.engine != Pooled ==> r.1 == Normal
  {
    var (w2, f2) := PushIfSome(w, OnResolve, rec.resolves);
    if !f2.Normal? then (w2, f2) else
    var (w3, f3) := PushIfSome(w2, OnReject, rec.rejects);
    if !f3.Normal? then (w3, f3) else
    PushIfSome(w3, OnProgress, rec.progresses)
  }

  /** ClearHandlers as evidently intended: every field is nulled. */
  function ClearHandlers(w: World, p: Pid): (r: (World, Flow))
    requires Good(w)
    ensures Good(r.0) && Keeps(w, r.0)
    ensures r.0.promises.Keys == w.promises.Keys && r.0.log == w.log && r.0.gas == w.gas && r.0.groups == w.groups
    ensures forall q :: q in w.promises ==> SameSettlement(w.promises[q], r.0.promises[q])
    ensures r.1 == Normal || r.1 == Thrown(ItemAlreadyRecycled)
    ensures r.1.Normal? && p in w.promises ==> forall k :: HandlersOf(r.0, p, k) == []
    ensures w.engine != Pooled ==> r.1 == Normal
    ensures p in w.promises ==> r.0.promises[p].continuation == w.promises[p].continuation
  {
    Clear(w, p, true)
  }

  /**
   * ClearHandlers as written, which is what the engines run: every list
   * the promise holds is emptied and pooled, but the pooled engine keeps
   * its progress field and the non-generic engine keeps all three fields.
   */
  function ClearHandlersAsWritten(w: World, p: Pid): (r: (World, Flow))
    requires Good(w)
    ensures Good(r.0) && Keeps(w, r.0)
    ensures r.0.promises.Keys == w.promises.Keys && r.0.log == w.log && r.0.gas == w.gas && r.0.groups == w.groups
    ensures forall q :: q in w.promises ==> SameSettlement(w.promises[q], r.0.promises[q])
    ensures r.1 == Normal || r.1 == Thrown(ItemAlreadyRecycled)
    ensures p in w.promises ==> forall k :: HandlersOf(r.0, p, k) == []
    ensures w.engine != Pooled ==> r.1 == Normal
    ensures p in w.promises ==> r.0.promises[p].continuation == w.promises[p].continuation
    ensures p in w.promises && w.engine == Legacy ==> NoLists(r.0.promises[p])
    ensures p in w.promises && w.engine == Queued ==>
              r.0.promises[p].resolves == w.promises[p].resolves && r.0.promises[p].rejects == w.promises[p].rejects
              && r.0.promises[p].progresses == w.promises[p].progresses
    ensures p in w.promises && w.engine == Pooled && r.1.Normal? ==>
              r.0.promises[p].progresses == w.promises[p].progresses
              && r.0.promises[p].resolves.None? && r.0.promises[p].rejects.None?
  {
    ClearedAsWritten(w, p);
    Clear(w, p, false)
  }

  /** What clearing as written leaves in the promise's own fields, engine by engine. */
  lemma ClearedAsWritten(w: World, p: Pid)
    requires Good(w)
    ensures p in w.promises ==>
            var r := Clear(w, p, false);
            && (forall k :: HandlersOf(r.0, p, k) == [])
            && (w.engine == Legacy ==> NoLists(r.0.promises[p]))
            && (w.engine == Queued ==> r.0.promises[p] == w.promises[p])
            && (w.engine == Pooled && r.1.Normal? ==> r.0.promises[p] == w.promises[p].(resolves := None, rejects := None))
  {
    if p in w.promises && w.engine != Legacy {
      ClearPushed(w, p);
    }
  }

  lemma ClearPushed(w: World, p: Pid)
    requires Good(w) && p in w.promises && w.engine != Legacy
    ensures var r := ClearAndPush(w, p, false);
            && (forall k :: HandlersOf(r.0, p, k) == [])
            && (w.engine == Queued ==> r.0.promises[p] == w.promises[p])
            && (w.engine == Pooled && r.1.Normal? ==> r.0.promises[p] == w.promises[p].(resolves := None, rejects := None))
  {
    var rec := w.promises[p];
    var (w1, f) := PushAll(ClearLists(w, rec), rec);
    if w.engine == Queued || !f.Normal? {
      assert ClearAndPush(w, p, false) == (w1, f);
    } else {
      assert ClearAndPush(w, p, false) == (SetRec(w1, p, rec.(resolves := None, rejects := None)), Normal);
    }
    ClearPushedEmpties(w, p);
  }

  lemma ClearPushedEmpties(w: World, p: Pid)
    requires Good(w) && p in w.promises && w.engine != Legacy
    ensures forall k :: HandlersOf(ClearAndPush(w, p, false).0, p, k) == []
  {
    var rec := w.promises[p];
    var (w1, f) := PushAll(ClearLists(w, rec), rec);
    var w2 := if w.engine == Queued || !f.Normal? then w1 else SetRec(w1, p, rec.(resolves := None, rejects := None));
    assert ClearAndPush(w, p, false).0 == w2;
    forall k
      ensures HandlersOf(w2, p, k) == []
    {
      PushedEmpty(w, rec, k);
    }
  }

  /** After the lists are emptied and pushed, each list the record held is empty. */
  lemma PushedEmpty(w: World, rec: PromiseRec, k: HandlerKind)
    requires Good(w)
    ensures ListOf(rec, k).Some? ==> ListAt(PushAll(ClearLists(w, rec), rec).0, ListOf(rec, k).value) == []
  {
  }

  /** The pooled engine runs a stored await continuation (`_rejesterAction?.Invoke()`). */
  function Resume(w: World, p: Pid): (r: World)
    requires Good(w)
    ensures Good(r) && Keeps(w, r)
    ensures r == w.(log := r.log)
    ensures r.log == w.log + (if w.engine == Pooled && p in w.promises && w.promises[p].continuation.Some?
                              then [Resumed(w.promises[p].continuation.value)] else [])
  {
    if w.engine == Pooled && p in w.promises && w.promises[p].continuation.Some? then
      w.(log := w.log + [Resumed(w.promises[p].continuation.value)])
    else w
  }

  /** `s[i] = x` on a C# array whose length the closure was built with. */
  function Put<T>(s: seq<T>, i: nat, x: T): (r: seq<T>)
    ensures |r| == |s|
    ensures forall j :: 0 <= j < |s| ==> r[j] == (if j == i then x else s[j])
  {
    if i < |s| then s[i := x] else s
  }

  function Sum(s: seq<real>): real
  {
    if s == [] then 0.0 else Sum(s[..|s| - 1]) + s[|s| - 1]
  }

  /** `progress.Average()`: the sum divided by the count. */
  function Mean(s: seq<real>): (r: real)
    ensures s == [] ==> r == 0.0
    ensures s != [] ==> r * (|s| as real) == Sum(s)
  {
    if s == [] then 0.0 else Sum(s) / (|s| as real)
  }

  /** `progress.Max()`. */
  function Max(s: seq<real>): (m: real)
    ensures forall j :: 0 <= j < |s| ==> s[j] <= m
    ensures s != [] ==> exists j :: 0 <= j < |s| && s[j] == m
  {
    if s == [] then 0.0
    else if |s| == 1 then s[0]
    else
      var m := Max(s[..|s| - 1]);
      assert forall j :: 0 <= j < |s| - 1 ==> s[..|s| - 1][j] == s[j];
      if s[|s| - 1] > m then s[|s| - 1] else m
  }

  /** `x / count` for the First and Sequence slices (count is at least 1 whenever a closure runs). */
  function Slice(x: real, count: nat): (r: real)
    ensures count == 0 ==> r == 0.0
    ensures count > 0 ==> r * (count as real) == x
  {
    if count == 0 then 0.0 else x / (count as real)
  }

  /** The pooled and older All's resolve closure: progress slot to 1, result slot to the value, one fewer remaining. */
  function CollectStep(gr: Captures, i: nat, v: Value): (r: Captures)
    ensures r.remaining == gr.remaining - 1 && r.slots == gr.slots && r.result == gr.result
    ensures |r.results| == |gr.results| && |r.progress| == |gr.progress|
    ensures forall j :: 0 <= j < |gr.results| ==> r.results[j] == (if j == i then v else gr.results[j])
    ensures forall j :: 0 <= j < |gr.progress| ==> r.progress[j] == (if j == i then 1.0 else gr.progress[j])
  {
    gr.(progress := Put(gr.progress, i, 1.0), results := Put(gr.results, i, v), remaining := gr.remaining - 1)
  }

  /** Any's reject closure: one fewer remaining; the pooled engine also stores the exception in slot `i`. */
  function AnyRejectStep(gr: Captures, i: nat, e: Option<Exn>, fill: bool): (r: Captures)
    ensures r.remaining == gr.remaining - 1 && r.results == gr.results && r.progress == gr.progress && r.result == gr.result
    ensures |r.slots| == |gr.slots|
    ensures forall j :: 0 <= j < |gr.slots| ==> r.slots[j] == (if fill && j == i then e else gr.slots[j])
  {
    gr.(remaining := gr.remaining - 1, slots := if fill then Put(gr.slots, i, e) else gr.slots)
  }

  /** Clearing a promise that holds no list changes nothing, in every engine, as written and corrected. */
  lemma ClearWithoutLists(w: World, p: Pid)
    requires Good(w) && p in w.promises && NoLists(w.promises[p])
    ensures ClearHandlers(w, p) == (w, Normal)
    ensures ClearHandlersAsWritten(w, p) == (w, Normal)
  {
    var rec := w.promises[p];
    assert Unlisted(rec) == rec;
    assert w.promises[p := rec] == w.promises;
    if w.engine != Legacy {
      assert ClearLists(w, rec) == w;
      assert PushAll(w, rec) == (w, Normal);
    }
  }
}
