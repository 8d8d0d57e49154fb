/**
 * The completion-source core embedded in every awaitable source: a
 * versioned slot that is completed at most once per version and hands its
 * result, error or cancellation to at most one awaiting continuation.
 *
 * The core is generic in the continuation type `K`. Whenever the C# code
 * invokes a continuation, it does so as the last step of the operation;
 * the model therefore returns the continuation to run (`Some(k)`) to the
 * caller instead of calling it.
 *
 * The non-generic core is this core with every result `Default`. The
 * single-threaded runtime's copy is this core built with `wrapFaults`
 * set, since it always wraps faults in an exception holder; the
 * multi-threaded core wraps them only in a debug build.
 */
module CompletionCore {
  import opened Values
  import opened TaskStatus

  /** The continuation field: null, a registered continuation, or the completion sentinel. */
  datatype ContSlot<K> = NoContinuation | Registered(k: K) | Sentinel

  /** The error field: null, an OperationCanceledException, or a fault (wrapped in an ExceptionHolder or not). */
  datatype ErrorSlot = NoError | CanceledWith(oce: Exn) | FaultedWith(ex: Exn, holder: bool)

  datatype Core<K> = Core(
    version: int,               // short
    completedCount: nat,
    result: Value,
    error: ErrorSlot,
    hasUnhandledError: bool,
    continuation: ContSlot<K>)

  /** A freshly allocated core: every field zero or null. */
  function Fresh<K>(): Core<K>
  {
    Core(0, 0, Default, NoError, false, NoContinuation)
  }

  /**
   * Nothing is recorded before the first completion, and the sentinel is
   * only ever installed by a completion.
   */
  ghost predicate Inv<K>(c: Core<K>)
  {
    && IsShort(c.version)
    && (c.completedCount == 0 ==> c.continuation != Sentinel && c.error == NoError && !c.hasUnhandledError)
    && (c.completedCount > 0 ==> c.continuation != NoContinuation)
    && (c.error == NoError ==> !c.hasUnhandledError)
  }

  /** An exception thrown through `TrySetException` counts as a cancellation when it is an OperationCanceledException. */
  predicate IsCancellation(e: Exn) { e.OperationCanceled? }

  /** Reset: a new version, and every other field back to null. */
  function CoreReset<K>(c: Core<K>): (r: Core<K>)
    ensures Inv(r)
    ensures r.completedCount == 0 && r.continuation == NoContinuation
    ensures r.version != c.version
  {
    Core(IncShort(c.version), 0, Default, NoError, false, NoContinuation)
  }

  /**
   * The shared tail of every TrySet call: count the attempt; the first one
   * records its payload and either picks up the registered continuation to
   * run it, or installs the sentinel.
   */
  function CoreComplete<K>(c: Core<K>, result: Value, error: ErrorSlot): (Core<K>, bool, Option<K>)
  {
    if c.completedCount != 0 then
      (c.(completedCount := c.completedCount + 1), false, None)
    else
      var c' := c.(completedCount := 1, result := result, error := error,
                   hasUnhandledError := error != NoError);
      match c.continuation
      case NoContinuation => (c'.(continuation := Sentinel), true, None)
      case Registered(k) => (c', true, Some(k))
      case Sentinel => (c', true, None)       // unreachable under Inv
  }

  function CoreTrySetResult<K>(c: Core<K>, v: Value): (Core<K>, bool, Option<K>)
  {
    CoreComplete(c, v, NoError)
  }

  function CoreTrySetException<K>(c: Core<K>, ex: Exn, wrapFaults: bool): (Core<K>, bool, Option<K>)
  {
    CoreComplete(c, c.result, if IsCancellation(ex) then CanceledWith(ex) else FaultedWith(ex, wrapFaults))
  }

  function CoreTrySetCanceled<K>(c: Core<K>, cancellationToken: nat): (Core<K>, bool, Option<K>)
  {
    CoreComplete(c, c.result, CanceledWith(OperationCanceled(cancellationToken)))
  }

  /** UnsafeGetStatus: the status without the version check. */
  function StatusOf<K>(c: Core<K>): PromiseTaskStatus
  {
    if c.continuation == NoContinuation || c.completedCount == 0 then Pending
    else match c.error
      case NoError => Succeeded
      case CanceledWith(_) => Canceled
      case FaultedWith(_, _) => Faulted
  }

  function CoreGetStatus<K>(c: Core<K>, token: int): Outcome<PromiseTaskStatus>
  {
    if token != c.version then Throw(InvalidOperation(TokenMismatch))
    else Return(StatusOf(c))
  }

  /** GetResult: the version check, then the result, or the stored error rethrown (which marks it handled). */
  function CoreGetResult<K>(c: Core<K>, token: int): (Core<K>, Outcome<Value>)
  {
    if token != c.version then (c, Throw(InvalidOperation(TokenMismatch)))
    else if c.completedCount == 0 then (c, Throw(InvalidOperation(NotYetCompleted)))
    else match c.error
      case NoError => (c, Return(c.result))
      case CanceledWith(oce) => (c.(hasUnhandledError := false), Throw(oce))
      case FaultedWith(ex, _) => (c.(hasUnhandledError := false), Throw(ex))
  }

  /**
   * OnCompleted: a null continuation and a stale token are rejected; an
   * empty slot takes the continuation; a sentinel means the core already
   * completed, so the continuation is run at once (returned here); any
   * other registered continuation makes this a second await.
   */
  function CoreOnCompleted<K>(c: Core<K>, k: Option<K>, token: int): (Core<K>, Outcome<Option<K>>)
  {
    if k.None? then (c, Throw(ArgumentNull))
    else if token != c.version then (c, Throw(InvalidOperation(TokenMismatch)))
    else match c.continuation
      case NoContinuation => (c.(continuation := Registered(k.value)), Return(None))
      case Sentinel => (c, Return(Some(k.value)))
      case Registered(_) => (c, Throw(InvalidOperation(AlreadyAwaited)))
  }

  // ---------------------------------------------------------------------
  // Properties of the core
  // ---------------------------------------------------------------------

  /** Every operation keeps the invariant. */
  lemma OperationsKeepInv<K>(c: Core<K>, v: Value, ex: Exn, wrap: bool, tok: nat, k: Option<K>, token: int)
    requires Inv(c)
    ensures Inv(CoreTrySetResult(c, v).0)
    ensures Inv(CoreTrySetException(c, ex, wrap).0)
    ensures Inv(CoreTrySetCanceled(c, tok).0)
    ensures Inv(CoreGetResult(c, token).0)
    ensures Inv(CoreOnCompleted(c, k, token).0)
    ensures Inv(CoreReset(c))
  {
  }

  /** One attempt to complete the core. */
  datatype Attempt = SetResult(v: Value) | SetException(ex: Exn) | SetCanceled(cancellationToken: nat)

  function Attempt1<K>(c: Core<K>, a: Attempt, wrap: bool): (Core<K>, bool, Option<K>)
  {
    match a
    case SetResult(v) => CoreTrySetResult(c, v)
    case SetException(ex) => CoreTrySetException(c, ex, wrap)
    case SetCanceled(t) => CoreTrySetCanceled(c, t)
  }

  /** Runs a sequence of completion attempts and lists which of them returned true. */
  function AttemptAll<K>(c: Core<K>, attempts: seq<Attempt>, wrap: bool): (Core<K>, seq<bool>)
    decreases |attempts|
  {
    if attempts == [] then (c, [])
    else
      var (c1, won, _) := Attempt1(c, attempts[0], wrap);
      var (c2, rest) := AttemptAll(c1, attempts[1..], wrap);
      (c2, [won] + rest)
  }

  /** Once completed, further attempts all fail and leave everything but the counter alone. */
  lemma {:induction false} LateAttemptsLose<K>(c: Core<K>, attempts: seq<Attempt>, wrap: bool)
    requires c.completedCount > 0
    ensures var (c', wins) := AttemptAll(c, attempts, wrap);
            |wins| == |attempts| && (forall i :: 0 <= i < |wins| ==> !wins[i])
            && c' == c.(completedCount := c.completedCount + |attempts|)
    decreases |attempts|
  {
    if attempts != [] {
      var (c1, won, _) := Attempt1(c, attempts[0], wrap);
      LateAttemptsLose(c1, attempts[1..], wrap);
    }
  }

  /**
   * Of any sequence of TrySetResult / TrySetException / TrySetCanceled
   * calls on a pending core, exactly the first returns true, and it alone
   * decides the outcome.
   */
  lemma {:induction false} OnlyFirstCompletionWins<K>(c: Core<K>, attempts: seq<Attempt>, wrap: bool)
    requires Inv(c) && c.completedCount == 0
    requires attempts != []
    ensures var (c', wins) := AttemptAll(c, attempts, wrap);
            |wins| == |attempts| && wins[0]
            && (forall i :: 1 <= i < |wins| ==> !wins[i])
            && c' == Attempt1(c, attempts[0], wrap).0.(completedCount := |attempts|)
  {
    var (c1, won, _) := Attempt1(c, attempts[0], wrap);
    LateAttemptsLose(c1, attempts[1..], wrap);
  }

  /** The status a completion leaves behind, whatever was registered before it. */
  lemma StatusAfterCompletion<K>(c: Core<K>, v: Value, ex: Exn, wrap: bool, tok: nat)
    requires Inv(c) && c.completedCount == 0
    ensures StatusOf(c) == Pending
    ensures StatusOf(CoreTrySetResult(c, v).0) == Succeeded
    ensures StatusOf(CoreTrySetException(c, ex, wrap).0) == (if IsCancellation(ex) then Canceled else Faulted)
    ensures StatusOf(CoreTrySetCanceled(c, tok).0) == Canceled
  {
  }

  /** Pattern A: a continuation registered first is handed back by the completion, exactly once. */
  lemma AwaitThenComplete<K>(c: Core<K>, k: K, a: Attempt, wrap: bool)
    requires Inv(c) && c.completedCount == 0 && c.continuation == NoContinuation
    ensures var (c1, r) := CoreOnCompleted(c, Some(k), c.version);
            r == Return(None)
            && Attempt1(c1, a, wrap).2 == Some(k)
            && CoreOnCompleted(Attempt1(c1, a, wrap).0, Some(k), c.version).1 == Throw(InvalidOperation(AlreadyAwaited))
  {
  }

  /** Pattern B: a continuation registered after the completion runs at once. */
  lemma CompleteThenAwait<K>(c: Core<K>, k: K, a: Attempt, wrap: bool)
    requires Inv(c) && c.completedCount == 0 && c.continuation == NoContinuation
    ensures Attempt1(c, a, wrap).2 == None
    ensures CoreOnCompleted(Attempt1(c, a, wrap).0, Some(k), c.version).1 == Return(Some(k))
  {
  }

  /** A core can be awaited once: a second registration before completion is refused and changes nothing. */
  lemma AwaitTwiceFails<K>(c: Core<K>, k1: K, k2: K)
    requires Inv(c) && c.completedCount == 0 && c.continuation == NoContinuation
    ensures var c1 := CoreOnCompleted(c, Some(k1), c.version).0;
            CoreOnCompleted(c1, Some(k2), c.version) == (c1, Throw(InvalidOperation(AlreadyAwaited)))
  {
  }

  /** GetResult after completion returns the result, or rethrows the very exception given to the core. */
  lemma GetResultAfterCompletion<K>(c: Core<K>, v: Value, ex: Exn, wrap: bool, tok: nat)
    requires Inv(c) && c.completedCount == 0
    ensures CoreGetResult(c, c.version).1 == Throw(InvalidOperation(NotYetCompleted))
    ensures CoreGetResult(CoreTrySetResult(c, v).0, c.version).1 == Return(v)
    ensures CoreGetResult(CoreTrySetException(c, ex, wrap).0, c.version).1 == Throw(ex)
    ensures !CoreGetResult(CoreTrySetException(c, ex, wrap).0, c.version).0.hasUnhandledError
    ensures CoreGetResult(CoreTrySetCanceled(c, tok).0, c.version).1 == Throw(OperationCanceled(tok))
  {
  }

  /** Every token-checked operation refuses a stale token and leaves the core as it was. */
  lemma StaleTokenRefused<K>(c: Core<K>, token: int, k: K)
    requires token != c.version
    ensures CoreGetStatus(c, token) == Throw(InvalidOperation(TokenMismatch))
    ensures CoreGetResult(c, token) == (c, Throw(InvalidOperation(TokenMismatch)))
    ensures CoreOnCompleted(c, Some(k), token) == (c, Throw(InvalidOperation(TokenMismatch)))
  {
  }

  /** The version after `n` resets. */
  function Resets<K>(c: Core<K>, n: nat): (r: Core<K>)
    requires IsShort(c.version)
    ensures IsShort(r.version)
    decreases n
  {
    if n == 0 then c else CoreReset(Resets(c, n - 1))
  }

  /**
   * Versions are 16-bit and wrap: after `n` resets the version is the old
   * one plus `n`, modulo 65536.
   */
  lemma {:induction false} ResetsAdvanceVersion<K>(c: Core<K>, n: nat)
    requires IsShort(c.version)
    ensures (Resets(c, n).version - c.version - n) % 65536 == 0
    decreases n
  {
    if n > 0 {
      ResetsAdvanceVersion(c, n - 1);
      var p := Resets(c, n - 1).version;
      assert (IncShort(p) - p) % 65536 == 1;
    }
  }

  /**
   * A task handle minted before a reset is refused by the recycled core,
   * unless the core went through a multiple of 65536 resets in between.
   */
  lemma StaleHandleAfterResets<K>(c: Core<K>, n: nat)
    requires IsShort(c.version)
    ensures (Resets(c, n).version == c.version) <==> n % 65536 == 0
  {
    ResetsAdvanceVersion(c, n);
    var d := Resets(c, n).version - c.version;
    var k := (d - n) / 65536;
    assert d - n == 65536 * k;
    var q := n / 65536;
    assert n == 65536 * q + n % 65536;
    assert d == 65536 * (k + q) + n % 65536;
    if n % 65536 == 0 {
      assert -65536 < 65536 * (k + q) < 65536;
      assert k + q == 0;
    }
  }

  // ---------------------------------------------------------------------
  // The core as an object updated in place
  // ---------------------------------------------------------------------

  class CompletionSourceCore<K> {
    var version: int
    var completedCount: nat
    var result: Value
    var error: ErrorSlot
    var hasUnhandledError: bool
    var continuation: ContSlot<K>
    const wrapFaults: bool     // ExceptionHolder wrapping: a debug build, or the single-threaded runtime

    function State(): Core<K>
      reads this
    {
      Core(version, completedCount, result, error, hasUnhandledError, continuation)
    }

    ghost predicate Valid()
      reads this
    {
      Inv(State())
    }

    constructor(wrapFaults: bool)
      ensures State() == Fresh() && Valid()
      ensures this.wrapFaults == wrapFaults
    {
      version := 0;
      completedCount := 0;
      result := Default;
      error := NoError;
      hasUnhandledError := false;
      continuation := NoContinuation;
      this.wrapFaults := wrapFaults;
    }

    function Version(): int
      reads this
    {
      version
    }

    method Reset()
      modifies this
      ensures old(Valid()) ==> Valid()
      ensures State() == CoreReset(old(State()))
    {
      version := IncShort(version);
      completedCount := 0;
      result := Default;
      error := NoError;
      hasUnhandledError := false;
      continuation := NoContinuation;
    }

    method MarkHandled()
      modifies this
      ensures old(Valid()) ==> Valid()
      ensures State() == old(State()).(hasUnhandledError := false)
    {
      hasUnhandledError := false;
    }

    /** The body shared by the three TrySet methods. */
    method Complete(r: Value, e: ErrorSlot) returns (won: bool, run: Option<K>)
      modifies this
      ensures old(Valid()) ==> Valid()
      ensures (State(), won, run) == CoreComplete(old(State()), r, e)
    {
      completedCount := completedCount + 1;
      if completedCount == 1 {
        result := r;
        error := e;
        hasUnhandledError := e != NoError;
        if continuation != NoContinuation {
          run := if continuation.Registered? then Some(continuation.k) else None;
        } else {
          continuation := Sentinel;
          run := None;
        }
        return true, run;
      }
      return false, None;
    }

    method TrySetResult(v: Value) returns (won: bool, run: Option<K>)
      modifies this
      ensures old(Valid()) ==> Valid()
      ensures (State(), won, run) == CoreTrySetResult(old(State()), v)
    {
      won, run := Complete(v, NoError);
    }

    method TrySetException(ex: Exn) returns (won: bool, run: Option<K>)
      modifies this
      ensures old(Valid()) ==> Valid()
      ensures (State(), won, run) == CoreTrySetException(old(State()), ex, wrapFaults)
    {
      var e := if IsCancellation(ex) then CanceledWith(ex) else FaultedWith(ex, wrapFaults);
      won, run := Complete(result, e);
    }

    method TrySetCanceled(cancellationToken: nat) returns (won: bool, run: Option<K>)
      modifies this
      ensures old(Valid()) ==> Valid()
      ensures (State(), won, run) == CoreTrySetCanceled(old(State()), cancellationToken)
    {
      won, run := Complete(result, CanceledWith(OperationCanceled(cancellationToken)));
    }

    method GetStatus(token: int) returns (r: Outcome<PromiseTaskStatus>)
      ensures r == CoreGetStatus(State(), token)
    {
      if token != version {
        return Throw(InvalidOperation(TokenMismatch));
      }
      r := Return(UnsafeGetStatus());
    }

    function UnsafeGetStatus(): (s: PromiseTaskStatus)
      reads this
      ensures Valid() ==> (s == Pending <==> completedCount == 0)
    {
      StatusOf(State())
    }

    method GetResult(token: int) returns (r: Outcome<Value>)
      modifies this
      ensures old(Valid()) ==> Valid()
      ensures (State(), r) == CoreGetResult(old(State()), token)
    {
      if token != version {
        return Throw(InvalidOperation(TokenMismatch));
      }
      if completedCount == 0 {
        return Throw(InvalidOperation(NotYetCompleted));
      }
      match error
      case NoError => r := Return(result);
      case CanceledWith(oce) =>
        hasUnhandledError := false;
        r := Throw(oce);
      case FaultedWith(ex, _) =>
        hasUnhandledError := false;
        r := Throw(ex);
    }

    method OnCompleted(k: Option<K>, token: int) returns (r: Outcome<Option<K>>)
      modifies this
      ensures old(Valid()) ==> Valid()
      ensures (State(), r) == CoreOnCompleted(old(State()), k, token)
    {
      if k.None? {
        return Throw(ArgumentNull);
      }
      if token != version {
        return Throw(InvalidOperation(TokenMismatch));
      }
      var oldContinuation := continuation;
      if oldContinuation == NoContinuation {
        continuation := Registered(k.value);
        return Return(None);
      }
      if !oldContinuation.Sentinel? {
        return Throw(InvalidOperation(AlreadyAwaited));
      }
      r := Return(k);
    }
  }
}
