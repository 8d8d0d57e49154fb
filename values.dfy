/**
 * Values, exceptions and outcomes shared by the promise and task models.
 *
 * C# generics are erased: every promise or task carries a `Value`.
 * `Default` stands for `default(T)` (and for the absent result of the
 * non-generic types); `Atom` is an opaque user value; `Items` is an array
 * built by the combinators.
 */
module Values {

  datatype Option<T> = None | Some(value: T)

  datatype Value = Default | Atom(id: nat) | Items(items: seq<Value>)

  /** Why an InvalidOperationException was raised. */
  datatype InvalidOp =
    | NotYetCompleted               // GetResult before completion
    | TokenMismatch                 // a stale task handle (version check)
    | AlreadyAwaited                // a second continuation on one core
    | SentinelInvoked               // the completion sentinel was run
    | EmptyRace                     // Race over no promises

  /** The three invalid-state codes of the promise state machine. */
  datatype StateCode = ResolveState | RejectState | ProgressState

  /**
   * Exceptions are opaque values. `UserError` is anything thrown by user
   * code; the others are raised by the library itself.
   */
  datatype Exn =
    | UserError(id: nat)
    | OperationCanceled(token: nat)
    | InvalidOperation(why: InvalidOp)
    | ArgumentNull
    | InvalidState(code: StateCode)          // `new Exception(code)` of the pooled engines
    | PromiseStateError(code: StateCode)     // PromiseStateException of the older engine
    | ItemAlreadyRecycled                    // a second push of a pooled item
    | Group(slots: seq<Option<Exn>>)         // PromiseGroupException
    | NullReference
    | Plain                                  // `new Exception()`

  /** Result of an operation that either returns or throws. */
  datatype Outcome<T> = Return(value: T) | Throw(exn: Exn)
  {
    predicate Threw() { Throw? }
  }

  /** A C# `short` and its unchecked increment. */
  const ShortMin: int := -32768
  const ShortMax: int := 32767

  predicate IsShort(v: int) { ShortMin <= v <= ShortMax }

  /**
   * `v += 1` on a 16-bit signed integer in an unchecked context: the sum
   * reduced into the `short` range, so the maximum wraps to the minimum.
   */
  function IncShort(v: int): (r: int)
    ensures IsShort(r)
    ensures (r - v) % 65536 == 1
    ensures IsShort(v) ==> r == (if v == ShortMax then ShortMin else v + 1)
  {
    (v - ShortMin + 1) % 65536 + ShortMin
  }
}
