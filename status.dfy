/**
 * The four-valued status of a promise task and its classification
 * predicates (IsCompleted, IsCompletedSuccessfully, IsCanceled, IsFaulted).
 */
module TaskStatus {

  datatype PromiseTaskStatus = Pending | Succeeded | Faulted | Canceled

  /** The enum's underlying value: Pending = 0, Succeeded = 1, Faulted = 2, Canceled = 3. */
  function Ordinal(s: PromiseTaskStatus): (n: nat)
    ensures n <= 3
    ensures n == 0 <==> s == Pending
  {
    match s
    case Pending => 0
    case Succeeded => 1
    case Faulted => 2
    case Canceled => 3
  }

  /** The status with a given underlying value, if there is one. */
  function FromOrdinal(n: int): (s: PromiseTaskStatus)
    requires 0 <= n <= 3
    ensures Ordinal(s) == n
  {
    if n == 0 then Pending
    else if n == 1 then Succeeded
    else if n == 2 then Faulted
    else Canceled
  }

  predicate IsCompleted(s: PromiseTaskStatus) { s != Pending }

  predicate IsCompletedSuccessfully(s: PromiseTaskStatus) { s == Succeeded }

  predicate IsCanceled(s: PromiseTaskStatus) { s == Canceled }

  predicate IsFaulted(s: PromiseTaskStatus) { s == Faulted }

  /**
   * The underlying values are distinct, and `FromOrdinal` inverts `Ordinal`.
   */
  lemma OrdinalRoundTrip(s: PromiseTaskStatus, t: PromiseTaskStatus)
    ensures FromOrdinal(Ordinal(s)) == s
    ensures Ordinal(s) == Ordinal(t) ==> s == t
  {
  }

  /**
   * A completed status is exactly one of the three terminal outcomes, and
   * an incomplete one is none of them.
   */
  lemma CompletedPartition(s: PromiseTaskStatus)
    ensures IsCompleted(s) <==> (IsCompletedSuccessfully(s) || IsFaulted(s) || IsCanceled(s))
    ensures !(IsCompletedSuccessfully(s) && IsFaulted(s))
    ensures !(IsCompletedSuccessfully(s) && IsCanceled(s))
    ensures !(IsFaulted(s) && IsCanceled(s))
  {
  }
}
