/**
 * The WhenAll fan-in as a pure state machine: a success counter, one
 * result slot per awaited task (generic WhenAll only) and a completion
 * core. Each awaited task's completion is one step (`SlotDone`); the
 * source's constructor and its registered continuations are sequences of
 * such steps.
 */
module FanIn {
  import opened Values
  import opened TaskStatus
  import opened CompletionCore

  /** The WhenAll source's state: completeCount, the result array, the core. */
  datatype FanState<K> = FanState(count: int, slots: seq<Value>, core: Core<K>)

  /** The value the core completes with: the result array, or nothing for the non-generic source. */
  function Completion(slots: seq<Value>, generic: bool): Value
  {
    if generic then Items(slots) else Default
  }

  /**
   * TryInvokeContinuation for task `i`, given what its awaiter's
   * GetResult produced: a failure is passed to TrySetException (the
   * counter is left alone); a success is stored in slot `i`, counted, and
   * completes the core when the counter reaches the number of tasks. The
   * second component is the core's continuation to run.
   */
  function SlotDone<K>(s: FanState<K>, n: int, i: int, got: Outcome<Value>, generic: bool, wrap: bool): (FanState<K>, Option<K>)
    requires generic ==> 0 <= i < |s.slots|
  {
    match got
    case Throw(e) =>
      var (c, _, run) := CoreTrySetException(s.core, e, wrap);
      (s.(core := c), run)
    case Return(v) =>
      var slots := if generic then s.slots[i := v] else s.slots;
      if s.count + 1 == n then
        var (c, _, run) := CoreTrySetResult(s.core, Completion(slots, generic));
        (FanState(s.count + 1, slots, c), run)
      else
        (FanState(s.count + 1, slots, s.core), None)
  }

  /** What happened to task `index` in the constructor's loop. */
  datatype SlotEvent =
    | Now(index: nat, got: Outcome<Value>)    // processed at once (it was complete, or its source ran the continuation inline)
    | Later(index: nat)                       // its continuation was registered with its source

  predicate IndicesBelow(events: seq<SlotEvent>, m: int)
  {
    forall k :: 0 <= k < |events| ==> events[k].index < m
  }

  /** The fan-in state after a sequence of events; registrations change nothing. */
  function Replay<K>(s: FanState<K>, n: int, events: seq<SlotEvent>, generic: bool, wrap: bool): (r: FanState<K>)
    requires generic ==> IndicesBelow(events, |s.slots|)
    ensures |r.slots| == |s.slots|
    decreases |events|
  {
    if events == [] then s
    else
      var prev := Replay(s, n, events[..|events| - 1], generic, wrap);
      match events[|events| - 1]
      case Later(_) => prev
      case Now(i, got) => SlotDone(prev, n, i, got, generic, wrap).0
  }

  /** The state the constructor starts from: no successes, `n` default slots (generic), a fresh core. */
  function Start<K>(n: nat, generic: bool): FanState<K>
  {
    FanState(0, if generic then seq(n, _ => Default) else [], Fresh())
  }

  /** With no tasks the constructor completes the core at once. */
  function StartEmpty<K>(generic: bool): FanState<K>
  {
    var s := Start<K>(0, generic);
    s.(core := CoreTrySetResult(s.core, Completion([], generic)).0)
  }

  /**
   * GetResult: the core's result, and any exception it throws is
   * swallowed; then the generic source returns the (possibly partial)
   * result array and the non-generic one returns nothing.
   */
  function FanGetResult<K>(s: FanState<K>, token: int, generic: bool): (FanState<K>, Value)
  {
    var (c, r) := CoreGetResult(s.core, token);
    (s.(core := c), if r.Return? then r.value else Completion(s.slots, generic))
  }

  // ---------------------------------------------------------------------
  // Properties
  // ---------------------------------------------------------------------

  /** With zero tasks the source has already succeeded, with an empty array (generic) or nothing. */
  lemma EmptySucceeds<K>(generic: bool)
    ensures var s := StartEmpty<K>(generic);
            && StatusOf(s.core) == Succeeded
            && FanGetResult(s, 0, generic).1 == Completion([], generic)
            && (generic ==> FanGetResult(s, 0, generic).1 == Items([]))
  {
  }

  /**
   * A success of task `i` writes its value into slot `i` and nowhere else,
   * and adds exactly one to the counter; a failure touches neither.
   */
  lemma SlotDoneWritesOnlyItsSlot<K>(s: FanState<K>, n: int, i: int, got: Outcome<Value>, wrap: bool)
    requires 0 <= i < |s.slots|
    ensures var t := SlotDone(s, n, i, got, true, wrap).0;
            && |t.slots| == |s.slots|
            && (got.Return? ==> t.slots[i] == got.value && t.count == s.count + 1)
            && (got.Throw? ==> t.slots == s.slots && t.count == s.count)
            && (forall j :: 0 <= j < |s.slots| && j != i ==> t.slots[j] == s.slots[j])
  {
  }

  /**
   * While the core is still pending, one step completes it exactly when
   * the task failed or the success counter reaches the number of tasks,
   * and then a failure is recorded as a fault (or a cancellation) and a
   * success as the result array.
   */
  lemma CompletesExactlyAtCount<K>(s: FanState<K>, n: int, i: int, got: Outcome<Value>, generic: bool, wrap: bool)
    requires Inv(s.core) && s.core.completedCount == 0
    requires generic ==> 0 <= i < |s.slots|
    ensures var t := SlotDone(s, n, i, got, generic, wrap).0;
            && (t.core.completedCount > 0 <==> got.Throw? || s.count + 1 == n)
            && (got.Throw? ==> StatusOf(t.core) == (if IsCancellation(got.exn) then Canceled else Faulted))
            && (got.Return? && s.count + 1 == n ==>
                  StatusOf(t.core) == Succeeded && t.core.result == Completion(t.slots, generic))
  {
  }

  /** Once the core has completed, no further step changes its outcome. */
  lemma {:induction false} CompletedOutcomeIsKept<K>(s: FanState<K>, n: int, events: seq<SlotEvent>, generic: bool, wrap: bool)
    requires s.core.completedCount > 0
    requires generic ==> IndicesBelow(events, |s.slots|)
    ensures var t := Replay(s, n, events, generic, wrap);
            && t.core.completedCount > 0
            && t.core.error == s.core.error && t.core.result == s.core.result
            && t.core.version == s.core.version
    decreases |events|
  {
    if events != [] {
      CompletedOutcomeIsKept(s, n, events[..|events| - 1], generic, wrap);
    }
  }

  /**
   * The first failure wins: whatever happens afterwards, the source ends
   * faulted (or canceled) with the exception of the first task that
   * failed while it was pending.
   */
  lemma FirstFaultWins<K>(s: FanState<K>, n: int, i: int, e: Exn, events: seq<SlotEvent>, generic: bool, wrap: bool)
    requires Inv(s.core) && s.core.completedCount == 0
    requires generic ==> 0 <= i < |s.slots| && IndicesBelow(events, |s.slots|)
    ensures var t := Replay(SlotDone(s, n, i, Throw(e), generic, wrap).0, n, events, generic, wrap);
            && StatusOf(t.core) == (if IsCancellation(e) then Canceled else Faulted)
            && CoreGetResult(t.core, s.core.version).1 == Throw(e)
  {
    var s1 := SlotDone(s, n, i, Throw(e), generic, wrap).0;
    CompletedOutcomeIsKept(s1, n, events, generic, wrap);
    var t := Replay(s1, n, events, generic, wrap);
    assert t.core.continuation != NoContinuation by {
      ReplayKeepsContinuation(s1, n, events, generic, wrap);
    }
  }

  /** After the core has completed, its continuation slot is never emptied by a step. */
  lemma {:induction false} ReplayKeepsContinuation<K>(s: FanState<K>, n: int, events: seq<SlotEvent>, generic: bool, wrap: bool)
    requires s.core.completedCount > 0 && s.core.continuation != NoContinuation
    requires generic ==> IndicesBelow(events, |s.slots|)
    ensures Replay(s, n, events, generic, wrap).core.continuation != NoContinuation
    decreases |events|
  {
    if events != [] {
      ReplayKeepsContinuation(s, n, events[..|events| - 1], generic, wrap);
      CompletedOutcomeIsKept(s, n, events[..|events| - 1], generic, wrap);
    }
  }

  /** Events are successes of pairwise distinct tasks, each with the value given for its index. */
  predicate DistinctSuccesses(events: seq<SlotEvent>, vals: seq<Value>)
  {
    && (forall k :: 0 <= k < |events| ==> events[k].Now? && events[k].index < |vals|
                                          && events[k].got == Return(vals[events[k].index]))
    && (forall k, l :: 0 <= k < l < |events| ==> events[k].index != events[l].index)
  }

  /** Task `j` has an event in `events`. */
  predicate Seen(events: seq<SlotEvent>, j: int)
  {
    exists k :: 0 <= k < |events| && events[k].index == j
  }

  lemma SeenLast(events: seq<SlotEvent>, j: int)
    requires events != []
    ensures Seen(events, j) <==> Seen(events[..|events| - 1], j) || events[|events| - 1].index == j
  {
    var pre := events[..|events| - 1];
    if Seen(events, j) && events[|events| - 1].index != j {
      var k :| 0 <= k < |events| && events[k].index == j;
      assert pre[k].index == j;
    }
    if Seen(pre, j) {
      var k :| 0 <= k < |pre| && pre[k].index == j;
      assert events[k].index == j;
    }
  }

  /**
   * Invariant of a run of distinct successes from the start state: the
   * counter is their number, a slot holds its task's value once that task
   * has been seen and the default before, and the core stays untouched
   * until the last task arrives.
   */
  lemma {:induction false} SuccessesSoFar<K>(n: nat, events: seq<SlotEvent>, vals: seq<Value>, generic: bool, wrap: bool)
    requires |vals| == n && DistinctSuccesses(events, vals) && |events| < n
    ensures generic ==> IndicesBelow(events, n)
    ensures var t := Replay(Start<K>(n, generic), n, events, generic, wrap);
            && t.count == |events|
            && t.core == Fresh()
            && (generic ==> forall j :: 0 <= j < n ==> t.slots[j] == (if Seen(events, j) then vals[j] else Default))
            && (!generic ==> t.slots == [])
    decreases |events|
  {
    if events != [] {
      var m := |events| - 1;
      var pre := events[..m];
      assert DistinctSuccesses(pre, vals);
      SuccessesSoFar<K>(n, pre, vals, generic, wrap);
      var t0 := Replay(Start<K>(n, generic), n, pre, generic, wrap);
      var last := events[m].index;
      var t := Replay(Start<K>(n, generic), n, events, generic, wrap);
      assert t == SlotDone(t0, n, last, Return(vals[last]), generic, wrap).0;
      if generic {
        forall j | 0 <= j < n
          ensures t.slots[j] == (if Seen(events, j) then vals[j] else Default)
        {
          SeenLast(events, j);
        }
      }
    }
  }

  /**
   * All tasks succeed, in any order: exactly at the last arrival the core
   * succeeds, and the result array holds every task's value at its own
   * index, whatever the arrival order.
   */
  lemma AllSucceedInAnyOrder<K>(n: nat, events: seq<SlotEvent>, vals: seq<Value>, generic: bool, wrap: bool)
    requires n > 0 && |vals| == n && |events| == n && DistinctSuccesses(events, vals)
    requires forall j :: 0 <= j < n ==> Seen(events, j)
    ensures generic ==> IndicesBelow(events, n)
    ensures var t := Replay(Start<K>(n, generic), n, events, generic, wrap);
            && t.count == n
            && StatusOf(t.core) == Succeeded
            && t.core.result == Completion(vals, generic)
            && FanGetResult(t, 0, generic).1 == Completion(vals, generic)
  {
    var m := n - 1;
    var pre := events[..m];
    assert DistinctSuccesses(pre, vals);
    SuccessesSoFar<K>(n, pre, vals, generic, wrap);
    var t0 := Replay(Start<K>(n, generic), n, pre, generic, wrap);
    var last := events[m].index;
    var t := Replay(Start<K>(n, generic), n, events, generic, wrap);
    assert t == SlotDone(t0, n, last, Return(vals[last]), generic, wrap).0;
    if generic {
      assert t.slots == vals by {
        forall j | 0 <= j < n ensures t.slots[j] == vals[j] {
          SeenLast(events, j);
        }
      }
    }
  }

  /**
   * GetResult never throws: it returns the result array after success, and
   * the partial array (or nothing) after a failure, marking the error
   * handled in both cases.
   */
  lemma GetResultSwallows<K>(s: FanState<K>, token: int, generic: bool)
    requires Inv(s.core)
    ensures var (t, v) := FanGetResult(s, token, generic);
            && (token == s.core.version && StatusOf(s.core) == Succeeded ==> v == s.core.result)
            && (token != s.core.version || s.core.completedCount == 0 || s.core.error != NoError ==>
                  v == Completion(s.slots, generic))
            && (token == s.core.version && s.core.completedCount > 0 ==> !t.core.hasUnhandledError)
            && t.core.completedCount == s.core.completedCount && t.slots == s.slots
  {
  }
}
