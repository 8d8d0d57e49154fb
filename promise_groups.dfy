/**
 * What the combinators' closures do to their shared variables, replayed
 * over the order in which the inputs settle.
 *
 * All's resolve closure writes the input's value into its own slot and
 * counts down; Any's reject closure counts down and (pooled engine) keeps
 * the input's exception in its own slot. Whatever the order in which the
 * inputs settle, All resolves exactly when the last input has resolved,
 * with the values in input order, and Any rejects exactly when the last
 * input has rejected.
 */
module PromiseGroups {
  import opened Values
  import opened PromiseWorld

  /** Indices in range and pairwise distinct: each input settles at most once. */
  predicate Distinct(order: seq<nat>)
  {
    forall a, b :: 0 <= a < b < |order| ==> order[a] != order[b]
  }

  predicate Below(order: seq<nat>, n: nat)
  {
    forall k :: 0 <= k < |order| ==> order[k] < n
  }

  /** All's resolve closures run in `order`, input `i` delivering `vals[i]`. */
  function Collected(gr: Captures, order: seq<nat>, vals: seq<Value>): Captures
    requires Below(order, |vals|)
  {
    if order == [] then gr
    else
      var last := order[|order| - 1];
      CollectStep(Collected(gr, order[..|order| - 1], vals), last, vals[last])
  }

  /** Any's reject closures run in `order`, input `i` failing with `exns[i]`. */
  function Rejected(gr: Captures, order: seq<nat>, exns: seq<Option<Exn>>, fill: bool): Captures
    requires Below(order, |exns|)
  {
    if order == [] then gr
    else
      var last := order[|order| - 1];
      AnyRejectStep(Rejected(gr, order[..|order| - 1], exns, fill), last, exns[last], fill)
  }

  /**
   * After All's closures have run for `order`: one count per closure, and
   * each slot holds the value of its own input if that input has
   * resolved, and what it held before otherwise.
   */
  lemma {:induction false} CollectedSlots(gr: Captures, order: seq<nat>, vals: seq<Value>)
    requires |gr.results| == |vals| && |gr.progress| == |vals| && Below(order, |vals|)
    ensures var r := Collected(gr, order, vals);
            && r.remaining == gr.remaining - |order| && r.result == gr.result
            && |r.results| == |vals| && |r.progress| == |vals|
            && (forall j :: 0 <= j < |vals| ==> r.results[j] == (if j in order then vals[j] else gr.results[j]))
            && (forall j :: 0 <= j < |vals| ==> r.progress[j] == (if j in order then 1.0 else gr.progress[j]))
  {
    if order != [] {
      var front := order[..|order| - 1];
      assert Below(front, |vals|);
      CollectedSlots(gr, front, vals);
      forall j | 0 <= j < |vals|
        ensures (j in order) == (j in front || j == order[|order| - 1])
      {
        assert order == front + [order[|order| - 1]];
      }
    }
  }

  /** After Any's reject closures have run for `order`: one count per closure, and each rejected input's exception in its slot when the engine fills them. */
  lemma {:induction false} RejectedSlots(gr: Captures, order: seq<nat>, exns: seq<Option<Exn>>, fill: bool)
    requires |gr.slots| == |exns| && Below(order, |exns|)
    ensures var r := Rejected(gr, order, exns, fill);
            && r.remaining == gr.remaining - |order| && r.result == gr.result && |r.slots| == |exns|
            && (forall j :: 0 <= j < |exns| ==> r.slots[j] == (if j in order && fill then exns[j] else gr.slots[j]))
  {
    if order != [] {
      var front := order[..|order| - 1];
      assert Below(front, |exns|);
      RejectedSlots(gr, front, exns, fill);
      forall j | 0 <= j < |exns|
        ensures (j in order) == (j in front || j == order[|order| - 1])
      {
        assert order == front + [order[|order| - 1]];
      }
    }
  }

  function Indices(order: seq<nat>): set<nat>
  {
    set k | 0 <= k < |order| :: order[k]
  }

  lemma {:induction false} DistinctIndices(order: seq<nat>)
    requires Distinct(order)
    ensures |Indices(order)| == |order|
  {
    if order != [] {
      var front := order[..|order| - 1];
      var last := order[|order| - 1];
      DistinctIndices(front);
      assert Indices(order) == Indices(front) + {last} by {
        forall x | x in Indices(order) ensures x in Indices(front) + {last} {
          var k :| 0 <= k < |order| && order[k] == x;
          if k < |order| - 1 {
            assert front[k] == x;
          }
        }
        forall x | x in Indices(front) ensures x in Indices(order) {
          var k :| 0 <= k < |front| && front[k] == x;
          assert order[k] == x;
        }
      }
      assert last !in Indices(front);
    }
  }

  /** The input indices 0 .. n - 1. */
  function Range(n: nat): (r: set<nat>)
    ensures forall j: nat :: j in r <==> j < n
    ensures |r| == n
  {
    if n == 0 then {} else Range(n - 1) + {n - 1}
  }

  lemma {:induction false} SubsetSize(a: set<nat>, b: set<nat>)
    requires a <= b
    ensures |a| <= |b|
  {
    if a != {} {
      var x :| x in a;
      SubsetSize(a - {x}, b - {x});
    }
  }

  /** Distinct indices below n: at most n of them, and n of them name every input. */
  lemma Covers(order: seq<nat>, n: nat)
    requires Distinct(order) && Below(order, n)
    ensures |order| <= n
    ensures |order| == n ==> forall j :: 0 <= j < n ==> j in order
  {
    DistinctIndices(order);
    assert Indices(order) <= Range(n);
    SubsetSize(Indices(order), Range(n));
    if |order| == n {
      forall j | 0 <= j < n
        ensures j in order
      {
        if j !in order {
          assert Indices(order) <= Range(n) - {j};
          assert |Range(n) - {j}| == n - 1;
          SubsetSize(Indices(order), Range(n) - {j});
        }
      }
    }
  }

  /**
   * All over n inputs: after the resolve closures of a set of distinct
   * inputs have run, the count has reached zero exactly when every input
   * has resolved, and then the result slots hold the inputs' values in
   * input order, whatever the order in which they resolved.
   */
  lemma AllCollectsInInputOrder(R: Pid, n: nat, order: seq<nat>, vals: seq<Value>)
    requires |vals| == n && Distinct(order) && Below(order, n)
    ensures var r := Collected(Captures(R, n, seq(n, _ => Default), seq(n, _ => 0.0), seq(n, _ => None), 0, []), order, vals);
            && (r.remaining <= 0 <==> |order| == n)
            && (|order| == n ==> r.results == vals && r.progress == seq(n, _ => 1.0))
  {
    var gr := Captures(R, n, seq(n, _ => Default), seq(n, _ => 0.0), seq(n, _ => None), 0, []);
    CollectedSlots(gr, order, vals);
    Covers(order, n);
    var r := Collected(gr, order, vals);
    if |order| == n {
      FullSlots(r, gr, order, vals);
    }
  }

  /** Once every input is in `order`, the slots CollectedSlots describes are exactly the inputs' values. */
  lemma FullSlots(r: Captures, gr: Captures, order: seq<nat>, vals: seq<Value>)
    requires |r.results| == |vals| && |r.progress| == |vals| && |gr.results| == |vals| && |gr.progress| == |vals|
    requires forall j :: 0 <= j < |vals| ==> j in order
    requires forall j :: 0 <= j < |vals| ==> r.results[j] == (if j in order then vals[j] else gr.results[j])
    requires forall j :: 0 <= j < |vals| ==> r.progress[j] == (if j in order then 1.0 else gr.progress[j])
    ensures r.results == vals && r.progress == seq(|vals|, _ => 1.0)
  {
    assert forall j :: 0 <= j < |vals| ==> r.results[j] == vals[j];
  }

  /**
   * Any over n inputs: the count reaches zero exactly when every input
   * has rejected; the pooled engine's group exception then holds each
   * input's exception in input order, the non-generic engine's holds none.
   */
  lemma AnyRejectsOnlyWhenAllHave(R: Pid, n: nat, order: seq<nat>, exns: seq<Option<Exn>>, fill: bool)
    requires |exns| == n && Distinct(order) && Below(order, n)
    ensures var r := Rejected(Captures(R, n, seq(n, _ => Default), seq(n, _ => 0.0), seq(n, _ => None), 0, []), order, exns, fill);
            && (r.remaining <= 0 <==> |order| == n)
            && (|order| == n ==> r.slots == (if fill then exns else seq(n, _ => None)))
  {
    var gr := Captures(R, n, seq(n, _ => Default), seq(n, _ => 0.0), seq(n, _ => None), 0, []);
    RejectedSlots(gr, order, exns, fill);
    Covers(order, n);
    var r := Rejected(gr, order, exns, fill);
    if |order| == n {
      assert r.slots == (if fill then exns else seq(n, _ => None));
    }
  }

  lemma {:induction false} SumBounds(s: seq<real>)
    requires forall j :: 0 <= j < |s| ==> 0.0 <= s[j] <= 1.0
    ensures 0.0 <= Sum(s) <= |s| as real
  {
    if s != [] {
      SumBounds(s[..|s| - 1]);
    }
  }

  /** The mean All and Any report stays within [0, 1] while every input's progress does. */
  lemma MeanInUnit(s: seq<real>)
    requires forall j :: 0 <= j < |s| ==> 0.0 <= s[j] <= 1.0
    ensures 0.0 <= Mean(s) <= 1.0
  {
    SumBounds(s);
  }

  /**
   * First and Sequence scale the progress of link k into the k-th of
   * `count` equal slices: for progress within [0, 1] the reported value
   * lies between k / count and (k + 1) / count, so the slices of
   * successive links follow each other within [0, 1].
   */
  lemma SliceWithin(k: nat, v: real, count: nat)
    requires k < count && 0.0 <= v <= 1.0
    ensures Slice(k as real, count) <= Slice(k as real + v, count) <= Slice((k + 1) as real, count)
    ensures 0.0 <= Slice(k as real + v, count) <= 1.0
  {
    var c := count as real;
    assert (k as real) / c <= (k as real + v) / c;
    assert (k as real + v) / c <= ((k + 1) as real) / c;
    assert ((k + 1) as real) / c <= 1.0;
  }
}
