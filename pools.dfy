/**
 * The intrusive free lists that recycle promises, runners, pooled sources
 * and handler lists.
 *
 * A pool keeps only a `root` and a `size`; the list itself runs through the
 * `NextNode` field of each pooled item. Every item type belongs to exactly
 * one pool, so the model keeps the items' `NextNode` fields (and, for
 * `ReusablePool`, their `IsRecycled` flags) as maps inside the pool object.
 * An item whose `NextNode` was never written is mapped to nothing (null).
 */
module Pools {
  import opened Values

  /** The largest pool size: `int.MaxValue`, the initial value of `MaxPoolSize`. */
  const DefaultMaxPoolSize: int := 0x7fff_ffff

  /** The free list as the pool's fields and the items' links describe it. */
  datatype Links<T(==)> = Links(root: Option<T>, next: map<T, Option<T>>, size: int)

  /** The NextNode field of `x`; a field never written holds null. */
  function NextOf<T(==)>(next: map<T, Option<T>>, x: T): Option<T>
  {
    if x in next then next[x] else None
  }

  /** TryPop on the links: unlink the root, clear its NextNode, shrink the count. */
  function PopLinks<T(==)>(s: Links<T>): (Links<T>, Option<T>)
  {
    match s.root
    case None => (s, None)
    case Some(v) => (Links(NextOf(s.next, v), s.next[v := None], s.size - 1), Some(v))
  }

  /** TryPush on the links: the item's NextNode becomes the old root, the item the new root. */
  function PushLinks<T(==)>(s: Links<T>, item: T): Links<T>
  {
    Links(Some(item), s.next[item := s.root], s.size + 1)
  }

  /**
   * `xs` is the pooled items in pop order: the root first, each item's
   * NextNode is the next one, the last one's is null, no item twice, and
   * the size counter equals their number.
   */
  ghost predicate Holds<T>(s: Links<T>, xs: seq<T>)
  {
    && s.size == |xs|
    && (forall i, j :: 0 <= i < j < |xs| ==> xs[i] != xs[j])
    && s.root == (if xs == [] then None else Some(xs[0]))
    && (forall i :: 0 <= i < |xs| - 1 ==> NextOf(s.next, xs[i]) == Some(xs[i + 1]))
    && (xs != [] ==> NextOf(s.next, xs[|xs| - 1]) == None)
  }

  /** Pushing an item that is not pooled yet puts it in front of the others. */
  lemma {:induction false} PushKeeps<T>(s: Links<T>, xs: seq<T>, item: T)
    requires Holds(s, xs)
    requires item !in xs
    ensures Holds(PushLinks(s, item), [item] + xs)
  {
    var s' := PushLinks(s, item);
    var ys := [item] + xs;
    forall i | 0 <= i < |ys| - 1
      ensures NextOf(s'.next, ys[i]) == Some(ys[i + 1])
    {
      if i == 0 {
        assert NextOf(s'.next, item) == s.root;
      } else {
        assert ys[i] == xs[i - 1] && xs[i - 1] != item;
        assert NextOf(s'.next, ys[i]) == NextOf(s.next, xs[i - 1]);
        assert ys[i + 1] == xs[i];
      }
    }
    if xs != [] {
      assert ys[|ys| - 1] == xs[|xs| - 1] && xs[|xs| - 1] != item;
    }
    forall i, j | 0 <= i < j < |ys|
      ensures ys[i] != ys[j]
    {
      if i == 0 {
        assert ys[j] == xs[j - 1];
      } else {
        assert ys[i] == xs[i - 1] && ys[j] == xs[j - 1];
      }
    }
  }

  /** Popping returns the root, and the rest of the list stays pooled in order. */
  lemma {:induction false} PopTakesRoot<T>(s: Links<T>, xs: seq<T>)
    requires Holds(s, xs)
    ensures PopLinks(s).1 == (if xs == [] then None else Some(xs[0]))
    ensures Holds(PopLinks(s).0, if xs == [] then [] else xs[1..])
  {
    if xs != [] {
      var s' := PopLinks(s).0;
      var ys := xs[1..];
      assert NextOf(s.next, xs[0]) == (if 1 < |xs| then Some(xs[1]) else None);
      assert s'.root == (if ys == [] then None else Some(ys[0]));
      forall i | 0 <= i < |ys| - 1
        ensures NextOf(s'.next, ys[i]) == Some(ys[i + 1])
      {
        assert ys[i] == xs[i + 1] && xs[i + 1] != xs[0];
        assert NextOf(s'.next, ys[i]) == NextOf(s.next, xs[i + 1]);
        assert ys[i + 1] == xs[i + 2];
      }
      if ys != [] {
        assert ys[|ys| - 1] == xs[|xs| - 1] && xs[|xs| - 1] != xs[0];
      }
      forall i, j | 0 <= i < j < |ys|
        ensures ys[i] != ys[j]
      {
        assert ys[i] == xs[i + 1] && ys[j] == xs[j + 1];
      }
    }
  }

  /** Last in, first out: a push followed by a pop gives back the pushed item and the old list. */
  lemma PushThenPop<T>(s: Links<T>, xs: seq<T>, item: T)
    requires Holds(s, xs)
    requires item !in xs
    ensures PopLinks(PushLinks(s, item)).1 == Some(item)
    ensures Holds(PopLinks(PushLinks(s, item)).0, xs)
  {
    PushKeeps(s, xs, item);
    PopTakesRoot(PushLinks(s, item), [item] + xs);
    assert ([item] + xs)[1..] == xs;
  }

  /** Two pops in a row from a well-linked pool never hand out the same item. */
  lemma TwoPopsDiffer<T>(s: Links<T>, xs: seq<T>)
    requires Holds(s, xs)
    requires |xs| >= 2
    ensures PopLinks(s).1.Some? && PopLinks(PopLinks(s).0).1.Some?
    ensures PopLinks(s).1 != PopLinks(PopLinks(s).0).1
  {
    PopTakesRoot(s, xs);
    PopTakesRoot(PopLinks(s).0, xs[1..]);
    assert xs[1..][0] == xs[1];
  }

  /**
   * Without a recycled flag nothing stops an item from being pushed twice:
   * the item then links to itself, and the next two pops both return it.
   */
  lemma DoublePushRepeats<T>(item: T)
    ensures var s := PushLinks(PushLinks(Links(None, map[], 0), item), item);
            PopLinks(s).1 == Some(item) && PopLinks(PopLinks(s).0).1 == Some(item)
  {
  }

  /**
   * The pool of pooled promises and handler lists. `IsRecycled` marks the
   * items currently pooled, and pushing a marked item throws.
   */
  class ReusablePool<T(==)> {
    var root: Option<T>
    var size: int
    var nextNode: map<T, Option<T>>
    var recycled: set<T>            // the items whose IsRecycled flag is set
    const maxPoolSize: int
    ghost var Contents: seq<T>      // pooled items, root first

    function Snapshot(): Links<T>
      reads this
    {
      Links(root, nextNode, size)
    }

    ghost predicate Valid()
      reads this
    {
      && Holds(Snapshot(), Contents)
      && (forall i :: 0 <= i < |Contents| ==> Contents[i] in recycled)
      && (forall x :: x in recycled ==> x in Contents)
    }

    constructor(maxPoolSize: int)
      ensures Valid() && Contents == []
      ensures this.maxPoolSize == maxPoolSize
    {
      root := None;
      size := 0;
      nextNode := map[];
      recycled := {};
      this.maxPoolSize := maxPoolSize;
      Contents := [];
    }

    /** The number of pooled items. */
    function Size(): (n: int)
      reads this
      requires Valid()
      ensures n == |Contents|
    {
      size
    }

    method TryPop() returns (ok: bool, result: Option<T>)
      requires Valid()
      modifies this
      ensures Valid()
      ensures (Snapshot(), result) == PopLinks(old(Snapshot()))
      ensures ok <==> old(Contents) != []
      ensures ok ==> result == Some(old(Contents)[0]) && Contents == old(Contents)[1..]
                     && recycled == old(recycled) - {old(Contents)[0]}
      ensures !ok ==> result == None && unchanged(this)
    {
      PopTakesRoot(Snapshot(), Contents);
      var v := root;
      if v.Some? {
        root := NextOf(nextNode, v.value);
        nextNode := nextNode[v.value := None];
        size := size - 1;
        result := v;
        recycled := recycled - {v.value};
        Contents := Contents[1..];
        ok := true;
      } else {
        result := None;
        ok := false;
      }
    }

    method TryPush(item: T) returns (r: Outcome<bool>)
      requires Valid()
      modifies this
      ensures Valid()
      ensures item in old(recycled) ==> r == Throw(ItemAlreadyRecycled) && unchanged(this)
      ensures item !in old(recycled) && old(size) < maxPoolSize ==>
                r == Return(true) && Snapshot() == PushLinks(old(Snapshot()), item)
                && Contents == [item] + old(Contents) && recycled == old(recycled) + {item}
      ensures item !in old(recycled) && old(size) >= maxPoolSize ==> r == Return(false) && unchanged(this)
    {
      if item in recycled {
        return Throw(ItemAlreadyRecycled);
      }
      if size < maxPoolSize {
        PushKeeps(Snapshot(), Contents, item);
        recycled := recycled + {item};
        nextNode := nextNode[item := root];
        root := Some(item);
        size := size + 1;
        Contents := [item] + Contents;
        r := Return(true);
      } else {
        r := Return(false);
      }
    }
  }

  /**
   * The gated pool of runners and pooled sources. A compare-and-swap on
   * `gate` guards each operation; a held gate makes it give up. There is no
   * recycled flag, so nothing rejects a second push of a pooled item.
   */
  class TaskPool<T(==)> {
    var gate: int
    var root: Option<T>
    var size: int
    var nextNode: map<T, Option<T>>
    const maxPoolSize: int
    ghost var Contents: seq<T>

    function Snapshot(): Links<T>
      reads this
    {
      Links(root, nextNode, size)
    }

    ghost predicate Valid()
      reads this
    {
      Holds(Snapshot(), Contents)
    }

    constructor(maxPoolSize: int)
      ensures Valid() && Contents == [] && gate == 0
      ensures this.maxPoolSize == maxPoolSize
    {
      gate := 0;
      root := None;
      size := 0;
      nextNode := map[];
      this.maxPoolSize := maxPoolSize;
      Contents := [];
    }

    method TryPop() returns (ok: bool, result: Option<T>)
      modifies this
      ensures gate == old(gate)
      ensures old(gate) != 0 ==> !ok && result == None && unchanged(this)
      ensures old(gate) == 0 ==> (Snapshot(), result) == PopLinks(old(Snapshot())) && (ok <==> old(root).Some?)
      ensures old(gate) == 0 && old(Valid()) ==>
                Valid() && (ok <==> old(Contents) != [])
                && (ok ==> result == Some(old(Contents)[0]) && Contents == old(Contents)[1..])
    {
      if gate == 0 {
        gate := 1;
        if old(Valid()) {
          PopTakesRoot(Snapshot(), Contents);
        }
        var v := root;
        if v.Some? {
          root := NextOf(nextNode, v.value);
          nextNode := nextNode[v.value := None];
          size := size - 1;
          result := v;
          if Contents != [] {
            Contents := Contents[1..];
          }
          gate := 0;
          return true, result;
        }
        gate := 0;
      }
      result := None;
      ok := false;
    }

    method TryPush(item: T) returns (ok: bool)
      modifies this
      ensures gate == old(gate)
      ensures ok <==> old(gate) == 0 && old(size) < maxPoolSize
      ensures ok ==> Snapshot() == PushLinks(old(Snapshot()), item) && Contents == [item] + old(Contents)
      ensures !ok ==> unchanged(this)
      ensures ok && old(Valid()) && item !in old(Contents) ==> Valid()
    {
      if gate == 0 {
        gate := 1;
        if size < maxPoolSize {
          if Valid() && item !in Contents {
            PushKeeps(Snapshot(), Contents, item);
          }
          nextNode := nextNode[item := root];
          root := Some(item);
          size := size + 1;
          Contents := [item] + Contents;
          gate := 0;
          return true;
        } else {
          gate := 0;
        }
      }
      return false;
    }
  }

  /** The ungated pool of the single-threaded runtime. */
  class LightTaskPool<T(==)> {
    var root: Option<T>
    var size: int
    var nextNode: map<T, Option<T>>
    const maxPoolSize: int
    ghost var Contents: seq<T>

    function Snapshot(): Links<T>
      reads this
    {
      Links(root, nextNode, size)
    }

    ghost predicate Valid()
      reads this
    {
      Holds(Snapshot(), Contents)
    }

    constructor(maxPoolSize: int)
      ensures Valid() && Contents == []
      ensures this.maxPoolSize == maxPoolSize
    {
      root := None;
      size := 0;
      nextNode := map[];
      this.maxPoolSize := maxPoolSize;
      Contents := [];
    }

    method TryPop() returns (ok: bool, result: Option<T>)
      modifies this
      ensures (Snapshot(), result) == PopLinks(old(Snapshot())) && (ok <==> old(root).Some?)
      ensures old(Valid()) ==>
                Valid() && (ok <==> old(Contents) != [])
                && (ok ==> result == Some(old(Contents)[0]) && Contents == old(Contents)[1..])
    {
      if old(Valid()) {
        PopTakesRoot(Snapshot(), Contents);
      }
      if root.Some? {
        var tmp := root.value;
        root := NextOf(nextNode, tmp);
        nextNode := nextNode[tmp := None];
        result := Some(tmp);
        size := size - 1;
        if Contents != [] {
          Contents := Contents[1..];
        }
        return true, result;
      }
      result := None;
      ok := false;
    }

    method TryPush(item: T) returns (ok: bool)
      modifies this
      ensures ok <==> old(size) < maxPoolSize
      ensures ok ==> Snapshot() == PushLinks(old(Snapshot()), item) && Contents == [item] + old(Contents)
      ensures !ok ==> unchanged(this)
      ensures ok && old(Valid()) && item !in old(Contents) ==> Valid()
    {
      if size < maxPoolSize {
        if Valid() && item !in Contents {
          PushKeeps(Snapshot(), Contents, item);
        }
        nextNode := nextNode[item := root];
        root := Some(item);
        size := size + 1;
        Contents := [item] + Contents;
        return true;
      }
      return false;
    }
  }
}
