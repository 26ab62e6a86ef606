// src/game/systems/ObjectPool.ts: a bounded pool of reusable game objects,
// built from a free list (`pool`, used as a stack) and the set of objects
// handed out (`active`). A JavaScript Set iterates in insertion order, so the
// set is kept as a sequence without duplicates in that order. The callbacks
// the pool is built with become: `createFn` allocates a new object, `resetFn`
// is counted in the object's `resets`.
module Pooling {
  import opened Common

  /** The state of a pooled game object that the pool reads and writes. */
  class PoolObject {
    var active: bool
    var visible: bool
    var destroyed: bool
    var resets: nat

    /** `createFn()`: a new game object, which Phaser creates active and visible. */
    constructor ()
      ensures active && visible && !destroyed && resets == 0
    {
      active := true;
      visible := true;
      destroyed := false;
      resets := 0;
    }
  }

  /** How many of `k` objects released one after another into a free list of length `n` fit under `max`. */
  function Kept(n: nat, k: nat, max: int): (r: nat)
    ensures r <= k
    ensures n < max ==> n + r <= max
    ensures r == k || n + r >= max
  {
    if max - n <= 0 then 0 else if k < max - n then k else max - n
  }

  /** One more release keeps one more item exactly while there is room. */
  lemma KeptStep(n: nat, k: nat, max: int)
    ensures Kept(n, k + 1, max) == if n + k < max then Kept(n, k, max) + 1 else Kept(n, k, max)
    ensures n + Kept(n, k, max) < max <==> n + k < max
    ensures n + k < max ==> Kept(n, k, max) == k
  {
  }

  /**
   * The free list after releasing `items` one at a time into `pool0`: each
   * goes on top while the list is shorter than `max`, and is destroyed
   * otherwise.
   */
  function Refill<T>(pool0: seq<T>, items: seq<T>, max: int): seq<T>
    decreases |items|
  {
    if items == [] then pool0
    else Refill(if |pool0| < max then pool0 + [items[0]] else pool0, items[1..], max)
  }

  /** Releasing one at a time keeps exactly the first `Kept` items, in order. */
  lemma {:induction false} RefillKeepsPrefix<T>(pool0: seq<T>, items: seq<T>, max: int)
    ensures Refill(pool0, items, max) == pool0 + items[..Kept(|pool0|, |items|, max)]
    decreases |items|
  {
    if items != [] {
      if |pool0| < max {
        RefillKeepsPrefix(pool0 + [items[0]], items[1..], max);
        assert items[..Kept(|pool0|, |items|, max)]
          == [items[0]] + items[1..][..Kept(|pool0| + 1, |items| - 1, max)];
      } else {
        RefillKeepsPrefix(pool0, items[1..], max);
      }
    }
  }

  class ObjectPool {
    var pool: seq<PoolObject>
    /** The handed-out objects, in the order they were added to the set. */
    var active: seq<PoolObject>
    const initial: int
    const max: int

    /** The longest the free list can get: the prefill, or `max` by release. */
    function Cap(): (c: nat)
      ensures c >= initial && c >= max
    {
      if initial >= max && initial >= 0 then initial else if max >= 0 then max else 0
    }

    /**
     * Free list and handed-out set hold no object twice and share none, the
     * free objects are switched off, and the free list is within its bound.
     */
    ghost predicate Valid()
      reads this, pool
    {
      NoDuplicates(pool) && NoDuplicates(active)
      && (forall o :: o in pool ==> o !in active)
      && (forall o :: o in pool ==> !o.active && !o.visible)
      && |pool| <= Cap()
    }

    /** Prefills the free list with `initial` switched-off objects. */
    constructor (initial: int, max: int)
      ensures this.initial == initial && this.max == max
      ensures |pool| == (if initial > 0 then initial else 0) && active == []
      ensures forall o :: o in pool ==> fresh(o) && !o.destroyed && o.resets == 0
      ensures Valid()
    {
      this.initial := initial;
      this.max := max;
      pool := [];
      active := [];
      new;
      var i := 0;
      while i < initial
        invariant |pool| == i && (i <= initial || i == 0) && active == []
        invariant forall o :: o in pool ==> fresh(o) && !o.destroyed && o.resets == 0
        invariant Valid()
      {
        var obj := PushFree();
        i := i + 1;
      }
    }

    /** One object of the prefill: created, switched off and put on the free list. */
    method PushFree() returns (obj: PoolObject)
      requires Valid() && |pool| < Cap()
      modifies this`pool
      ensures Valid() && fresh(obj) && pool == old(pool) + [obj]
      ensures !obj.destroyed && obj.resets == 0
    {
      obj := new PoolObject();
      obj.active := false;
      obj.visible := false;
      NoDuplicatesSnoc(pool, obj);
      pool := pool + [obj];
    }

    /** Pops the top of the free list, or creates an object when it is empty, and hands it out. */
    method Acquire() returns (obj: PoolObject)
      requires Valid()
      modifies this`pool, this`active, if |pool| > 0 then {pool[|pool| - 1]} else {}
      ensures Valid()
      ensures old(pool) != [] ==> obj == old(pool[|pool| - 1]) && pool == old(pool[..|pool| - 1])
      ensures old(pool) != [] ==> obj.destroyed == old(obj.destroyed) && obj.resets == old(obj.resets)
      ensures old(pool) == [] ==> fresh(obj) && pool == [] && !obj.destroyed && obj.resets == 0
      ensures obj !in old(active) && active == old(active) + [obj]
      ensures obj.active && obj.visible
    {
      if |pool| > 0 {
        obj := pool[|pool| - 1];
        NoDuplicatesAt(pool, |pool| - 1);
        pool := pool[..|pool| - 1];
      } else {
        obj := new PoolObject();
      }
      NoDuplicatesSnoc(active, obj);
      active := active + [obj];
      obj.active := true;
      obj.visible := true;
    }

    /**
     * Takes a handed-out object back: it leaves the set, is reset and
     * switched off, and goes on top of the free list while that is shorter
     * than `max`; otherwise it is destroyed. Anything not handed out is left
     * alone.
     */
    method Release(obj: PoolObject)
      requires Valid()
      modifies this`pool, this`active, obj
      ensures Valid()
      ensures obj !in old(active) ==> pool == old(pool) && active == old(active) && unchanged(obj)
      ensures obj in old(active) ==>
        active == RemoveFirst(old(active), obj) && obj !in active
        && !obj.active && !obj.visible && obj.resets == old(obj.resets) + 1
      ensures obj in old(active) && old(|pool|) < max ==>
        pool == old(pool) + [obj] && obj.destroyed == old(obj.destroyed)
      ensures obj in old(active) && old(|pool|) >= max ==> pool == old(pool) && obj.destroyed
    {
      if obj !in active {
        return;
      }
      assert obj !in pool;
      NoDuplicatesRemoveFirst(active, obj);
      active := RemoveFirst(active, obj);
      assert forall o :: o in pool ==> o !in active;
      obj.resets := obj.resets + 1;
      obj.active := false;
      obj.visible := false;
      if |pool| < max {
        NoDuplicatesSnoc(pool, obj);
        pool := pool + [obj];
      } else {
        obj.destroyed := true;
      }
    }

    /**
     * Releases every handed-out object, oldest first: the first ones go back
     * on the free list until it reaches `max`, the rest are destroyed.
     */
    method ReleaseAll()
      requires Valid()
      modifies this`pool, this`active, active
      ensures Valid() && active == []
      ensures pool == old(pool) + old(active)[..Kept(|old(pool)|, |old(active)|, max)]
      ensures forall k :: 0 <= k < |old(active)| ==>
        var o := old(active)[k];
        !o.active && !o.visible && o.resets == old(o.resets) + 1
        && o.destroyed == (old(o.destroyed) || |old(pool)| + k >= max)
    {
      var copy := active;
      ghost var n := |pool|;
      ghost var resets0 := seq(|copy|, k requires 0 <= k < |copy| reads copy => copy[k].resets);
      ghost var destroyed0 := seq(|copy|, k requires 0 <= k < |copy| reads copy => copy[k].destroyed);
      for i := 0 to |copy|
        invariant Draining(i, copy, old(pool), resets0, destroyed0)
      {
        ReleaseNext(i, copy, old(pool), resets0, destroyed0);
      }
    }

    /**
     * `releaseAll` has released `copy[..i]`, the set as it found it: those
     * are switched off and reset, the first of them went on the free list
     * up to `max` and the rest were destroyed; `copy[i..]` are still out and
     * untouched since their `resets0` and `destroyed0` were read.
     */
    ghost predicate Draining(i: nat, copy: seq<PoolObject>, pool0: seq<PoolObject>,
                             resets0: seq<nat>, destroyed0: seq<bool>)
      reads this, pool, copy
    {
      Valid() && i <= |copy| == |resets0| == |destroyed0| && NoDuplicates(copy)
      && active == copy[i..]
      && pool == pool0 + copy[..Kept(|pool0|, i, max)]
      && forall k :: 0 <= k < |copy| ==> Drained(copy[k], k < i, resets0[k], destroyed0[k], |pool0| + k >= max)
    }

    /**
     * An object `releaseAll` found handed out, with the reset count and
     * destroyed flag it had then: once `done`, it is switched off and reset
     * once more, and destroyed if it was or if the free list was `full`;
     * before that, as it was.
     */
    ghost predicate Drained(o: PoolObject, done: bool, resets0: nat, destroyed0: bool, full: bool)
      reads o
    {
      if done then !o.active && !o.visible && o.resets == resets0 + 1 && o.destroyed == (destroyed0 || full)
      else o.resets == resets0 && o.destroyed == destroyed0
    }

    /** One turn of `releaseAll`. */
    method ReleaseNext(i: nat, ghost copy: seq<PoolObject>, ghost pool0: seq<PoolObject>,
                       ghost resets0: seq<nat>, ghost destroyed0: seq<bool>)
      requires Draining(i, copy, pool0, resets0, destroyed0) && i < |copy|
      modifies this`pool, this`active, active[0]
      ensures Draining(i + 1, copy, pool0, resets0, destroyed0)
    {
      var obj := active[0];
      assert obj == copy[i];
      NoDuplicatesAt(copy, i);
      DrainStep(i, copy, pool0, pool, max);
      Release(obj);
      assert active == copy[i + 1..];
      assert pool == pool0 + copy[..Kept(|pool0|, i + 1, max)];
      assert Drained(obj, true, resets0[i], destroyed0[i], |pool0| + i >= max);
      forall k | 0 <= k < |copy| && k != i
        ensures Drained(copy[k], k < i + 1, resets0[k], destroyed0[k], |pool0| + k >= max)
      {
        assert copy[k] != obj;
      }
    }

    /** The number of handed-out objects. */
    function ActiveCount(): nat
      reads this
    {
      |active|
    }

    /** The length of the free list. */
    function PoolSize(): nat
      reads this
    {
      |pool|
    }

    /** The share of all objects that is handed out, in percent; 0 for an empty pool. */
    function Utilization(): (u: real)
      reads this
      ensures 0.0 <= u <= 100.0
      ensures u == 0.0 <==> active == []
      ensures u == 100.0 <==> pool == [] && active != []
    {
      var total := PoolSize() + ActiveCount();
      if total > 0 then
        Percent(ActiveCount(), total);
        (ActiveCount() as real / total as real) * 100.0
      else 0.0
    }

    /**
     * Releases everything, destroys every object on the free list and empties
     * both: nothing the pool ever held survives.
     */
    method Clear()
      requires Valid()
      modifies this`pool, this`active, pool, active
      ensures Valid() && pool == [] && active == []
      ensures forall o :: o in old(pool) || o in old(active) ==> o.destroyed
      ensures forall o :: o in old(active) ==> !o.active && !o.visible && o.resets == old(o.resets) + 1
    {
      ReleaseAll();
      var free := pool;
      for i := 0 to |free|
        invariant forall k :: 0 <= k < i ==> free[k].destroyed
        invariant forall o :: o in old(active) ==> !o.active && !o.visible && o.resets == old(o.resets) + 1
        invariant forall o :: o in old(pool) || o in old(active) ==> o in free || o.destroyed
      {
        free[i].destroyed := true;
      }
      pool := [];
      active := [];
    }
  }

  /**
   * The sequence facts behind one turn of `releaseAll`: the oldest object
   * still out leaves the set first, and the free list grows by it exactly
   * while it is shorter than `max`.
   */
  lemma DrainStep<T>(i: nat, copy: seq<T>, pool0: seq<T>, pool: seq<T>, max: int)
    requires i < |copy| && pool == pool0 + copy[..Kept(|pool0|, i, max)]
    ensures RemoveFirst(copy[i..], copy[i]) == copy[i + 1..]
    ensures (|pool| < max) == (|pool0| + i < max)
    ensures pool0 + copy[..Kept(|pool0|, i + 1, max)] == if |pool| < max then pool + [copy[i]] else pool
  {
    assert copy[i..][0] == copy[i] && copy[i..][1..] == copy[i + 1..];
    assert IndexOf(copy[i..], copy[i]) == 0;
    KeptStep(|pool0|, i, max);
    if |pool0| + i < max {
      assert copy[..i + 1] == copy[..i] + [copy[i]];
      ConcatAssoc(pool0, copy[..i], [copy[i]]);
    }
  }

  /** The share of `a` in `t` objects, in percent, is within 0..100, 0 only for none and 100 only for all. */
  lemma Percent(a: nat, t: nat)
    requires a <= t && t > 0
    ensures 0.0 <= (a as real / t as real) * 100.0 <= 100.0
    ensures (a as real / t as real) * 100.0 == 0.0 <==> a == 0
    ensures (a as real / t as real) * 100.0 == 100.0 <==> a == t
  {
    var q := a as real / t as real;
    assert q * t as real == a as real;
    assert 0.0 <= q <= 1.0;
    if q == 1.0 {
      assert a as real == t as real;
    }
  }
}
