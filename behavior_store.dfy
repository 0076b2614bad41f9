/**
 * The bounded breadcrumb log `BehaviorStore`. The repository carries three
 * copies of it that differ only in the type of their entries; the class
 * below is generic in that type and serves all three.
 *
 * `push` evicts the oldest entry when the length EQUALS the configured
 * maximum, and `clear` replaces the stack by a fresh empty array.
 */
module BehaviorStore {
  import opened Wrappers

  /** `stack.shift()` on a value: drops the first element, if any. */
  function Drop1<T>(s: seq<T>): (r: seq<T>)
    ensures |r| == if s == [] then 0 else |s| - 1
    ensures s != [] ==> [s[0]] + r == s
  {
    if s == [] then [] else s[1..]
  }

  /** The stack after `push(v)` with maximum `max`. */
  function PushSpec<T>(s: seq<T>, max: int, v: T): seq<T> {
    (if |s| == max then Drop1(s) else s) + [v]
  }

  /** The stack after pushing every value of `vs`, in order. */
  function PushAll<T>(s: seq<T>, max: int, vs: seq<T>): seq<T>
    decreases |vs|
  {
    if vs == [] then s else PushAll(PushSpec(s, max, vs[0]), max, vs[1..])
  }

  /** The last `n` elements of `s` (all of them when there are fewer). */
  function LastN<T>(s: seq<T>, n: nat): (r: seq<T>)
    ensures |r| == if |s| < n then |s| else n
    ensures r == s[|s| - |r|..]
  {
    if |s| <= n then s else s[|s| - n..]
  }

  /** A push leaves `v` newest and keeps the older entries in order. */
  lemma PushNewest<T>(s: seq<T>, max: int, v: T)
    ensures var r := PushSpec(s, max, v);
      && r[|r| - 1] == v
      && (|s| != max ==> r == s + [v] && |r| == |s| + 1)
      && (|s| == max && s != [] ==> r == s[1..] + [v] && |r| == |s|)
  {
  }

  /** At capacity (max >= 1) exactly the oldest entry goes and the length stays. */
  lemma PushAtCapacity<T>(s: seq<T>, max: int, v: T)
    requires max >= 1 && |s| == max
    ensures |PushSpec(s, max, v)| == max
    ensures PushSpec(s, max, v) == s[1..] + [v]
  {
  }

  /** With max >= 1 a store that is within its bound stays within it. */
  lemma {:induction false} PushAllBounded<T>(s: seq<T>, max: int, vs: seq<T>)
    requires max >= 1 && |s| <= max
    ensures |PushAll(s, max, vs)| <= max
    decreases |vs|
  {
    if vs != [] {
      PushAllBounded(PushSpec(s, max, vs[0]), max, vs[1..]);
    }
  }

  /**
   * With max >= 1 and a store within its bound, pushing `vs` leaves exactly
   * the newest `max` of the old entries followed by `vs`, oldest first.
   */
  lemma {:induction false} PushAllKeepsLastN<T>(s: seq<T>, max: int, vs: seq<T>)
    requires max >= 1 && |s| <= max
    ensures PushAll(s, max, vs) == LastN(s + vs, max)
    decreases |vs|
  {
    if vs != [] {
      var s' := PushSpec(s, max, vs[0]);
      PushIsLastN(s, max, vs[0]);
      calc {
        PushAll(s, max, vs);
        PushAll(s', max, vs[1..]);
        { PushAllKeepsLastN(s', max, vs[1..]); }
        LastN(s' + vs[1..], max);
        { LastNAppend(s + [vs[0]], vs[1..], max); }
        LastN(s + [vs[0]] + vs[1..], max);
        { assert s + [vs[0]] + vs[1..] == s + vs; }
        LastN(s + vs, max);
      }
    }
  }

  /** One push into a store within its bound keeps the newest `max` entries. */
  lemma PushIsLastN<T>(s: seq<T>, max: int, v: T)
    requires max >= 1 && |s| <= max
    ensures PushSpec(s, max, v) == LastN(s + [v], max)
    ensures |PushSpec(s, max, v)| <= max
  {
    if |s| == max {
      assert (s + [v])[1..] == s[1..] + [v];
    }
  }

  lemma LastNAppend<T>(a: seq<T>, b: seq<T>, n: nat)
    ensures LastN(LastN(a, n) + b, n) == LastN(a + b, n)
  {
    var la := LastN(a, n);
    assert la + b == (a + b)[|a| - |la|..];
  }

  /** After N pushes into a fresh store with max >= 1: the last min(N, max) values. */
  lemma PushesFromEmpty<T>(max: int, vs: seq<T>)
    requires max >= 1
    ensures PushAll([], max, vs) == LastN(vs, max)
  {
    PushAllKeepsLastN([], max, vs);
    assert [] + vs == vs;
  }

  /** Once the length has passed the maximum, or the maximum is negative, nothing is evicted. */
  lemma {:induction false} PushAllNoEviction<T>(s: seq<T>, max: int, vs: seq<T>)
    requires max < |s| || max < 0
    ensures PushAll(s, max, vs) == s + vs
    decreases |vs|
  {
    if vs != [] {
      PushAllNoEviction(s + [vs[0]], max, vs[1..]);
      assert s + [vs[0]] + vs[1..] == s + vs;
    }
  }

  /** With max = 0 the strict equality test evicts nothing: the store only grows. */
  lemma ZeroCapacityNeverEvicts<T>(vs: seq<T>)
    ensures PushAll([], 0, vs) == vs
  {
    if vs != [] {
      assert PushSpec([], 0, vs[0]) == [vs[0]];
      PushAllNoEviction([vs[0]], 0, vs[1..]);
    }
  }

  class BehaviorStore<T> {
    var stack: seq<T>
    const maxBehaviorRecords: int

    constructor (maxBehaviorRecords: int)
      ensures stack == [] && this.maxBehaviorRecords == maxBehaviorRecords
    {
      this.maxBehaviorRecords := maxBehaviorRecords;
      stack := [];
    }

    /** `push(value)`: evict the oldest entry when full, then append. */
    method Push(value: T)
      modifies this`stack
      ensures stack == PushSpec(old(stack), maxBehaviorRecords, value)
      ensures stack[|stack| - 1] == value
      ensures |old(stack)| != maxBehaviorRecords ==> stack == old(stack) + [value]
      ensures |old(stack)| == maxBehaviorRecords && old(stack) != [] ==> stack == old(stack)[1..] + [value]
    {
      var n := Length();
      if n == maxBehaviorRecords {
        var _ := Shift();
      }
      stack := stack + [value];
    }

    /** `shift()`: removes and returns the oldest entry; `undefined` when empty. */
    method Shift() returns (r: Option<T>)
      modifies this`stack
      ensures old(stack) == [] ==> r == None && stack == []
      ensures old(stack) != [] ==> r == Some(old(stack)[0]) && stack == old(stack)[1..]
    {
      if stack == [] {
        r := None;
      } else {
        r := Some(stack[0]);
        stack := stack[1..];
      }
    }

    method Length() returns (n: nat)
      ensures n == |stack|
    {
      n := |stack|;
    }

    /** `get()`: the entries, oldest first. */
    method Get() returns (s: seq<T>)
      ensures s == stack
    {
      s := stack;
    }

    /** `clear()`: a fresh empty stack. */
    method Clear()
      modifies this`stack
      ensures stack == []
    {
      stack := [];
    }
  }

  /** A trail taken with `get` keeps its entries after `clear`. */
  method ClearKeepsEarlierTrail<T>(a: T, b: T)
  {
    var store := new BehaviorStore<T>(2);
    store.Push(a);
    store.Push(b);
    var trail := store.Get();
    store.Clear();
    var n := store.Length();
    assert n == 0 && trail == [a, b];
  }
}
