/**
 * The engine's event dispatcher: per event type, a duplicate-free list of
 * listeners, compared by identity. A listener is a value of type `L`; what
 * it does when called is given as the dispatcher operations it performs.
 */
module EventDispatch {

  predicate NoDuplicates<L(==)>(s: seq<L>) {
    forall i, j :: 0 <= i < j < |s| ==> s[i] != s[j]
  }

  predicate AllListsDistinct<L(==)>(m: map<string, seq<L>>) {
    forall t :: t in m ==> NoDuplicates(m[t])
  }

  /** `indexOf`: the first position of `l`, or -1. */
  function IndexOf<L(==)>(s: seq<L>, l: L): (r: int)
    ensures -1 <= r < |s|
    ensures r == -1 <==> l !in s
    ensures r >= 0 ==> s[r] == l && l !in s[..r]
  {
    if s == [] then -1
    else if s[0] == l then 0
    else
      var k := IndexOf(s[1..], l);
      assert s[1..][..if k < 0 then 0 else k] == s[1..if k < 0 then 1 else k + 1];
      if k == -1 then -1 else k + 1
  }

  /** The listener table after `addEventListener(t, l)`. */
  function AddSpec<L(==)>(m: map<string, seq<L>>, t: string, l: L): (r: map<string, seq<L>>)
    ensures t in r && l in r[t]
    ensures r.Keys == m.Keys + {t}
    ensures forall u :: u in m && u != t ==> r[u] == m[u]
    ensures t in m && l in m[t] ==> r == m
    ensures t in m && l !in m[t] ==> r[t] == m[t] + [l]
    ensures t !in m ==> r[t] == [l]
  {
    var list := if t in m then m[t] else [];
    if IndexOf(list, l) == -1 then m[t := list + [l]] else m
  }

  /** The listener table after `removeEventListener(t, l)`: `splice` at the first index. */
  function RemoveSpec<L(==)>(m: map<string, seq<L>>, t: string, l: L): (r: map<string, seq<L>>)
    ensures r.Keys == m.Keys
    ensures forall u :: u in m && u != t ==> r[u] == m[u]
    ensures t !in m || l !in m[t] ==> r == m
    ensures t in m && l in m[t] ==>
      exists k :: 0 <= k < |m[t]| && m[t][k] == l && l !in m[t][..k] && r[t] == m[t][..k] + m[t][k + 1..]
  {
    if t !in m then m
    else
      var k := IndexOf(m[t], l);
      if k == -1 then m
      else
        assert m[t][k] == l && l !in m[t][..k];
        m[t := m[t][..k] + m[t][k + 1..]]
  }

  /** Adding keeps every list duplicate-free, and adding twice is adding once. */
  lemma AddKeepsDistinct<L>(m: map<string, seq<L>>, t: string, l: L)
    requires AllListsDistinct(m)
    ensures AllListsDistinct(AddSpec(m, t, l))
    ensures AddSpec(AddSpec(m, t, l), t, l) == AddSpec(m, t, l)
  {
  }

  /** Removing a listener from a duplicate-free list leaves it absent, and every other listener of that list stays. */
  lemma {:induction false} RemoveRemoves<L>(m: map<string, seq<L>>, t: string, l: L)
    requires AllListsDistinct(m)
    ensures AllListsDistinct(RemoveSpec(m, t, l))
    ensures t in m ==> l !in RemoveSpec(m, t, l)[t]
    ensures t in m ==> forall x :: x != l ==> (x in RemoveSpec(m, t, l)[t] <==> x in m[t])
  {
    if t in m && l in m[t] {
      var s := m[t];
      var k := IndexOf(s, l);
      var r := s[..k] + s[k + 1..];
      assert RemoveSpec(m, t, l)[t] == r;
      forall i | 0 <= i < |r|
        ensures r[i] != l
      {
        if i < k { assert r[i] == s[i]; } else { assert r[i] == s[i + 1]; }
      }
      forall i, j | 0 <= i < j < |r|
        ensures r[i] != r[j]
      {
        var i', j' := if i < k then i else i + 1, if j < k then j else j + 1;
        assert r[i] == s[i'] && r[j] == s[j'];
      }
      forall x | x != l
        ensures x in r <==> x in s
      {
        if x in s {
          var i :| 0 <= i < |s| && s[i] == x;
          assert i != k;
          if i < k { assert r[i] == x; } else { assert r[i - 1] == x; }
        }
      }
    }
  }

  /** What a listener does to the dispatcher while it is being called. */
  datatype Op<L> = Add(t: string, l: L) | Remove(t: string, l: L)

  function ApplyOp<L(==)>(m: map<string, seq<L>>, op: Op<L>): map<string, seq<L>> {
    match op
    case Add(t, l) => AddSpec(m, t, l)
    case Remove(t, l) => RemoveSpec(m, t, l)
  }

  lemma ApplyOpKeepsDistinct<L>(m: map<string, seq<L>>, op: Op<L>)
    requires AllListsDistinct(m)
    ensures AllListsDistinct(ApplyOp(m, op))
  {
    match op
    case Add(t, l) => AddKeepsDistinct(m, t, l);
    case Remove(t, l) => RemoveRemoves(m, t, l);
  }

  /** The table after the operations, in order. */
  function ApplyOps<L(==)>(m: map<string, seq<L>>, ops: seq<Op<L>>): map<string, seq<L>> {
    if ops == [] then m else ApplyOp(ApplyOps(m, ops[..|ops| - 1]), ops[|ops| - 1])
  }

  lemma {:induction false} ApplyOpsAppend<L>(m: map<string, seq<L>>, a: seq<Op<L>>, b: seq<Op<L>>)
    ensures ApplyOps(m, a + b) == ApplyOps(ApplyOps(m, a), b)
    decreases |b|
  {
    if b != [] {
      assert (a + b)[..|a + b| - 1] == a + b[..|b| - 1];
      ApplyOpsAppend(m, a, b[..|b| - 1]);
    } else {
      assert a + b == a;
    }
  }

  /** Whatever the listeners do, no list ever holds a listener twice. */
  lemma {:induction false} ApplyOpsKeepsDistinct<L>(m: map<string, seq<L>>, ops: seq<Op<L>>)
    requires AllListsDistinct(m)
    ensures AllListsDistinct(ApplyOps(m, ops))
  {
    if ops != [] {
      ApplyOpsKeepsDistinct(m, ops[..|ops| - 1]);
      ApplyOpKeepsDistinct(ApplyOps(m, ops[..|ops| - 1]), ops[|ops| - 1]);
    }
  }

  /** The operations the called listeners perform, in call order. */
  function Reactions<L>(called: seq<L>, react: L -> seq<Op<L>>): seq<Op<L>> {
    if called == [] then [] else Reactions(called[..|called| - 1], react) + react(called[|called| - 1])
  }

  lemma ReactionsSnoc<L>(called: seq<L>, x: L, react: L -> seq<Op<L>>)
    ensures Reactions(called + [x], react) == Reactions(called, react) + react(x)
  {
    assert (called + [x])[..|called|] == called;
  }

  /** `event.target`: never set, set to a dispatcher, or reset to `null`. */
  datatype Target<L(==)> = Unset | Dispatching(d: EventDispatcher<L>) | Null

  /** `CustomEvent`. */
  class CustomEvent<L(==)> {
    const eventType: string
    var target: Target<L>

    constructor (eventType: string)
      ensures this.eventType == eventType && target == Unset
    {
      this.eventType := eventType;
      target := Unset;
    }
  }

  class EventDispatcher<L(==)> {
    var listeners: map<string, seq<L>>

    predicate Valid()
      reads this
    {
      AllListsDistinct(listeners)
    }

    constructor ()
      ensures Valid() && listeners == map[]
    {
      listeners := map[];
    }

    /** `addEventListener`. */
    method AddEventListener(t: string, l: L)
      requires Valid()
      modifies this`listeners
      ensures Valid()
      ensures listeners == AddSpec(old(listeners), t, l)
    {
      AddKeepsDistinct(listeners, t, l);
      if t !in listeners {
        listeners := listeners[t := []];
      }
      if IndexOf(listeners[t], l) == -1 {
        listeners := listeners[t := listeners[t] + [l]];
      }
    }

    /** `hasEventListener`. */
    method HasEventListener(t: string, l: L) returns (b: bool)
      ensures b <==> t in listeners && l in listeners[t]
    {
      b := t in listeners && IndexOf(listeners[t], l) != -1;
    }

    /** `removeEventListener`. */
    method RemoveEventListener(t: string, l: L)
      requires Valid()
      modifies this`listeners
      ensures Valid()
      ensures listeners == RemoveSpec(old(listeners), t, l)
    {
      RemoveRemoves(listeners, t, l);
      if t in listeners {
        var index := IndexOf(listeners[t], l);
        if index != -1 {
          listeners := listeners[t := listeners[t][..index] + listeners[t][index + 1..]];
        }
      }
    }

    /** What one listener does to the dispatcher while it is called. */
    method Perform(ops: seq<Op<L>>)
      requires Valid()
      modifies this`listeners
      ensures Valid()
      ensures listeners == ApplyOps(old(listeners), ops)
    {
      var j := 0;
      while j < |ops|
        invariant 0 <= j <= |ops|
        invariant Valid()
        invariant listeners == ApplyOps(old(listeners), ops[..j])
      {
        assert ops[..j + 1][..j] == ops[..j];
        match ops[j] {
          case Add(t, l) => AddEventListener(t, l);
          case Remove(t, l) => RemoveEventListener(t, l);
        }
        j := j + 1;
      }
      assert ops[..|ops|] == ops;
    }

    /**
     * `dispatchEvent`: calls, in order, exactly the listeners registered for
     * the event's type when dispatch starts, with the event's target set to
     * this dispatcher, then resets the target to `null`; for a type that has
     * no list, nothing happens. `called` and `targets` record each call and
     * the target it saw.
     */
    method DispatchEvent(event: CustomEvent<L>, react: L -> seq<Op<L>>)
      returns (called: seq<L>, targets: seq<Target<L>>)
      requires Valid()
      modifies this`listeners, event`target
      ensures Valid()
      ensures event.eventType !in old(listeners) ==>
        called == [] && targets == [] && listeners == old(listeners) && event.target == old(event.target)
      ensures event.eventType in old(listeners) ==>
        && called == old(listeners)[event.eventType]
        && |targets| == |called|
        && (forall i :: 0 <= i < |targets| ==> targets[i] == Dispatching(this))
        && event.target == Null
        && listeners == ApplyOps(old(listeners), Reactions(called, react))
    {
      called, targets := [], [];
      if event.eventType !in listeners {
        return;
      }
      event.target := Dispatching(this);
      var snapshot := listeners[event.eventType];
      ghost var start := listeners;
      var i := 0;
      while i < |snapshot|
        invariant 0 <= i <= |snapshot|
        invariant Valid()
        invariant called == snapshot[..i] && |targets| == i
        invariant forall k :: 0 <= k < i ==> targets[k] == Dispatching(this)
        invariant event.target == Dispatching(this)
        invariant listeners == ApplyOps(start, Reactions(called, react))
      {
        var listener := snapshot[i];
        var ops := react(listener);
        ghost var before := Reactions(called, react);
        ReactionsSnoc(called, listener, react);
        assert snapshot[..i + 1] == snapshot[..i] + [listener];
        called, targets := called + [listener], targets + [event.target];
        Perform(ops);
        ApplyOpsAppend(start, before, ops);
        i := i + 1;
      }
      assert snapshot[..|snapshot|] == snapshot;
      event.target := Null;
    }
  }

  /** A listener that removes itself and adds another is still called once; the new one is not. */
  method SnapshotDispatch(a: int, b: int)
    requires a != b
  {
    var d := new EventDispatcher<int>();
    d.AddEventListener("load", a);
    var e := new CustomEvent<int>("load");
    var react := (x: int) => if x == a then [Remove("load", a), Add("load", b)] else [];
    var called, targets := d.DispatchEvent(e, react);
    assert called == [a];
    assert e.target == Null;
  }
}
