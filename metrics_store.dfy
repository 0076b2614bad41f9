/**
 * The keyed metrics store of the web plugins: a `Map` from metric name to
 * a value. `set` overwrites; `add` stores a fresh array that is the old
 * array with the value appended; `getValues` turns the map into a plain
 * object.
 */
module MetricsStore {
  import opened Wrappers

  /**
   * What a key holds, as `add` tells the cases apart: a truthy value that
   * is not an array (a metrics object, which has no `concat`), an array,
   * or a falsy value such as `0`, `""` or `null`.
   */
  datatype Slot<V> = One(value: V) | Many(values: seq<V>) | Falsy

  /** The table `add(key, value)` leaves when `key` is absent or holds an array or a falsy value. */
  function Appended<V>(state: map<string, Slot<V>>, key: string, value: V): (r: map<string, Slot<V>>)
    requires key !in state || !state[key].One?
    ensures r.Keys == state.Keys + {key}
    ensures r[key].Many? && |r[key].values| >= 1 && r[key].values[|r[key].values| - 1] == value
    ensures key in state && state[key].Many? ==> r[key].values[..|r[key].values| - 1] == state[key].values
    ensures key !in state || state[key].Falsy? ==> r[key].values == [value]
    ensures forall k :: k in state && k != key ==> r[k] == state[k]
  {
    state[key := Many((if key in state && state[key].Many? then state[key].values else []) + [value])]
  }

  class MetricsStore<V> {
    var state: map<string, Slot<V>>

    constructor ()
      ensures state == map[]
    {
      state := map[];
    }

    /** `set(key, value)`: overwrites `key` with any value, every other key is unchanged. */
    method Set(key: string, value: Slot<V>)
      modifies this`state
      ensures state == old(state)[key := value]
      ensures key in state && state[key] == value
      ensures forall k :: k in old(state) && k != key ==> k in state && state[k] == old(state)[k]
    {
      state := state[key := value];
    }

    /**
     * `add(key, value)`: `[value]` for an absent key or a falsy value,
     * `old ++ [value]` for a key holding an array, whoever stored it. A
     * truthy non-array value has no `concat`: the call throws and nothing
     * changes (`ok` is false).
     */
    method Add(key: string, value: V) returns (ok: bool)
      modifies this`state
      ensures key !in old(state) || old(state)[key].Falsy? ==> ok && state == old(state)[key := Many([value])]
      ensures key in old(state) && old(state)[key].Many? ==>
        ok && state == old(state)[key := Many(old(state)[key].values + [value])]
      ensures key in old(state) && old(state)[key].One? ==> !ok && state == old(state)
      ensures ok ==> state == Appended(old(state), key, value)
    {
      if key !in state || state[key].Falsy? {
        state := state[key := Many([value])];
        ok := true;
      } else if state[key].Many? {
        state := state[key := Many(state[key].values + [value])];
        ok := true;
      } else {
        ok := false;
      }
    }

    /** `get(key)`: `undefined` for an absent key. */
    method Get(key: string) returns (r: Option<Slot<V>>)
      ensures r.Some? <==> key in state
      ensures r.Some? ==> r.value == state[key]
    {
      r := if key in state then Some(state[key]) else None;
    }

    method Has(key: string) returns (b: bool)
      ensures b <==> key in state
    {
      b := key in state;
    }

    method Clear()
      modifies this`state
      ensures state == map[]
    {
      state := map[];
    }

    /** `getValues()`: a record with exactly the stored keys and their values. */
    method GetValues() returns (m: map<string, Slot<V>>)
      ensures m.Keys == state.Keys
      ensures forall k :: k in m ==> m[k] == state[k]
    {
      m := map k | k in state :: state[k];
    }
  }

  /** `set` twice keeps the second value; `add` twice builds `[v1, v2]`. */
  method OverwriteAndAppend<V>(k: string, j: string, v1: V, v2: V)
    requires k != j
  {
    var store := new MetricsStore<V>();
    store.Set(k, One(v1));
    store.Set(k, One(v2));
    var got := store.Get(k);
    var has := store.Has(k);
    assert got == Some(One(v2)) && has;
    assert j !in store.state;
    var ok1 := store.Add(j, v1);
    var ok2 := store.Add(j, v2);
    assert [v1] + [v2] == [v1, v2];
    got := store.Get(j);
    assert ok1 && ok2 && got == Some(Many([v1, v2]));
    store.Clear();
    has := store.Has(k);
    assert !has;
  }

  /** An array stored by `set` is extended by `add`; a falsy value is replaced by a fresh array. */
  method SetThenAdd<V>(k: string, j: string, v1: V, v2: V)
    requires k != j
  {
    var store := new MetricsStore<V>();
    store.Set(k, Many([v1]));
    var ok1 := store.Add(k, v2);
    assert [v1] + [v2] == [v1, v2];
    assert ok1 && store.state[k] == Many([v1, v2]);
    store.Set(j, Falsy);
    var ok2 := store.Add(j, v2);
    assert ok2 && store.state[j] == Many([v2]) && store.state[k] == Many([v1, v2]);
  }
}
