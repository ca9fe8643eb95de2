/** A JavaScript `Map` keyed by strings: `set` inserts a new key at the end
    of the iteration order, or replaces the value of a key already present
    in its place; `values()` iterates in insertion order. */
module JsMap {
  import opened Wrappers

  /** The keys in insertion order, and the value of each at the same index. */
  datatype Table<V> = Table(keys: seq<string>, values: seq<V>)
  {
    /** One value per key, and each key listed once. */
    ghost predicate Valid() {
      && |keys| == |values|
      && (forall i, j :: 0 <= i < j < |keys| ==> keys[i] != keys[j])
    }
  }

  function Empty<V>(): (t: Table<V>)
    ensures t.Valid() && t.keys == []
  {
    Table([], [])
  }

  /** Where `key` sits in `keys`. */
  function IndexOf(keys: seq<string>, key: string): (i: nat)
    requires key in keys
    ensures i < |keys| && keys[i] == key
    ensures forall j :: 0 <= j < i ==> keys[j] != key
  {
    if keys[0] == key then 0 else 1 + IndexOf(keys[1..], key)
  }

  /** `map.get(key)`; `undefined` when the key was never set. */
  function Get<V>(t: Table<V>, key: string): (r: Option<V>)
    requires t.Valid()
    ensures r.Some? <==> key in t.keys
  {
    if key in t.keys then Some(t.values[IndexOf(t.keys, key)]) else None
  }

  /** In a valid table the value at index `i` is the one stored for the key
      at index `i`. */
  lemma GetAt<V>(t: Table<V>, i: nat)
    requires t.Valid() && i < |t.keys|
    ensures Get(t, t.keys[i]) == Some(t.values[i])
  {
    var j := IndexOf(t.keys, t.keys[i]);
    assert t.keys[j] == t.keys[i];
  }

  /** `map.set(key, value)` */
  function Set<V>(t: Table<V>, key: string, value: V): (r: Table<V>)
    requires t.Valid()
    ensures r.Valid()
    ensures key in t.keys ==> r.keys == t.keys
    ensures key !in t.keys ==> r.keys == t.keys + [key] && r.values == t.values + [value]
  {
    if key in t.keys then Table(t.keys, t.values[IndexOf(t.keys, key) := value])
    else Table(t.keys + [key], t.values + [value])
  }

  /** After `set`, `get` of the same key gives the new value, and every
      other key keeps its value. */
  lemma {:induction false} GetAfterSet<V>(t: Table<V>, key: string, value: V, other: string)
    requires t.Valid()
    ensures Get(Set(t, key, value), key) == Some(value)
    ensures other != key ==> Get(Set(t, key, value), other) == Get(t, other)
  {
    var r := Set(t, key, value);
    if key in t.keys {
      GetAt(r, IndexOf(t.keys, key));
    } else {
      GetAt(r, |t.keys|);
    }
    if other != key && other in t.keys {
      var i := IndexOf(t.keys, other);
      GetAt(t, i);
      GetAt(r, i);
    }
  }

  /** `Array.from(map.values())`: one value per key, in insertion order. */
  function Values<V>(t: Table<V>): (vs: seq<V>)
    requires t.Valid()
    ensures |vs| == |t.keys|
    ensures forall i :: 0 <= i < |vs| ==> Get(t, t.keys[i]) == Some(vs[i])
  {
    forall i | 0 <= i < |t.values| { GetAt(t, i); }
    t.values
  }

  /** Setting a key that is already present changes neither the number of
      keys nor their order and leaves the other values in place; setting a
      new one appends its value. */
  lemma {:induction false} SetKeepsOthers<V>(t: Table<V>, key: string, value: V)
    requires t.Valid()
    ensures var vs, ws := Values(t), Values(Set(t, key, value));
      && (key in t.keys ==> |ws| == |vs| && ws[IndexOf(t.keys, key)] == value)
      && (key !in t.keys ==> ws == vs + [value])
      && (forall i :: 0 <= i < |vs| && t.keys[i] != key ==> ws[i] == vs[i])
  {
  }
}
