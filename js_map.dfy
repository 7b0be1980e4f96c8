/** JavaScript's `Map` with string keys, as the in-memory repositories use
    it. Besides the key-to-value table it remembers insertion order: the
    iterators `keys()` and `values()` walk the keys in the order in which
    they were first set; setting an existing key keeps its place and
    deleting a key drops it from the order. */
module JsMap {
  import opened Common

  datatype Map<V> = Map(keys: seq<string>, entries: map<string, V>)

  /** `new Map()`. */
  function Empty<V>(): (r: Map<V>)
    ensures Valid(r) && r.keys == []
  {
    Map([], map[])
  }

  /** The order lists every key of the table exactly once. */
  ghost predicate Valid<V>(m: Map<V>)
  {
    Distinct(m.keys) && forall k :: k in m.keys <==> k in m.entries
  }

  /** `m.get(k)`, with `undefined` as `None`. */
  function Get<V>(m: Map<V>, k: string): (r: Option<V>)
    ensures r.Some? <==> k in m.entries
    ensures r.Some? ==> r.value == m.entries[k]
  {
    if k in m.entries then Some(m.entries[k]) else None
  }

  /** `m.has(k)`. */
  function Has<V>(m: Map<V>, k: string): (r: bool)
    ensures r <==> Get(m, k).Some?
  {
    k in m.entries
  }

  /** `m.set(k, v)`: `k` now maps to `v`, every other key is untouched, and
      a new key goes to the end of the order while an existing one stays. */
  function Set<V>(m: Map<V>, k: string, v: V): (r: Map<V>)
    ensures Get(r, k) == Some(v)
    ensures forall k' :: k' != k ==> Get(r, k') == Get(m, k')
    ensures k in m.keys ==> r.keys == m.keys
    ensures k !in m.keys ==> r.keys == m.keys + [k]
    ensures Valid(m) ==> Valid(r)
  {
    var keys := if k in m.keys then m.keys else m.keys + [k];
    Map(keys, m.entries[k := v])
  }

  /** The order without `k`. */
  function RemoveKey(keys: seq<string>, k: string): (r: seq<string>)
    ensures forall k' :: k' in r <==> k' in keys && k' != k
    ensures Distinct(keys) ==> Distinct(r)
  {
    if keys == [] then []
    else
      var rest := RemoveKey(keys[1..], k);
      assert Distinct(keys) ==> Distinct(keys[1..]) && keys[0] !in keys[1..] by {
        if Distinct(keys) {
          forall i, j | 0 <= i < j < |keys| - 1 ensures keys[1..][i] != keys[1..][j] {
            assert keys[1..][i] == keys[i + 1] && keys[1..][j] == keys[j + 1];
          }
          forall i | 0 <= i < |keys| - 1 ensures keys[1..][i] != keys[0] {
            assert keys[1..][i] == keys[i + 1];
          }
        }
      }
      (if keys[0] == k then [] else [keys[0]]) + rest
  }

  /** `m.delete(k)`: `k` is absent afterwards, every other key is
      untouched and keeps its place in the order. */
  function Delete<V>(m: Map<V>, k: string): (r: Map<V>)
    ensures Get(r, k) == None
    ensures forall k' :: k' != k ==> Get(r, k') == Get(m, k')
    ensures r.keys == RemoveKey(m.keys, k)
    ensures Valid(m) ==> Valid(r)
  {
    Map(RemoveKey(m.keys, k), m.entries - {k})
  }

  /** The values stored under `keys`, in that order. */
  function ValuesOf<V>(keys: seq<string>, entries: map<string, V>): (r: seq<V>)
    requires forall k :: k in keys ==> k in entries
    ensures |r| == |keys|
    ensures forall i :: 0 <= i < |keys| ==> r[i] == entries[keys[i]]
  {
    if keys == [] then [] else [entries[keys[0]]] + ValuesOf(keys[1..], entries)
  }

  /** `Array.from(m.values())`: one value per key, in insertion order. */
  function Values<V>(m: Map<V>): (r: seq<V>)
    requires Valid(m)
    ensures |r| == |m.keys|
    ensures forall i :: 0 <= i < |m.keys| ==> r[i] == m.entries[m.keys[i]]
  {
    ValuesOf(m.keys, m.entries)
  }

  /** A value is listed exactly when some key maps to it. */
  lemma ValuesMembers<V>(m: Map<V>, v: V)
    requires Valid(m)
    ensures v in Values(m) <==> exists k :: k in m.entries && m.entries[k] == v
  {
    var r := Values(m);
    if v in r {
      var i :| 0 <= i < |r| && r[i] == v;
      assert m.keys[i] in m.entries;
    }
    if exists k :: k in m.entries && m.entries[k] == v {
      var k :| k in m.entries && m.entries[k] == v;
      assert k in m.keys;
      var i :| 0 <= i < |m.keys| && m.keys[i] == k;
      assert r[i] == v;
    }
  }

  /** Setting `keys[0] := vals[0]`, then `keys[1] := vals[1]`, and so on. */
  function SetAll<V>(m: Map<V>, keys: seq<string>, vals: seq<V>): (r: Map<V>)
    requires |keys| == |vals|
    ensures Valid(m) ==> Valid(r)
  {
    if keys == [] then m
    else Set(SetAll(m, keys[..|keys| - 1], vals[..|vals| - 1]), keys[|keys| - 1], vals[|vals| - 1])
  }

  /** A key that is not among those set keeps its entry. */
  lemma {:induction false} SetAllUntouched<V>(m: Map<V>, keys: seq<string>, vals: seq<V>, k: string)
    requires |keys| == |vals| && k !in keys
    ensures Get(SetAll(m, keys, vals), k) == Get(m, k)
  {
    if keys != [] {
      var n := |keys| - 1;
      assert keys[..n] + [keys[n]] == keys;
      SetAllUntouched(m, keys[..n], vals[..n], k);
    }
  }

  /** The last value set under a key is the one stored. */
  lemma {:induction false} SetAllLast<V>(m: Map<V>, keys: seq<string>, vals: seq<V>, i: nat)
    requires |keys| == |vals| && i < |keys|
    requires forall j :: i < j < |keys| ==> keys[j] != keys[i]
    ensures Get(SetAll(m, keys, vals), keys[i]) == Some(vals[i])
  {
    var n := |keys| - 1;
    if i < n {
      var front := keys[..n];
      assert front[i] == keys[i] && vals[..n][i] == vals[i];
      assert forall j :: i < j < n ==> front[j] != front[i] by {
        forall j | i < j < n ensures front[j] != front[i] {
          assert front[j] == keys[j];
        }
      }
      SetAllLast(m, front, vals[..n], i);
    }
  }

  /** Setting new, distinct keys appends them to the order. */
  lemma {:induction false} SetAllFreshKeys<V>(m: Map<V>, keys: seq<string>, vals: seq<V>)
    requires |keys| == |vals| && Distinct(keys)
    requires forall i :: 0 <= i < |keys| ==> keys[i] !in m.keys
    ensures SetAll(m, keys, vals).keys == m.keys + keys
  {
    if keys != [] {
      var n := |keys| - 1;
      var front := keys[..n];
      assert Distinct(front) by {
        forall i, j | 0 <= i < j < n ensures front[i] != front[j] {
          assert keys[i] != keys[j];
        }
      }
      SetAllFreshKeys(m, front, vals[..n]);
      assert keys[n] !in front by {
        forall i | 0 <= i < n ensures front[i] != keys[n] {
          assert keys[i] != keys[n];
        }
      }
      assert keys == front + [keys[n]];
    }
  }

  /** Setting a key that is absent and deleting it again restores the map. */
  lemma {:induction false} SetDeleteFresh<V>(m: Map<V>, k: string, v: V)
    requires Valid(m) && k !in m.entries
    ensures Delete(Set(m, k, v), k) == m
  {
    RemoveKeyAbsent(m.keys, k);
    RemoveKeyAppend(m.keys, k);
    assert m.entries[k := v] - {k} == m.entries;
  }

  lemma {:induction false} RemoveKeyAbsent(keys: seq<string>, k: string)
    requires k !in keys
    ensures RemoveKey(keys, k) == keys
  {
    if keys != [] {
      RemoveKeyAbsent(keys[1..], k);
      assert keys == [keys[0]] + keys[1..];
    }
  }

  lemma {:induction false} RemoveKeyAppend(keys: seq<string>, k: string)
    ensures RemoveKey(keys + [k], k) == RemoveKey(keys, k)
  {
    if keys == [] {
      assert RemoveKey([k], k) == [] + RemoveKey([], k);
    } else {
      assert (keys + [k])[1..] == keys[1..] + [k];
      RemoveKeyAppend(keys[1..], k);
    }
  }
}
