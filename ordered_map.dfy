/** A JavaScript `Map`: keys are kept in insertion order, setting an existing key
    replaces its value in place, and deleting a key removes it from the order. */
module OrderedMap {

  datatype RawMap<K, V> = RawMap(keys: seq<K>, items: map<K, V>)

  /** The keys at positions `i` and `j` differ. Distinctness is stated through this
      predicate so that it is only brought to bear where a proof asks for it. */
  ghost predicate Apart<K>(keys: seq<K>, i: int, j: int)
    requires 0 <= i < |keys| && 0 <= j < |keys|
  {
    keys[i] != keys[j]
  }

  /** No element occurs twice. */
  ghost predicate Distinct<K>(keys: seq<K>)
  {
    forall i, j | 0 <= i < j < |keys| :: Apart(keys, i, j)
  }

  lemma DistinctAt<K>(keys: seq<K>, i: int, j: int)
    requires Distinct(keys)
    requires 0 <= i < |keys| && 0 <= j < |keys| && i != j
    ensures keys[i] != keys[j]
  {
    if i < j {
      assert Apart(keys, i, j);
    } else {
      assert Apart(keys, j, i);
    }
  }

  /** A slice of a sequence without repetitions has none either. */
  lemma DistinctSlice<K>(keys: seq<K>, lo: int, hi: int)
    requires Distinct(keys)
    requires 0 <= lo <= hi <= |keys|
    ensures Distinct(keys[lo..hi])
  {
    var s := keys[lo..hi];
    forall i, j | 0 <= i < j < |s| ensures Apart(s, i, j) {
      DistinctAt(keys, lo + i, lo + j);
    }
  }

  /** The keys are distinct and are exactly the keys of `items`. */
  ghost predicate WellFormed<K, V>(m: RawMap<K, V>)
  {
    && Distinct(m.keys)
    && (forall k | k in m.items :: k in m.keys)
    && (forall i | 0 <= i < |m.keys| :: m.keys[i] in m.items)
  }

  type OMap<K, V> = m: RawMap<K, V> | WellFormed(m) witness RawMap([], map[])

  function Empty<K, V>(): (r: OMap<K, V>)
    ensures r.keys == [] && r.items == map[]
  {
    RawMap([], map[])
  }

  /** No key occurs twice in the order. */
  lemma KeysDistinct<K, V>(m: OMap<K, V>, i: int, j: int)
    requires 0 <= i < |m.keys| && 0 <= j < |m.keys| && i != j
    ensures m.keys[i] != m.keys[j]
  {
    DistinctAt(m.keys, i, j);
  }

  /** The size of a well-formed map is the length of its key order. */
  lemma {:induction false} SizeIsKeyCount<K, V>(m: OMap<K, V>)
    ensures |m.items| == |m.keys|
    decreases |m.keys|
  {
    if |m.keys| > 0 {
      var k := m.keys[|m.keys| - 1];
      var init := m.keys[..|m.keys| - 1];
      DistinctSlice(m.keys, 0, |m.keys| - 1);
      forall i | 0 <= i < |init| ensures init[i] in m.items - {k} {
        KeysDistinct(m, i, |m.keys| - 1);
      }
      forall x | x in m.items - {k} ensures x in init {
        var i :| 0 <= i < |m.keys| && m.keys[i] == x;
        assert i != |m.keys| - 1;
        assert init[i] == x;
      }
      var rest: OMap<K, V> := RawMap(init, m.items - {k});
      SizeIsKeyCount(rest);
      assert m.items.Keys == rest.items.Keys + {k};
    } else {
      assert m.items == map[];
    }
  }

  /** `map.set(k, v)`: a new key goes to the end of the order, an existing key keeps its place. */
  function Put<K, V>(m: OMap<K, V>, k: K, v: V): (r: OMap<K, V>)
    ensures r.items == m.items[k := v]
    ensures r.keys == if k in m.items then m.keys else m.keys + [k]
  {
    if k in m.items then RawMap(m.keys, m.items[k := v])
    else
      AppendWellFormed(m, k, v);
      RawMap(m.keys + [k], m.items[k := v])
  }

  lemma AppendWellFormed<K, V>(m: OMap<K, V>, k: K, v: V)
    requires k !in m.items
    ensures WellFormed(RawMap(m.keys + [k], m.items[k := v]))
  {
    var keys := m.keys + [k];
    forall i, j | 0 <= i < j < |keys| ensures Apart(keys, i, j) {
      if j < |m.keys| {
        KeysDistinct(m, i, j);
      } else {
        assert keys[i] == m.keys[i] && keys[j] == k;
      }
    }
  }

  /** Deleting the first key in the order, as `map.delete(map.keys().next().value)` does. */
  function RemoveFirst<K, V>(m: OMap<K, V>): (r: OMap<K, V>)
    requires |m.keys| > 0
    ensures r.keys == m.keys[1..]
    ensures r.items == m.items - {m.keys[0]}
  {
    RemoveFirstWellFormed(m);
    RawMap(m.keys[1..], m.items - {m.keys[0]})
  }

  lemma RemoveFirstWellFormed<K, V>(m: OMap<K, V>)
    requires |m.keys| > 0
    ensures WellFormed(RawMap(m.keys[1..], m.items - {m.keys[0]}))
  {
    var keys := m.keys[1..];
    DistinctSlice(m.keys, 1, |m.keys|);
    assert m.keys[1..|m.keys|] == keys;
    forall i | 0 <= i < |keys| ensures keys[i] in m.items - {m.keys[0]} {
      KeysDistinct(m, 0, i + 1);
    }
    forall x | x in m.items - {m.keys[0]} ensures x in keys {
      var i :| 0 <= i < |m.keys| && m.keys[i] == x;
      assert keys[i - 1] == x;
    }
  }

  /** The first `n` keys in the order deleted one at a time, oldest first. */
  function RemoveFirsts<K, V>(m: OMap<K, V>, n: nat): (r: OMap<K, V>)
    requires n <= |m.keys|
    ensures r.keys == m.keys[n..]
    decreases n
  {
    if n == 0 then m
    else
      var r := RemoveFirsts(RemoveFirst(m), n - 1);
      DropAfterDrop(m.keys, n);
      r
  }

  /** Deleting `n` first keys is deleting the first one, then `n - 1` more. */
  lemma RemoveFirstsUnfold<K, V>(m: OMap<K, V>, n: nat)
    requires 0 < n <= |m.keys|
    ensures |RemoveFirst(m).keys| == |m.keys| - 1
    ensures RemoveFirsts(m, n) == RemoveFirsts(RemoveFirst(m), n - 1)
  {
  }

  lemma DropAfterDrop<T>(s: seq<T>, n: nat)
    requires 1 <= n <= |s|
    ensures s[1..][n - 1..] == s[n..]
  {
  }

  /** Deleting keys leaves the values of the remaining ones as they were. */
  lemma {:induction false} RemoveFirstsKeep<K, V>(m: OMap<K, V>, n: nat)
    requires n <= |m.keys|
    ensures forall k | k in RemoveFirsts(m, n).items :: k in m.items && RemoveFirsts(m, n).items[k] == m.items[k]
    decreases n
  {
    if n > 0 {
      RemoveFirstsKeep(RemoveFirst(m), n - 1);
    }
  }

  /** `Array.from(map.values())`: the values in key order. */
  function Values<K, V>(m: OMap<K, V>): (r: seq<V>)
    ensures |r| == |m.keys|
    ensures forall i :: 0 <= i < |m.keys| ==> r[i] == m.items[m.keys[i]]
  {
    seq(|m.keys|, i requires 0 <= i < |m.keys| => m.items[m.keys[i]])
  }
}
