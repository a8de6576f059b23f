/** A string-keyed JavaScript `Map`: its entries iterate in insertion order, and
    setting a key that is already present keeps that key's position. */
module OrderedMaps {
  import opened Wrappers

  datatype OrderedMap<V> = OrderedMap(keys: seq<string>, values: map<string, V>)

  /** No key twice in the iteration order. */
  predicate Distinct(ks: seq<string>)
  {
    forall i, j :: 0 <= i < j < |ks| ==> ks[i] != ks[j]
  }

  /** The iteration order lists exactly the keys present, each once. */
  ghost predicate Valid<V>(m: OrderedMap<V>)
  {
    && Distinct(m.keys)
    && (forall k :: k in m.values <==> k in m.keys)
  }

  function EmptyMap<V>(): (m: OrderedMap<V>)
    ensures Valid(m) && m.keys == [] && m.values == map[]
  {
    OrderedMap([], map[])
  }

  /** `m.get(k)`: the value, or `undefined` for a key that is not present. */
  function Get<V>(m: OrderedMap<V>, k: string): (r: Option<V>)
    ensures r.Some? <==> k in m.values
    ensures r.Some? ==> r.value == m.values[k]
  {
    if k in m.values then Some(m.values[k]) else None
  }

  /** `m.set(k, v)`: a new key goes to the end of the iteration order, an existing
      key keeps its place. */
  function Set<V>(m: OrderedMap<V>, k: string, v: V): (r: OrderedMap<V>)
    requires Valid(m)
    ensures Valid(r)
    ensures k in m.values ==> r.keys == m.keys
    ensures k !in m.values ==> r.keys == m.keys + [k]
    ensures r.values.Keys == m.values.Keys + {k}
    ensures r.values[k] == v
    ensures forall k' :: k' in m.values && k' != k ==> r.values[k'] == m.values[k']
  {
    if k in m.values then OrderedMap(m.keys, m.values[k := v])
    else OrderedMap(m.keys + [k], m.values[k := v])
  }

  /** Replaces the value of a key already present; never adds a key. */
  function Replace<V>(m: OrderedMap<V>, k: string, v: V): (r: OrderedMap<V>)
    requires Valid(m) && k in m.values
    ensures Valid(r)
    ensures r.keys == m.keys && r.values.Keys == m.values.Keys
    ensures r.values[k] == v
    ensures forall k' :: k' in m.values && k' != k ==> r.values[k'] == m.values[k']
  {
    OrderedMap(m.keys, m.values[k := v])
  }

  /** The map built by calling `set(k, init)` for each of `ks` in turn. */
  function SetAll<V>(ks: seq<string>, init: V): (r: OrderedMap<V>)
    ensures Valid(r)
    ensures forall k :: k in r.values <==> k in ks
    ensures forall k :: k in r.values ==> r.values[k] == init
    decreases |ks|
  {
    if ks == [] then EmptyMap()
    else Set(SetAll(ks[..|ks| - 1], init), ks[|ks| - 1], init)
  }

  /** Building from distinct keys keeps their order exactly. */
  lemma {:induction false} SetAllKeepsOrder<V>(ks: seq<string>, init: V)
    requires Distinct(ks)
    ensures SetAll(ks, init).keys == ks
    decreases |ks|
  {
    if ks != [] {
      var front := ks[..|ks| - 1];
      assert Distinct(front);
      SetAllKeepsOrder(front, init);
      assert ks[|ks| - 1] !in front by {
        forall i | 0 <= i < |front|
          ensures front[i] != ks[|ks| - 1]
        {
          assert ks[i] != ks[|ks| - 1];
        }
      }
      assert front + [ks[|ks| - 1]] == ks;
    }
  }
}
