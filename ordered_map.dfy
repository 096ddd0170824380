/**
 * A JavaScript `Map`: a finite map whose keys remember the order in which they
 * were first set. `values()` iterates in that order, and `set` on a key that is
 * already present replaces the value without moving the key.
 */
module OrderedMap {
  import opened Wrappers

  /** Keys are the ids the storage hands out. */
  type Key = nat

  datatype Table<V> = Table(keys: seq<Key>, rows: map<Key, V>)

  /** The keys are listed once each, and exactly the keys of the map are listed. */
  ghost predicate Valid<V>(t: Table<V>) {
    && (forall i, j :: 0 <= i < j < |t.keys| ==> t.keys[i] != t.keys[j])
    && (forall k :: k in t.rows <==> k in t.keys)
  }

  /** `new Map()` */
  function Empty<V(==,!new)>(): (t: Table<V>)
    ensures Valid(t) && t.rows == map[] && Values(t) == []
  {
    Table([], map[])
  }

  /** `m.get(k)` */
  function Get<V(==,!new)>(t: Table<V>, k: Key): (r: Option<V>)
    ensures r.Some? <==> k in t.rows
    ensures r.Some? ==> r.value == t.rows[k]
  {
    if k in t.rows then Some(t.rows[k]) else None
  }

  /** `m.set(k, v)`: a new key goes to the end, a known key keeps its place. */
  function Set<V(==,!new)>(t: Table<V>, k: Key, v: V): (t': Table<V>)
    requires Valid(t)
    ensures Valid(t')
    ensures t'.rows == t.rows[k := v]
    ensures k in t.rows ==> t'.keys == t.keys
    ensures k !in t.rows ==> t'.keys == t.keys + [k]
  {
    if k in t.rows then Table(t.keys, t.rows[k := v]) else Table(t.keys + [k], t.rows[k := v])
  }

  /** `Array.from(m.values())`: the values in key-insertion order. */
  function Values<V(==,!new)>(t: Table<V>): (vs: seq<V>)
    requires Valid(t)
    ensures |vs| == |t.keys|
    ensures forall i :: 0 <= i < |t.keys| ==> vs[i] == t.rows[t.keys[i]]
  {
    seq(|t.keys|, i requires 0 <= i < |t.keys| => t.rows[t.keys[i]])
  }

  /** The listing holds exactly the stored rows. */
  lemma ValuesMembers<V(!new)>(t: Table<V>)
    requires Valid(t)
    ensures forall v :: v in Values(t) <==> v in t.rows.Values
  {
    var vs := Values(t);
    forall v | v in t.rows.Values ensures v in vs {
      var k :| k in t.rows && t.rows[k] == v;
      var i :| 0 <= i < |t.keys| && t.keys[i] == k;
      assert vs[i] == v;
    }
  }

  /** Setting a new key appends its value to the iteration order. */
  lemma ValuesOfSetNew<V(!new)>(t: Table<V>, k: Key, v: V)
    requires Valid(t) && k !in t.rows
    ensures Values(Set(t, k, v)) == Values(t) + [v]
  {
    var t' := Set(t, k, v);
    assert forall j :: 0 <= j < |t.keys| ==> t.keys[j] != k;
    assert Values(t') == Values(t) + [v] by {
      forall j | 0 <= j < |t'.keys| ensures Values(t')[j] == (Values(t) + [v])[j] {}
    }
  }

  /** Setting a known key replaces its value in place. */
  lemma ValuesOfSetOld<V(!new)>(t: Table<V>, i: nat, v: V)
    requires Valid(t) && i < |t.keys|
    ensures Values(Set(t, t.keys[i], v)) == Values(t)[i := v]
  {
    var t' := Set(t, t.keys[i], v);
    forall j | 0 <= j < |t'.keys| ensures Values(t')[j] == Values(t)[i := v][j] {
      if j != i { assert t.keys[j] != t.keys[i]; }
    }
  }
}
