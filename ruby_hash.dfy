/**
 * A Ruby Hash with string keys. Ruby keeps the keys in the order they
 * were first inserted; storing under a key that is already present
 * replaces its value and keeps its place.
 */
module RubyHash {

  datatype Hash<V> = Hash(keys: seq<string>, entries: map<string, V>) {

    /** Each key is listed once, and the listed keys are exactly the bound ones. */
    predicate WellFormed() {
      && (forall i, j :: 0 <= i < j < |keys| ==> keys[i] != keys[j])
      && (forall k :: k in entries ==> k in keys)
      && (forall k :: k in keys ==> k in entries)
    }

    /** `h[k] = v`. */
    function Store(k: string, v: V): (r: Hash<V>)
      requires WellFormed()
      ensures r.WellFormed()
      ensures k in r.entries && r.entries[k] == v
      ensures forall k' :: k' != k ==> (k' in r.entries <==> k' in entries)
      ensures forall k' :: k' != k && k' in entries ==> r.entries[k'] == entries[k']
      ensures k in entries ==> r.keys == keys
      ensures k !in entries ==> r.keys == keys + [k]
    {
      Hash(if k in entries then keys else keys + [k], entries[k := v])
    }

    /** Hash#values: the values in insertion order. */
    function Values(): (vs: seq<V>)
      requires WellFormed()
      ensures |vs| == |keys|
      ensures forall i :: 0 <= i < |keys| ==> vs[i] == entries[keys[i]]
    {
      ValuesOf(keys, entries)
    }
  }

  /** The values bound to `ks`, in the order of `ks`. */
  function ValuesOf<V>(ks: seq<string>, entries: map<string, V>): (vs: seq<V>)
    requires forall k :: k in ks ==> k in entries
    ensures |vs| == |ks|
    ensures forall i :: 0 <= i < |ks| ==> vs[i] == entries[ks[i]]
  {
    if ks == [] then [] else [entries[ks[0]]] + ValuesOf(ks[1..], entries)
  }

  /** `{}`. */
  function Empty<V>(): (h: Hash<V>)
    ensures h.WellFormed() && h.keys == [] && h.entries == map[]
  {
    Hash([], map[])
  }

  /** Storing under a new key appends it; storing under an old key moves nothing. */
  lemma StorePreservesOrder<V>(h: Hash<V>, k: string, v: V)
    requires h.WellFormed()
    ensures |h.Store(k, v).keys| == |h.keys| + (if k in h.entries then 0 else 1)
    ensures forall i :: 0 <= i < |h.keys| ==> h.Store(k, v).keys[i] == h.keys[i]
  {
  }

  /** Some value of a hash satisfies `p` exactly when some key is bound to such a value. */
  lemma {:induction false} ValuesWitness<V>(h: Hash<V>, p: V -> bool)
    requires h.WellFormed()
    ensures (exists i :: 0 <= i < |h.Values()| && p(h.Values()[i]))
            <==> (exists k :: k in h.entries && p(h.entries[k]))
  {
    if exists k :: k in h.entries && p(h.entries[k]) {
      var k :| k in h.entries && p(h.entries[k]);
      ValueOfKey(h, p, k);
    }
    if exists i :: 0 <= i < |h.Values()| && p(h.Values()[i]) {
      var i :| 0 <= i < |h.Values()| && p(h.Values()[i]);
      KeyOfValue(h, p, i);
    }
  }

  lemma ValueOfKey<V>(h: Hash<V>, p: V -> bool, k: string)
    requires h.WellFormed() && k in h.entries && p(h.entries[k])
    ensures exists i :: 0 <= i < |h.Values()| && p(h.Values()[i])
  {
    var i :| 0 <= i < |h.keys| && h.keys[i] == k;
    assert p(h.Values()[i]);
  }

  lemma KeyOfValue<V>(h: Hash<V>, p: V -> bool, i: int)
    requires h.WellFormed() && 0 <= i < |h.Values()| && p(h.Values()[i])
    ensures exists k :: k in h.entries && p(h.entries[k])
  {
    assert h.keys[i] in h.entries && p(h.entries[h.keys[i]]);
  }
}
