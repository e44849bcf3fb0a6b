/**
 * A Python `dict`: a map plus the order in which its keys were first
 * inserted. Assigning to an existing key keeps its position.
 */
module Dicts {

  datatype Dict<K(!new), V> = Dict(keys: seq<K>, entries: map<K, V>) {

    /** The keys are distinct and are exactly the keys of the map. */
    ghost predicate Valid()
    {
      && (forall i, j :: 0 <= i < j < |keys| ==> keys[i] != keys[j])
      && (forall k :: k in entries <==> k in keys)
    }

    /** `len(d)`. */
    function Length(): nat
    {
      |keys|
    }

    /** `d[k] = v`. */
    function Put(k: K, v: V): (d: Dict<K, V>)
    {
      if k in entries then Dict(keys, entries[k := v]) else Dict(keys + [k], entries[k := v])
    }

    /**
     * `list(d.items())`: one pair per key, in insertion order, and a pair is
     * listed exactly when the dict maps its key to its value.
     */
    function Items(): (s: seq<(K, V)>)
      requires Valid()
      ensures |s| == |keys|
      ensures forall i :: 0 <= i < |s| ==> s[i].0 == keys[i]
      ensures forall i :: 0 <= i < |s| ==> s[i].0 in entries && entries[s[i].0] == s[i].1
      ensures forall k :: k in entries ==> (k, entries[k]) in s
    {
      seq(|keys|, i requires 0 <= i < |keys| => (keys[i], entries[keys[i]]))
    }

    /**
     * `list(d.values())`: the second components of `d.items()`, so a value is
     * listed for every key, and only the values some key maps to.
     */
    function Values(): (s: seq<V>)
      requires Valid()
      ensures |s| == |Items()| && forall i :: 0 <= i < |s| ==> s[i] == Items()[i].1
      ensures forall k :: k in entries ==> entries[k] in s
    {
      seq(|keys|, i requires 0 <= i < |keys| => entries[keys[i]])
    }
  }

  /** `{}`. */
  function Empty<K(!new), V>(): (d: Dict<K, V>)
    ensures d.Valid() && d.keys == [] && d.entries == map[]
  {
    Dict([], map[])
  }

  /**
   * Assignment keeps the dict well formed, maps `k` to `v`, leaves every other
   * entry alone, keeps the position of an existing key and appends a new one.
   */
  lemma PutSpec<K(!new), V>(d: Dict<K, V>, k: K, v: V)
    requires d.Valid()
    ensures d.Put(k, v).Valid()
    ensures d.Put(k, v).entries == d.entries[k := v]
    ensures k in d.entries ==> d.Put(k, v).keys == d.keys
    ensures k !in d.entries ==> d.Put(k, v).keys == d.keys + [k]
    ensures d.Put(k, v).Length() == if k in d.entries then d.Length() else d.Length() + 1
  {
  }

  /** In a well-formed dict the length is the number of distinct keys. */
  lemma {:induction false} LengthIsCardinality<K(!new), V>(d: Dict<K, V>)
    requires d.Valid()
    ensures d.Length() == |d.entries.Keys|
  {
    DistinctCard(d.keys);
    assert d.entries.Keys == set k | k in d.keys;
  }

  lemma {:induction false} DistinctCard<K>(s: seq<K>)
    requires forall i, j :: 0 <= i < j < |s| ==> s[i] != s[j]
    ensures |set k | k in s| == |s|
  {
    if |s| > 0 {
      var t := s[..|s| - 1];
      DistinctCard(t);
      assert (set k | k in s) == (set k | k in t) + {s[|s| - 1]};
      assert s[|s| - 1] !in t;
    } else {
      assert (set k | k in s) == {};
    }
  }
}
