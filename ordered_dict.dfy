/**
 * Python's `dict` with its insertion order: `keys` lists every key once, in the
 * order it was first assigned, and re-assigning a key leaves it where it is.
 */
module OrderedDict {

  datatype Dict<K, V> = Dict(keys: seq<K>, entries: map<K, V>)

  /** The keys are listed once each and are exactly the keys of `entries`. */
  ghost predicate Valid<K, V>(d: Dict<K, V>) {
    && (forall i, j :: 0 <= i < j < |d.keys| ==> d.keys[i] != d.keys[j])
    && d.entries.Keys == (set i | 0 <= i < |d.keys| :: d.keys[i])
  }

  /** `{}`. */
  function Empty<K, V>(): (d: Dict<K, V>)
    ensures Valid(d) && d.keys == [] && d.entries == map[]
  {
    Dict([], map[])
  }

  /** `d[k] = v`: a new key goes to the end, an existing key keeps its place. */
  function Set<K, V>(d: Dict<K, V>, k: K, v: V): (r: Dict<K, V>)
    requires Valid(d)
    ensures Valid(r)
    ensures r.entries == d.entries[k := v]
    ensures k in d.entries ==> r.keys == d.keys
    ensures k !in d.entries ==> r.keys == d.keys + [k]
  {
    if k in d.entries then Dict(d.keys, d.entries[k := v])
    else
      var ks := d.keys + [k];
      assert (set i | 0 <= i < |ks| :: ks[i]) == (set i | 0 <= i < |d.keys| :: d.keys[i]) + {k} by {
        assert ks[|d.keys|] == k;
        assert forall i :: 0 <= i < |d.keys| ==> ks[i] == d.keys[i];
      }
      Dict(ks, d.entries[k := v])
  }

  /** `bool(d)`. */
  predicate NonEmpty<K, V>(d: Dict<K, V>) {
    |d.keys| > 0
  }

  /** For a valid dict, being non-empty is having some entry. */
  lemma NonEmptyIffEntries<K, V>(d: Dict<K, V>)
    requires Valid(d)
    ensures NonEmpty(d) <==> d.entries != map[]
  {
    if NonEmpty(d) {
      assert d.keys[0] in d.entries;
    } else {
      assert d.entries.Keys == {};
    }
  }

  /** For a valid dict, having an entry is being listed among the keys. */
  lemma InKeys<K, V>(d: Dict<K, V>, k: K)
    requires Valid(d)
    ensures k in d.entries <==> k in d.keys
  {
    if k in d.keys {
      var i :| 0 <= i < |d.keys| && d.keys[i] == k;
      assert d.keys[i] in (set i | 0 <= i < |d.keys| :: d.keys[i]);
    }
  }
}
