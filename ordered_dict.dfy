/** A plain JavaScript object used as a dictionary with string keys: assigning
 *  to a new key appends it, assigning to an existing key keeps its place, and
 *  `Object.keys`/`Object.values`/`Object.entries` enumerate in that order. */
module OrderedDict {
  import opened Base

  datatype Dict<V> = Dict(keys: seq<string>, values: map<string, V>) {
    ghost predicate Valid() {
      NoDups(keys) && forall k :: k in values <==> k in keys
    }
  }

  function Empty<V>(): (d: Dict<V>)
    ensures d.Valid() && d.keys == []
  {
    Dict([], map[])
  }

  /** `obj[k] = v`. */
  function Put<V>(d: Dict<V>, k: string, v: V): (r: Dict<V>)
    requires d.Valid()
    ensures r.Valid()
    ensures r.values == d.values[k := v]
    ensures k in d.values ==> r.keys == d.keys
    ensures k !in d.values ==> r.keys == d.keys + [k]
  {
    if k in d.values then Dict(d.keys, d.values[k := v]) else Dict(d.keys + [k], d.values[k := v])
  }

  /** `Object.values(obj)`. */
  function Values<V>(d: Dict<V>): (r: seq<V>)
    requires d.Valid()
    ensures |r| == |d.keys| && forall i :: 0 <= i < |r| ==> r[i] == d.values[d.keys[i]]
  {
    seq(|d.keys|, i requires 0 <= i < |d.keys| => d.values[d.keys[i]])
  }

  /** `Object.entries(obj)`. */
  function Entries<V>(d: Dict<V>): (r: seq<(string, V)>)
    requires d.Valid()
    ensures |r| == |d.keys| && forall i :: 0 <= i < |r| ==> r[i] == (d.keys[i], d.values[d.keys[i]])
  {
    seq(|d.keys|, i requires 0 <= i < |d.keys| => (d.keys[i], d.values[d.keys[i]]))
  }

  /** Assigning to a new key appends its value to `Object.values`. */
  lemma ValuesPutNew<V>(d: Dict<V>, k: string, v: V)
    requires d.Valid() && k !in d.values
    ensures Values(Put(d, k, v)) == Values(d) + [v]
  {
    var r := Put(d, k, v);
    assert forall i :: 0 <= i < |d.keys| ==> d.keys[i] != k;
  }
}
