/** A JavaScript object used as a dictionary from strings to numbers:
    `Object.keys` lists the keys in insertion order, assigning an existing
    key keeps its place, and reading a key never assigned gives `undefined`.
    Keys inherited from `Object.prototype` are not modelled. */
module InsertionMap {
  import opened Wire

  datatype Dict = Dict(keys: seq<string>, vals: map<string, int>)

  /** Every key listed once, and exactly the keys that hold a value. */
  ghost predicate Valid(d: Dict)
  {
    Distinct(d.keys) && forall k :: k in d.vals <==> k in d.keys
  }

  function Empty(): (d: Dict)
    ensures Valid(d) && d.keys == []
  {
    Dict([], map[])
  }

  /** `d[k]`, with `None` for `undefined`. */
  function Get(d: Dict, k: string): Option<int>
  {
    if k in d.vals then Some(d.vals[k]) else None
  }

  /** `d[k] || 0`. */
  function GetOrZero(d: Dict, k: string): int
  {
    if k in d.vals then d.vals[k] else 0
  }

  /** `d[k] = v`: a new key is listed last, an existing one keeps its
      place. */
  function Put(d: Dict, k: string, v: int): (r: Dict)
    ensures r.vals == d.vals[k := v]
    ensures k in d.vals ==> r.keys == d.keys
    ensures k !in d.vals ==> r.keys == d.keys + [k]
  {
    if k in d.vals then Dict(d.keys, d.vals[k := v]) else Dict(d.keys + [k], d.vals[k := v])
  }

  /** Assignment keeps every key listed once, and exactly the keys holding a
      value. */
  lemma PutValid(d: Dict, k: string, v: int)
    requires Valid(d)
    ensures Valid(Put(d, k, v))
  {
    if k !in d.vals {
      var ks := d.keys + [k];
      assert forall i :: 0 <= i < |d.keys| ==> ks[i] == d.keys[i];
    }
  }
}
