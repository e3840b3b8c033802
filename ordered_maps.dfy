/** A JavaScript `Map<string, V>` (or a plain object used as a dictionary):
    a finite map whose keys also remember their insertion order, because
    `Object.values`, `Map.entries` and `for ... of` visit keys in that order. */
module OrderedMaps {
  import opened Seqs

  datatype OMap<V> = OMap(keys: seq<string>, vals: map<string, V>) {

    /** Every key once, and exactly the keys of the map. */
    ghost predicate Valid() {
      NoDup(keys) && (forall k :: k in vals <==> k in keys)
    }

    function Size(): nat {
      |keys|
    }

    /** `m.set(k, v)` / `obj[k] = v`: a new key goes last, an existing key
        keeps its place and takes the new value. */
    function Put(k: string, v: V): (r: OMap<V>)
      ensures Valid() ==> r.Valid()
      ensures r.vals == vals[k := v]
      ensures k in vals ==> r.keys == keys
      ensures k !in vals ==> r.keys == keys + [k]
    {
      if k in vals then OMap(keys, vals[k := v]) else OMap(keys + [k], vals[k := v])
    }

    /** `m.delete(k)`: the key leaves both the order and the map. */
    function Remove(k: string): (r: OMap<V>)
      requires Valid()
      ensures r.Valid()
      ensures r.vals == vals - {k}
      ensures forall j :: j in r.keys <==> j in keys && j != k
    {
      FilterMembershipAll(keys, k);
      NoDupFilter(keys, k);
      OMap(Filter(keys, Other(k)), vals - {k})
    }

    /** `Object.values(obj)` / `Array.from(m.values())`. */
    function Values(): (r: seq<V>)
      requires Valid()
      ensures |r| == |keys|
      ensures forall i :: 0 <= i < |keys| ==> r[i] == vals[keys[i]]
    {
      ValuesAt(keys, vals)
    }
  }

  /** A second `set` of the same key overrides the first; the key keeps
      the place the first one gave it. */
  lemma PutTwice<V>(m: OMap<V>, k: string, v: V, w: V)
    ensures m.Put(k, v).Put(k, w) == m.Put(k, w)
  {
    assert m.vals[k := v][k := w] == m.vals[k := w];
  }

  /** Setting a present key replaces its value in place in `Values()`. */
  lemma PutValuesPresent<V>(m: OMap<V>, k: string, v: V, p: nat)
    requires m.Valid() && p < |m.keys| && m.keys[p] == k
    ensures m.Put(k, v).Values() == m.Values()[p := v]
  {
    var r := m.Put(k, v);
    assert r.keys == m.keys;
    assert forall i :: 0 <= i < |r.keys| ==> r.Values()[i] == m.Values()[p := v][i];
  }

  /** Setting a new key appends its value to `Values()`. */
  lemma PutValuesNew<V>(m: OMap<V>, k: string, v: V)
    requires m.Valid() && k !in m.vals
    ensures m.Put(k, v).Values() == m.Values() + [v]
  {
    assert DropLast(m.keys + [k]) == m.keys;
    ValuesAtOther(m.keys, m.vals, k, v);
  }

  /** Setting a key outside `keys` does not change their values. */
  lemma ValuesAtOther<V>(keys: seq<string>, vals: map<string, V>, k: string, v: V)
    requires forall j :: j in keys ==> j in vals
    requires k !in keys
    ensures ValuesAt(keys, vals[k := v]) == ValuesAt(keys, vals)
  {
    var a, b := ValuesAt(keys, vals[k := v]), ValuesAt(keys, vals);
    assert forall i :: 0 <= i < |keys| ==> a[i] == b[i];
  }

  function Empty<V>(): (r: OMap<V>)
    ensures r.Valid() && r.keys == [] && r.vals == map[]
  {
    OMap([], map[])
  }

  /** The values of `keys`, in that order. */
  function ValuesAt<V>(keys: seq<string>, vals: map<string, V>): (r: seq<V>)
    requires forall k :: k in keys ==> k in vals
    ensures |r| == |keys|
    ensures forall i :: 0 <= i < |keys| ==> r[i] == vals[keys[i]]
    decreases |keys|
  {
    if |keys| == 0 then [] else ValuesAt(DropLast(keys), vals) + [vals[Last(keys)]]
  }

  function Other(k: string): string -> bool {
    (j: string) => j != k
  }

  lemma FilterMembershipAll(keys: seq<string>, k: string)
    ensures forall j :: j in Filter(keys, Other(k)) <==> j in keys && j != k
  {
    forall j {
      FilterMembership(keys, Other(k), j);
    }
  }

  lemma {:induction false} NoDupFilter(keys: seq<string>, k: string)
    requires NoDup(keys)
    ensures NoDup(Filter(keys, Other(k)))
    decreases |keys|
  {
    if |keys| > 0 {
      var init := DropLast(keys);
      assert NoDup(init);
      NoDupFilter(init, k);
      if Last(keys) != k {
        FilterMembership(init, Other(k), Last(keys));
        assert Last(keys) !in init;
      }
    }
  }
}
