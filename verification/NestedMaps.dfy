/** The ranker's two-level maps, host name first, task identifier second, addressed by pairs. */
module NestedMaps {

  datatype Key = Key(host: string, task: string)

  type NestedMap<V> = map<string, map<string, V>>

  predicate Has<V>(m: NestedMap<V>, k: Key) {
    k.host in m && k.task in m[k.host]
  }

  function At<V>(m: NestedMap<V>, k: Key): V
    requires Has(m, k)
  {
    m[k.host][k.task]
  }

  function AddHost<V>(m: NestedMap<V>, h: string): NestedMap<V> {
    if h in m then m else m[h := map[]]
  }

  function Put<V>(m: NestedMap<V>, k: Key, v: V): NestedMap<V>
    requires k.host in m
  {
    m[k.host := m[k.host][k.task := v]]
  }

  /** m has the given hosts on its first level, and the keys of flat on its two levels. */
  ghost predicate SameShape<V, W>(m: NestedMap<V>, hosts: set<string>, flat: map<Key, W>) {
    m.Keys == hosts && forall k :: Has(m, k) <==> k in flat
  }

  lemma AddHostShape<V, W>(m: NestedMap<V>, hosts: set<string>, flat: map<Key, W>, h: string)
    requires SameShape(m, hosts, flat)
    ensures SameShape(AddHost(m, h), hosts + {h}, flat)
    ensures h in AddHost(m, h)
    ensures forall k :: k in flat ==> Has(m, k) && Has(AddHost(m, h), k) && At(AddHost(m, h), k) == At(m, k)
  {
  }

  lemma PutShape<V, W>(m: NestedMap<V>, hosts: set<string>, flat: map<Key, W>, k: Key, v: V, w: W)
    requires SameShape(m, hosts, flat) && k.host in m
    ensures SameShape(Put(m, k, v), hosts, flat[k := w])
    ensures Has(Put(m, k, v), k) && At(Put(m, k, v), k) == v
    ensures forall j :: j in flat && j != k ==> Has(m, j) && Has(Put(m, k, v), j) && At(Put(m, k, v), j) == At(m, j)
  {
  }

  lemma ReplaceShape<V, W>(m: NestedMap<V>, hosts: set<string>, flat: map<Key, W>, k: Key, w: W)
    requires SameShape(m, hosts, flat) && k in flat
    ensures SameShape(m, hosts, flat[k := w]) && Has(m, k)
  {
  }

  lemma ShapeHas<V, W>(m: NestedMap<V>, hosts: set<string>, flat: map<Key, W>, k: Key)
    requires SameShape(m, hosts, flat)
    ensures Has(m, k) <==> k in flat
  {
  }
}
