// Small shared vocabulary: optional values, results, and lookups that never fail.
module Common {

  datatype Option<+T> = None | Some(value: T)

  // Identifiers and names are only ever compared.
  datatype Id = Id(text: string)

  datatype Name = Name(text: string)

  datatype Result<+T, +E> = Ok(value: T) | Err(error: E)

  // `m.get(k)`: the entry, or None when the key is absent.
  function Get<K, V>(m: map<K, V>, k: K): Option<V> {
    if k in m then Some(m[k]) else None
  }

  // Two maps that answer every lookup alike are the same map.
  lemma SameLookups<K(!new), V>(m: map<K, V>, n: map<K, V>)
    requires forall k :: Get(m, k) == Get(n, k)
    ensures m == n
  {
    assert forall k :: k in m ==> Get(m, k) == Get(n, k) && k in n && m[k] == n[k];
    assert forall k :: k in n ==> Get(m, k) == Get(n, k) && k in m;
  }
}
