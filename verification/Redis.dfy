/** The Redis commands the services use, as functions on a map with expiry times.
    A key whose time has come is gone: it does not count as present. */
module Redis {
  datatype Entry<+V> = Entry(value: V, expiresAt: nat)

  predicate Live<K, V>(m: map<K, Entry<V>>, k: K, now: nat) {
    k in m && now < m[k].expiresAt
  }

  /** SET k v EX ttl NX: takes effect only when the key is absent or expired. */
  function SetNx<K, V>(m: map<K, Entry<V>>, k: K, v: V, ttl: nat, now: nat): map<K, Entry<V>> {
    if Live(m, k, now) then m else m[k := Entry(v, now + ttl)]
  }

  /** SET k v EX ttl */
  function SetEx<K, V>(m: map<K, Entry<V>>, k: K, v: V, ttl: nat, now: nat): map<K, Entry<V>> {
    m[k := Entry(v, now + ttl)]
  }

  /** DEL k */
  function Del<K, V>(m: map<K, Entry<V>>, k: K): map<K, Entry<V>> {
    m - {k}
  }

  /** The release script: compare the stored value and delete, in one command. */
  function DelIfEquals<K, V(==)>(m: map<K, Entry<V>>, k: K, v: V, now: nat): map<K, Entry<V>> {
    if Live(m, k, now) && m[k].value == v then m - {k} else m
  }
}
