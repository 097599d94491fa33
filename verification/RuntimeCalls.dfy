/** What each call of `DatabaseRuntime` does when nothing interferes, on what can be seen of a
    runtime: which databases are cached, open for key-value access, live and tombstoned. */
module RuntimeCalls {

  datatype View<!K> = View(open: iset<K>, kv: iset<K>, live: iset<K>, tombs: iset<K>)

  /** A tombstone is written and both handles are dropped. */
  function Buried<K>(v: View<K>, k: K): View<K> {
    View(v.open - iset{k}, v.kv - iset{k}, v.live - iset{k}, v.tombs + iset{k})
  }

  /** `delete`: only a live database is. */
  function Deleted<K>(v: View<K>, k: K): View<K> {
    if k in v.live then Buried(v, k) else v
  }

  /** `register_selected`: an unknown database becomes live. */
  function Registered<K>(v: View<K>, k: K): View<K> {
    if k in v.tombs then v else v.(live := v.live + iset{k})
  }

  function Cached<K>(v: View<K>, k: K): View<K> {
    v.(open := v.open + iset{k})
  }

  function KvCached<K>(v: View<K>, k: K): View<K> {
    v.(kv := v.kv + iset{k})
  }

  /** `create`; without an engine the new record becomes a tombstone, if that write works. */
  function Created<K>(v: View<K>, k: K, engine: bool, rollback: bool): View<K> {
    if engine then View(v.open + iset{k}, v.kv, v.live + iset{k}, v.tombs)
    else if rollback then v.(tombs := v.tombs + iset{k})
    else v.(live := v.live + iset{k})
  }

  /** `open`: a live database that is cached already or whose engine opens. */
  function Opened<K>(v: View<K>, k: K, engine: bool): View<K> {
    if k in v.live && (k in v.open || engine) then Cached(v, k) else v
  }

  /** `open_selected`: the same after registering. */
  function SelectedOpened<K>(v: View<K>, k: K, engine: bool): View<K> {
    if k !in v.tombs && (k in v.open || engine) then Cached(Registered(v, k), k) else Registered(v, k)
  }

  /** `open_kv_selected`. */
  function KvOpened<K>(v: View<K>, k: K, engine: bool): View<K> {
    if k !in v.tombs && (k in v.kv || engine) then KvCached(Registered(v, k), k) else Registered(v, k)
  }
}
