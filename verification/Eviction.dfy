/** `ScopedFileSystemRuntime`: file systems opened per namespace, and the pass that removes
    the local copies of resources that were projected from other devices and are no longer
    selected. The on-disk catalogs are sets of resources over all namespaces; what they may
    refuse to do is a parameter. */
module Eviction {
  import opened Text

  type Namespace = nat
  type Handle = nat

  datatype Key = Key(ns: Namespace, id: nat)

  datatype FsError = Missing | Tombstoned | CatalogFailed

  /** What an eviction pass may change: the resources projected from elsewhere and still kept,
      the contents held locally, and the cache of open file systems. */
  datatype Store = Store(projected: set<Key>, copies: map<Key, seq<nat>>, cached: map<Key, Handle>)

  predicate InUse(s: Store, outside: map<Handle, nat>, k: Key) {
    k in s.cached && s.cached[k] in outside && outside[s.cached[k]] > 0
  }

  /** Projected, not selected, and with no reference outside the cache. */
  function Evictable(s: Store, outside: map<Handle, nat>, selected: set<Key>): set<Key> {
    set k | k in s.projected && k !in selected && !InUse(s, outside, k)
  }

  /** `gone` evicted, `dropped` only taken out of the cache. */
  function Evicted(s: Store, gone: set<Key>, dropped: set<Key>): Store {
    Store(s.projected - gone, s.copies - gone, s.cached - (gone + dropped))
  }

  lemma EvictedTwice(s: Store, a: set<Key>, b: set<Key>, dropped: set<Key>)
    ensures Evicted(Evicted(s, a, {}), b, dropped) == Evicted(s, a + b, dropped)
  {
    assert s.projected - a - b == s.projected - (a + b);
    assert s.copies - a - b == s.copies - (a + b);
    assert s.cached - (a + {}) - (b + dropped) == s.cached - (a + b + dropped);
  }

  lemma EvictedNone(s: Store)
    ensures Evicted(s, {}, {}) == s
  {
    assert s.copies - {} == s.copies && s.cached - ({} + {}) == s.cached;
  }

  /** Evicting some leaves the others to be evicted as before: a pass that failed can be repeated. */
  lemma RestEvictable(s: Store, outside: map<Handle, nat>, selected: set<Key>, gone: set<Key>)
    ensures Evictable(Evicted(s, gone, {}), outside, selected) == Evictable(s, outside, selected) - gone
  {
    var v := Evicted(s, gone, {});
    assert forall k :: k !in gone ==> (InUse(v, outside, k) <==> InUse(s, outside, k));
  }

  class ScopedFileSystemRuntime {
    var onDisk: set<Namespace>    // namespaces with a catalog
    var entries: map<Key, bool>   // true: tombstoned
    var local: set<Key>           // created on this device
    var store: Store
    var outside: map<Handle, nat> // references other than the cache's

    ghost predicate Valid()
      reads this
    {
      && store.projected !! local
      && store.projected <= entries.Keys && local <= entries.Keys
      && (forall k :: k in entries ==> k.ns in onDisk)
      && (forall k :: k in store.cached ==> store.cached[k] in outside)
      && (forall j, k :: j in store.cached && k in store.cached && j != k ==> store.cached[j] != store.cached[k])
    }

    constructor ()
      ensures Valid() && store == Store({}, map[], map[]) && local == {} && entries == map[]
    {
      onDisk, entries, local, store, outside := {}, map[], {}, Store({}, map[], map[]), map[];
    }

    /** `works`: the catalog call succeeds. `key` is the one generated. */
    method CreateResource(key: Key, works: bool) returns (r: Result<(), FsError>)
      requires Valid() && key !in entries
      modifies this
      ensures Valid()
      ensures r == if works then Ok(()) else Err(CatalogFailed)
      ensures r.Ok? ==> local == old(local) + {key} && entries == old(entries)[key := false]
      ensures r.Err? ==> local == old(local) && entries == old(entries)
      ensures store == old(store) && outside == old(outside)
    {
      onDisk := onDisk + {key.ns};
      if !works { return Err(CatalogFailed); }
      entries, local := entries[key := false], local + {key};
      return Ok(());
    }

    /** `listed`, `imported` and `marked`: the catalog calls succeed. A tombstone is not
        overridden, and a resource created here is never marked projected. When an imported
        resource cannot be marked, its entry stays, unprojected. */
    method RegisterSelectedResource(key: Key, listed: bool, imported: bool, marked: bool)
      returns (r: Result<(), FsError>)
      requires Valid()
      modifies this
      ensures Valid()
      ensures r == Err(Tombstoned) <==> listed && key in old(entries) && old(entries)[key]
      ensures r == Err(CatalogFailed) <==>
        !listed || (key in old(entries) && !old(entries)[key] && !marked) ||
        (key !in old(entries) && (!imported || !marked))
      ensures r.Ok? ==> entries == old(entries)[key := false]
      ensures r.Ok? ==> store == old(store).(projected := old(store).projected + (if key in local then {} else {key}))
      ensures r.Err? ==> store == old(store)
      ensures var added := listed && key !in old(entries) && imported;
              r.Err? ==> entries == if added then old(entries)[key := false] else old(entries)
      ensures local == old(local) && outside == old(outside)
    {
      onDisk := onDisk + {key.ns};
      if !listed { return Err(CatalogFailed); }
      if key in entries {
        if entries[key] { return Err(Tombstoned); }
        if !marked { return Err(CatalogFailed); }
        assert entries[key := false] == entries;
        if key !in local { store := store.(projected := store.projected + {key}); }
        return Ok(());
      }
      if !imported { return Err(CatalogFailed); }
      entries := entries[key := false];
      if !marked { return Err(CatalogFailed); }
      store := store.(projected := store.projected + {key});
      return Ok(());
    }

    /** `handle` is the reference a new file system would get; `opens` and `resident`: opening
        it and setting its residency succeed. A file system whose residency cannot be set is
        not cached, though its copy is there. */
    method OpenResource(key: Key, handle: Handle, opens: bool, resident: bool) returns (r: Result<Handle, FsError>)
      requires Valid() && handle !in outside
      modifies this
      ensures Valid()
      ensures r.Ok? <==> key in old(store).cached || (key in old(entries) && !old(entries)[key] && opens && resident)
      ensures r.Err? ==> outside == old(outside) && store.cached == old(store).cached
      ensures r.Ok? ==> key in store.cached && store.cached[key] == r.value && InUse(store, outside, key)
      ensures r.Ok? ==> store.cached == old(store).cached[key := r.value]
      ensures r.Ok? ==> forall h :: h in old(outside) && h != r.value ==> h in outside && outside[h] == old(outside)[h]
      ensures store.projected == old(store).projected
      ensures forall k :: k in old(store).copies ==> k in store.copies && store.copies[k] == old(store).copies[k]
      ensures forall k :: k in store.copies && k !in old(store).copies ==> k == key
      ensures local == old(local) && entries == old(entries)
    {
      if key in store.cached {
        r := Ok(store.cached[key]);
        outside := outside[r.value := outside[r.value] + 1];
        assert store.cached[key := r.value] == store.cached;
        return;
      }
      onDisk := onDisk + {key.ns};
      if key !in entries { return Err(Missing); }
      if entries[key] { return Err(Tombstoned); }
      if !opens { return Err(CatalogFailed); }
      store := store.(copies := if key in store.copies then store.copies else store.copies[key := []]);
      if !resident { return Err(CatalogFailed); }
      store, outside := store.(cached := store.cached[key := handle]), outside[handle := 1];
      return Ok(handle);
    }

    /** An outside reference is dropped. The last one frees the file system it was for, and no
        other, for eviction. */
    method Release(handle: Handle)
      requires Valid() && handle in outside && outside[handle] > 0
      modifies this`outside
      ensures Valid()
      ensures outside == old(outside)[handle := old(outside)[handle] - 1]
      ensures forall k :: old(InUse(store, outside, k)) && !InUse(store, outside, k) <==>
                k in store.cached && store.cached[k] == handle && old(outside)[handle] == 1
    {
      outside := outside[handle := outside[handle] - 1];
    }

    /** `works`: the catalog call does not fail for another reason than a missing resource. */
    method DeleteResource(key: Key, works: bool) returns (r: Result<bool, FsError>)
      requires Valid()
      modifies this
      ensures Valid()
      ensures r.Ok? <==> works
      ensures r.Ok? ==> r.value == (key in old(entries) && !old(entries)[key])
      ensures var deleted := r == Ok(true);
              && entries == (if deleted then old(entries)[key := true] else old(entries))
              && store == (if deleted then Evicted(old(store), {key}, {}) else old(store))
      ensures local == old(local) && outside == old(outside)
    {
      onDisk := onDisk + {key.ns};
      if !works { return Err(CatalogFailed); }
      if key !in entries || entries[key] { return Ok(false); }
      entries := entries[key := true];
      store := Store(store.projected - {key}, store.copies - {key}, store.cached - ({key} + {}));
      return Ok(true);
    }

    method ApplyDeletionTombstone(key: Key, works: bool) returns (r: Result<(), FsError>)
      requires Valid()
      modifies this
      ensures Valid()
      ensures r.Ok? <==> works
      ensures entries == (if works then old(entries)[key := true] else old(entries))
      ensures store == (if works then Evicted(old(store), {key}, {}) else old(store))
      ensures local == old(local) && outside == old(outside)
    {
      onDisk := onDisk + {key.ns};
      if !works { return Err(CatalogFailed); }
      entries := entries[key := true];
      store := Store(store.projected - {key}, store.copies - {key}, store.cached - ({key} + {}));
      return Ok(());
    }

    /** One projected resource, the cache being locked. */
    method EvictOne(k: Key, selected: set<Key>, stuck: set<Key>) returns (ok: bool)
      requires Valid() && k in store.projected
      modifies this`store
      ensures Valid()
      ensures var evictable := k in Evictable(old(store), outside, selected);
              && (ok <==> !(evictable && k in stuck))
              && store == if !evictable then old(store)
                          else if ok then Evicted(old(store), {k}, {}) else Evicted(old(store), {}, {k})
    {
      if k in selected { return true; }
      if k in store.cached && outside[store.cached[k]] > 0 { return true; }
      EvictedNone(store);
      store := store.(cached := store.cached - {k});
      assert {} + {k} == {k} && {k} + {} == {k};
      if k in stuck {
        assert store == Evicted(old(store), {}, {k});
        return false;
      }
      store := store.(projected := store.projected - {k}, copies := store.copies - {k});
      return true;
    }

    /** As above, after `gone` of the candidates `here` have been evicted. */
    method EvictNext(k: Key, selected: set<Key>, stuck: set<Key>, ghost s: Store, ghost gone: set<Key>,
                     ghost here: set<Key>)
      returns (ok: bool)
      requires Valid() && k in store.projected && store == Evicted(s, gone, {})
      requires gone <= here && (k in here <==> k in Evictable(s, outside, selected))
      modifies this`store
      ensures Valid()
      ensures ok <==> !(k in here && k in stuck)
      ensures ok ==> store == Evicted(s, if k in here then gone + {k} else gone, {})
      ensures !ok ==> Partial(s, here, store)
    {
      RestEvictable(s, outside, selected, gone);
      ok := EvictOne(k, selected, stuck);
      EvictedTwice(s, gone, {}, {k});
      EvictedTwice(s, gone, {k}, {});
      assert gone + {} == gone;
      if !ok { assert {k} <= here; }
    }

    /** The resources of one catalog. */
    method EvictNamespace(ns: Namespace, selected: set<Key>, stuck: set<Key>) returns (ok: bool)
      requires Valid()
      modifies this`store
      ensures Valid()
      ensures var here := In(ns, Evictable(old(store), outside, selected));
              && (ok <==> here !! stuck)
              && (ok ==> store == Evicted(old(store), here, {}))
              && (!ok ==> Partial(old(store), here, store))
    {
      ghost var s, here := store, In(ns, Evictable(store, outside, selected));
      ghost var gone: set<Key> := {};
      EvictedNone(s);
      var rest := set k | k in store.projected && k.ns == ns;
      while rest != {}
        invariant Valid() && forall k :: k in rest ==> k.ns == ns && k in s.projected
        invariant gone <= here && gone !! stuck && gone !! rest && here <= gone + rest
        invariant store == Evicted(s, gone, {})
        decreases |rest|
      {
        var k :| k in rest;
        rest := rest - {k};
        ok := EvictNext(k, selected, stuck, s, gone, here);
        if !ok { return; }
        if k in here { gone := gone + {k}; }
      }
      assert gone == here;
      ok := true;
    }

    /** As above, after `gone` of all candidates have been evicted, none of this namespace. */
    method EvictNextNamespace(ns: Namespace, selected: set<Key>, stuck: set<Key>, ghost s: Store, ghost gone: set<Key>,
                              ghost all: set<Key>)
      returns (ok: bool)
      requires Valid() && all == Evictable(s, outside, selected)
      requires store == Evicted(s, gone, {}) && gone <= all && forall k :: k in gone ==> k.ns != ns
      modifies this`store
      ensures Valid()
      ensures ok <==> In(ns, all) !! stuck
      ensures ok ==> store == Evicted(s, gone + In(ns, all), {})
      ensures !ok ==> Partial(s, all, store)
    {
      RestEvictable(s, outside, selected, gone);
      ghost var here := In(ns, all);
      assert here == In(ns, all - gone);
      ok := EvictNamespace(ns, selected, stuck);
      if !ok {
        PartialAfter(s, gone, here, all, store);
      } else {
        EvictedTwice(s, gone, here, {});
      }
    }

    /** Evicts exactly the projected resources that are unselected and not held outside the
        cache, over all namespaces, or fails having touched only such resources. It fails
        exactly when the scan does, a catalog cannot be listed, or such a resource cannot be
        evicted. */
    method RemoveUnselectedProjectedResources(selected: set<Key>, scanned: bool, broken: set<Namespace>,
                                              stuck: set<Key>)
      returns (ok: bool)
      requires Valid()
      modifies this`store
      ensures Valid()
      ensures var all := Evictable(old(store), outside, selected);
              && (ok <==> scanned && onDisk !! broken && all !! stuck)
              && (ok ==> store == Evicted(old(store), all, {}))
              && (!ok ==> Partial(old(store), all, store))
    {
      ghost var s, all := store, Evictable(store, outside, selected);
      EvictedNone(s);
      if !scanned { return false; }
      var rest := onDisk;
      ghost var gone: set<Key> := {};
      assert forall k :: k in all ==> k.ns in onDisk;
      while rest != {}
        invariant Valid() && rest <= onDisk && (onDisk - rest) !! broken
        invariant gone == NotIn(rest, all) && gone !! stuck
        invariant store == Evicted(s, gone, {})
        decreases |rest|
      {
        var ns :| ns in rest;
        if ns in broken { return false; }
        ok := EvictNextNamespace(ns, selected, stuck, s, gone, all);
        if !ok { return; }
        rest := rest - {ns};
        gone := gone + In(ns, all);
        assert gone == NotIn(rest, all);
      }
      assert gone == all;
      ok := true;
    }
  }

  function In(ns: Namespace, keys: set<Key>): set<Key> {
    set k | k in keys && k.ns == ns
  }

  function NotIn(namespaces: set<Namespace>, keys: set<Key>): set<Key> {
    set k | k in keys && k.ns !in namespaces
  }

  /** Only some of the candidates were evicted or taken out of the cache. */
  ghost predicate Partial(s: Store, candidates: set<Key>, v: Store) {
    exists gone, dropped :: gone <= candidates && dropped <= candidates && v == Evicted(s, gone, dropped)
  }

  lemma PartialAfter(s: Store, gone: set<Key>, here: set<Key>, all: set<Key>, v: Store)
    requires Partial(Evicted(s, gone, {}), here, v) && gone <= all && here <= all
    ensures Partial(s, all, v)
  {
    var more, dropped :| more <= here && dropped <= here && v == Evicted(Evicted(s, gone, {}), more, dropped);
    EvictedTwice(s, gone, more, dropped);
  }

  /** Even a pass that fails leaves everything selected, in use, or not projected alone. */
  lemma OthersUntouched(s: Store, outside: map<Handle, nat>, selected: set<Key>, v: Store, k: Key)
    requires Partial(s, Evictable(s, outside, selected), v)
    requires k in selected || InUse(s, outside, k) || k !in s.projected
    ensures k in v.cached <==> k in s.cached
    ensures k in v.cached ==> v.cached[k] == s.cached[k]
    ensures k in v.copies <==> k in s.copies
    ensures k in v.copies ==> v.copies[k] == s.copies[k]
    ensures k in v.projected <==> k in s.projected
  {
    assert k !in Evictable(s, outside, selected);
  }

  /** Repeating a pass that failed, with the same selection and references, finishes the job. */
  lemma RepeatFinishes(s: Store, outside: map<Handle, nat>, selected: set<Key>, v: Store)
    requires Partial(s, Evictable(s, outside, selected), v)
    ensures Evicted(v, Evictable(v, outside, selected), {}) == Evicted(s, Evictable(s, outside, selected), {})
  {
    var all := Evictable(s, outside, selected);
    var gone, dropped :| gone <= all && dropped <= all && v == Evicted(s, gone, dropped);
    assert forall k :: k !in all ==> (InUse(v, outside, k) <==> InUse(s, outside, k));
    assert Evictable(v, outside, selected) == all - gone;
    EvictTheRest(s, all, gone, dropped);
  }

  lemma EvictTheRest(s: Store, all: set<Key>, gone: set<Key>, dropped: set<Key>)
    requires gone <= all && dropped <= all
    ensures Evicted(Evicted(s, gone, dropped), all - gone, {}) == Evicted(s, all, {})
  {
    assert s.projected - gone - (all - gone) == s.projected - all;
    assert s.copies - gone - (all - gone) == s.copies - all;
    assert s.cached - (gone + dropped) - (all - gone + {}) == s.cached - (all + {});
  }
}
