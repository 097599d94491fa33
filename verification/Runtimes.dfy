/** The runtime that caches open database and key-value handles, one call at a time.
    (RuntimeInterleavings treats the same calls under concurrent threads.) */
module Runtimes {
  import opened Text
  import opened Identifiers
  import opened StoragePaths
  import opened Catalogs
  import RuntimeCalls

  datatype DatabaseKey = DatabaseKey(scope: Namespace, id: Uuid)

  /** An opened engine; two handles are the same engine when they are equal. */
  type Handle = nat

  datatype RuntimeError = CatalogError(error: IoError) | EngineError

  class DatabaseRuntime {
    const catalog: DatabaseCatalog
    var open: map<DatabaseKey, Handle>
    var kvOpen: map<DatabaseKey, Handle>

    constructor (catalog: DatabaseCatalog)
      requires catalog.Valid()
      ensures this.catalog == catalog && Valid()
      ensures open == map[] && kvOpen == map[]
    {
      this.catalog := catalog;
      open, kvOpen := map[], map[];
    }

    predicate IsLive(key: DatabaseKey)
      reads this, catalog
    {
      catalog.View(key.scope).Ok? && Live(catalog.View(key.scope).value, key.id)
    }

    predicate IsTombstoned(key: DatabaseKey)
      reads this, catalog
    {
      catalog.View(key.scope).Ok? && Tombstoned(catalog.View(key.scope).value, key.id)
    }

    /** What can be seen of the runtime. */
    ghost function Seen(): RuntimeCalls.View<DatabaseKey>
      reads this, catalog
    {
      RuntimeCalls.View(iset key | key in open, iset key | key in kvOpen, iset key | IsLive(key),
                        iset key | IsTombstoned(key))
    }

    /** Between calls every cached handle belongs to a live database. */
    ghost predicate Valid()
      reads this, catalog
    {
      catalog.Valid() && forall key :: key in open || key in kvOpen ==> IsLive(key)
    }

    /** No other record changes, in this namespace or in another. */
    twostate predicate OnlyConcerns(key: DatabaseKey)
      reads catalog
    {
      && catalog.OthersUntouched(key.scope)
      && (catalog.View(key.scope).Ok? <==> old(catalog.View(key.scope)).Ok?)
      && (catalog.View(key.scope).Ok? ==>
            SameExceptAt(old(catalog.View(key.scope)).value, catalog.View(key.scope).value, key.id))
    }

    twostate lemma Revalidate(key: DatabaseKey)
      requires old(Valid()) && OnlyConcerns(key)
      requires forall other :: other in open && other != key ==> other in old(open)
      requires forall other :: other in kvOpen && other != key ==> other in old(kvOpen)
      requires key in open || key in kvOpen ==> IsLive(key)
      ensures Valid()
    {
      forall other | other in open || other in kvOpen ensures IsLive(other) {
        if other != key {
          assert old(IsLive(other));
        }
      }
    }

    lemma SeenIs(after: RuntimeCalls.View<DatabaseKey>)
      requires forall k :: k in after.open <==> k in open
      requires forall k :: k in after.kv <==> k in kvOpen
      requires forall k :: k in after.live <==> IsLive(k)
      requires forall k :: k in after.tombs <==> IsTombstoned(k)
      ensures Seen() == after
    {
    }

    /** A call that concerns one database leaves all others live or tombstoned as they were. */
    twostate lemma OthersSeen(key: DatabaseKey)
      requires OnlyConcerns(key)
      ensures forall k :: k != key ==> IsLive(k) == old(IsLive(k)) && IsTombstoned(k) == old(IsTombstoned(k))
    {
    }

    /** Other databases are live and tombstoned as they were seen before. */
    ghost predicate OthersAs(key: DatabaseKey, before: RuntimeCalls.View<DatabaseKey>)
      reads this, catalog
    {
      forall k :: k != key ==> (IsLive(k) <==> k in before.live) && (IsTombstoned(k) <==> k in before.tombs)
    }

    lemma SeenCreated(key: DatabaseKey, engine: bool, before: RuntimeCalls.View<DatabaseKey>)
      requires OthersAs(key, before) && key !in before.live && key !in before.tombs
      requires IsLive(key) == engine && IsTombstoned(key) == !engine
      requires forall k :: k in kvOpen <==> k in before.kv
      requires forall k :: k in open <==> k in before.open || (engine && k == key)
      ensures Seen() == RuntimeCalls.Created(before, key, engine, true)
    {
      SeenIs(RuntimeCalls.Created(before, key, engine, true));
    }

    lemma SeenRegistered(key: DatabaseKey, before: RuntimeCalls.View<DatabaseKey>)
      requires OthersAs(key, before) && (IsTombstoned(key) <==> key in before.tombs)
      requires IsLive(key) <==> key !in before.tombs
      requires key in before.live ==> key !in before.tombs
      requires forall k :: k in kvOpen <==> k in before.kv
      requires forall k :: k in open <==> k in before.open
      ensures Seen() == RuntimeCalls.Registered(before, key)
    {
      SeenIs(RuntimeCalls.Registered(before, key));
    }

    /** `id` is freshly generated; `engine` is what opening the new database file yields. */
    method Create(scope: Namespace, name: Option<string>, id: Uuid, engine: Option<Handle>)
      returns (r: Result<(DatabaseResource, Handle), RuntimeError>)
      requires Valid()
      requires catalog.View(scope).Ok? ==> id !in catalog.View(scope).value
      modifies this, catalog
      ensures Valid() && OnlyConcerns(DatabaseKey(scope, id))
      ensures r.Ok? <==> old(catalog.View(scope)).Ok? && engine.Some?
      ensures r.Ok? ==> r.value == (DatabaseResource(id, name), engine.value)
      ensures r.Ok? ==> IsLive(DatabaseKey(scope, id)) && open == old(open)[DatabaseKey(scope, id) := engine.value]
      ensures r.Err? ==> open == old(open)
      ensures r.Err? && old(catalog.View(scope)).Ok? ==> Tombstoned(catalog.View(scope).value, id)
      ensures kvOpen == old(kvOpen)
      ensures Seen() == if old(catalog.View(scope)).Err? then old(Seen())
                        else RuntimeCalls.Created(old(Seen()), DatabaseKey(scope, id), engine.Some?, true)
    {
      var key := DatabaseKey(scope, id);
      var created := catalog.Create(scope, name, id);
      if created.Err? {
        Revalidate(key);
        OthersSeen(key);
        SeenIs(old(Seen()));
        return Err(CatalogError(created.error));
      }
      EffectsAreLocal(old(catalog.View(scope)).value, created.value);
      if engine.Some? {
        open := open[key := engine.value];
        Revalidate(key);
        OthersSeen(key);
        SeenCreated(key, true, old(Seen()));
        return Ok((created.value, engine.value));
      }
      assert !old(IsLive(key));
      RollBack(key);
      Revalidate(key);
      OthersSeen(key);
      SeenCreated(key, false, old(Seen()));
      return Err(EngineError);
    }

    /** The engine of a new database did not open: its record becomes a tombstone. */
    method RollBack(key: DatabaseKey)
      requires catalog.Valid() && IsLive(key)
      modifies catalog
      ensures OnlyConcerns(key)
      ensures catalog.View(key.scope).Ok? && Tombstoned(catalog.View(key.scope).value, key.id)
    {
      var deleted := catalog.Delete(key.scope, key.id);
      EffectsAreLocal(old(catalog.View(key.scope)).value, DatabaseResource(key.id, None));
    }

    method Evict(key: DatabaseKey)
      modifies this`open, this`kvOpen
      ensures open == old(open) - {key} && kvOpen == old(kvOpen) - {key}
    {
      open := open - {key};
      kvOpen := kvOpen - {key};
    }

    method Delete(scope: Namespace, id: Uuid) returns (r: Result<bool, RuntimeError>)
      requires Valid()
      modifies this, catalog
      ensures Valid() && OnlyConcerns(DatabaseKey(scope, id))
      ensures r.Err? <==> old(catalog.View(scope)).Err?
      ensures r.Err? ==> open == old(open) && kvOpen == old(kvOpen) && catalog.disk == old(catalog.disk)
      ensures r.Ok? ==> r.value == old(IsLive(DatabaseKey(scope, id)))
      ensures r.Ok? ==> !IsLive(DatabaseKey(scope, id))
      ensures r.Ok? && r.value ==> Tombstoned(catalog.View(scope).value, id)
      ensures r.Ok? ==> DatabaseKey(scope, id) !in open && DatabaseKey(scope, id) !in kvOpen
      ensures Seen() == if r.Err? then old(Seen()) else RuntimeCalls.Deleted(old(Seen()), DatabaseKey(scope, id))
    {
      var key := DatabaseKey(scope, id);
      var deleted := catalog.Delete(scope, id);
      if deleted.Err? {
        Revalidate(key);
        OthersSeen(key);
        SeenIs(old(Seen()));
        return Err(CatalogError(deleted.error));
      }
      if deleted.value {
        Evict(key);
      } else {
        assert !old(IsLive(key));
      }
      Revalidate(key);
      OthersSeen(key);
      SeenIs(RuntimeCalls.Deleted(old(Seen()), key));
      return Ok(deleted.value);
    }

    method ApplyTombstone(scope: Namespace, id: Uuid) returns (r: Result<(), RuntimeError>)
      requires Valid()
      modifies this, catalog
      ensures Valid() && OnlyConcerns(DatabaseKey(scope, id))
      ensures r.Err? <==> old(catalog.View(scope)).Err?
      ensures r.Err? ==> open == old(open) && kvOpen == old(kvOpen) && catalog.disk == old(catalog.disk)
      ensures r.Ok? ==> Tombstoned(catalog.View(scope).value, id)
      ensures r.Ok? ==> DatabaseKey(scope, id) !in open && DatabaseKey(scope, id) !in kvOpen
      ensures Seen() == if r.Err? then old(Seen()) else RuntimeCalls.Buried(old(Seen()), DatabaseKey(scope, id))
    {
      var key := DatabaseKey(scope, id);
      var applied := catalog.ApplyTombstone(scope, id);
      if applied.Err? {
        Revalidate(key);
        OthersSeen(key);
        SeenIs(old(Seen()));
        return Err(CatalogError(applied.error));
      }
      EffectsAreLocal(old(catalog.View(scope)).value, DatabaseResource(id, None));
      Evict(key);
      Revalidate(key);
      OthersSeen(key);
      SeenIs(RuntimeCalls.Buried(old(Seen()), key));
      return Ok(());
    }

    /** The catalog's `register_selected`, as the two calls below use it. */
    method Register(key: DatabaseKey) returns (r: Result<bool, RuntimeError>)
      requires Valid()
      modifies catalog
      ensures Valid() && OnlyConcerns(key)
      ensures r.Err? <==> old(catalog.View(key.scope)).Err?
      ensures r.Ok? ==> catalog.View(key.scope) == Ok(Registered(old(catalog.View(key.scope)).value, key.id))
      ensures r.Ok? ==> (r.value <==> !Tombstoned(old(catalog.View(key.scope)).value, key.id))
      ensures r.Ok? ==> (r.value <==> IsLive(key)) && (r.value <==> !IsTombstoned(key))
      ensures Seen() == if r.Err? then old(Seen()) else RuntimeCalls.Registered(old(Seen()), key)
    {
      var registered := catalog.RegisterSelected(key.scope, key.id);
      Revalidate(key);
      if registered.Err? {
        OthersSeen(key);
        SeenIs(old(Seen()));
        return Err(CatalogError(registered.error));
      }
      OthersSeen(key);
      SeenRegistered(key, old(Seen()));
      return Ok(registered.value);
    }

    /** Opens a database the device selected, registering it if the catalog does not know it. */
    method OpenSelected(scope: Namespace, id: Uuid, engine: Option<Handle>)
      returns (r: Result<Option<Handle>, RuntimeError>)
      requires Valid()
      modifies this, catalog
      ensures Valid() && OnlyConcerns(DatabaseKey(scope, id)) && kvOpen == old(kvOpen)
      ensures old(catalog.View(scope)).Ok? ==> catalog.View(scope) == Ok(Registered(old(catalog.View(scope)).value, id))
      ensures old(catalog.View(scope)).Err? ==> r.Err?
      ensures r.Ok? ==> (r.value == None <==> Tombstoned(old(catalog.View(scope)).value, id))
      ensures r.Ok? && r.value.Some? ==> IsLive(DatabaseKey(scope, id))
      ensures r.Ok? && r.value.Some? ==> open == old(open)[DatabaseKey(scope, id) := r.value.value]
      ensures r.Ok? && DatabaseKey(scope, id) in old(open) ==> r.value == Some(old(open)[DatabaseKey(scope, id)])
      ensures r.Err? || r.value == None ==> open == old(open)
      ensures Seen() == if old(catalog.View(scope)).Err? then old(Seen())
                        else RuntimeCalls.SelectedOpened(old(Seen()), DatabaseKey(scope, id), engine.Some?)
    {
      var key := DatabaseKey(scope, id);
      var registered := Register(key);
      if registered.Err? { return Err(registered.error); }
      if !registered.value { return Ok(None); }
      if key in open {
        assert open == old(open)[key := open[key]];
        SeenIs(RuntimeCalls.SelectedOpened(old(Seen()), key, engine.Some?));
        return Ok(Some(open[key]));
      }
      if engine == None { return Err(EngineError); }
      open := open[key := engine.value];
      SeenIs(RuntimeCalls.SelectedOpened(old(Seen()), key, engine.Some?));
      return Ok(Some(engine.value));
    }

    method OpenKvSelected(scope: Namespace, id: Uuid, engine: Option<Handle>)
      returns (r: Result<Option<Handle>, RuntimeError>)
      requires Valid()
      modifies this, catalog
      ensures Valid() && OnlyConcerns(DatabaseKey(scope, id)) && open == old(open)
      ensures old(catalog.View(scope)).Ok? ==> catalog.View(scope) == Ok(Registered(old(catalog.View(scope)).value, id))
      ensures old(catalog.View(scope)).Err? ==> r.Err?
      ensures r.Ok? ==> (r.value == None <==> Tombstoned(old(catalog.View(scope)).value, id))
      ensures r.Ok? && r.value.Some? ==> IsLive(DatabaseKey(scope, id))
      ensures r.Ok? && r.value.Some? ==> kvOpen == old(kvOpen)[DatabaseKey(scope, id) := r.value.value]
      ensures r.Ok? && DatabaseKey(scope, id) in old(kvOpen) ==> r.value == Some(old(kvOpen)[DatabaseKey(scope, id)])
      ensures r.Err? || r.value == None ==> kvOpen == old(kvOpen)
      ensures Seen() == if old(catalog.View(scope)).Err? then old(Seen())
                        else RuntimeCalls.KvOpened(old(Seen()), DatabaseKey(scope, id), engine.Some?)
    {
      var key := DatabaseKey(scope, id);
      var registered := Register(key);
      if registered.Err? { return Err(registered.error); }
      if !registered.value { return Ok(None); }
      if key in kvOpen {
        assert kvOpen == old(kvOpen)[key := kvOpen[key]];
        SeenIs(RuntimeCalls.KvOpened(old(Seen()), key, engine.Some?));
        return Ok(Some(kvOpen[key]));
      }
      if engine == None { return Err(EngineError); }
      kvOpen := kvOpen[key := engine.value];
      SeenIs(RuntimeCalls.KvOpened(old(Seen()), key, engine.Some?));
      return Ok(Some(engine.value));
    }

    /** Opens a database only if the catalog already lists it as live. */
    method Open(scope: Namespace, id: Uuid, engine: Option<Handle>) returns (r: Result<Option<Handle>, RuntimeError>)
      requires Valid()
      modifies this
      ensures Valid() && kvOpen == old(kvOpen)
      ensures catalog.View(scope).Err? ==> r.Err?
      ensures r.Ok? ==> (r.value.Some? <==> IsLive(DatabaseKey(scope, id)))
      ensures r.Ok? && r.value.Some? ==> open == old(open)[DatabaseKey(scope, id) := r.value.value]
      ensures r.Ok? && DatabaseKey(scope, id) in old(open) ==> r.value == Some(old(open)[DatabaseKey(scope, id)])
      ensures r.Err? || r.value == None ==> open == old(open)
      ensures Seen() == if catalog.View(scope).Err? then old(Seen())
                        else RuntimeCalls.Opened(old(Seen()), DatabaseKey(scope, id), engine.Some?)
    {
      var key := DatabaseKey(scope, id);
      var found := catalog.Get(scope, id);
      if found.Err? { return Err(CatalogError(found.error)); }
      if found.value == None {
        assert !IsLive(key);
        return Ok(None);
      }
      if key in open {
        assert open == old(open)[key := open[key]];
        SeenIs(RuntimeCalls.Opened(old(Seen()), key, engine.Some?));
        return Ok(Some(open[key]));
      }
      if engine == None { return Err(EngineError); }
      open := open[key := engine.value];
      SeenIs(RuntimeCalls.Opened(old(Seen()), key, engine.Some?));
      return Ok(Some(engine.value));
    }
  }
}
