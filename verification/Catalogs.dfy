/** The catalog of databases: one record file per namespace, holding live and deleted
    (tombstoned) records. */
module Catalogs {
  import opened Text
  import opened Identifiers
  import opened StoragePaths

  datatype DatabaseResource = DatabaseResource(id: Uuid, name: Option<string>)

  datatype CatalogRecord = CatalogRecord(resource: DatabaseResource, deleted: bool)

  type Records = map<Uuid, CatalogRecord>

  predicate Tombstoned(r: Records, id: Uuid) {
    id in r && r[id].deleted
  }

  predicate Live(r: Records, id: Uuid) {
    id in r && !r[id].deleted
  }

  function Tombstones(r: Records): set<Uuid> {
    set id | id in r && r[id].deleted
  }

  // What each catalog operation makes of the records of its namespace.

  function Created(r: Records, resource: DatabaseResource): Records {
    r[resource.id := CatalogRecord(resource, false)]
  }

  function Registered(r: Records, id: Uuid): Records {
    if id in r then r else r[id := CatalogRecord(DatabaseResource(id, None), false)]
  }

  function Deleted(r: Records, id: Uuid): Records {
    if Live(r, id) then r[id := r[id].(deleted := true)] else r
  }

  function TombstoneApplied(r: Records, id: Uuid): Records {
    if id in r then r[id := r[id].(deleted := true)]
    else r[id := CatalogRecord(DatabaseResource(id, None), true)]
  }

  /** The two catalogs agree on every record but possibly that of `id`. */
  ghost predicate SameExceptAt(r: Records, r': Records, id: Uuid) {
    forall other: Uuid :: other != id ==>
      (other in r <==> other in r') && (other in r && other in r' ==> r[other] == r'[other])
  }

  /** Every operation changes at most the record of its own id. */
  lemma EffectsAreLocal(r: Records, resource: DatabaseResource)
    ensures SameExceptAt(r, Created(r, resource), resource.id)
    ensures SameExceptAt(r, Registered(r, resource.id), resource.id)
    ensures SameExceptAt(r, Deleted(r, resource.id), resource.id)
    ensures SameExceptAt(r, TombstoneApplied(r, resource.id), resource.id)
  {
  }

  /** Registering a selected id never touches a tombstone and leaves the id live exactly
      when it was not one; deleting and importing add exactly the one tombstone; a deletion
      of an unknown id adds none, an import does. */
  lemma CatalogEffects(r: Records, id: Uuid)
    ensures Tombstones(Registered(r, id)) == Tombstones(r)
    ensures Live(Registered(r, id), id) <==> id !in Tombstones(r)
    ensures Tombstones(Deleted(r, id)) == Tombstones(r) + (if Live(r, id) then {id} else {})
    ensures Tombstones(TombstoneApplied(r, id)) == Tombstones(r) + {id}
    ensures forall other :: other != id ==> (Live(Deleted(r, id), other) <==> Live(r, other))
    ensures forall other :: other != id ==> (Live(TombstoneApplied(r, id), other) <==> Live(r, other))
  {
  }

  /** Creation is the one operation that can revive a tombstone, and only that of its own
      id: a creation keeps every tombstone exactly when its id is not one of them. */
  lemma CreateKeepsTombstonesIff(r: Records, resource: DatabaseResource)
    ensures Tombstones(r) <= Tombstones(Created(r, resource)) <==> resource.id !in Tombstones(r)
  {
    var after := Tombstones(Created(r, resource));
    assert after == Tombstones(r) - {resource.id};
  }

  datatype Stored = Stored(records: Records) | Unreadable

  datatype IoError = InvalidNamespace | InvalidData

  /** The catalog on disk. `disk` maps paths to file contents; a write replaces a whole
      file at once. */
  class DatabaseCatalog {
    /** `catalog_path` under the root of this catalog. */
    const pathOf: Namespace -> Option<string>
    var disk: map<string, Stored>

    constructor (root: string, disk: map<string, Stored>)
      ensures Valid() && this.disk == disk
      ensures forall ns: Namespace :: pathOf(ns) == CatalogPath(root, ns)
    {
      this.pathOf := ns => CatalogPath(root, ns);
      this.disk := disk;
      new;
      forall a: Namespace, b: Namespace | pathOf(a).Some? && pathOf(a) == pathOf(b) ensures a == b {
        FilePathInjective(root, a, CatalogFile, b, CatalogFile);
      }
    }

    /** No two namespaces share a catalog file. */
    ghost predicate Valid() {
      forall a: Namespace, b: Namespace :: pathOf(a).Some? && pathOf(a) == pathOf(b) ==> a == b
    }

    /** `read_catalog`: a missing file is an empty catalog. */
    function ReadCatalog(path: string): Result<Records, IoError>
      reads this
    {
      if path !in disk then Ok(map[])
      else match disk[path]
        case Stored(records) => Ok(records)
        case Unreadable => Err(InvalidData)
    }

    /** The records an operation on `scope` works with. */
    function View(scope: Namespace): Result<Records, IoError>
      reads this
    {
      match pathOf(scope)
      case None => Err(InvalidNamespace)
      case Some(path) => ReadCatalog(path)
    }

    /** A namespace other than `scope` sees the catalog it saw before. */
    twostate predicate OthersUntouched(scope: Namespace)
      reads this
    {
      forall ns: Namespace :: ns != scope ==> View(ns) == old(View(ns))
    }

    method WriteCatalog(scope: Namespace, path: string, records: Records)
      requires Valid() && pathOf(scope) == Some(path)
      modifies this`disk
      ensures View(scope) == Ok(records)
      ensures OthersUntouched(scope)
    {
      disk := disk[path := Stored(records)];
    }

    /** `id` is the freshly generated identifier. */
    method Create(scope: Namespace, name: Option<string>, id: Uuid) returns (r: Result<DatabaseResource, IoError>)
      requires Valid()
      modifies this`disk
      ensures r.Err? <==> old(View(scope)).Err?
      ensures r.Err? ==> disk == old(disk) && r.error == old(View(scope)).error
      ensures r.Ok? ==> r.value == DatabaseResource(id, name)
      ensures r.Ok? ==> View(scope) == Ok(Created(old(View(scope)).value, r.value))
      ensures OthersUntouched(scope)
    {
      var path := pathOf(scope);
      if path == None { return Err(InvalidNamespace); }
      var catalog := ReadCatalog(path.value);
      if catalog.Err? { return Err(catalog.error); }
      var resource := DatabaseResource(id, name);
      WriteCatalog(scope, path.value, catalog.value[id := CatalogRecord(resource, false)]);
      return Ok(resource);
    }

    /** The live resources of a namespace, by id. */
    method List(scope: Namespace) returns (r: Result<map<Uuid, DatabaseResource>, IoError>)
      ensures r.Err? <==> View(scope).Err?
      ensures r.Ok? ==> forall id :: id in r.value <==> Live(View(scope).value, id)
      ensures r.Ok? ==>
        forall id :: id in r.value ==> Live(View(scope).value, id) && r.value[id] == View(scope).value[id].resource
    {
      var catalog := View(scope);
      if catalog.Err? { return Err(catalog.error); }
      return Ok(map id | id in catalog.value && !catalog.value[id].deleted :: catalog.value[id].resource);
    }

    method RegisterSelected(scope: Namespace, id: Uuid) returns (r: Result<bool, IoError>)
      requires Valid()
      modifies this`disk
      ensures r.Err? <==> old(View(scope)).Err?
      ensures r.Err? ==> disk == old(disk) && r.error == old(View(scope)).error
      ensures r.Ok? ==> View(scope) == Ok(Registered(old(View(scope)).value, id))
      ensures r.Ok? ==> r.value == !Tombstoned(old(View(scope)).value, id)
      ensures OthersUntouched(scope)
    {
      var path := pathOf(scope);
      if path == None { return Err(InvalidNamespace); }
      var catalog := ReadCatalog(path.value);
      if catalog.Err? { return Err(catalog.error); }
      if id in catalog.value { return Ok(!catalog.value[id].deleted); }
      WriteCatalog(scope, path.value, catalog.value[id := CatalogRecord(DatabaseResource(id, None), false)]);
      return Ok(true);
    }

    method Get(scope: Namespace, id: Uuid) returns (r: Result<Option<DatabaseResource>, IoError>)
      ensures r.Err? <==> View(scope).Err?
      ensures r.Ok? ==> (r.value.Some? <==> Live(View(scope).value, id))
      ensures r.Ok? && r.value.Some? ==> r.value.value == View(scope).value[id].resource
    {
      var catalog := View(scope);
      if catalog.Err? { return Err(catalog.error); }
      if id in catalog.value && !catalog.value[id].deleted { return Ok(Some(catalog.value[id].resource)); }
      return Ok(None);
    }

    method Delete(scope: Namespace, id: Uuid) returns (r: Result<bool, IoError>)
      requires Valid()
      modifies this`disk
      ensures r.Err? <==> old(View(scope)).Err?
      ensures r.Err? ==> disk == old(disk) && r.error == old(View(scope)).error
      ensures r.Ok? ==> View(scope) == Ok(Deleted(old(View(scope)).value, id))
      ensures r.Ok? ==> r.value == Live(old(View(scope)).value, id)
      ensures OthersUntouched(scope)
    {
      var path := pathOf(scope);
      if path == None { return Err(InvalidNamespace); }
      var catalog := ReadCatalog(path.value);
      if catalog.Err? { return Err(catalog.error); }
      if id !in catalog.value || catalog.value[id].deleted { return Ok(false); }
      WriteCatalog(scope, path.value, catalog.value[id := catalog.value[id].(deleted := true)]);
      return Ok(true);
    }

    method ApplyTombstone(scope: Namespace, id: Uuid) returns (r: Result<(), IoError>)
      requires Valid()
      modifies this`disk
      ensures r.Err? <==> old(View(scope)).Err?
      ensures r.Err? ==> disk == old(disk) && r.error == old(View(scope)).error
      ensures r.Ok? ==> View(scope) == Ok(TombstoneApplied(old(View(scope)).value, id))
      ensures OthersUntouched(scope)
    {
      var path := pathOf(scope);
      if path == None { return Err(InvalidNamespace); }
      var catalog := ReadCatalog(path.value);
      if catalog.Err? { return Err(catalog.error); }
      if id in catalog.value && catalog.value[id].deleted {
        assert TombstoneApplied(catalog.value, id) == catalog.value;
        return Ok(());
      }
      var record := if id in catalog.value then catalog.value[id] else CatalogRecord(DatabaseResource(id, None), true);
      WriteCatalog(scope, path.value, catalog.value[id := record.(deleted := true)]);
      return Ok(());
    }

    method IsTombstoned(scope: Namespace, id: Uuid) returns (r: Result<bool, IoError>)
      ensures r.Err? <==> View(scope).Err?
      ensures r.Ok? ==> r.value == Tombstoned(View(scope).value, id)
    {
      var catalog := View(scope);
      if catalog.Err? { return Err(catalog.error); }
      return Ok(id in catalog.value && catalog.value[id].deleted);
    }
  }
}
