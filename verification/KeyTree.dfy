/** The key table: keys form trees per entity; each key has a sibling index and a printed
    derivation path. */
module KeyTree {
  import opened Text

  type Id = nat

  const MAX_INDEX := 0xFFFF_FFFF

  /** Sibling indices are 32-bit. */
  type Index = n: nat | n <= MAX_INDEX

  datatype EntityType = User | Client

  datatype Entity = Entity(entityType: EntityType, id: Id)

  datatype Key = Key(
    id: Id,
    parent: Option<Id>,
    entity: Entity,
    path: string,
    index: Index,
    hardened: bool,
    revokedAt: Option<int>,
    expiresAt: Option<int>,
    createdAt: int)

  type Table = map<Id, Key>

  predicate Active(k: Key, now: int) {
    && (k.revokedAt.Some? ==> k.revokedAt.value > now)
    && (k.expiresAt.Some? ==> k.expiresAt.value > now)
  }

  /** When the key ceases to be active: on revocation and on expiry. */
  function Ends(k: Key): set<int> {
    (if k.revokedAt.Some? then {k.revokedAt.value} else {}) + (if k.expiresAt.Some? then {k.expiresAt.value} else {})
  }

  /** A key is active until it ends. */
  lemma ActiveIff(k: Key, now: int)
    ensures Active(k, now) <==> forall end :: end in Ends(k) ==> now < end
  {
    assert k.revokedAt.Some? ==> k.revokedAt.value in Ends(k);
    assert k.expiresAt.Some? ==> k.expiresAt.value in Ends(k);
  }

  predicate Found(keys: Table, id: Id, now: int) {
    id in keys && Active(keys[id], now)
  }

  // ---------------------------------------------------------------- derivation paths

  function Segment(index: nat, hardened: bool): (s: string)
    ensures Free(s, '/')
  {
    Decimal(index) + (if hardened then "'" else "")
  }

  /** `Key::build_derivation_path`. */
  function DerivationPath(parent: Option<string>, index: nat, hardened: bool): string {
    (if parent.Some? then parent.value else "m") + "/" + Segment(index, hardened)
  }

  /** The same, pushed together step by step. */
  method BuildDerivationPath(parent: Option<string>, index: nat, hardened: bool) returns (path: string)
    ensures path == DerivationPath(parent, index, hardened)
  {
    path := "";
    if parent.Some? {
      path := path + parent.value;
    } else {
      path := path + "m";
    }
    if hardened {
      path := path + ("/" + Decimal(index) + "'");
    } else {
      path := path + ("/" + Decimal(index));
    }
  }

  lemma SegmentInjective(i: nat, h: bool, j: nat, g: bool)
    requires Segment(i, h) == Segment(j, g)
    ensures i == j && h == g
  {
    var a, b := Segment(i, h), Segment(j, g);
    assert h <==> a[|a| - 1] == '\'';
    assert g <==> b[|b| - 1] == '\'';
    assert Decimal(i) == if h then a[..|a| - 1] else a;
    assert Decimal(j) == if g then b[..|b| - 1] else b;
    DecimalInjective(i, j);
  }

  lemma DerivationPathInjective(p: Option<string>, i: nat, h: bool, q: Option<string>, j: nat, g: bool)
    requires DerivationPath(p, i, h) == DerivationPath(q, j, g)
    ensures i == j && h == g
    ensures (if p.Some? then p.value else "m") == (if q.Some? then q.value else "m")
  {
    LastCutUnique(if p.Some? then p.value else "m", if q.Some? then q.value else "m",
                  Segment(i, h), Segment(j, g), '/');
    SegmentInjective(i, h, j, g);
  }

  // ---------------------------------------------------------------- the table

  /** The index a new child of `parent` gets: one more than the largest sibling index. */
  predicate IsNextIndex(keys: Table, parent: Option<Id>, index: nat) {
    if index == 0 then forall k :: k in keys ==> keys[k].parent != parent
    else
      && (exists k :: k in keys && keys[k].parent == parent && keys[k].index == index - 1)
      && (forall k :: k in keys && keys[k].parent == parent ==> keys[k].index < index)
  }

  datatype CreateRequest = CreateRequest(parent: Option<Id>, entity: Entity, hardened: bool, expiresAt: Option<int>)

  function NewKey(keys: Table, request: CreateRequest, id: Id, index: Index, now: int): Key
    requires request.parent.Some? ==> request.parent.value in keys
  {
    var parentPath := if request.parent.Some? then Some(keys[request.parent.value].path) else None;
    Key(id, request.parent, request.entity, DerivationPath(parentPath, index, request.hardened), index,
        request.hardened, None, request.expiresAt, now)
  }

  function WithoutEntity(keys: Table, entity: Entity): Table {
    map k | k in keys && keys[k].entity != entity :: keys[k]
  }

  datatype RepoError = ParentNotFound | IndexExhausted

  class KeyRepo {
    var keys: Table

    constructor ()
      ensures keys == map[]
    {
      keys := map[];
    }

    /** `find_by_id`. */
    method FindById(id: Id, now: int) returns (key: Option<Key>)
      ensures key == if Found(keys, id, now) then Some(keys[id]) else None
      ensures key.Some? <==> id in keys && forall end :: end in Ends(keys[id]) ==> now < end
    {
      if id in keys { ActiveIff(keys[id], now); }
      key := if id in keys && Active(keys[id], now) then Some(keys[id]) else None;
    }

    /** The largest index among the children of `parent`. */
    method LargestSiblingIndex(parent: Option<Id>) returns (largest: Option<Index>)
      ensures IsNextIndex(keys, parent, if largest.Some? then largest.value + 1 else 0)
    {
      largest := None;
      var rest := keys.Keys;
      while rest != {}
        invariant rest <= keys.Keys
        invariant largest == None ==> forall k :: k in keys && k !in rest ==> keys[k].parent != parent
        invariant largest.Some? ==>
          && (exists k :: k in keys && keys[k].parent == parent && keys[k].index == largest.value)
          && (forall k :: k in keys && k !in rest && keys[k].parent == parent ==> keys[k].index <= largest.value)
        decreases rest
      {
        var k :| k in rest;
        if keys[k].parent == parent && (largest == None || largest.value < keys[k].index) {
          largest := Some(keys[k].index);
        }
        rest := rest - {k};
      }
    }

    /** `create_key`; `id` is the freshly generated identifier. */
    method CreateKey(request: CreateRequest, id: Id, now: int) returns (r: Result<Key, RepoError>)
      modifies this
      ensures r.Err? ==> keys == old(keys)
      ensures r == Err(ParentNotFound) <==> request.parent.Some? && !Found(old(keys), request.parent.value, now)
      ensures r == Err(IndexExhausted) ==> IsNextIndex(old(keys), request.parent, MAX_INDEX + 1)
      ensures r.Ok? ==> IsNextIndex(old(keys), request.parent, r.value.index)
      ensures r.Ok? ==> r.value == NewKey(old(keys), request, id, r.value.index, now)
      ensures r.Ok? ==> keys == old(keys)[id := r.value]
    {
      var parentPath: Option<string> := None;
      if request.parent.Some? {
        var parent := FindById(request.parent.value, now);
        if parent == None { return Err(ParentNotFound); }
        parentPath := Some(parent.value.path);
      }
      var largest := LargestSiblingIndex(request.parent);
      var index := 0;
      if largest.Some? {
        if largest.value == MAX_INDEX { return Err(IndexExhausted); }
        index := largest.value + 1;
      }
      var path := BuildDerivationPath(parentPath, index, request.hardened);
      var key := Key(id, request.parent, request.entity, path, index, request.hardened, None, request.expiresAt, now);
      keys := keys[id := key];
      return Ok(key);
    }

    /** `delete_by_entity_type_and_id`: takes whole trees out of a forest whose trees belong to
        one entity each. */
    method DeleteByEntity(entity: Entity)
      modifies this
      ensures keys == WithoutEntity(old(keys), entity)
      ensures old(Forest(keys) && SameEntity(keys)) ==> Forest(keys) && SameEntity(keys) && DistinctPaths(keys)
    {
      if Forest(keys) && SameEntity(keys) {
        DeleteKeepsForest(keys, entity);
        ForestHasDistinctPaths(WithoutEntity(keys, entity));
      }
      keys := map k | k in keys && keys[k].entity != entity :: keys[k];
    }

    /** `find_active_entity_root_key`: a newest active root key of the entity. */
    method FindActiveEntityRootKey(entity: Entity, now: int) returns (key: Option<Key>)
      ensures key == None ==> forall k :: k in keys ==> !IsActiveRoot(keys[k], entity, now)
      ensures key.Some? ==> exists k :: k in keys && keys[k] == key.value
      ensures key.Some? ==> IsActiveRoot(key.value, entity, now)
      ensures key.Some? ==>
        forall k :: k in keys && IsActiveRoot(keys[k], entity, now) ==> keys[k].createdAt <= key.value.createdAt
    {
      key := None;
      var rest := keys.Keys;
      while rest != {}
        invariant rest <= keys.Keys
        invariant key == None ==> forall k :: k in keys && k !in rest ==> !IsActiveRoot(keys[k], entity, now)
        invariant key.Some? ==> (exists k :: k in keys && keys[k] == key.value) && IsActiveRoot(key.value, entity, now)
        invariant key.Some? ==>
          forall k :: k in keys && k !in rest && IsActiveRoot(keys[k], entity, now) ==>
            keys[k].createdAt <= key.value.createdAt
        decreases rest
      {
        var k :| k in rest;
        if IsActiveRoot(keys[k], entity, now) && (key == None || key.value.createdAt <= keys[k].createdAt) {
          key := Some(keys[k]);
        }
        rest := rest - {k};
      }
    }
  }

  predicate IsActiveRoot(k: Key, entity: Entity, now: int) {
    k.entity == entity && Active(k, now) && k.parent == None
  }

  // ---------------------------------------------------------------- runs

  datatype Step =
    | Create(request: CreateRequest, id: Id, index: Index, now: int)
    | DeleteEntity(entity: Entity)

  /** What the repository checks. Identifiers are fresh. */
  predicate Enabled(keys: Table, step: Step) {
    match step
    case DeleteEntity(_) => true
    case Create(request, id, index, now) =>
      && id !in keys && (forall k :: k in keys ==> keys[k].parent != Some(id))
      && (request.parent.Some? ==> Found(keys, request.parent.value, now))
      && IsNextIndex(keys, request.parent, index)
  }

  /** A child is created for its parent's entity. */
  predicate ForOwnEntity(keys: Table, step: Step) {
    step.Create? && step.request.parent.Some? && step.request.parent.value in keys ==>
      step.request.entity == keys[step.request.parent.value].entity
  }

  function Apply(keys: Table, step: Step): Table {
    match step
    case Create(request, id, index, now) =>
      if request.parent.Some? && request.parent.value !in keys then keys
      else keys[id := NewKey(keys, request, id, index, now)]
    case DeleteEntity(entity) => WithoutEntity(keys, entity)
  }

  predicate IsRun(start: Table, run: seq<Step>) {
    run == [] || (IsRun(start, run[..|run| - 1]) && Enabled(After(start, run[..|run| - 1]), run[|run| - 1]))
  }

  function After(start: Table, run: seq<Step>): Table {
    if run == [] then start else Apply(After(start, run[..|run| - 1]), run[|run| - 1])
  }

  /** A run in which children are created for their parent's entity. */
  predicate IsOwnRun(start: Table, run: seq<Step>) {
    run == [] ||
    (IsOwnRun(start, run[..|run| - 1]) && Enabled(After(start, run[..|run| - 1]), run[|run| - 1]) &&
     ForOwnEntity(After(start, run[..|run| - 1]), run[|run| - 1]))
  }

  // ---------------------------------------------------------------- forests

  /** The key sits under a live parent, and its path extends the parent's; or it is a root. */
  predicate Rooted(keys: Table, k: Key) {
    match k.parent
    case None => k.path == DerivationPath(None, k.index, k.hardened)
    case Some(p) => p in keys && k.path == DerivationPath(Some(keys[p].path), k.index, k.hardened)
  }

  ghost predicate Forest(keys: Table) {
    && (forall k :: k in keys ==> keys[k].id == k && Rooted(keys, keys[k]))
    && (forall a, b :: a in keys && b in keys && a != b && keys[a].parent == keys[b].parent ==>
          keys[a].index != keys[b].index)
  }

  predicate SameEntity(keys: Table) {
    forall k :: k in keys && keys[k].parent.Some? && keys[k].parent.value in keys ==>
      keys[k].entity == keys[keys[k].parent.value].entity
  }

  ghost predicate DistinctPaths(keys: Table) {
    forall a, b :: a in keys && b in keys && a != b ==> keys[a].path != keys[b].path
  }

  /** Creation keeps the forest, whatever the entity. */
  lemma CreateKeepsForest(keys: Table, request: CreateRequest, id: Id, index: Index, now: int)
    requires Forest(keys) && Enabled(keys, Create(request, id, index, now))
    ensures Forest(Apply(keys, Create(request, id, index, now)))
  {
    var key := NewKey(keys, request, id, index, now);
    RootedWhenAdded(keys, request, id, index, now);
    AddedKeepsForest(keys, key);
  }

  lemma RootedWhenAdded(keys: Table, request: CreateRequest, id: Id, index: Index, now: int)
    requires Enabled(keys, Create(request, id, index, now))
    ensures Rooted(keys, NewKey(keys, request, id, index, now))
    ensures forall k :: k in keys && keys[k].parent == request.parent ==> keys[k].index != index
  {
  }

  lemma AddedKeepsForest(keys: Table, key: Key)
    requires Forest(keys) && key.id !in keys && Rooted(keys, key)
    requires forall k :: k in keys ==> keys[k].parent != Some(key.id)
    requires forall k :: k in keys && keys[k].parent == key.parent ==> keys[k].index != key.index
    ensures Forest(keys[key.id := key])
  {
    var more := keys[key.id := key];
    forall k | k in more ensures more[k].id == k && Rooted(more, more[k]) {
      assert k in keys ==> Rooted(keys, keys[k]);
    }
  }

  /** Creation keeps trees to one entity exactly when the child is created for its parent's. */
  lemma CreateKeepsSameEntityIff(keys: Table, step: Step)
    requires SameEntity(keys) && step.Create? && Enabled(keys, step)
    ensures SameEntity(Apply(keys, step)) <==> ForOwnEntity(keys, step)
  {
    var after := Apply(keys, step);
    assert after[step.id].entity == step.request.entity && after[step.id].parent == step.request.parent;
    assert forall k :: k in keys ==> after[k] == keys[k];
  }

  /** Deleting an entity removes whole trees when a tree belongs to one entity. */
  lemma DeleteKeepsForest(keys: Table, entity: Entity)
    requires Forest(keys) && SameEntity(keys)
    ensures Forest(WithoutEntity(keys, entity)) && SameEntity(WithoutEntity(keys, entity))
  {
  }

  /** From a forest whose trees belong to one entity each, every run in which children are
      created for their parent's entity leads to such a forest, also when indices come back
      after a deletion. */
  lemma {:induction false} OwnRunsKeepForest(start: Table, run: seq<Step>)
    requires Forest(start) && SameEntity(start) && IsOwnRun(start, run)
    ensures Forest(After(start, run)) && SameEntity(After(start, run))
  {
    if run != [] {
      OwnRunsKeepForest(start, run[..|run| - 1]);
      var keys, step := After(start, run[..|run| - 1]), run[|run| - 1];
      match step
      case Create(request, id, index, now) =>
        CreateKeepsForest(keys, request, id, index, now);
        CreateKeepsSameEntityIff(keys, step);
      case DeleteEntity(entity) => DeleteKeepsForest(keys, entity);
    }
  }

  /** In a forest no two keys print the same path: equal paths have equal parents, and
      siblings have different indices. */
  lemma {:induction false} ForestPathsDistinct(keys: Table, a: Id, b: Id)
    requires Forest(keys) && a in keys && b in keys && keys[a].path == keys[b].path
    ensures a == b
    decreases |keys[a].path|
  {
    var k, l := keys[a], keys[b];
    var p := if k.parent.Some? then Some(keys[k.parent.value].path) else None;
    var q := if l.parent.Some? then Some(keys[l.parent.value].path) else None;
    DerivationPathInjective(p, k.index, k.hardened, q, l.index, l.hardened);
    if k.parent.Some? { LongPath(keys, k.parent.value); }
    if l.parent.Some? { LongPath(keys, l.parent.value); }
    if k.parent.Some? && l.parent.Some? {
      ForestPathsDistinct(keys, k.parent.value, l.parent.value);
    }
  }

  lemma LongPath(keys: Table, a: Id)
    requires Forest(keys) && a in keys
    ensures |keys[a].path| > 1
  {
    assert |Segment(keys[a].index, keys[a].hardened)| > 0;
  }

  lemma ForestHasDistinctPaths(keys: Table)
    requires Forest(keys)
    ensures DistinctPaths(keys)
  {
    forall a, b | a in keys && b in keys && a != b ensures keys[a].path != keys[b].path {
      if keys[a].path == keys[b].path { ForestPathsDistinct(keys, a, b); }
    }
  }

  // ---------------------------------------------------------------- exactly when

  /** Deleting the entity of a parent whose child belongs to another orphans the child. */
  lemma MixedChildOrphaned(keys: Table) returns (entity: Entity)
    requires !SameEntity(keys)
    ensures !Forest(WithoutEntity(keys, entity))
  {
    var k :| k in keys && keys[k].parent.Some? && keys[k].parent.value in keys &&
      keys[k].entity != keys[keys[k].parent.value].entity;
    entity := keys[keys[k].parent.value].entity;
    var left := WithoutEntity(keys, entity);
    assert k in left && left[k] == keys[k] && keys[k].parent.value !in left;
    assert !Rooted(left, left[k]);
  }

  lemma {:induction false} DeletionRun(keys: Table, entity: Entity) returns (run: seq<Step>)
    ensures IsOwnRun(keys, run) && After(keys, run) == WithoutEntity(keys, entity)
  {
    run := [DeleteEntity(entity)];
    assert run[..0] == [];
    assert IsOwnRun(keys, []) && After(keys, []) == keys;
  }

  /** A table that is a forest stays one, in every continuation that creates children for their
      parent's entity, exactly when every live child shares its parent's entity. */
  lemma {:induction false} ForestForGoodIff(keys: Table)
    requires Forest(keys)
    ensures (forall run :: IsOwnRun(keys, run) ==> Forest(After(keys, run))) <==> SameEntity(keys)
  {
    if SameEntity(keys) {
      forall run | IsOwnRun(keys, run) ensures Forest(After(keys, run)) {
        OwnRunsKeepForest(keys, run);
      }
    } else {
      var entity := MixedChildOrphaned(keys);
      var run := DeletionRun(keys, entity);
    }
  }

  /** A creation is safe, that is, after it the keys form a forest with distinct paths in every
      such continuation, exactly when it is for the parent's entity. */
  lemma CreateIsSafeIff(keys: Table, step: Step)
    requires Forest(keys) && SameEntity(keys) && step.Create? && Enabled(keys, step)
    ensures (forall run :: IsOwnRun(Apply(keys, step), run) ==>
               Forest(After(Apply(keys, step), run)) && DistinctPaths(After(Apply(keys, step), run))) <==>
            ForOwnEntity(keys, step)
  {
    var after := Apply(keys, step);
    CreateKeepsForest(keys, step.request, step.id, step.index, step.now);
    CreateKeepsSameEntityIff(keys, step);
    ForestForGoodIff(after);
    forall run | IsOwnRun(after, run) && Forest(After(after, run)) ensures DistinctPaths(After(after, run)) {
      ForestHasDistinctPaths(After(after, run));
    }
  }

  /** In every run from the empty table in which children are created for their parent's
      entity, the live keys form a forest with distinct paths. */
  lemma OwnRunsHaveDistinctPaths(run: seq<Step>)
    requires IsOwnRun(map[], run)
    ensures Forest(After(map[], run)) && DistinctPaths(After(map[], run))
  {
    OwnRunsKeepForest(map[], run);
    ForestHasDistinctPaths(After(map[], run));
  }

  // ---------------------------------------------------------------- two keys, one path

  lemma Extend(run: seq<Step>, step: Step, keys: Table) returns (longer: seq<Step>)
    requires IsRun(map[], run) && Enabled(After(map[], run), step) && Apply(After(map[], run), step) == keys
    ensures IsRun(map[], longer) && After(map[], longer) == keys
  {
    longer := run + [step];
    assert longer[..|run|] == run;
  }

  /** A key of another entity is created under the root of an entity that is then deleted. */
  lemma Orphan(rootPath: string, orphan: Key) returns (run: seq<Step>)
    requires rootPath == DerivationPath(None, 0, false)
    requires orphan == Key(1, Some(0), Entity(User, 1),
                          DerivationPath(Some(rootPath), 0, false), 0, false, None, None, 0)
    ensures IsRun(map[], run) && After(map[], run) == map[1 := orphan]
  {
    var a := Entity(User, 0);
    var root := CreateRequest(None, a, false, None);
    var child := CreateRequest(Some(0), Entity(User, 1), false, None);
    var k0 := NewKey(map[], root, 0, 0, 0);
    run := Extend([], Create(root, 0, 0, 0), map[0 := k0]);
    run := Extend(run, Create(child, 1, 0, 0), map[0 := k0, 1 := orphan]);
    assert WithoutEntity(map[0 := k0, 1 := orphan], a) == map[1 := orphan];
    run := Extend(run, DeleteEntity(a), map[1 := orphan]);
  }

  /** The next root takes the freed index, and its first child prints the orphan's path. */
  lemma SharedPath() returns (run: seq<Step>)
    ensures IsRun(map[], run) && !DistinctPaths(After(map[], run))
  {
    var rootPath := DerivationPath(None, 0, false);
    var orphan := Key(1, Some(0), Entity(User, 1), DerivationPath(Some(rootPath), 0, false), 0, false, None, None, 0);
    run := Orphan(rootPath, orphan);
    var c := Entity(User, 2);
    var root := Key(2, None, c, rootPath, 0, false, None, None, 0);
    var child := Key(3, Some(2), c, DerivationPath(Some(rootPath), 0, false), 0, false, None, None, 0);
    run := Extend(run, Create(CreateRequest(None, c, false, None), 2, 0, 0), map[1 := orphan, 2 := root]);
    run := Extend(run, Create(CreateRequest(Some(2), c, false, None), 3, 0, 0),
      map[1 := orphan, 2 := root, 3 := child]);
    assert 1 in After(map[], run) && 3 in After(map[], run);
  }
}
