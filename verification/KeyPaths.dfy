/** When two live keys can come to print one derivation path: a key created for another entity
    than its parent's outlives the parent, and the parent's place may be taken again. */
module KeyPaths {
  import opened Text
  import opened KeyTree

  /** The root of the tree the key is in. */
  ghost function RootOf(keys: Table, k: Id): (r: Id)
    requires Forest(keys) && k in keys
    ensures r in keys && keys[r].parent == None
    decreases |keys[k].path|
  {
    if keys[k].parent == None then k else RootOf(keys, keys[k].parent.value)
  }

  lemma {:induction false} RootEntity(keys: Table, k: Id)
    requires Forest(keys) && SameEntity(keys) && k in keys
    ensures keys[RootOf(keys, k)].entity == keys[k].entity
    decreases |keys[k].path|
  {
    if keys[k].parent.Some? { RootEntity(keys, keys[k].parent.value); }
  }

  /** The entity's roots all have smaller indices. */
  predicate RootsBefore(keys: Table, entity: Entity, index: nat) {
    forall k :: k in keys && keys[k].parent == None && keys[k].entity == entity ==> keys[k].index < index
  }

  // ---------------------------------------------------------------- when the place stays taken

  /** A child, its parent of another entity, the root above the parent, and a root of the
      child's entity that comes after that root. */
  datatype Mix = Mix(child: Key, parent: Key, root: Key, later: Key)

  predicate IsMix(m: Mix) {
    && m.child.parent == Some(m.parent.id)
    && m.child.path == DerivationPath(Some(m.parent.path), m.child.index, m.child.hardened)
    && m.parent.entity != m.child.entity && m.root.entity == m.parent.entity && m.root.parent == None
    && m.later.entity == m.child.entity && m.later.parent == None && m.later.index > m.root.index
  }

  predicate Has(keys: Table, k: Key) {
    k.id in keys && keys[k.id] == k
  }

  /** Either the parent is there with its root, or no root has the index of its root. */
  predicate PlaceTaken(keys: Table, m: Mix) {
    if m.parent.id in keys then Has(keys, m.parent) && Has(keys, m.root)
    else forall k :: k in keys && keys[k].parent == None ==> keys[k].index != m.root.index
  }

  predicate SiblingsDiffer(keys: Table) {
    forall a, b :: a in keys && b in keys && a != b && keys[a].parent == keys[b].parent ==>
      keys[a].index != keys[b].index
  }

  /** All but one key sit under a live parent of their own entity. */
  predicate AllBut(keys: Table, child: Id) {
    forall k :: k in keys && k != child ==>
      keys[k].id == k && Rooted(keys, keys[k]) &&
      (keys[k].parent.Some? ==> keys[k].entity == keys[keys[k].parent.value].entity)
  }

  predicate Mixed(keys: Table, m: Mix) {
    && Has(keys, m.child) && Has(keys, m.later) && PlaceTaken(keys, m)
    && AllBut(keys, m.child.id) && SiblingsDiffer(keys)
  }

  ghost predicate Tidy(keys: Table) {
    Forest(keys) && SameEntity(keys)
  }

  lemma CreateKeepsAllBut(keys: Table, step: Step, child: Id)
    requires AllBut(keys, child) && child in keys && step.Create? && Enabled(keys, step) && ForOwnEntity(keys, step)
    ensures AllBut(Apply(keys, step), child)
  {
    var after := Apply(keys, step);
    forall k | k in after && k != child
      ensures after[k].id == k && Rooted(after, after[k])
      ensures after[k].parent.Some? ==> after[k].entity == after[after[k].parent.value].entity
    {
      assert k != step.id ==> keys[k].parent != Some(step.id) && Rooted(keys, keys[k]);
    }
  }

  lemma CreateKeepsSiblings(keys: Table, step: Step)
    requires SiblingsDiffer(keys) && step.Create? && Enabled(keys, step)
    ensures SiblingsDiffer(Apply(keys, step))
  {
    RootedWhenAdded(keys, step.request, step.id, step.index, step.now);
  }

  /** A new root comes after the later one. */
  lemma CreateKeepsPlace(keys: Table, m: Mix, step: Step)
    requires IsMix(m) && Has(keys, m.child) && Has(keys, m.later) && PlaceTaken(keys, m)
    requires step.Create? && Enabled(keys, step)
    ensures PlaceTaken(Apply(keys, step), m)
  {
    var after := Apply(keys, step);
    assert keys[m.child.id].parent == Some(m.parent.id);
    assert step.request.parent == None ==> keys[m.later.id].index < step.index;
    assert forall k :: k in after && k != step.id ==> k in keys && after[k] == keys[k];
  }

  lemma CreateKeepsMixed(keys: Table, m: Mix, step: Step)
    requires IsMix(m) && Mixed(keys, m) && step.Create? && Enabled(keys, step) && ForOwnEntity(keys, step)
    ensures Mixed(Apply(keys, step), m)
  {
    CreateKeepsAllBut(keys, step, m.child.id);
    CreateKeepsSiblings(keys, step);
    CreateKeepsPlace(keys, m, step);
  }

  lemma DeleteKeepsAllBut(keys: Table, child: Id, entity: Entity)
    requires AllBut(keys, child) && child in keys
    ensures AllBut(WithoutEntity(keys, entity), child)
  {
    var left := WithoutEntity(keys, entity);
    forall k | k in left && k != child
      ensures left[k].id == k && Rooted(left, left[k])
      ensures left[k].parent.Some? ==> left[k].entity == left[left[k].parent.value].entity
    {
      assert Rooted(keys, keys[k]);
    }
  }

  /** When the parent goes, so does its root, and no other root has the index. */
  lemma DeleteKeepsPlace(keys: Table, m: Mix, entity: Entity)
    requires IsMix(m) && PlaceTaken(keys, m) && SiblingsDiffer(keys)
    ensures PlaceTaken(WithoutEntity(keys, entity), m)
  {
    var left := WithoutEntity(keys, entity);
    if m.parent.id in keys {
      assert forall k :: k in keys && k != m.root.id && keys[k].parent == None ==> keys[k].index != m.root.index;
    }
  }

  lemma DeleteKeepsSiblings(keys: Table, entity: Entity)
    requires SiblingsDiffer(keys)
    ensures SiblingsDiffer(WithoutEntity(keys, entity))
  {
  }

  lemma DeleteKeepsOther(keys: Table, entity: Entity, k: Key)
    requires Has(keys, k) && k.entity != entity
    ensures Has(WithoutEntity(keys, entity), k)
  {
  }

  lemma DeleteKeepsMixed(keys: Table, m: Mix, entity: Entity)
    requires IsMix(m) && Mixed(keys, m)
    ensures entity != m.child.entity ==> Mixed(WithoutEntity(keys, entity), m)
    ensures entity == m.child.entity ==> Tidy(WithoutEntity(keys, entity))
  {
    DeleteKeepsAllBut(keys, m.child.id, entity);
    if entity == m.child.entity {
      ChildGone(keys, m.child.id, entity);
    } else {
      DeleteKeepsOther(keys, entity, m.child);
      DeleteKeepsOther(keys, entity, m.later);
      DeleteKeepsPlace(keys, m, entity);
      DeleteKeepsSiblings(keys, entity);
    }
  }

  lemma ChildGone(keys: Table, child: Id, entity: Entity)
    requires AllBut(WithoutEntity(keys, entity), child) && SiblingsDiffer(keys)
    requires child in keys && keys[child].entity == entity
    ensures Tidy(WithoutEntity(keys, entity))
  {
    assert child !in WithoutEntity(keys, entity);
  }

  lemma {:induction false} RunKeepsMixed(start: Table, m: Mix, run: seq<Step>)
    requires IsMix(m) && Mixed(start, m) && IsOwnRun(start, run)
    ensures Mixed(After(start, run), m) || Tidy(After(start, run))
  {
    if run != [] {
      RunKeepsMixed(start, m, run[..|run| - 1]);
      var keys, step := After(start, run[..|run| - 1]), run[|run| - 1];
      if Tidy(keys) {
        TidyStep(keys, step);
      } else if step.Create? {
        CreateKeepsMixed(keys, m, step);
      } else {
        DeleteKeepsMixed(keys, m, step.entity);
      }
    }
  }

  lemma TidyStep(keys: Table, step: Step)
    requires Tidy(keys) && Enabled(keys, step) && ForOwnEntity(keys, step)
    ensures Tidy(Apply(keys, step))
  {
    match step
    case Create(request, id, index, now) =>
      CreateKeepsForest(keys, request, id, index, now);
      CreateKeepsSameEntityIff(keys, step);
    case DeleteEntity(entity) => DeleteKeepsForest(keys, entity);
  }

  /** Once the parent is gone, no live key prints the path of the parent or of a key above it. */
  lemma {:induction false} NoTwin(origin: Table, m: Mix, q: Id, keys: Table, x: Id)
    requires Forest(origin) && q in origin && |origin[q].path| <= |m.parent.path|
    requires origin[RootOf(origin, q)].index == m.root.index
    requires IsMix(m) && Mixed(keys, m) && m.parent.id !in keys && x in keys
    ensures keys[x].path != origin[q].path
    decreases |origin[q].path|
  {
    var k, l := keys[x], origin[q];
    if k.path == l.path && x != m.child.id {
      var up := if k.parent.Some? then Some(keys[k.parent.value].path) else None;
      var above := if l.parent.Some? then Some(origin[l.parent.value].path) else None;
      DerivationPathInjective(up, k.index, k.hardened, above, l.index, l.hardened);
      if l.parent.Some? { LongPath(origin, l.parent.value); }
      if k.parent.Some? { LongMixedPath(keys, m, k.parent.value); }
      if k.parent.Some? && l.parent.Some? {
        NoTwin(origin, m, l.parent.value, keys, k.parent.value);
      }
    }
  }

  lemma LongMixedPath(keys: Table, m: Mix, x: Id)
    requires IsMix(m) && Mixed(keys, m) && x in keys
    ensures |keys[x].path| > 1
  {
    assert |Segment(keys[x].index, keys[x].hardened)| > 0;
  }

  /** What a key's path extends. */
  function Above(keys: Table, m: Mix, x: Id): Option<string>
    requires x in keys
  {
    if x == m.child.id then Some(m.parent.path)
    else if keys[x].parent.Some? && keys[x].parent.value in keys then Some(keys[keys[x].parent.value].path)
    else None
  }

  lemma MixedPath(keys: Table, m: Mix, x: Id)
    requires IsMix(m) && Mixed(keys, m) && x in keys
    ensures keys[x].path == DerivationPath(Above(keys, m, x), keys[x].index, keys[x].hardened)
    ensures Above(keys, m, x) != Some("m") || x == m.child.id
  {
    if x != m.child.id && keys[x].parent.Some? { LongMixedPath(keys, m, keys[x].parent.value); }
  }

  lemma {:induction false} MixedPathsDistinct(origin: Table, m: Mix, keys: Table, a: Id, b: Id)
    requires Forest(origin) && Has(origin, m.parent) && origin[RootOf(origin, m.parent.id)].index == m.root.index
    requires IsMix(m) && Mixed(keys, m) && m.parent.id !in keys && a in keys && b in keys
    requires keys[a].path == keys[b].path
    ensures a == b
    decreases |keys[a].path|
  {
    var k, l := keys[a], keys[b];
    MixedPath(keys, m, a);
    MixedPath(keys, m, b);
    LongPath(origin, m.parent.id);
    DerivationPathInjective(Above(keys, m, a), k.index, k.hardened, Above(keys, m, b), l.index, l.hardened);
    if a != m.child.id && k.parent.Some? { NoTwin(origin, m, m.parent.id, keys, k.parent.value); }
    if b != m.child.id && l.parent.Some? { NoTwin(origin, m, m.parent.id, keys, l.parent.value); }
    if a != m.child.id && b != m.child.id && k.parent.Some? && l.parent.Some? {
      MixedPathsDistinct(origin, m, keys, k.parent.value, l.parent.value);
    }
  }

  lemma MixedIsForest(keys: Table, m: Mix)
    requires IsMix(m) && Mixed(keys, m) && m.parent.id in keys
    ensures Forest(keys)
  {
  }

  lemma StaysDistinct(origin: Table, m: Mix, keys: Table)
    requires Forest(origin) && Has(origin, m.parent) && origin[RootOf(origin, m.parent.id)].index == m.root.index
    requires IsMix(m) && (Mixed(keys, m) || Tidy(keys))
    ensures DistinctPaths(keys)
  {
    if Tidy(keys) {
      ForestHasDistinctPaths(keys);
    } else if m.parent.id in keys {
      MixedIsForest(keys, m);
      ForestHasDistinctPaths(keys);
    } else {
      forall a, b | a in keys && b in keys && a != b ensures keys[a].path != keys[b].path {
        if keys[a].path == keys[b].path { MixedPathsDistinct(origin, m, keys, a, b); }
      }
    }
  }

  /** A root of the child's entity after the parent's keeps the parent's place from being taken
      again for as long as the child lives. */
  lemma LaterRootProtects(keys: Table, step: Step, later: Id, run: seq<Step>)
    requires Tidy(keys) && step.Create? && Enabled(keys, step) && !ForOwnEntity(keys, step)
    requires later in keys && keys[later].parent == None && keys[later].entity == step.request.entity
    requires keys[later].index >= keys[RootOf(keys, step.request.parent.value)].index
    requires IsOwnRun(Apply(keys, step), run)
    ensures DistinctPaths(After(Apply(keys, step), run))
  {
    var p := step.request.parent.value;
    var m := Mix(Apply(keys, step)[step.id], keys[p], keys[RootOf(keys, p)], keys[later]);
    RootEntity(keys, p);
    CreateKeepsForest(keys, step.request, step.id, step.index, step.now);
    RunKeepsMixed(Apply(keys, step), m, run);
    StaysDistinct(keys, m, After(Apply(keys, step), run));
  }

  // ---------------------------------------------------------------- when it can be taken again

  predicate Grown(keys: Table, more: Table) {
    forall k :: k in keys ==> k in more && more[k] == keys[k]
  }

  predicate Childless(keys: Table, id: Id) {
    forall k :: k in keys ==> keys[k].parent != Some(id)
  }

  /** A new key that children can be created under. */
  predicate Fresh(before: Table, keys: Table, id: Id, entity: Entity, path: string) {
    && Grown(before, keys)
    && id !in before && id in keys && Childless(keys, id)
    && keys[id].entity == entity && keys[id].path == path && Active(keys[id], 0)
  }

  lemma {:induction false} NumberAbove(used: set<nat>) returns (n: nat)
    ensures forall x :: x in used ==> x < n
    decreases used
  {
    n := 0;
    if used != {} {
      var x :| x in used;
      var rest := NumberAbove(used - {x});
      n := if x < rest then rest else x + 1;
      assert forall y :: y in used ==> y == x || y in used - {x};
    }
  }

  lemma FreshId(keys: Table) returns (id: Id)
    ensures id !in keys && Childless(keys, id)
  {
    var parents := set k | k in keys && keys[k].parent.Some? :: keys[k].parent.value;
    id := NumberAbove(keys.Keys + parents);
    assert forall k :: k in keys && keys[k].parent.Some? ==> keys[k].parent.value in parents;
  }

  lemma {:induction false} ExtendOwn(start: Table, run: seq<Step>, step: Step) returns (longer: seq<Step>)
    requires IsOwnRun(start, run) && Enabled(After(start, run), step) && ForOwnEntity(After(start, run), step)
    ensures IsOwnRun(start, longer) && After(start, longer) == Apply(After(start, run), step)
  {
    longer := run + [step];
    assert longer[..|run|] == run;
  }

  /** Children are created until one gets the index. */
  lemma {:induction false} Fill(start: Table, run: seq<Step>, parent: Option<Id>, entity: Entity, next: nat,
                                index: Index, hardened: bool) returns (longer: seq<Step>, id: Id)
    requires IsOwnRun(start, run) && next <= index && IsNextIndex(After(start, run), parent, next)
    requires parent.Some? ==>
      Found(After(start, run), parent.value, 0) && After(start, run)[parent.value].entity == entity
    ensures IsOwnRun(start, longer)
    ensures var up := if parent.Some? then Some(After(start, run)[parent.value].path) else None;
            Fresh(After(start, run), After(start, longer), id, entity, DerivationPath(up, index, hardened))
    decreases index - next
  {
    var keys := After(start, run);
    id := FreshId(keys);
    var step := Create(CreateRequest(parent, entity, hardened, None), id, next, 0);
    longer := ExtendOwn(start, run, step);
    Placed(keys, step);
    if next < index {
      longer, id := Fill(start, longer, parent, entity, next + 1, index, hardened);
    }
  }

  lemma Placed(keys: Table, step: Step)
    requires step.Create? && Enabled(keys, step) && step.request.expiresAt == None
    ensures var up := if step.request.parent.Some? then Some(keys[step.request.parent.value].path) else None;
            Fresh(keys, Apply(keys, step), step.id, step.request.entity,
                  DerivationPath(up, step.index, step.request.hardened))
    ensures IsNextIndex(Apply(keys, step), step.request.parent, step.index + 1)
  {
    var after := Apply(keys, step);
    assert step.id in after && after[step.id].index == step.index;
    assert forall k :: k in keys ==> after[k] == keys[k];
    assert step.request.parent.Some? ==> step.request.parent != Some(step.id);
  }

  /** A key of another table is built anew, with everything above it. */
  lemma {:induction false} Rebuild(origin: Table, q: Id, start: Table, run: seq<Step>, entity: Entity, next: nat)
    returns (longer: seq<Step>, id: Id)
    requires Forest(origin) && q in origin && IsOwnRun(start, run)
    requires IsNextIndex(After(start, run), None, next) && next <= origin[RootOf(origin, q)].index
    ensures IsOwnRun(start, longer)
    ensures Fresh(After(start, run), After(start, longer), id, entity, origin[q].path)
    decreases |origin[q].path|
  {
    var k := origin[q];
    if k.parent == None {
      longer, id := Fill(start, run, None, entity, next, k.index, k.hardened);
    } else {
      var above;
      longer, above := Rebuild(origin, k.parent.value, start, run, entity, next);
      longer, id := Fill(start, longer, Some(above), entity, 0, k.index, k.hardened);
    }
  }

  /** Every other entity is deleted. */
  lemma {:induction false} KeepOnly(start: Table, run: seq<Step>, entity: Entity) returns (longer: seq<Step>)
    requires IsOwnRun(start, run)
    ensures IsOwnRun(start, longer)
    ensures After(start, longer) == map k | k in After(start, run) && After(start, run)[k].entity == entity ::
              After(start, run)[k]
    decreases After(start, run).Keys
  {
    var keys := After(start, run);
    longer := run;
    if k :| k in keys && keys[k].entity != entity {
      var step := DeleteEntity(keys[k].entity);
      longer := ExtendOwn(start, run, step);
      assert k !in Apply(keys, step) && Apply(keys, step).Keys < keys.Keys;
      longer := KeepOnly(start, longer, entity);
    }
  }

  lemma {:induction false} NextIndexUpTo(keys: Table, parent: Option<Id>, bound: nat) returns (next: nat)
    requires forall k :: k in keys && keys[k].parent == parent ==> keys[k].index < bound
    ensures next <= bound && IsNextIndex(keys, parent, next)
  {
    next := bound;
    if bound > 0 && forall k :: k in keys && keys[k].parent == parent ==> keys[k].index < bound - 1 {
      next := NextIndexUpTo(keys, parent, bound - 1);
    }
  }

  /** Everything but the child's entity is deleted; then the parent is built anew, with a child
      that prints the same path. */
  lemma PlaceTakenAgain(keys: Table, step: Step) returns (run: seq<Step>)
    requires Tidy(keys) && step.Create? && Enabled(keys, step) && !ForOwnEntity(keys, step)
    requires RootsBefore(keys, step.request.entity, keys[RootOf(keys, step.request.parent.value)].index)
    ensures IsOwnRun(Apply(keys, step), run) && !DistinctPaths(After(Apply(keys, step), run))
  {
    var start, p := Apply(keys, step), step.request.parent.value;
    run := KeepOnly(start, [], step.request.entity);
    var left := After(start, run);
    assert step.id in left && left[step.id] == start[step.id];
    var next := NextIndexUpTo(left, None, keys[RootOf(keys, p)].index);
    var above, twin;
    run, above := Rebuild(keys, p, start, run, keys[p].entity, next);
    run, twin := Fill(start, run, Some(above), keys[p].entity, 0, step.index, step.request.hardened);
    assert twin != step.id && After(start, run)[twin].path == After(start, run)[step.id].path;
  }

  /** Exactly when a creation lets two live keys come to print one path, in some continuation
      that creates children for their parent's entity: when it is for another entity than the
      parent's, all of whose roots come before the root of the parent's tree. */
  lemma SharedPathIff(keys: Table, step: Step)
    requires Forest(keys) && SameEntity(keys) && step.Create? && Enabled(keys, step)
    ensures (exists run :: IsOwnRun(Apply(keys, step), run) && !DistinctPaths(After(Apply(keys, step), run))) <==>
            !ForOwnEntity(keys, step) &&
            RootsBefore(keys, step.request.entity, keys[RootOf(keys, step.request.parent.value)].index)
  {
    var after := Apply(keys, step);
    if ForOwnEntity(keys, step) {
      CreateIsSafeIff(keys, step);
    } else {
      var index := keys[RootOf(keys, step.request.parent.value)].index;
      if RootsBefore(keys, step.request.entity, index) {
        var run := PlaceTakenAgain(keys, step);
      } else {
        var later :| later in keys && keys[later].parent == None && keys[later].entity == step.request.entity &&
          keys[later].index >= index;
        forall run | IsOwnRun(after, run) ensures DistinctPaths(After(after, run)) {
          LaterRootProtects(keys, step, later, run);
        }
      }
    }
  }
}
