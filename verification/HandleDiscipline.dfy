/** `DatabaseRuntime` as the synchronization protocol uses it: a thread asks for a database's
    key-value store only right after it got the database's own handle. Then no interleaving
    leaves a stale handle, not even when engines fail to open after creation. */
module HandleDiscipline {
  import opened Text
  import opened RuntimeInterleavings

  predicate Disciplined(s: State, a: Action) {
    a.Start? && a.op.OpenKvSelected? ==> At(s, a.t) == Idle(Some(Handle(a.op.key)))
  }

  predicate IsDisciplinedRun(faulty: set<Key>, run: seq<Action>) {
    run == [] ||
    (IsDisciplinedRun(faulty, run[..|run| - 1]) && Enabled(faulty, After(run[..|run| - 1]), run[|run| - 1]) &&
     Disciplined(After(run[..|run| - 1]), run[|run| - 1]))
  }

  // ---------------------------------------------------------------- who knows a key

  /** The thread has, or is about to use, a handle of k. */
  predicate Knows(pc: Pc, k: Key) {
    pc in {Idle(Some(Handle(k))), Leaving(Handle(k)), WantKv(k), KvHeld(k), KvCatalog(k), KvReady(k)}
  }

  /** The thread is between the catalog write of a creation and its end. */
  predicate Creates(pc: Pc, k: Key) {
    pc in {OpenReady(Create, k), RollbackWant(k), RollbackCatalog(k)}
  }

  /** A key that a thread knows has a record and is not still being created. */
  predicate KnowledgeFacts(s: State, t: Thread, k: Key) {
    Knows(At(s, t), k) ==> k in s.catalog && (s.openLock.Some? ==> !Creates(At(s, s.openLock.value), k))
  }

  /** No key-value store is open for a database that is still being created. */
  predicate CreationFacts(s: State, t: Thread, k: Key) {
    Creates(At(s, t), k) ==> k !in s.kv
  }

  ghost predicate DisciplineInv(s: State, faulty: set<Key>) {
    && Inv(s, faulty)
    && (forall k: Key :: KvFacts(s, k))
    && (forall t: Thread, k: Key :: KnowledgeFacts(s, t, k))
    && (forall t: Thread, k: Key :: CreationFacts(s, t, k))
  }

  lemma StartKeepsKnowledge(s: State, faulty: set<Key>, t: Thread, op: Op, u: Thread, k: Key)
    requires DisciplineInv(s, faulty) && Enabled(faulty, s, Start(t, op)) && Disciplined(s, Start(t, op))
    ensures KnowledgeFacts(Apply(s, Start(t, op)), u, k) && CreationFacts(Apply(s, Start(t, op)), u, k)
    ensures KvFacts(Apply(s, Start(t, op)), k)
  {
    assert KnowledgeFacts(s, u, k) && KnowledgeFacts(s, t, k) && CreationFacts(s, u, k) && KvFacts(s, k);
    assert LockFacts(s, t);
    if s.openLock.Some? { assert LockFacts(s, s.openLock.value); }
  }

  lemma AcquireKeepsKnowledge(s: State, faulty: set<Key>, t: Thread, u: Thread, k: Key)
    requires DisciplineInv(s, faulty) && Enabled(faulty, s, Acquire(t))
    ensures KnowledgeFacts(Apply(s, Acquire(t)), u, k)
  {
    assert KnowledgeFacts(s, u, k) && KnowledgeFacts(s, t, k) && CreationFacts(s, t, k);
    assert LockFacts(s, t) && LockFacts(s, u);
    if s.openLock.Some? { assert LockFacts(s, s.openLock.value); }
  }

  lemma AcquireKeepsCreation(s: State, faulty: set<Key>, t: Thread, u: Thread, k: Key)
    requires DisciplineInv(s, faulty) && Enabled(faulty, s, Acquire(t))
    ensures CreationFacts(Apply(s, Acquire(t)), u, k) && KvFacts(Apply(s, Acquire(t)), k)
  {
    assert CreationFacts(s, u, k) && CreationFacts(s, t, k) && KvFacts(s, k);
    assert LockFacts(s, t) && LockFacts(s, u);
    if s.openLock.Some? { assert LockFacts(s, s.openLock.value); }
    if s.kvLock.Some? { assert LockFacts(s, s.kvLock.value); }
  }

  lemma RunKeepsKnowledge(s: State, faulty: set<Key>, t: Thread, minted: Key, ok: bool, u: Thread, k: Key)
    requires DisciplineInv(s, faulty) && Enabled(faulty, s, Run(t, minted, ok))
    ensures KnowledgeFacts(Apply(s, Run(t, minted, ok)), u, k)
  {
    assert KnowledgeFacts(s, u, k) && KnowledgeFacts(s, t, k);
    assert LockFacts(s, t) && LockFacts(s, u) && PcFacts(s, faulty, At(s, t));
    if s.openLock.Some? { assert LockFacts(s, s.openLock.value); }
  }

  lemma RunKeepsCreation(s: State, faulty: set<Key>, t: Thread, minted: Key, ok: bool, u: Thread, k: Key)
    requires DisciplineInv(s, faulty) && Enabled(faulty, s, Run(t, minted, ok))
    ensures CreationFacts(Apply(s, Run(t, minted, ok)), u, k)
  {
    assert KnowledgeFacts(s, t, k) && CreationFacts(s, u, k) && CreationFacts(s, t, k) && CacheFacts(s, faulty, k);
    assert LockFacts(s, t) && LockFacts(s, u);
  }

  /** When a creation is rolled back, nobody has or is about to have its key-value store. */
  lemma RunKeepsKv(s: State, faulty: set<Key>, t: Thread, minted: Key, ok: bool, k: Key)
    requires DisciplineInv(s, faulty) && Enabled(faulty, s, Run(t, minted, ok))
    ensures KvFacts(Apply(s, Run(t, minted, ok)), k)
  {
    assert KvFacts(s, k) && CreationFacts(s, t, k) && LockFacts(s, t);
    if s.kvLock.Some? { assert KnowledgeFacts(s, s.kvLock.value, k); }
    RunKeepsKvFacts(s, faulty, t, minted, ok, k);
  }

  lemma StepKeepsDiscipline(s: State, faulty: set<Key>, a: Action)
    requires DisciplineInv(s, faulty) && Enabled(faulty, s, a) && Disciplined(s, a)
    ensures DisciplineInv(Apply(s, a), faulty)
  {
    var s' := Apply(s, a);
    match a
    case Start(t, op) =>
      StartKeepsInv(s, faulty, t, op);
      forall u: Thread, k: Key ensures KnowledgeFacts(s', u, k) && CreationFacts(s', u, k) {
        StartKeepsKnowledge(s, faulty, t, op, u, k);
      }
      forall k: Key ensures KvFacts(s', k) { StartKeepsKnowledge(s, faulty, t, op, t, k); }
    case Acquire(t) =>
      AcquireKeepsInv(s, faulty, t);
      forall u: Thread, k: Key ensures KnowledgeFacts(s', u, k) && CreationFacts(s', u, k) {
        AcquireKeepsKnowledge(s, faulty, t, u, k);
        AcquireKeepsCreation(s, faulty, t, u, k);
      }
      forall k: Key ensures KvFacts(s', k) { AcquireKeepsCreation(s, faulty, t, t, k); }
    case Run(t, minted, ok) =>
      RunKeepsInv(s, faulty, t, minted, ok);
      forall u: Thread, k: Key ensures KnowledgeFacts(s', u, k) && CreationFacts(s', u, k) {
        RunKeepsKnowledge(s, faulty, t, minted, ok, u, k);
        RunKeepsCreation(s, faulty, t, minted, ok, u, k);
      }
      forall k: Key ensures KvFacts(s', k) { RunKeepsKv(s, faulty, t, minted, ok, k); }
  }

  lemma {:induction false} DisciplinedRunsKeepInv(faulty: set<Key>, run: seq<Action>)
    requires IsDisciplinedRun(faulty, run)
    ensures DisciplineInv(After(run), faulty) && IsRun(faulty, run)
  {
    if run != [] {
      DisciplinedRunsKeepInv(faulty, run[..|run| - 1]);
      StepKeepsDiscipline(After(run[..|run| - 1]), faulty, run[|run| - 1]);
    }
  }

  /** In every interleaving in which key-value stores are asked for only with a handle in hand,
      every database, also one whose engine fails to open after creation, is cached while
      tombstoned only during its own eviction. */
  lemma NoStaleHandleEver(faulty: set<Key>, run: seq<Action>, k: Key)
    requires IsDisciplinedRun(faulty, run)
    ensures NoStaleHandle(After(run), k)
  {
    DisciplinedRunsKeepInv(faulty, run);
    var s := After(run);
    assert KvFacts(s, k) && CacheFacts(s, faulty, k);
  }

  /** Then every call that returns from deleting, importing or finding k's tombstone leaves k in
      neither cache, for good. */
  lemma DeletedStaysGoneEver(faulty: set<Key>, run: seq<Action>, more: seq<Action>, k: Key)
    requires run != [] && IsDisciplinedRun(faulty, run) && IsRun(faulty, run + more)
    requires var s := After(run[..|run| - 1]);
             ReturnsDeletion(s, run[|run| - 1], k) || ReturnsNothingToDelete(s, run[|run| - 1], k)
    ensures Gone(After(run + more), k)
  {
    var s, a := After(run[..|run| - 1]), run[|run| - 1];
    DisciplinedRunsKeepInv(faulty, run[..|run| - 1]);
    assert PcFacts(s, faulty, At(s, a.t)) && KvFacts(s, k);
    if !ReturnsDeletion(s, a, k) { NothingToDelete(faulty, s, a.t, k); }
    GoneIsStable(s, faulty, a, k);
    GoneForGood(faulty, run, more, k);
  }
}
